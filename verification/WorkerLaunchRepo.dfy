/** The launch repository as the program runs it: rows changed in place, each call one transaction. */
module WorkerLaunchRepo {
  import opened Text
  import opened WorkerLaunch

  class Repository {
    var launches: map<int, Launch>
    var pending: map<string, Command>

    /** The two tables together. */
    function Value(): Db
      reads this
    {
      Db(launches, pending)
    }

    constructor ()
      ensures Value() == EMPTY
    {
      launches, pending := map[], map[];
    }

    method CreateLaunch(l: Launch)
      modifies this`launches
      ensures Value() == AfterInsert(old(Value()), l)
    {
      if IsNew(l) && l.id !in launches { launches := launches[l.id := l]; }
    }

    method ClaimConflict(scope: Scope, id: int) returns (e: Error)
      ensures e ==
        if id !in launches || launches[id].organization != scope.organization then NotFound
        else match launches[id].state
          case Materializing => InProgress
          case Dispatched => Consumed
          case Pending => Corrupt
    {
      if id !in launches || launches[id].organization != scope.organization { return NotFound; }
      match launches[id].state {
        case Materializing => e := InProgress;
        case Dispatched => e := Consumed;
        case Pending => e := Corrupt;
      }
    }

    method ClaimWorkerLaunch(scope: Scope, id: int, now: int, duration: int, token: string) returns (result: Result<Claim, Error>)
      modifies this`launches
      ensures result == ClaimResult(old(Value()), scope, id, now, duration, token)
      ensures Value() == AfterClaim(old(Value()), scope, id, now, duration, token)
    {
      hide ClaimOf;
      if !ValidClaimRequest(scope, id, duration, token) { return Err(Invalid); }
      if id in launches && Claimable(launches[id], scope.organization, now) {
        var l := launches[id];
        l := l.(state := Materializing, token := Some(token), lease := Some(now + duration),
                attempts := l.attempts + 1, lastError := None);
        launches := launches[id := l];
        return ClaimOf(l);
      }
      var e := ClaimConflict(scope, id);
      result := Err(e);
    }

    method Rollback(to: Db)
      modifies this
      ensures Value() == to
    {
      launches, pending := to.launches, to.pending;
    }

    /** The conditional update of a row the caller holds; it may find none. */
    method DispatchRow(scope: Scope, c: Claim, pod: Pod, now: int) returns (rows: nat)
      modifies this`launches
      ensures rows == if c.launch in old(launches) && Holds(old(launches)[c.launch], scope.organization, c.token) then 1 else 0
      ensures launches == if rows == 1 then old(launches)[c.launch := DispatchedAs(old(launches)[c.launch], pod, now)] else old(launches)
    {
      if c.launch !in launches || !Holds(launches[c.launch], scope.organization, c.token) { return 0; }
      var l := launches[c.launch];
      l := l.(state := Dispatched, token := None, lease := None, pod := Some(pod), dispatchedAt := Some(now));
      launches := launches[c.launch := l];
      rows := 1;
    }

    /** The body of the transaction: the command is inserted before the row is updated, and stays behind when that fails. */
    method CompleteTx(scope: Scope, c: Claim, pod: Pod, podCheck: Option<Error>, payload: Bytes, now: int, ttl: int)
      returns (result: Result<(), Error>)
      requires ValidCompletion(scope, c, pod, payload, ttl)
      modifies this
      ensures result == CompleteResult(old(Value()), scope, c, pod, podCheck, payload, now, ttl)
      ensures result.Ok? ==> Value() == AfterComplete(old(Value()), scope, c, pod, podCheck, payload, now, ttl)
    {
      hide VerifyLease, CommandId, DispatchedAs;
      if c.launch !in launches || launches[c.launch].organization != scope.organization { return Err(NotFound); }
      var refusal := VerifyLease(launches[c.launch], c, now);
      if refusal.Some? { return Err(refusal.value); }
      if podCheck.Some? { return Err(podCheck.value); }
      VerifiedHolds(launches[c.launch], c, now);
      var command := Command(CommandId(c.launch), scope.organization, pod.runner, pod.key, payload, now + ttl, now);
      if command.id in pending { return Err(Corrupt); }
      pending := pending[command.id := command];
      var rows := DispatchRow(scope, c, pod, now);
      result := if rows == 1 then Ok(()) else Err(LeaseLost);
    }

    /** One transaction: the command and the dispatched row, or neither. */
    method CompleteWorkerLaunch(
      scope: Scope, c: Claim, pod: Pod, podCheck: Option<Error>, payload: Bytes, now: int, ttl: int) returns (result: Result<(), Error>)
      modifies this
      ensures result == CompleteResult(old(Value()), scope, c, pod, podCheck, payload, now, ttl)
      ensures Value() == AfterComplete(old(Value()), scope, c, pod, podCheck, payload, now, ttl)
    {
      hide VerifyLease, CommandId, DispatchedAs;
      if !ValidCompletion(scope, c, pod, payload, ttl) { return Err(Invalid); }
      var before := Value();
      result := CompleteTx(scope, c, pod, podCheck, payload, now, ttl);
      if result.Err? { Rollback(before); }
    }

    method ReleaseWorkerLaunch(scope: Scope, c: Claim, reason: string) returns (result: Result<(), Error>)
      modifies this`launches
      ensures result == ReleaseResult(old(Value()), scope, c, reason)
      ensures Value() == AfterRelease(old(Value()), scope, c, reason)
    {
      if !ValidCoordinates(scope, c) || reason == "" || ByteLen(reason) > 500 { return Err(Invalid); }
      if c.launch !in launches || !Holds(launches[c.launch], scope.organization, c.token) { return Err(LeaseLost); }
      var l := launches[c.launch];
      launches := launches[c.launch := l.(state := Pending, token := None, lease := None, lastError := Some(reason))];
      result := Ok(());
    }
  }

  lemma VerifiedHolds(l: Launch, c: Claim, now: int)
    requires VerifyLease(l, c, now).None?
    ensures Holds(l, c.organization, c.token)
  {}
}
