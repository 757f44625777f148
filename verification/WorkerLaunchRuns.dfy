/** Launches under every interleaving of claims, completions and releases, with arbitrary clock readings. */
module WorkerLaunchRuns {
  import opened Text
  import opened WorkerLaunch
  import WorkerLaunchRepo

  /** The calls of any number of workers, and what others do to the command table. */
  datatype Op =
    | Insert(l: Launch)
    | ClaimOp(scope: Scope, id: int, now: int, duration: int, token: string)
    | CompleteOp(scope: Scope, c: Claim, pod: Pod, podCheck: Option<Error>, payload: Bytes, now: int, ttl: int)
    | ReleaseOp(scope: Scope, c: Claim, reason: string)
    | Enqueue(command: Command)
    | Deliver(commandId: string)

  function Step(db: Db, op: Op): Db {
    match op
    case Insert(l) => AfterInsert(db, l)
    case ClaimOp(scope, id, now, duration, token) => AfterClaim(db, scope, id, now, duration, token)
    case CompleteOp(scope, c, pod, podCheck, payload, now, ttl) => AfterComplete(db, scope, c, pod, podCheck, payload, now, ttl)
    case ReleaseOp(scope, c, reason) => AfterRelease(db, scope, c, reason)
    case Enqueue(command) => if command.id in db.pending then db else db.(pending := db.pending[command.id := command])
    case Deliver(commandId) => db.(pending := db.pending - {commandId})
  }

  function Final(ops: seq<Op>): Db {
    if ops == [] then EMPTY else Step(Final(ops[..|ops| - 1]), ops[|ops| - 1])
  }

  /** The row that a step claims for a launch. */
  function StepTaken(db: Db, op: Op, id: int): seq<Launch> {
    if op.ClaimOp? && op.id == id && TakesClaim(db, op.scope, id, op.now, op.duration, op.token)
    then [Claimed(db.launches[id], op.now, op.duration, op.token)] else []
  }

  /** Every row that was claimed for a launch, in order. */
  function Taken(ops: seq<Op>, id: int): seq<Launch> {
    if ops == [] then [] else Taken(ops[..|ops| - 1], id) + StepTaken(Final(ops[..|ops| - 1]), ops[|ops| - 1], id)
  }

  predicate Completes(db: Db, op: Op) {
    op.CompleteOp? && CompleteResult(db, op.scope, op.c, op.pod, op.podCheck, op.payload, op.now, op.ttl).Ok?
  }

  function StepEnqueued(db: Db, op: Op, id: int): seq<Command> {
    if Completes(db, op) && op.c.launch == id then [CommandFor(op.c, op.pod, op.payload, op.now, op.ttl)] else []
  }

  /** Every create-pod command that was ever enqueued for a launch. */
  function Enqueued(ops: seq<Op>, id: int): seq<Command> {
    if ops == [] then [] else Enqueued(ops[..|ops| - 1], id) + StepEnqueued(Final(ops[..|ops| - 1]), ops[|ops| - 1], id)
  }

  // ---------------------------------------------------------------- the invariant

  /** What never changes about a launch. */
  predicate SameLaunch(a: Launch, b: Launch) {
    && a.id == b.id && a.organization == b.organization && a.actor == b.actor && a.plan == b.plan
    && a.resource == b.resource && a.revision == b.revision && a.snapshot == b.snapshot
    && a.prompt == b.prompt && a.alias == b.alias
  }

  /** Token and lease are set exactly while materializing, the pod exactly once dispatched. */
  predicate ShapeOk(l: Launch) {
    && (l.state == Materializing <==> l.token.Some?) && (l.state == Materializing <==> l.lease.Some?)
    && (l.state == Dispatched <==> l.pod.Some?) && (l.state == Dispatched <==> l.dispatchedAt.Some?)
  }

  ghost predicate TakenOk(l: Launch, taken: seq<Launch>) {
    && l.attempts == |taken|
    && (forall i :: 0 <= i < |taken| ==> SameLaunch(taken[i], l) && taken[i].state == Materializing && ShapeOk(taken[i]))
    && (l.state == Materializing ==> taken != [] && l == taken[|taken| - 1])
  }

  /** A command that has something to deliver, and time to be delivered: up to seven days. */
  predicate Deliverable(command: Command) {
    && 0 < |command.payload| <= 4 * 1024 * 1024
    && command.createdAt < command.expiresAt <= command.createdAt + 7 * 24 * 3600 * 1_000_000_000
  }

  ghost predicate EnqueuedOk(l: Launch, commands: seq<Command>) {
    && |commands| == (if l.state == Dispatched then 1 else 0)
    && forall i :: 0 <= i < |commands| ==>
         (&& l.id > 0 && commands[i].id == CommandId(l.id) && commands[i].organization == l.organization
          && l.pod.Some? && commands[i].runner == l.pod.value.runner && commands[i].podKey == l.pod.value.key
          && Some(commands[i].createdAt) == l.dispatchedAt && Deliverable(commands[i]))
  }

  ghost predicate LaunchOk(db: Db, id: int, taken: seq<Launch>, commands: seq<Command>) {
    if id in db.launches
    then db.launches[id].id == id && ShapeOk(db.launches[id]) && TakenOk(db.launches[id], taken) && EnqueuedOk(db.launches[id], commands)
    else taken == [] && commands == []
  }

  lemma ClaimKeeps(l: Launch, taken: seq<Launch>, commands: seq<Command>, now: int, duration: int, token: string)
    requires ShapeOk(l) && TakenOk(l, taken) && EnqueuedOk(l, commands) && l.state != Dispatched
    ensures var next := Claimed(l, now, duration, token);
      ShapeOk(next) && TakenOk(next, taken + [next]) && EnqueuedOk(next, commands)
  {
    hide CommandId;
  }

  lemma CompleteKeeps(l: Launch, taken: seq<Launch>, commands: seq<Command>, c: Claim, pod: Pod, payload: Bytes, now: int, ttl: int)
    requires ShapeOk(l) && TakenOk(l, taken) && EnqueuedOk(l, commands) && VerifyLease(l, c, now).None? && c.launch == l.id > 0
    requires 0 < |payload| <= MAX_PAYLOAD && 0 < ttl <= MAX_DISPATCH_TTL
    ensures var next := DispatchedAs(l, pod, now);
      ShapeOk(next) && TakenOk(next, taken) && EnqueuedOk(next, commands + [CommandFor(c, pod, payload, now, ttl)])
  {
    hide CommandId;
  }

  lemma ReleaseKeeps(l: Launch, taken: seq<Launch>, commands: seq<Command>, reason: string)
    requires ShapeOk(l) && TakenOk(l, taken) && EnqueuedOk(l, commands) && l.state == Materializing
    ensures var next := Released(l, reason); ShapeOk(next) && TakenOk(next, taken) && EnqueuedOk(next, commands)
  {
    hide CommandId;
  }

  lemma StepIsOk(db: Db, op: Op, id: int, taken: seq<Launch>, commands: seq<Command>)
    requires LaunchOk(db, id, taken, commands)
    ensures LaunchOk(Step(db, op), id, taken + StepTaken(db, op, id), commands + StepEnqueued(db, op, id))
  {
    hide CommandId, TakenOk, EnqueuedOk, ShapeOk, CommandFor, ValidCompletion, ValidCoordinates, ValidClaimRequest, VerifyLease, Claimed,
         DispatchedAs, Released;
    assert taken + [] == taken && commands + [] == commands;
    match op
    case Insert(l) => InsertIsOk(db, l, id, taken, commands);
    case ClaimOp(scope, k, now, duration, token) =>
      if k == id && TakesClaim(db, scope, id, now, duration, token) {
        ClaimKeeps(db.launches[id], taken, commands, now, duration, token);
        ClaimedId(db.launches[id], now, duration, token);
      }
    case CompleteOp(scope, c, pod, podCheck, payload, now, ttl) =>
      if Completes(db, op) && c.launch == id {
        CompletionIsPositive(scope, c, pod, payload, ttl);
        CompleteKeeps(db.launches[id], taken, commands, c, pod, payload, now, ttl);
        DispatchedId(db.launches[id], pod, now);
      }
    case ReleaseOp(scope, c, reason) =>
      if c.launch == id && ReleaseResult(db, scope, c, reason).Ok? {
        ReleaseKeeps(db.launches[id], taken, commands, reason);
        ReleasedId(db.launches[id], reason);
      }
    case Enqueue(_) =>
    case Deliver(_) =>
  }

  lemma InsertIsOk(db: Db, l: Launch, id: int, taken: seq<Launch>, commands: seq<Command>)
    requires LaunchOk(db, id, taken, commands)
    ensures LaunchOk(AfterInsert(db, l), id, taken, commands)
  {
    hide CommandId;
  }

  lemma ClaimedId(l: Launch, now: int, duration: int, token: string)
    ensures Claimed(l, now, duration, token).id == l.id
  {}

  lemma DispatchedId(l: Launch, pod: Pod, now: int)
    ensures DispatchedAs(l, pod, now).id == l.id
  {}

  lemma ReleasedId(l: Launch, reason: string)
    ensures Released(l, reason).id == l.id
  {}

  lemma CompletionIsPositive(scope: Scope, c: Claim, pod: Pod, payload: Bytes, ttl: int)
    requires ValidCompletion(scope, c, pod, payload, ttl)
    ensures c.launch > 0 && c.token != "" && 0 < |payload| <= MAX_PAYLOAD && 0 < ttl <= MAX_DISPATCH_TTL
  {}

  lemma {:induction false} AlwaysOk(ops: seq<Op>, id: int)
    ensures LaunchOk(Final(ops), id, Taken(ops, id), Enqueued(ops, id))
  {
    if ops != [] {
      hide LaunchOk, Step, StepTaken, StepEnqueued;
      AlwaysOk(ops[..|ops| - 1], id);
      StepIsOk(Final(ops[..|ops| - 1]), ops[|ops| - 1], id, Taken(ops[..|ops| - 1], id), Enqueued(ops[..|ops| - 1], id));
    }
  }

  // ---------------------------------------------------------------- at most once

  /**
   * Under every interleaving and every clock: at most one create-pod command is ever enqueued for a launch, one
   * exactly when it is dispatched, and it is `worker-<id>` for the launch's own pod and runner.
   */
  lemma DispatchedAtMostOnce(ops: seq<Op>, id: int)
    ensures |Enqueued(ops, id)| <= 1
    ensures |Enqueued(ops, id)| == 1 <==> id in Final(ops).launches && Final(ops).launches[id].state == Dispatched
    ensures |Enqueued(ops, id)| == 1 ==>
      var l, command := Final(ops).launches[id], Enqueued(ops, id)[0];
      && id > 0 && command.id == "worker-" + Numeral(id, 10) && Deliverable(command)
      && l.pod.Some? && command.podKey == l.pod.value.key && command.runner == l.pod.value.runner
  {
    AlwaysOk(ops, id);
    hide Final, Taken, Enqueued, Numeral;
    var commands := Enqueued(ops, id);
    if |commands| == 1 {
      assert commands[0].id == CommandId(Final(ops).launches[id].id);
    }
  }

  /** The number of claims taken is counted, and token and lease are there exactly while materializing. */
  lemma AttemptsAreClaims(ops: seq<Op>, id: int)
    requires id in Final(ops).launches
    ensures Final(ops).launches[id].attempts == |Taken(ops, id)| && ShapeOk(Final(ops).launches[id])
  {
    AlwaysOk(ops, id);
    hide Final, Taken, Enqueued, CommandId;
  }

  /** Once dispatched a launch row never changes again. */
  lemma DispatchedIsFinal(ops: seq<Op>, op: Op, id: int)
    requires id in Final(ops).launches && Final(ops).launches[id].state == Dispatched
    ensures id in Step(Final(ops), op).launches && Step(Final(ops), op).launches[id] == Final(ops).launches[id]
  {
    hide Final, CommandId, ValidCompletion, ValidCoordinates, ValidClaimRequest, CommandFor;
  }

  lemma {:induction false} NumeralsDiffer(m: nat, n: nat)
    requires Numeral(m, 10) == Numeral(n, 10)
    ensures m == n
  {
    ValueOfNumeral(m, 10);
    ValueOfNumeral(n, 10);
  }

  /** Different launches never share a command id. */
  lemma CommandIdsDiffer(a: int, b: int)
    requires a > 0 && b > 0 && CommandId(a) == CommandId(b)
    ensures a == b
  {
    assert CommandId(a)[7..] == Numeral(a, 10) && CommandId(b)[7..] == Numeral(b, 10);
    NumeralsDiffer(a, b);
  }

  // ---------------------------------------------------------------- fencing

  /** No token is used for two claims of the launch. */
  ghost predicate DistinctTokens(taken: seq<Launch>) {
    forall i, j :: 0 <= i < j < |taken| ==> taken[i].token != taken[j].token
  }

  /** Whether a claim still holds its launch: it was the last one taken, and was neither completed nor released. */
  ghost predicate Current(db: Db, id: int, taken: seq<Launch>, i: int) {
    i == |taken| - 1 && id in db.launches && db.launches[id].state == Materializing
  }

  lemma ClaimIsOfRow(l: Launch, c: Claim)
    requires ClaimOf(l) == Ok(c)
    ensures l.id > 0 && l.token == Some(c.token) && l.lease == Some(c.lease) && c.launch == l.id && l.organization == c.organization
    ensures l.actor == c.actor && l.plan == c.plan && l.resource == c.resource && l.revision == c.revision && l.snapshot == c.snapshot
  {}

  lemma TokenIsCurrent(ops: seq<Op>, id: int, i: int)
    requires DistinctTokens(Taken(ops, id)) && 0 <= i < |Taken(ops, id)|
    ensures id in Final(ops).launches
    ensures Final(ops).launches[id].state == Materializing && Final(ops).launches[id].token == Taken(ops, id)[i].token <==>
      Current(Final(ops), id, Taken(ops, id), i)
    ensures Current(Final(ops), id, Taken(ops, id), i) ==> Final(ops).launches[id] == Taken(ops, id)[i]
  {
    AlwaysOk(ops, id);
    hide Final, Taken, Enqueued, CommandId;
  }

  /**
   * Fencing, with pairwise distinct tokens: of all claims ever issued for a launch only the current one passes the
   * lease check, and only before its lease ends; every other one is answered that its lease is lost. In
   * particular a claim that was issued is never called corrupt.
   */
  lemma OnlyCurrentClaimVerifies(ops: seq<Op>, id: int, i: int, c: Claim, now: int)
    requires DistinctTokens(Taken(ops, id)) && 0 <= i < |Taken(ops, id)| && ClaimOf(Taken(ops, id)[i]) == Ok(c)
    ensures id in Final(ops).launches
    ensures VerifyLease(Final(ops).launches[id], c, now) ==
      if Current(Final(ops), id, Taken(ops, id), i) && now < c.lease then None else Some(LeaseLost)
  {
    TokenIsCurrent(ops, id, i);
    ClaimIsOfRow(Taken(ops, id)[i], c);
    hide Final, Taken, ClaimOf, DistinctTokens, Current;
  }

  /** A holder whose lease was taken over, released or completed can change nothing. */
  lemma StaleHolderIsFenced(
    ops: seq<Op>, id: int, i: int, c: Claim, scope: Scope, pod: Pod, podCheck: Option<Error>, payload: Bytes, now: int, ttl: int,
    reason: string)
    requires DistinctTokens(Taken(ops, id)) && 0 <= i < |Taken(ops, id)| && ClaimOf(Taken(ops, id)[i]) == Ok(c)
    requires !Current(Final(ops), id, Taken(ops, id), i)
    ensures AfterComplete(Final(ops), scope, c, pod, podCheck, payload, now, ttl) == Final(ops)
    ensures AfterRelease(Final(ops), scope, c, reason) == Final(ops)
  {
    OnlyCurrentClaimVerifies(ops, id, i, c, now);
    TokenIsCurrent(ops, id, i);
    ClaimIsOfRow(Taken(ops, id)[i], c);
    AlwaysOk(ops, id);
    hide Final, Taken, Enqueued, ClaimOf, DistinctTokens, Current, CommandId, ValidCompletion, VerifyLease, ValidCoordinates;
    assert Final(ops).launches[id].id == id && c.launch == id;
  }

  /** At one moment, whatever the two clocks read, two different claims of one launch never both pass the lease check. */
  lemma OneClaimVerifies(ops: seq<Op>, id: int, i: int, j: int, c: Claim, d: Claim, now: int, later: int)
    requires DistinctTokens(Taken(ops, id)) && 0 <= i < |Taken(ops, id)| && 0 <= j < |Taken(ops, id)|
    requires ClaimOf(Taken(ops, id)[i]) == Ok(c) && ClaimOf(Taken(ops, id)[j]) == Ok(d)
    requires id in Final(ops).launches
    requires VerifyLease(Final(ops).launches[id], c, now).None? && VerifyLease(Final(ops).launches[id], d, later).None?
    ensures i == j && c == d
  {
    OnlyCurrentClaimVerifies(ops, id, i, c, now);
    OnlyCurrentClaimVerifies(ops, id, j, d, later);
    hide Final, Taken, ClaimOf, DistinctTokens, VerifyLease;
  }

  lemma CompletedIsDispatched(db: Db, op: Op)
    requires Completes(db, op)
    ensures op.c.launch in Step(db, op).launches && Step(db, op).launches[op.c.launch].state == Dispatched
    ensures op.c.launch in db.launches && db.launches[op.c.launch].state == Materializing
  {
    hide CommandId, ValidCompletion, CommandFor;
  }

  lemma {:induction false} StaysDispatched(ops: seq<Op>, m: nat, n: nat, id: int)
    requires m <= n <= |ops|
    requires id in Final(ops[..m]).launches && Final(ops[..m]).launches[id].state == Dispatched
    ensures id in Final(ops[..n]).launches && Final(ops[..n]).launches[id] == Final(ops[..m]).launches[id]
  {
    if m < n {
      StaysDispatched(ops, m, n - 1, id);
      DispatchedIsFinal(ops[..n - 1], ops[n - 1], id);
      assert ops[..n][..n - 1] == ops[..n - 1];
      hide Step;
    }
  }

  /** Of all the completions in a run, by whatever claims and at whatever times, at most one per launch succeeds. */
  lemma OneCompletionEver(ops: seq<Op>, m: nat, n: nat)
    requires m < |ops| && n < |ops| && Completes(Final(ops[..m]), ops[m]) && Completes(Final(ops[..n]), ops[n])
    requires ops[m].c.launch == ops[n].c.launch
    ensures m == n
  {
    if m > n {
      OneCompletionEver(ops, n, m);
    } else if m < n {
      CompletedIsDispatched(Final(ops[..m]), ops[m]);
      CompletedIsDispatched(Final(ops[..n]), ops[n]);
      assert ops[..m + 1][..m] == ops[..m];
      assert Final(ops[..m + 1]) == Step(Final(ops[..m]), ops[m]);
      hide Completes, Step, Final;
      StaysDispatched(ops, m + 1, n, ops[m].c.launch);
    }
  }

  // ---------------------------------------------------------------- what exactly the tokens fence

  /** What a claim says of the row it was taken from still holds of the launch. */
  ghost predicate ClaimFits(l: Launch, taken: seq<Launch>, i: int, c: Claim)
    requires 0 <= i < |taken|
  {
    && taken[i].lease == Some(c.lease) && taken[i].token == Some(c.token)
    && (l.state == Materializing ==> l == taken[|taken| - 1])
    && l.organization == c.organization && l.actor == c.actor && l.plan == c.plan && l.resource == c.resource
    && l.revision == c.revision && l.snapshot == c.snapshot
  }

  lemma TakenFits(l: Launch, taken: seq<Launch>, i: int, c: Claim)
    requires TakenOk(l, taken) && 0 <= i < |taken| && ClaimOf(taken[i]) == Ok(c)
    ensures ClaimFits(l, taken, i, c) && c.launch == l.id
  {
    ClaimIsOfRow(taken[i], c);
    assert SameLaunch(taken[i], l);
    hide ClaimOf, ShapeOk, TakenOk;
  }

  lemma LastTaken(ops: seq<Op>, id: int, i: int, c: Claim)
    requires 0 <= i < |Taken(ops, id)| && ClaimOf(Taken(ops, id)[i]) == Ok(c)
    ensures id in Final(ops).launches && c.launch == id && ShapeOk(Final(ops).launches[id])
    ensures ClaimFits(Final(ops).launches[id], Taken(ops, id), i, c)
  {
    AlwaysOk(ops, id);
    hide Final, Taken, Enqueued, ClaimOf, EnqueuedOk, ShapeOk, TakenOk, ClaimFits;
    TakenFits(Final(ops).launches[id], Taken(ops, id), i, c);
  }

  /**
   * Without any assumption on tokens: a claim that was issued can release its launch exactly when the launch is
   * held under the same token.
   */
  lemma ReleasesExactly(ops: seq<Op>, id: int, i: int, c: Claim, scope: Scope, reason: string)
    requires 0 <= i < |Taken(ops, id)| && ClaimOf(Taken(ops, id)[i]) == Ok(c)
    requires ValidCoordinates(scope, c) && reason != "" && ByteLen(reason) <= 500
    ensures id in Final(ops).launches
    ensures var taken := Taken(ops, id);
      ReleaseResult(Final(ops), scope, c, reason).Ok? <==>
      Final(ops).launches[id].state == Materializing && taken[|taken| - 1].token == taken[i].token
  {
    LastTaken(ops, id, i, c);
    hide Final, Taken, ClaimOf, ByteLen, ShapeOk;
  }

  /** And it passes the lease check exactly when token and lease are those of the last claim and the lease is not over. */
  lemma VerifiesExactly(ops: seq<Op>, id: int, i: int, c: Claim, now: int)
    requires 0 <= i < |Taken(ops, id)| && ClaimOf(Taken(ops, id)[i]) == Ok(c)
    ensures id in Final(ops).launches
    ensures var last := Taken(ops, id)[|Taken(ops, id)| - 1];
      VerifyLease(Final(ops).launches[id], c, now).None? <==>
      && Final(ops).launches[id].state == Materializing && last.token == Taken(ops, id)[i].token
      && last.lease == Taken(ops, id)[i].lease && now < c.lease
  {
    LastTaken(ops, id, i, c);
    hide Final, Taken, ClaimOf;
  }

  /** The run of a launch that is claimed twice with one token, the second time when the first lease is over. */
  function TwoClaims(l: Launch, scope: Scope, now: int, duration: int, token: string): seq<Op> {
    [Insert(l), ClaimOp(scope, l.id, now, duration, token), ClaimOp(scope, l.id, now + duration, duration, token)]
  }

  predicate Issuable(l: Launch) {
    l.id > 0 && l.organization > 0 && l.actor > 0 && l.plan != "" && l.resource > 0 && l.revision > 0 && l.snapshot > 0
  }

  lemma TwoClaimsRun(l: Launch, scope: Scope, now: int, duration: int, token: string)
    requires IsNew(l) && Issuable(l) && ValidClaimRequest(scope, l.id, duration, token) && l.organization == scope.organization
    ensures var ops := TwoClaims(l, scope, now, duration, token);
      var first := Claimed(l, now, duration, token);
      && Taken(ops, l.id) == [first, Claimed(first, now + duration, duration, token)]
      && Final(ops) == Db(map[l.id := Claimed(first, now + duration, duration, token)], map[])
  {
    var ops := TwoClaims(l, scope, now, duration, token);
    var a, b, c := ops[..0], ops[..1], ops[..2];
    assert a == [] && b[..0] == a && c[..1] == b && ops[..2] == c;
    assert Final(a) == EMPTY && Taken(a, l.id) == [];
    assert Final(b).launches == map[l.id := l] && Taken(b, l.id) == [];
    var first := Claimed(l, now, duration, token);
    assert Final(c).launches == map[l.id := first] && Taken(c, l.id) == [first];
  }

  /**
   * Why the tokens must differ: in this run the first holder was taken over, and can still release the launch
   * under the second holder.
   */
  lemma ReusedTokenIsNotFenced(l: Launch, scope: Scope, now: int, duration: int, token: string, reason: string)
    requires IsNew(l) && Issuable(l) && ValidClaimRequest(scope, l.id, duration, token)
    requires l.organization == scope.organization && l.actor == scope.actor && now + duration != ZERO_TIME
    requires reason != "" && ByteLen(reason) <= 500
    ensures var ops := TwoClaims(l, scope, now, duration, token);
      && |Taken(ops, l.id)| == 2 && ClaimOf(Taken(ops, l.id)[0]).Ok? && Current(Final(ops), l.id, Taken(ops, l.id), 1)
      && ReleaseResult(Final(ops), scope, ClaimOf(Taken(ops, l.id)[0]).value, reason) == Ok(())
      && AfterRelease(Final(ops), scope, ClaimOf(Taken(ops, l.id)[0]).value, reason).launches[l.id].state == Pending
  {
    TwoClaimsRun(l, scope, now, duration, token);
    hide TwoClaims, Taken, Final, ByteLen;
  }

  // ---------------------------------------------------------------- what a claim is good for

  /** A launch enters the table pending, without token, lease, pod or attempts, and only under an id of its own. */
  lemma InsertAnswers(db: Db, l: Launch)
    ensures AfterInsert(db, l) ==
      if l.id !in db.launches && l.state == Pending && l.token == None && l.lease == None && l.attempts == 0 && l.pod == None
         && l.dispatchedAt == None
      then Db(db.launches[l.id := l], db.pending) else db
  {}

  /** A request to claim: a scope that stands, a launch id, a lease of up to ten minutes and a token. */
  predicate AsksForClaim(scope: Scope, id: int, duration: int, token: string) {
    && scope.organization > 0 && SLUG_CHECK(scope.slug) && scope.actor > 0 && id > 0
    && 0 < duration <= 10 * 60 * 1_000_000_000 && token != "" && TOKEN_CHECK(token)
  }

  /** The row as a claim leaves it, and the claim as it is handed out. */
  function Leased(l: Launch, until: int, token: string): Launch {
    Launch(l.id, l.organization, l.actor, l.plan, l.resource, l.revision, l.snapshot, l.prompt, l.alias,
           Materializing, Some(token), Some(until), l.attempts + 1, None, l.pod, l.dispatchedAt)
  }

  function Handed(l: Launch, until: int, token: string): Claim {
    Claim(l.id, l.plan, l.organization, l.actor, l.resource, l.revision, l.snapshot, l.prompt, l.alias, token, until)
  }

  /**
   * The answer to a request to claim, in every reachable state: a pending launch is leased, and so is one whose lease is over;
   * a launch that is held is in progress and a dispatched one consumed. Only a row without a proper identity leases nothing usable.
   */
  lemma ClaimAnswers(ops: seq<Op>, scope: Scope, id: int, now: int, duration: int, token: string)
    ensures var db := Final(ops);
      var r, next := ClaimResult(db, scope, id, now, duration, token), AfterClaim(db, scope, id, now, duration, token);
      if !AsksForClaim(scope, id, duration, token) then r == Err(Invalid) && next == db
      else if id !in db.launches || db.launches[id].organization != scope.organization then r == Err(NotFound) && next == db
      else
        var l := db.launches[id];
        if l.state == Dispatched then r == Err(Consumed) && next == db
        else if l.state == Materializing && (l.lease.None? || now < l.lease.value) then r == Err(InProgress) && next == db
        else
          && next == db.(launches := db.launches[id := Leased(l, now + duration, token)])
          && r == if Issuable(l) && now + duration != 0 then Ok(Handed(l, now + duration, token)) else Err(Corrupt)
  {
    AlwaysOk(ops, id);
    hide Final, Taken, Enqueued, TakenOk, EnqueuedOk;
  }

  /**
   * A claim that is granted counts one attempt and touches nothing else; it passes the lease check until its
   * lease ends, and until then nobody else gets one.
   */
  lemma ClaimGrants(ops: seq<Op>, scope: Scope, id: int, now: int, duration: int, token: string, c: Claim)
    requires ClaimResult(Final(ops), scope, id, now, duration, token) == Ok(c)
    ensures id in Final(ops).launches && Final(ops).launches[id].state != Dispatched && c == Handed(Final(ops).launches[id], now + duration, token)
    ensures var db, next := Final(ops), AfterClaim(Final(ops), scope, id, now, duration, token);
      && id in next.launches && next.launches[id].attempts == db.launches[id].attempts + 1
      && next == db.(launches := db.launches[id := next.launches[id]])
      && (forall t :: VerifyLease(next.launches[id], c, t).None? <==> t < now + duration)
      && (forall other, t, d, tok | AsksForClaim(other, id, d, tok) && other.organization == c.organization && t + d != 0 ::
            ClaimResult(next, other, id, t, d, tok).Ok? <==> t >= now + duration)
  {
    ClaimAnswers(ops, scope, id, now, duration, token);
    var next := AfterClaim(Final(ops), scope, id, now, duration, token);
    var more := ops + [ClaimOp(scope, id, now, duration, token)];
    assert more[..|more| - 1] == ops && Final(more) == next;
    var l := Final(ops).launches[id];
    assert next.launches[id] == Leased(l, now + duration, token);
    hide Final, AfterClaim;
    forall other, t, d, tok | AsksForClaim(other, id, d, tok) && other.organization == c.organization && t + d != 0
      ensures ClaimResult(next, other, id, t, d, tok).Ok? <==> t >= now + duration
    {
      ClaimAnswers(more, other, id, t, d, tok);
      hide ClaimResult;
    }
    hide ClaimResult;
  }

  /** A claim as its holder presents it: the caller's own, with every field set. */
  predicate Presents(scope: Scope, c: Claim) {
    && scope.organization > 0 && SLUG_CHECK(scope.slug) && scope.actor > 0
    && c.launch > 0 && c.organization == scope.organization && c.actor == scope.actor
    && c.resource > 0 && c.revision > 0 && c.snapshot > 0 && c.token != "" && c.lease != 0
  }

  predicate AsksToComplete(scope: Scope, c: Claim, pod: Pod, payload: Bytes, ttl: int) {
    && Presents(scope, c) && TOKEN_CHECK(c.token) && pod.id > 0 && pod.key != "" && pod.runner > 0
    && 0 < |payload| <= 4 * 1024 * 1024 && 0 < ttl <= 7 * 24 * 3600 * 1_000_000_000
  }

  /** The launch and the command as a completion leaves them. */
  function Launched(l: Launch, pod: Pod, at: int): Launch {
    Launch(l.id, l.organization, l.actor, l.plan, l.resource, l.revision, l.snapshot, l.prompt, l.alias,
           Dispatched, None, None, l.attempts, l.lastError, Some(pod), Some(at))
  }

  function Waiting(c: Claim, pod: Pod, payload: Bytes, at: int, ttl: int): Command
    requires c.launch > 0
  {
    Command("worker-" + Numeral(c.launch, 10), c.organization, pod.runner, pod.key, payload, at + ttl, at)
  }

  /** What a claim says of its launch is what the row says. */
  predicate SaysOf(c: Claim, l: Launch) {
    && c.organization == l.organization && c.actor == l.actor && c.plan == l.plan && c.resource == l.resource
    && c.revision == l.revision && c.snapshot == l.snapshot && l.lease == Some(c.lease)
  }

  /**
   * The answer to a completion, whatever claim is presented: the launch must be held under its token, with time left, and be
   * what the claim says; the pod must check out and no command of the launch be waiting. Then row and command are written.
   */
  lemma CompleteAnswers(
    db: Db, scope: Scope, c: Claim, pod: Pod, podCheck: Option<Error>, payload: Bytes, now: int, ttl: int)
    ensures var r, next :=
        CompleteResult(db, scope, c, pod, podCheck, payload, now, ttl), AfterComplete(db, scope, c, pod, podCheck, payload, now, ttl);
      && (r.Err? ==> next == db)
      && if !AsksToComplete(scope, c, pod, payload, ttl) then r == Err(Invalid)
         else if c.launch !in db.launches || db.launches[c.launch].organization != scope.organization then r == Err(NotFound)
         else
           var l := db.launches[c.launch];
           if l.state != Materializing || l.token != Some(c.token) || l.lease.None? || now >= l.lease.value then r == Err(LeaseLost)
           else if !SaysOf(c, l) then r == Err(Corrupt)
           else if podCheck.Some? then r == Err(podCheck.value)
           else if "worker-" + Numeral(c.launch, 10) in db.pending then r == Err(Corrupt)
           else
             && r == Ok(())
             && next == Db(db.launches[c.launch := Launched(l, pod, now)],
                           db.pending["worker-" + Numeral(c.launch, 10) := Waiting(c, pod, payload, now, ttl)])
  {}

  /** The answer to a release: the launch must be held under the claim's token; then it is pending again, with the reason. */
  lemma ReleaseAnswers(db: Db, scope: Scope, c: Claim, reason: string)
    ensures var r, next := ReleaseResult(db, scope, c, reason), AfterRelease(db, scope, c, reason);
      && (r.Err? ==> next == db)
      && if !Presents(scope, c) || reason == "" || ByteLen(reason) > 500 then r == Err(Invalid)
         else if c.launch !in db.launches || db.launches[c.launch].organization != scope.organization
                 || db.launches[c.launch].state != Materializing || db.launches[c.launch].token != Some(c.token) then r == Err(LeaseLost)
         else
           var l := db.launches[c.launch];
           && r == Ok(())
           && next == db.(launches := db.launches[c.launch :=
                Launch(l.id, l.organization, l.actor, l.plan, l.resource, l.revision, l.snapshot, l.prompt, l.alias,
                       Pending, None, None, l.attempts, Some(reason), l.pod, l.dispatchedAt)])
  {
    hide ByteLen;
  }

  /** A claim that is completed in time is dispatched as the caller asks, unless a command of that name is waiting already. */
  lemma ClaimThenComplete(
    ops: seq<Op>, scope: Scope, id: int, now: int, duration: int, token: string, c: Claim, pod: Pod, payload: Bytes, later: int, ttl: int)
    requires ClaimResult(Final(ops), scope, id, now, duration, token) == Ok(c) && AsksToComplete(scope, c, pod, payload, ttl)
    ensures id > 0 && id in Final(ops).launches
    ensures var db, next := Final(ops), AfterClaim(Final(ops), scope, id, now, duration, token);
      var done := AfterComplete(next, scope, c, pod, None, payload, later, ttl);
      var inTime := later < now + duration && "worker-" + Numeral(id, 10) !in db.pending;
      && (CompleteResult(next, scope, c, pod, None, payload, later, ttl).Ok? <==> inTime)
      && (!inTime ==> done == next)
      && (inTime ==>
            && done.launches == db.launches[id := Launched(next.launches[id], pod, later)]
            && "worker-" + Numeral(id, 10) in done.pending
            && var command := done.pending["worker-" + Numeral(id, 10)];
               && command.payload == payload && command.runner == pod.runner && command.podKey == pod.key
               && command.organization == db.launches[id].organization && command.createdAt == later && command.expiresAt == later + ttl)
  {
    ClaimAnswers(ops, scope, id, now, duration, token);
    AlwaysOk(ops, id);
    var next := AfterClaim(Final(ops), scope, id, now, duration, token);
    hide Final, ClaimResult, AfterClaim, TakenOk, EnqueuedOk, ShapeOk;
    CompleteAnswers(next, scope, c, pod, None, payload, later, ttl);
    hide CompleteResult, AfterComplete, Numeral;
  }

  /** Claiming a pending launch and releasing it again leaves only the attempt and the reason behind. */
  lemma ClaimThenRelease(
    ops: seq<Op>, scope: Scope, id: int, now: int, duration: int, token: string, c: Claim, reason: string)
    requires ClaimResult(Final(ops), scope, id, now, duration, token) == Ok(c)
    requires reason != "" && ByteLen(reason) <= 500
    ensures id in Final(ops).launches
    ensures var db, next := Final(ops), AfterClaim(Final(ops), scope, id, now, duration, token);
      var l := db.launches[id];
      && (ReleaseResult(next, scope, c, reason).Ok? <==> scope.actor == l.actor)
      && (scope.actor == l.actor && l.state == Pending ==>
            AfterRelease(next, scope, c, reason) ==
            db.(launches := db.launches[id := l.(attempts := l.attempts + 1, lastError := Some(reason))]))
  {
    AlwaysOk(ops, id);
    ClaimAnswers(ops, scope, id, now, duration, token);
    var next := AfterClaim(Final(ops), scope, id, now, duration, token);
    hide Final, ClaimResult, AfterClaim, TakenOk, EnqueuedOk, ByteLen;
    ReleaseAnswers(next, scope, c, reason);
    hide ReleaseResult, AfterRelease;
  }

  /** Playing a run on the repository leaves exactly the tables of the run, so every theorem here holds of it. */
  method Play(ops: seq<Op>) returns (repo: WorkerLaunchRepo.Repository)
    ensures fresh(repo) && repo.Value() == Final(ops)
  {
    hide AfterClaim, AfterComplete, AfterInsert, AfterRelease, ClaimResult, CompleteResult, ReleaseResult;
    repo := new WorkerLaunchRepo.Repository();
    for i := 0 to |ops|
      invariant fresh(repo) && repo.Value() == Final(ops[..i])
    {
      assert ops[..i + 1][..i] == ops[..i];
      match ops[i] {
        case Insert(l) => repo.CreateLaunch(l);
        case ClaimOp(scope, id, now, duration, token) => var _ := repo.ClaimWorkerLaunch(scope, id, now, duration, token);
        case CompleteOp(scope, c, pod, podCheck, payload, now, ttl) =>
          var _ := repo.CompleteWorkerLaunch(scope, c, pod, podCheck, payload, now, ttl);
        case ReleaseOp(scope, c, reason) => var _ := repo.ReleaseWorkerLaunch(scope, c, reason);
        case Enqueue(command) =>
          if command.id !in repo.pending { repo.pending := repo.pending[command.id := command]; }
        case Deliver(commandId) => repo.pending := repo.pending - {commandId};
      }
    }
    assert ops[..|ops|] == ops;
  }
}
