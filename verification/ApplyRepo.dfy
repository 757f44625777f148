/** The orchestration repository as the program runs it: tables changed in place, each call one transaction. */
module ApplyRepo {
  import opened Text
  import opened Apply

  class Repository {
    var plans: map<string, Plan>
    var heads: map<HeadKey, Head>
    var revisions: map<RevisionKey, Revision>

    /** The three tables together. */
    function Value(): Db
      reads this
    {
      Db(plans, heads, revisions)
    }

    constructor ()
      ensures Value() == EMPTY
    {
      plans, heads, revisions := map[], map[], map[];
    }

    method Rollback(to: Db)
      modifies this
      ensures Value() == to
    {
      plans, heads, revisions := to.plans, to.heads, to.revisions;
    }

    method CreatePlan(plan: Plan) returns (result: Result<(), Error>)
      modifies this`plans
      ensures result == CreateResult(old(Value()), plan) && Value() == AfterCreate(old(Value()), plan)
    {
      if !plan.outcome.Pending? { return Err(Invalid); }
      if plan.id in plans { return Err(Conflict); }
      plans := plans[plan.id := plan];
      result := Ok(());
    }

    method LoadApplyTarget(scope: Scope, plan: Plan, env: Env) returns (result: Result<Locked, Error>)
      ensures result == LoadTarget(Value(), scope, plan, env)
    {
      hide ValidateHead, ValidateRevision;
      var k := HeadKey(scope.organization, plan.target);
      if plan.operation == Create {
        if k in heads { return Err(Conflict); }
        return Ok(Locked(plan, scope, None, None, env.id, Identity(plan.target, env.uid), env.now));
      }
      if k !in heads { return Err(Stale); }
      var head := heads[k];
      if Decoded(scope, head).Err? { return Err(Corrupt); }
      if head.id != plan.targetResource || head.identity.uid != plan.baseUid || head.version != plan.baseVersion {
        return Err(Stale);
      }
      var r := RevisionKey(head.id, head.revision);
      if r !in revisions { return Err(Corrupt); }
      var current := revisions[r];
      if current.organization != scope.organization || ValidateRevision(scope, current).Some? { return Err(Corrupt); }
      result := Ok(Locked(plan, scope, Some(head), Some(current), head.id, head.identity, env.now));
    }

    method LoadLockedApplyState(scope: Scope, planId: string, env: Env) returns (result: Result<Locked, Error>)
      ensures result == LoadLocked(Value(), scope, planId, env)
    {
      hide LoadTarget;
      if planId !in plans || plans[planId].organization != scope.organization || plans[planId].actor != scope.actor {
        return Err(NotFound);
      }
      var plan := plans[planId];
      if !ValidPlan(scope, plan) { return Err(Corrupt); }
      if !plan.outcome.Pending? { return Err(Consumed); }
      if env.now < plan.createdAt { return Err(Invalid); }
      if env.now >= plan.expiresAt { return Err(Expired); }
      result := LoadApplyTarget(scope, plan, env);
    }

    method AuthorizeConsumed(scope: Scope, planId: string, env: Env) returns (e: Error)
      ensures e == ConsumedAnswer(Value(), scope, planId, env)
    {
      hide ValidateHead;
      if planId !in plans || plans[planId].organization != scope.organization || plans[planId].actor != scope.actor {
        return NotFound;
      }
      var plan := plans[planId];
      if !ValidPlan(scope, plan) { return Corrupt; }
      if !plan.outcome.Applied? { return Consumed; }
      var k := HeadKey(scope.organization, plan.target);
      if k !in heads { return Corrupt; }
      var head := heads[k];
      if Decoded(scope, head).Err? || !IsOutcome(plan, head) { return Corrupt; }
      var refusal := Authorize(scope, plan, Some(head), env);
      e := if refusal.Some? then refusal.value else Consumed;
    }

    method ConsumeApplyPlan(plan: Plan) returns (ok: bool)
      modifies this`plans
      ensures var r := ConsumePlan(old(Value()), plan);
        ok == r.Ok? && (r.Err? ==> r.error == Consumed) && Value() == if r.Ok? then r.value else old(Value())
    {
      if plan.id !in plans || plans[plan.id].organization != plan.organization || plans[plan.id].actor != plan.actor
         || !plans[plan.id].outcome.Pending? {
        return false;
      }
      plans := plans[plan.id := plan];
      ok := true;
    }

    method InsertRevisionRow(r: Revision) returns (ok: bool)
      modifies this`revisions
      ensures var i := InsertRevision(old(Value()), r);
        ok == i.Ok? && (i.Err? ==> i.error == Conflict) && Value() == if i.Ok? then i.value else old(Value())
    {
      if KeyOfRevision(r) in revisions { return false; }
      revisions := revisions[KeyOfRevision(r) := r];
      ok := true;
    }

    /** The head first; a clash of any of its unique keys, or of the revision's, is a conflict. */
    method InsertApplyMutation(m: Mutation) returns (result: Result<(), Error>)
      modifies this
      ensures var i := InsertMutation(old(Value()), m);
        result == (if i.Ok? then Ok(()) else Err(i.error)) && (i.Ok? ==> Value() == i.value)
    {
      hide HeadIsNew;
      if !HeadIsNew(heads, m.head) { return Err(Conflict); }
      heads := heads[KeyOfHead(m.head) := m.head];
      var inserted := InsertRevisionRow(m.revision);
      result := if inserted then Ok(()) else Err(Conflict);
    }

    method UpdateApplyMutation(s: Locked, m: Mutation) returns (result: Result<(), Error>)
      requires s.head.Some?
      modifies this
      ensures var u := UpdateMutation(old(Value()), s, m);
        result == (if u.Ok? then Ok(()) else Err(u.error)) && (u.Ok? ==> Value() == u.value)
    {
      var inserted := InsertRevisionRow(m.revision);
      if !inserted { return Err(Conflict); }
      var k := KeyOfHead(m.head);
      if k !in heads || heads[k].id != m.head.id || heads[k].version != s.head.value.version { return Err(Stale); }
      heads := heads[k := m.head];
      result := Ok(());
    }

    method WriteApplyMutation(s: Locked, m: Mutation) returns (result: Result<(), Error>)
      modifies this
      ensures var w := WriteMutation(old(Value()), s, m);
        result == (if w.Ok? then Ok(()) else Err(w.error)) && (w.Ok? ==> Value() == w.value)
    {
      hide ApplyPlan, ConsumePlan, InsertMutation, UpdateMutation;
      var applied := ApplyPlan(s.plan, s.at, m.head);
      if applied.Err? { return Err(applied.error); }
      var consumed := ConsumeApplyPlan(applied.value);
      if !consumed { return Err(Consumed); }
      if s.head.None? {
        result := InsertApplyMutation(m);
      } else {
        result := UpdateApplyMutation(s, m);
      }
    }

    /** The body of the transaction; its writes stay behind when it fails. */
    method ApplyTx(scope: Scope, planId: string, env: Env, build: Builder) returns (result: Result<Head, Error>)
      requires SCOPE_CHECK(scope) && PLAN_ID_CHECK(planId)
      modifies this
      ensures result == ApplyResult(old(Value()), scope, planId, env, build)
      ensures result.Ok? ==> Value() == AfterApply(old(Value()), scope, planId, env, build)
    {
      hide LoadLocked, ValidateMutation, WriteMutation, ConsumedAnswer, Authorize, ValidateHead;
      var locked := LoadLockedApplyState(scope, planId, env);
      if locked == Err(Consumed) {
        var e := AuthorizeConsumed(scope, planId, env);
        return Err(e);
      }
      if locked.Err? { return Err(locked.error); }
      var refusal := Authorize(scope, locked.value.plan, locked.value.head, env);
      if refusal.Some? { return Err(refusal.value); }
      var built := build(locked.value);
      if built.Err? { return Err(built.error); }
      var objection := ValidateMutation(locked.value, built.value);
      if objection.Some? { return Err(objection.value); }
      var written := WriteApplyMutation(locked.value, built.value);
      if written.Err? { return Err(written.error); }
      result := Decoded(scope, built.value.head);
    }

    /** One transaction: all of the writes, or none. */
    method RunApplyTransaction(scope: Scope, planId: string, env: Env, build: Builder) returns (result: Result<Head, Error>)
      modifies this
      ensures result == ApplyResult(old(Value()), scope, planId, env, build)
      ensures Value() == AfterApply(old(Value()), scope, planId, env, build)
    {
      hide LoadLocked, ValidateMutation, WriteMutation;
      if !SCOPE_CHECK(scope) || !PLAN_ID_CHECK(planId) { return Err(Invalid); }
      var before := Value();
      result := ApplyTx(scope, planId, env, build);
      if result.Err? { Rollback(before); }
    }

    method LoadAppliedResult(scope: Scope, planId: string, kind: string, artifactKind: string) returns (result: Result<Head, Error>)
      ensures result == LoadApplied(Value(), scope, planId, kind, artifactKind)
    {
      hide ValidateHead;
      if !SCOPE_CHECK(scope) || !PLAN_ID_CHECK(planId) { return Err(Invalid); }
      if planId !in plans || plans[planId].organization != scope.organization || plans[planId].actor != scope.actor {
        return Err(NotFound);
      }
      var plan := plans[planId];
      if !ValidPlan(scope, plan) { return Err(Corrupt); }
      if plan.target.kind != kind || plan.artifactKind != artifactKind { return Err(Invalid); }
      if !plan.outcome.Applied? { return Err(Consumed); }
      var k := HeadKey(scope.organization, plan.target);
      if k !in heads { return Err(NotFound); }
      var head := heads[k];
      if Decoded(scope, head).Err? || !IsOutcome(plan, head) { return Err(Corrupt); }
      result := Ok(head);
    }

    /** An apply that may be run again: a consumed plan answers with what it produced. */
    method RunIdempotent(scope: Scope, planId: string, kind: string, artifactKind: string, env: Env, build: Builder)
      returns (result: Result<Head, Error>)
      modifies this
      ensures result == IdempotentResult(old(Value()), scope, planId, kind, artifactKind, env, build)
      ensures Value() == AfterApply(old(Value()), scope, planId, env, Guarded(kind, artifactKind, build))
    {
      hide ApplyResult, AfterApply, LoadApplied, Guarded;
      result := RunApplyTransaction(scope, planId, env, Guarded(kind, artifactKind, build));
      if result == Err(Consumed) { result := LoadAppliedResult(scope, planId, kind, artifactKind); }
    }
  }
}
