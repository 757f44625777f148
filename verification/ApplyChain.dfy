/** The revision chain of every resource, and the ledger that ties revisions to the plans that made them. */
module ApplyChain {
  import opened Text
  import opened Apply
  import opened ApplyRuns

  type Revisions = map<RevisionKey, Revision>
  type Heads = map<HeadKey, Head>

  function SpecAt(revs: Revisions, id: int, n: int): string {
    if RevisionKey(id, n) in revs then revs[RevisionKey(id, n)].spec else ""
  }

  /** How many of the first n revisions differ in spec from the one before. */
  function SpecChanges(revs: Revisions, id: int, n: int): nat
    decreases n
  {
    if n <= 1 then 0
    else SpecChanges(revs, id, n - 1) + if SpecAt(revs, id, n) != SpecAt(revs, id, n - 1) then 1 else 0
  }

  ghost predicate RevisionOk(revs: Revisions, h: Head, n: int) {
    && RevisionKey(h.id, n) in revs
    && var r := revs[RevisionKey(h.id, n)];
       && KeyOfRevision(r) == RevisionKey(h.id, n) && r.version == n && r.identity == h.identity
       && r.organization == h.organization && r.generation == 1 + SpecChanges(revs, h.id, n)
  }

  /** The revisions of a head are exactly 1 to its own, with one version and one generation count. */
  ghost predicate HeadOk(revs: Revisions, h: Head) {
    && h.version == h.revision >= 1
    && h.generation == 1 + SpecChanges(revs, h.id, h.revision)
    && (forall n :: RevisionKey(h.id, n) in revs <==> 1 <= n <= h.revision)
    && (forall n :: 1 <= n <= h.revision ==> RevisionOk(revs, h, n))
    && Shows(h, revs[RevisionKey(h.id, h.revision)])
    && h.createdBy == revs[RevisionKey(h.id, 1)].actor && h.createdAt == revs[RevisionKey(h.id, 1)].createdAt
  }

  ghost predicate HeadsOk(heads: Heads, revs: Revisions) {
    forall k | k in heads :: KeyOfHead(heads[k]) == k && HeadOk(revs, heads[k])
  }

  ghost predicate HeadsDiffer(heads: Heads) {
    forall k, l | k in heads && l in heads && k != l ::
      heads[k].id != heads[l].id && heads[k].identity.uid != heads[l].identity.uid
  }

  ghost predicate NoOrphans(heads: Heads, revs: Revisions) {
    forall rk | rk in revs :: exists k | k in heads :: heads[k].id == rk.resource
  }

  ghost predicate Chain(db: Db) {
    HeadsOk(db.heads, db.revisions) && HeadsDiffer(db.heads) && NoOrphans(db.heads, db.revisions)
  }

  // ---------------------------------------------------------------- the chain is kept

  lemma {:induction false} SpecChangesSame(revs: Revisions, more: Revisions, id: int, n: int)
    requires forall i :: i <= n ==> SpecAt(revs, id, i) == SpecAt(more, id, i)
    ensures SpecChanges(revs, id, n) == SpecChanges(more, id, n)
    decreases n
  {
    if n > 1 { SpecChangesSame(revs, more, id, n - 1); }
  }

  /** Rows of other resources do not touch a head's chain. */
  lemma OtherHeadOk(revs: Revisions, r: Revision, h: Head)
    requires HeadOk(revs, h) && r.resource != h.id
    ensures HeadOk(revs[KeyOfRevision(r) := r], h)
  {
    var more := revs[KeyOfRevision(r) := r];
    forall n
      ensures SpecChanges(more, h.id, n) == SpecChanges(revs, h.id, n)
    {
      SpecChangesSame(revs, more, h.id, n);
    }
    hide SpecChanges;
    forall n | 1 <= n <= h.revision
      ensures RevisionOk(more, h, n)
    {
      assert RevisionOk(revs, h, n);
    }
  }

  lemma NewHeadOk(revs: Revisions, h: Head, r: Revision)
    requires forall n :: RevisionKey(h.id, n) !in revs
    requires KeyOfRevision(r) == RevisionKey(h.id, 1) && h.revision == 1 && h.generation == 1 && h.version == 1
    requires r.identity == h.identity && r.organization == h.organization && r.generation == 1 && r.version == 1
    requires h.createdBy == r.actor && h.createdAt == r.createdAt && Shows(h, r)
    ensures HeadOk(revs[KeyOfRevision(r) := r], h)
  {}

  /** The next revision of a head extends its chain by one. */
  lemma NextHeadOk(revs: Revisions, was: Head, h: Head, r: Revision)
    requires HeadOk(revs, was)
    requires h.id == was.id && h.identity == was.identity && h.organization == was.organization
    requires h.createdBy == was.createdBy && h.createdAt == was.createdAt && Shows(h, r)
    requires h.revision == was.revision + 1 && h.version == was.version + 1 && KeyOfRevision(r) == RevisionKey(h.id, h.revision)
    requires r.identity == h.identity && r.organization == h.organization && r.generation == h.generation && r.version == h.version
    requires h.generation == was.generation + if SpecAt(revs, was.id, was.revision) != r.spec then 1 else 0
    ensures HeadOk(revs[KeyOfRevision(r) := r], h)
  {
    var more := revs[KeyOfRevision(r) := r];
    forall n | n <= was.revision
      ensures SpecChanges(more, h.id, n) == SpecChanges(revs, h.id, n)
    {
      SpecChangesSame(revs, more, h.id, n);
    }
    assert SpecChanges(more, h.id, h.revision) + 1 == h.generation;
    hide SpecChanges, SpecAt;
    forall n | 1 <= n <= h.revision
      ensures RevisionOk(more, h, n)
    {
      if n <= was.revision {
        assert RevisionOk(revs, was, n);
      }
    }
  }

  lemma HeadsOkAfter(heads: Heads, revs: Revisions, k: HeadKey, h: Head, r: Revision)
    requires HeadsOk(heads, revs) && HeadOk(revs[KeyOfRevision(r) := r], h) && KeyOfHead(h) == k
    requires forall l | l in heads && l != k :: heads[l].id != r.resource
    ensures HeadsOk(heads[k := h], revs[KeyOfRevision(r) := r])
  {
    hide HeadOk;
    forall l | l in heads && l != k
      ensures HeadOk(revs[KeyOfRevision(r) := r], heads[l])
    {
      OtherHeadOk(revs, r, heads[l]);
    }
  }

  lemma HeadsDifferAfter(heads: Heads, k: HeadKey, h: Head)
    requires HeadsDiffer(heads)
    requires k in heads ==> heads[k].id == h.id && heads[k].identity == h.identity
    requires k !in heads ==> HeadIsNew(heads, h)
    ensures HeadsDiffer(heads[k := h])
  {}

  lemma NoRevisionsYet(db: Db, h: Head)
    requires NoOrphans(db.heads, db.revisions) && HeadIsNew(db.heads, h)
    ensures forall n :: RevisionKey(h.id, n) !in db.revisions
  {
    assert forall rk | rk in db.revisions :: rk.resource != h.id;
  }

  lemma CreatedKeepsChain(db: Db, next: Db, p: Plan, h: Head, r: Revision)
    requires Chain(db) && Created(db, next, p, h, r) && Fulfils(p, h, r)
    ensures Chain(next)
  {
    hide HeadOk, Carries, NoOrphans, HeadsOk, HeadsDiffer;
    NoRevisionsYet(db, h);
    NewHeadOk(db.revisions, h, r);
    HeadsOkAfter(db.heads, db.revisions, PlanKey(p), h, r);
    HeadsDifferAfter(db.heads, PlanKey(p), h);
    NoOrphansAfter(db, next, PlanKey(p), h, r);
  }

  lemma NoOrphansAfter(db: Db, next: Db, k: HeadKey, h: Head, r: Revision)
    requires NoOrphans(db.heads, db.revisions) && (k in db.heads ==> db.heads[k].id == h.id) && r.resource == h.id
    requires next.heads == db.heads[k := h] && next.revisions == db.revisions[KeyOfRevision(r) := r]
    ensures NoOrphans(next.heads, next.revisions)
  {
    forall rk | rk in next.revisions
      ensures exists l | l in next.heads :: next.heads[l].id == rk.resource
    {
      if rk == KeyOfRevision(r) {
        assert next.heads[k].id == rk.resource;
      } else {
        var l :| l in db.heads && db.heads[l].id == rk.resource;
        assert l in next.heads && next.heads[l].id == rk.resource;
      }
    }
  }

  lemma HeadAt(db: Db, k: HeadKey)
    requires Chain(db) && k in db.heads
    ensures HeadOk(db.revisions, db.heads[k]) && KeyOfHead(db.heads[k]) == k
    ensures forall l | l in db.heads && l != k :: db.heads[l].id != db.heads[k].id
  {
    hide HeadOk, NoOrphans;
  }

  lemma UpdatedKeepsChain(db: Db, next: Db, p: Plan, h: Head, r: Revision)
    requires Chain(db) && Updated(db, next, p, h, r) && Fulfils(p, h, r)
    ensures Chain(next)
  {
    var was := db.heads[PlanKey(p)];
    assert SpecAt(db.revisions, was.id, was.revision) == db.revisions[RevisionKey(was.id, was.revision)].spec;
    HeadAt(db, PlanKey(p));
    hide HeadOk, SpecAt, Carries, NoOrphans, HeadsOk, HeadsDiffer;
    NextHeadOk(db.revisions, was, h, r);
    HeadsOkAfter(db.heads, db.revisions, PlanKey(p), h, r);
    HeadsDifferAfter(db.heads, PlanKey(p), h);
    NoOrphansAfter(db, next, PlanKey(p), h, r);
  }

  lemma TookKeepsChain(db: Db, next: Db, planId: string, at: int, h: Head, r: Revision)
    requires Chain(db) && Took(db, next, planId, at, h, r)
    ensures Chain(next)
  {
    hide Chain, Created, Updated, Fulfils;
    var p := db.plans[planId];
    if Created(db, next, p, h, r) { CreatedKeepsChain(db, next, p, h, r); } else { UpdatedKeepsChain(db, next, p, h, r); }
  }

  // ---------------------------------------------------------------- the ledger

  ghost predicate Made(p: Plan, rk: RevisionKey) {
    p.outcome.Applied? && p.outcome.resource == rk.resource && p.outcome.revision == rk.revision
  }

  /** An applied plan names a stored revision of its target, which carries its document and references; it was applied in time by its actor. */
  ghost predicate PlanOk(heads: Heads, revs: Revisions, p: Plan) {
    p.outcome.Applied? ==>
      (var o := p.outcome;
       && PlanKey(p) in heads && heads[PlanKey(p)].id == o.resource && heads[PlanKey(p)].identity == o.identity
       && RevisionKey(o.resource, o.revision) in revs && o.version == o.revision
       && revs[RevisionKey(o.resource, o.revision)].actor == p.actor
       && revs[RevisionKey(o.resource, o.revision)].createdAt == o.at && p.createdAt <= o.at < p.expiresAt
       && o.consumer == p.actor && Carries(p.manifest, p.references, revs[RevisionKey(o.resource, o.revision)])
       && (p.operation == Create ==> o.revision == 1)
       && (p.operation == Update ==> o.resource == p.targetResource && o.identity.uid == p.baseUid && o.revision == p.baseVersion + 1))
  }

  ghost predicate PlansOk(db: Db) { forall id | id in db.plans :: PlanOk(db.heads, db.revisions, db.plans[id]) }

  /** No two plans made the same revision. */
  ghost predicate MadeOnce(plans: map<string, Plan>) {
    forall i, j, rk | i in plans && j in plans && Made(plans[i], rk) && Made(plans[j], rk) :: i == j
  }

  /** Every revision was made by a plan. */
  ghost predicate MadeByPlan(plans: map<string, Plan>, revs: Revisions) {
    forall rk | rk in revs :: exists id | id in plans :: Made(plans[id], rk)
  }

  ghost predicate Ledger(db: Db) {
    PlanKeys(db) && PlansOk(db) && MadeOnce(db.plans) && MadeByPlan(db.plans, db.revisions)
  }

  ghost predicate Inv(db: Db) { Chain(db) && Ledger(db) }

  lemma PlanStaysOk(db: Db, next: Db, p: Plan, k: HeadKey, h: Head, r: Revision)
    requires PlanOk(db.heads, db.revisions, p) && KeyOfRevision(r) !in db.revisions
    requires k in db.heads ==> db.heads[k].id == h.id && db.heads[k].identity == h.identity
    requires next.heads == db.heads[k := h] && next.revisions == db.revisions[KeyOfRevision(r) := r]
    ensures PlanOk(next.heads, next.revisions, p)
  {
    hide Carries;
  }

  lemma NewPlanOk(db: Db, next: Db, planId: string, at: int, h: Head, r: Revision)
    requires Chain(db) && Took(db, next, planId, at, h, r)
    ensures PlanOk(next.heads, next.revisions, next.plans[planId])
  {
    hide Carries, HeadOk, NoOrphans, HeadsDiffer, HeadIsNew;
    var p := db.plans[planId];
    if Updated(db, next, p, h, r) {
      assert db.heads[PlanKey(p)].version == db.heads[PlanKey(p)].revision by { HeadVersion(db, PlanKey(p)); }
    }
  }

  lemma HeadVersion(db: Db, k: HeadKey)
    requires Chain(db) && k in db.heads
    ensures db.heads[k].version == db.heads[k].revision && KeyOfHead(db.heads[k]) == k
    ensures forall n :: RevisionKey(db.heads[k].id, n) in db.revisions <==> 1 <= n <= db.heads[k].revision
  {}

  lemma TookIsMadeOnce(db: Db, next: Db, planId: string, at: int, h: Head, r: Revision)
    requires Ledger(db) && Took(db, next, planId, at, h, r)
    ensures MadeOnce(next.plans) && MadeByPlan(next.plans, next.revisions)
  {
    var rk := KeyOfRevision(r);
    assert rk !in db.revisions && next.revisions == db.revisions[rk := r] && rk == RevisionKey(h.id, h.revision) by {
      hide Ledger, Carries, HeadIsNew;
    }
    hide Took, Carries;
    assert next.plans == db.plans[planId := Consume(db.plans[planId], at, h)] && planId in db.plans
      && db.plans[planId].outcome.Pending? by { TookPlans(db, next, planId, at, h, r); }
    assert forall id | id in db.plans :: !Made(db.plans[id], rk);
    assert Made(next.plans[planId], rk);
    forall l | l in next.revisions
      ensures exists id | id in next.plans :: Made(next.plans[id], l)
    {
      if l != rk {
        var id :| id in db.plans && Made(db.plans[id], l);
        assert id in next.plans && Made(next.plans[id], l);
      }
    }
  }

  lemma TookPlans(db: Db, next: Db, planId: string, at: int, h: Head, r: Revision)
    requires Took(db, next, planId, at, h, r)
    ensures next.plans == db.plans[planId := Consume(db.plans[planId], at, h)] && planId in db.plans
    ensures db.plans[planId].outcome.Pending?
  {
    hide Created, Updated, Fulfils;
  }

  lemma TookKeepsPlans(db: Db, next: Db, planId: string, at: int, h: Head, r: Revision)
    requires Inv(db) && Took(db, next, planId, at, h, r)
    ensures PlansOk(next)
  {
    NewPlanOk(db, next, planId, at, h, r);
    TookPlans(db, next, planId, at, h, r);
    TookRows(db, next, planId, at, h, r);
    var k := PlanKey(db.plans[planId]);
    hide Took, Chain, PlanOk;
    forall id | id in db.plans && id != planId
      ensures PlanOk(next.heads, next.revisions, next.plans[id])
    {
      PlanStaysOk(db, next, db.plans[id], k, h, r);
    }
  }

  /** What never changes about a resource. */
  ghost predicate SameResource(a: Head, b: Head) {
    a.id == b.id && a.identity == b.identity && a.organization == b.organization && a.createdBy == b.createdBy &&
    a.createdAt == b.createdAt
  }

  lemma TookRows(db: Db, next: Db, planId: string, at: int, h: Head, r: Revision)
    requires Took(db, next, planId, at, h, r)
    ensures var k := PlanKey(db.plans[planId]);
      && (k in db.heads ==> SameResource(db.heads[k], h) && db.heads[k].revision < h.revision && db.heads[k].version < h.version)
      && KeyOfRevision(r) !in db.revisions
      && next.heads == db.heads[k := h] && next.revisions == db.revisions[KeyOfRevision(r) := r]
  {
    hide Carries, HeadIsNew;
  }

  // ---------------------------------------------------------------- every run

  lemma CreateKeeps(db: Db, plan: Plan)
    requires Inv(db)
    ensures Inv(AfterCreate(db, plan))
  {
    hide Chain, PlanOk;
    var next := AfterCreate(db, plan);
    if next != db {
      forall rk | rk in db.revisions
        ensures exists id | id in next.plans :: Made(next.plans[id], rk)
      {
        var id :| id in db.plans && Made(db.plans[id], rk);
        assert id in next.plans && Made(next.plans[id], rk);
      }
      assert PlanOk(db.heads, db.revisions, plan) by { PendingIsOk(db, plan); }
      ChainOfTables(db, next);
    }
  }

  lemma PendingIsOk(db: Db, plan: Plan)
    requires plan.outcome.Pending?
    ensures PlanOk(db.heads, db.revisions, plan)
  {}

  lemma ChainOfTables(db: Db, next: Db)
    requires Chain(db) && next.heads == db.heads && next.revisions == db.revisions
    ensures Chain(next)
  {}

  lemma ApplyKeeps(db: Db, scope: Scope, planId: string, env: Env, build: Builder)
    requires Inv(db)
    ensures Inv(AfterApply(db, scope, planId, env, build))
  {
    hide Chain, Transact, PlansOk, MadeOnce, MadeByPlan, Took;
    if Transact(db, scope, planId, env, build).Ok? {
      var h, r := ApplyTook(db, scope, planId, env, build);
      var next := AfterApply(db, scope, planId, env, build);
      hide AfterApply;
      TookKeepsChain(db, next, planId, env.now, h, r);
      TookIsMadeOnce(db, next, planId, env.now, h, r);
      TookKeepsPlans(db, next, planId, env.now, h, r);
      TookPlans(db, next, planId, env.now, h, r);
    }
  }

  lemma {:induction false} AlwaysInv(ops: seq<Op>)
    ensures Inv(Final(ops))
  {
    if ops == [] {
    } else {
      hide Inv, AfterCreate, AfterApply;
      AlwaysInv(ops[..|ops| - 1]);
      var db := Final(ops[..|ops| - 1]);
      match ops[|ops| - 1]
      case CreateOp(plan) => CreateKeeps(db, plan);
      case ApplyOp(scope, planId, env, build) => ApplyKeeps(db, scope, planId, env, build);
    }
  }

  /**
   * The revision chain, in every reachable state: each head's version is its revision, its stored revisions are
   * exactly 1 to that, all of its identity, and its generation is one more than its number of spec changes.
   */
  lemma RevisionChain(ops: seq<Op>, k: HeadKey)
    requires k in Final(ops).heads
    ensures KeyOfHead(Final(ops).heads[k]) == k && HeadOk(Final(ops).revisions, Final(ops).heads[k])
  {
    AlwaysInv(ops);
    hide Final, HeadOk, Ledger;
  }

  /** Every stored revision is the result of exactly one applied plan, whose document and actor it carries. */
  lemma RevisionHasOnePlan(ops: seq<Op>, rk: RevisionKey)
    requires rk in Final(ops).revisions
    ensures exists id | id in Final(ops).plans ::
      && Made(Final(ops).plans[id], rk) && PlanOk(Final(ops).heads, Final(ops).revisions, Final(ops).plans[id])
      && forall other | other in Final(ops).plans && Made(Final(ops).plans[other], rk) :: other == id
  {
    AlwaysInv(ops);
    var db := Final(ops);
    hide Final, Chain, PlanOk, Made;
    var id :| id in db.plans && Made(db.plans[id], rk);
  }

  /** No lost update: of two plans for one base version of a resource at most one is ever applied. */
  lemma OneUpdatePerBase(ops: seq<Op>, i: string, j: string)
    requires i in Final(ops).plans && j in Final(ops).plans
    requires Final(ops).plans[i].outcome.Applied? && Final(ops).plans[j].outcome.Applied?
    requires Final(ops).plans[i].operation == Final(ops).plans[j].operation == Update
    requires Final(ops).plans[i].targetResource == Final(ops).plans[j].targetResource
    requires Final(ops).plans[i].baseVersion == Final(ops).plans[j].baseVersion
    ensures i == j
  {
    AlwaysInv(ops);
    var db := Final(ops);
    hide Final, Chain, Carries;
    var rk := RevisionKey(db.plans[i].outcome.resource, db.plans[i].outcome.revision);
    assert PlanOk(db.heads, db.revisions, db.plans[i]) && PlanOk(db.heads, db.revisions, db.plans[j]);
    assert Made(db.plans[i], rk) && Made(db.plans[j], rk);
  }

  /** Of two plans to create one target at most one is ever applied. */
  lemma OneCreatePerTarget(ops: seq<Op>, i: string, j: string)
    requires i in Final(ops).plans && j in Final(ops).plans
    requires Final(ops).plans[i].outcome.Applied? && Final(ops).plans[j].outcome.Applied?
    requires Final(ops).plans[i].operation == Final(ops).plans[j].operation == Create
    requires PlanKey(Final(ops).plans[i]) == PlanKey(Final(ops).plans[j])
    ensures i == j
  {
    AlwaysInv(ops);
    var db := Final(ops);
    hide Final, Chain, Carries;
    var rk := RevisionKey(db.plans[i].outcome.resource, db.plans[i].outcome.revision);
    assert PlanOk(db.heads, db.revisions, db.plans[i]) && PlanOk(db.heads, db.revisions, db.plans[j]);
    assert Made(db.plans[i], rk) && Made(db.plans[j], rk);
  }

  /** What a step keeps: resources their identity and creator, revisions every field, consumed plans their outcome. */
  ghost predicate Keeps(db: Db, next: Db) {
    && (forall k | k in db.heads :: k in next.heads && SameResource(db.heads[k], next.heads[k])
          && next.heads[k].revision >= db.heads[k].revision && next.heads[k].version >= db.heads[k].version)
    && (forall rk | rk in db.revisions :: rk in next.revisions && next.revisions[rk] == db.revisions[rk])
    && (forall id | id in db.plans :: id in next.plans && (db.plans[id].outcome.Applied? ==> next.plans[id] == db.plans[id]))
  }

  lemma StepKeeps(ops: seq<Op>, op: Op)
    ensures Keeps(Final(ops), Step(Final(ops), op))
  {
    var db := Final(ops);
    AlwaysInv(ops);
    hide Final, Chain, PlansOk, MadeOnce, MadeByPlan, Transact, Took;
    match op
    case CreateOp(plan) =>
    case ApplyOp(scope, planId, env, build) =>
      if Transact(db, scope, planId, env, build).Ok? {
        var h, r := ApplyTook(db, scope, planId, env, build);
        var next := AfterApply(db, scope, planId, env, build);
        hide AfterApply;
        TookPlans(db, next, planId, env.now, h, r);
        TookRows(db, next, planId, env.now, h, r);
      }
  }

  /** An apply that succeeds stores its head, consumes its plan and reports the head it stored. */
  lemma ApplyStores(ops: seq<Op>, scope: Scope, planId: string, env: Env, build: Builder)
    requires ApplyResult(Final(ops), scope, planId, env, build).Ok?
    ensures var db, next := Final(ops), AfterApply(Final(ops), scope, planId, env, build);
      var h := ApplyResult(Final(ops), scope, planId, env, build).value;
      && planId in db.plans && planId in next.plans && next.plans[planId] == Consume(db.plans[planId], env.now, h)
      && PlanKey(db.plans[planId]) in next.heads && next.heads[PlanKey(db.plans[planId])] == h
  {
    AlwaysInv(ops);
    var db := Final(ops);
    hide Final, Chain, PlansOk, MadeOnce, MadeByPlan, Transact, Took;
    var h, r := ApplyTook(db, scope, planId, env, build);
    var next := AfterApply(db, scope, planId, env, build);
    hide AfterApply;
    TookPlans(db, next, planId, env.now, h, r);
    TookRows(db, next, planId, env.now, h, r);
  }

  // ---------------------------------------------------------------- consumed plans

  /** What every stored head fulfils, whoever reads it. */
  ghost predicate Storable(h: Head) {
    && h.id > 0 && IDENTITY_CHECK(h.identity) && HEAD_CHECK(h).None?
    && 0 < h.generation <= h.revision <= h.version <= 0x7FFF_FFFF_FFFF_FFFF && h.createdBy > 0 && h.updatedBy > 0
    && h.createdAt != 0 && h.updatedAt != 0 && h.createdAt <= h.updatedAt
  }

  /** A stored head decodes for exactly the callers of its tenant. */
  lemma DecodesExactly(scope: Scope, h: Head)
    requires Storable(h)
    ensures Decoded(scope, h) == Ok(h) <==>
      SCOPE_CHECK(scope) && h.organization == scope.organization && h.identity.target.namespace == scope.slug
  {}

  ghost predicate StorableRevision(r: Revision) {
    && r.resource > 0 && IDENTITY_CHECK(r.identity) && r.actor > 0
    && 0 < r.generation <= r.revision <= r.version <= 0x7FFF_FFFF_FFFF_FFFF
    && r.createdAt != 0 && REVISION_CHECK(r).None? && r.spec == r.manifest.spec
    && r.manifest.uid == r.identity.uid && r.manifest.generation == r.generation && r.manifest.version == Numeral(r.version, 10)
    && r.identity.target == Target(r.manifest.apiVersion, r.manifest.kind, r.manifest.namespace, r.manifest.name)
    && (forall i :: 0 <= i < |r.references| ==>
          r.references[i].namespace == r.manifest.namespace && r.references[i].revision > 0 && REFERENCE_CHECK(r.references[i]))
    && (forall i, j :: 0 <= i < j < |r.references| ==> r.references[i].(digest := "") != r.references[j].(digest := ""))
  }

  lemma RevisionDecodesExactly(scope: Scope, r: Revision)
    ensures ValidateRevision(scope, r).None? <==>
      && StorableRevision(r) && SCOPE_CHECK(scope) && r.organization == scope.organization
      && r.identity.target.namespace == scope.slug
  {}

  lemma ValidIsStorable(scope: Scope, h: Head)
    requires ValidateHead(scope, h).None?
    ensures Storable(h)
  {}

  ghost predicate AllStorable(db: Db) {
    (forall k | k in db.heads :: Storable(db.heads[k])) && forall rk | rk in db.revisions :: StorableRevision(db.revisions[rk])
  }

  lemma ApplyKeepsStorable(db: Db, scope: Scope, planId: string, env: Env, build: Builder)
    requires Inv(db) && AllStorable(db)
    ensures AllStorable(AfterApply(db, scope, planId, env, build))
  {
    hide PlansOk, MadeOnce, MadeByPlan, Chain;
    KeysOf(db);
    hide Inv, Storable, StorableRevision, Transact, Took, ValidateHead, ValidateRevision;
    if Transact(db, scope, planId, env, build).Ok? {
      var h, r := ApplyTook(db, scope, planId, env, build);
      var next := AfterApply(db, scope, planId, env, build);
      hide AfterApply;
      TookRows(db, next, planId, env.now, h, r);
      ValidIsStorable(scope, h);
      RevisionDecodesExactly(scope, r);
    }
  }

  lemma {:induction false} HeadsAreStorable(ops: seq<Op>)
    ensures AllStorable(Final(ops))
  {
    if ops != [] {
      hide Storable, StorableRevision, Inv, AfterApply, AllStorable;
      var init := ops[..|ops| - 1];
      AlwaysInv(init);
      HeadsAreStorable(init);
      match ops[|ops| - 1]
      case CreateOp(plan) => CreateKeepsStorable(Final(init), plan);
      case ApplyOp(scope, planId, env, build) => ApplyKeepsStorable(Final(init), scope, planId, env, build);
    }
  }

  lemma CreateKeepsStorable(db: Db, plan: Plan)
    requires AllStorable(db)
    ensures AllStorable(AfterCreate(db, plan))
  {
    hide Storable, StorableRevision;
  }

  lemma KeysOf(db: Db)
    requires Inv(db)
    ensures PlanKeys(db)
  {
    hide Chain, PlansOk, MadeOnce, MadeByPlan;
  }

  /** The caller may see the plan, and it was applied. */
  ghost predicate Spent(db: Db, scope: Scope, planId: string) {
    && SCOPE_CHECK(scope) && PLAN_ID_CHECK(planId) && planId in db.plans
    && db.plans[planId].organization == scope.organization && ValidPlan(scope, db.plans[planId])
    && db.plans[planId].outcome.Applied?
  }

  /** The resource of an applied plan is still what the plan made of it. */
  ghost predicate StillCurrent(db: Db, p: Plan)
    requires p.outcome.Applied?
  {
    PlanKey(p) in db.heads && db.heads[PlanKey(p)].revision == p.outcome.revision
  }

  lemma OutcomeIsCurrent(ops: seq<Op>, scope: Scope, planId: string)
    requires Spent(Final(ops), scope, planId)
    ensures var db, p := Final(ops), Final(ops).plans[planId];
      && PlanKey(p) in db.heads && Decoded(scope, db.heads[PlanKey(p)]) == Ok(db.heads[PlanKey(p)])
      && (IsOutcome(p, db.heads[PlanKey(p)]) <==> StillCurrent(db, p))
  {
    AlwaysInv(ops);
    var db := Final(ops);
    var p := db.plans[planId];
    assert PlanOk(db.heads, db.revisions, p);
    HeadVersion(db, PlanKey(p));
    HeadsAreStorable(ops);
    hide Final, Inv, Storable, StorableRevision, Decoded, Carries, ValidOutcome;
    DecodesExactly(scope, db.heads[PlanKey(p)]);
  }

  /** A member may create; to update one must be the creator, an owner or an admin. */
  ghost predicate MayApply(scope: Scope, p: Plan, createdBy: int, member: Option<Role>) {
    member.Some? && (p.operation == Create || createdBy == scope.actor || member.value in {Owner, Admin})
  }

  lemma AuthorizesExactly(scope: Scope, p: Plan, head: Option<Head>, env: Env)
    requires p.operation == Update ==> head.Some?
    ensures Authorize(scope, p, head, env) ==
      if MayApply(scope, p, if head.Some? then head.value.createdBy else 0, env.member) then None else Some(Forbidden)
  {
    if env.member.Some? {
      assert env.member.value in {Owner, Admin} <==> env.member.value != Member;
    }
  }

  /**
   * A plan that was applied is never applied again. Whoever may not apply it is told so, and otherwise the answer
   * is that it is consumed; but once the resource has moved on the answer is that the outcome is corrupt.
   */
  lemma AppliedPlanIsSpent(ops: seq<Op>, scope: Scope, planId: string, env: Env, build: Builder)
    requires Spent(Final(ops), scope, planId)
    ensures AfterApply(Final(ops), scope, planId, env, build) == Final(ops)
    ensures var db, p := Final(ops), Final(ops).plans[planId];
      && PlanKey(p) in db.heads
      && ApplyResult(db, scope, planId, env, build) ==
           Err(if !StillCurrent(db, p) then Corrupt
               else if !MayApply(scope, p, db.heads[PlanKey(p)].createdBy, env.member) then Forbidden else Consumed)
  {
    OutcomeIsCurrent(ops, scope, planId);
    var db, p := Final(ops), Final(ops).plans[planId];
    AuthorizesExactly(scope, p, Some(db.heads[PlanKey(p)]), env);
    hide Final, LoadTarget, ValidateMutation, WriteMutation, Authorize, Decoded, StillCurrent, ValidPlan, IsOutcome, MayApply;
    assert LoadLocked(Final(ops), scope, planId, env) == Err(Consumed);
  }

  /** Running a consumed plan again answers with the resource as long as that is what the plan made of it. */
  lemma RerunAnswers(ops: seq<Op>, scope: Scope, planId: string, env: Env, build: Builder)
    requires Spent(Final(ops), scope, planId)
    ensures var db, p := Final(ops), Final(ops).plans[planId];
      && PlanKey(p) in db.heads
      && IdempotentResult(db, scope, planId, p.target.kind, p.artifactKind, env, build) ==
           if !StillCurrent(db, p) then Err(Corrupt)
           else if !MayApply(scope, p, db.heads[PlanKey(p)].createdBy, env.member) then Err(Forbidden)
           else Ok(db.heads[PlanKey(p)])
  {
    var db := Final(ops);
    var p := db.plans[planId];
    AppliedPlanIsSpent(ops, scope, planId, env, Guarded(p.target.kind, p.artifactKind, build));
    OutcomeIsCurrent(ops, scope, planId);
    hide Final, ApplyResult, AfterApply, MayApply, Decoded, StillCurrent, Guarded, ValidPlan, IsOutcome;
  }

  /** As soon as a later plan was applied to the resource, running the earlier one again is answered as corrupt. */
  lemma OvertakenPlanIsCorrupt(ops: seq<Op>, scope: Scope, planId: string, later: string, env: Env, build: Builder)
    requires Spent(Final(ops), scope, planId) && later in Final(ops).plans && Final(ops).plans[later].outcome.Applied?
    requires PlanKey(Final(ops).plans[later]) == PlanKey(Final(ops).plans[planId])
    requires Final(ops).plans[later].outcome.revision > Final(ops).plans[planId].outcome.revision
    ensures IdempotentResult(
      Final(ops), scope, planId, Final(ops).plans[planId].target.kind, Final(ops).plans[planId].artifactKind, env, build) == Err(Corrupt)
  {
    var db := Final(ops);
    AlwaysInv(ops);
    RerunAnswers(ops, scope, planId, env, build);
    assert PlanOk(db.heads, db.revisions, db.plans[later]);
    HeadVersion(db, PlanKey(db.plans[later]));
    hide Final, Inv, IdempotentResult, MayApply, Carries, Spent;
  }

  /** An apply that succeeded can be run again: it answers the same head, and nothing is written twice. */
  lemma RunTwice(
    ops: seq<Op>, scope: Scope, planId: string, kind: string, artifactKind: string, env: Env, build: Builder, env2: Env, build2: Builder)
    requires ApplyResult(Final(ops), scope, planId, env, Guarded(kind, artifactKind, build)).Ok?
    ensures var h := ApplyResult(Final(ops), scope, planId, env, Guarded(kind, artifactKind, build)).value;
      var next := AfterApply(Final(ops), scope, planId, env, Guarded(kind, artifactKind, build));
      && planId in next.plans
      && AfterApply(next, scope, planId, env2, Guarded(kind, artifactKind, build2)) == next
      && IdempotentResult(next, scope, planId, kind, artifactKind, env2, build2) ==
         if MayApply(scope, next.plans[planId], h.createdBy, env2.member) then Ok(h) else Err(Forbidden)
  {
    var guarded, guarded2 := Guarded(kind, artifactKind, build), Guarded(kind, artifactKind, build2);
    var db, op := Final(ops), ApplyOp(scope, planId, env, guarded);
    var more := ops + [op];
    var next := AfterApply(db, scope, planId, env, guarded);
    assert more[..|more| - 1] == ops && Final(more) == next;
    ApplyStores(ops, scope, planId, env, guarded);
    GuardedPlan(db, scope, planId, kind, artifactKind, env, build);
    var h := ApplyResult(db, scope, planId, env, guarded).value;
    ConsumedStaysValid(scope, db.plans[planId], env.now, h);
    hide Final, ApplyResult, AfterApply, IdempotentResult, Guarded, ValidPlan, ResultFits;
    AppliedPlanIsSpent(more, scope, planId, env2, guarded2);
    RerunAnswers(more, scope, planId, env2, build2);
    hide MayApply;
  }

  /** Consuming a plan as its result allows leaves it valid. */
  lemma ConsumedStaysValid(scope: Scope, p: Plan, at: int, h: Head)
    requires ValidPlan(scope, p) && p.outcome.Pending? && p.createdAt <= at < p.expiresAt
    requires ResultFits(p, h.id, h.identity, h.version, h.revision)
    ensures ValidPlan(scope, Consume(p, at, h))
  {
    var next := Consume(p, at, h);
    assert next.(outcome := Pending) == p;
  }

  /** A guarded apply only takes a plan of its own kind, at a time and with a result that the plan allows. */
  lemma GuardedPlan(db: Db, scope: Scope, planId: string, kind: string, artifactKind: string, env: Env, build: Builder)
    requires Transact(db, scope, planId, env, Guarded(kind, artifactKind, build)).Ok?
    ensures SCOPE_CHECK(scope) && PLAN_ID_CHECK(planId) && planId in db.plans
    ensures var p, h := db.plans[planId], ApplyResult(db, scope, planId, env, Guarded(kind, artifactKind, build)).value;
      && p.target.kind == kind && p.artifactKind == artifactKind && p.organization == scope.organization
      && ValidPlan(scope, p) && p.outcome.Pending? && p.createdAt <= env.now < p.expiresAt
      && ResultFits(p, h.id, h.identity, h.version, h.revision)
  {
    hide LoadTarget, ValidateMutation, ConsumePlan, InsertMutation, UpdateMutation, Authorize, ValidPlan, ResultFits, ConsumedAnswer;
    var guarded := Guarded(kind, artifactKind, build);
    var s := LoadLocked(db, scope, planId, env).value;
    assert s.plan == db.plans[planId] && s.at == env.now by { LoadedPlan(db, scope, planId, env); }
    assert guarded(s).Ok?;
  }

  lemma LoadedPlan(db: Db, scope: Scope, planId: string, env: Env)
    requires LoadLocked(db, scope, planId, env).Ok?
    ensures planId in db.plans && db.plans[planId].organization == scope.organization && ValidPlan(scope, db.plans[planId])
    ensures LoadLocked(db, scope, planId, env).value.plan == db.plans[planId]
    ensures LoadLocked(db, scope, planId, env).value.at == env.now
  {
    hide Decoded, ValidateRevision, ValidPlan;
  }
}
