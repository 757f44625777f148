/** What holds after any run of plan creations and applies, whatever the builders, clocks and drawn ids. */
module ApplyRuns {
  import opened Text
  import opened Apply
  import ApplyRepo

  datatype Op = CreateOp(plan: Plan) | ApplyOp(scope: Scope, planId: string, env: Env, build: Builder)

  function Step(db: Db, op: Op): Db {
    match op
    case CreateOp(plan) => AfterCreate(db, plan)
    case ApplyOp(scope, planId, env, build) => AfterApply(db, scope, planId, env, build)
  }

  /** The tables after a run from empty ones. */
  function Final(ops: seq<Op>): Db {
    if ops == [] then EMPTY else Step(Final(ops[..|ops| - 1]), ops[|ops| - 1])
  }

  // ---------------------------------------------------------------- what a successful apply did

  function Consume(p: Plan, at: int, h: Head): Plan {
    p.(outcome := Applied(at, p.actor, h.id, h.identity, h.version, h.revision))
  }

  function PlanKey(p: Plan): HeadKey { HeadKey(p.organization, p.target) }

  /** The revision's document is the plan's with the server's fields filled in, and its references are the plan's, each once. */
  ghost predicate Carries(document: Manifest, references: seq<Reference>, r: Revision) {
    && r.version > 0 && r.spec == document.spec
    && r.manifest == document.(
         uid := r.identity.uid, version := Numeral(r.version, 10), generation := r.generation, status := r.manifest.status)
    && (forall x :: x in r.references <==> x in references)
    && (forall i, j :: 0 <= i < j < |r.references| ==> r.references[i] != r.references[j])
  }

  /** The head shows what its revision's document says, and who wrote it when. */
  ghost predicate Shows(h: Head, r: Revision) {
    && h.displayName == r.manifest.displayName && h.labels == r.manifest.labels && h.status == r.manifest.status
    && h.updatedBy == r.actor && h.updatedAt == r.createdAt
  }

  /** A head and a revision that say the same and fulfil the plan. */
  ghost predicate Fulfils(p: Plan, h: Head, r: Revision) {
    && KeyOfHead(h) == PlanKey(p) && KeyOfRevision(r) == RevisionKey(h.id, h.revision)
    && r.identity == h.identity && r.organization == h.organization
    && r.generation == h.generation && r.version == h.version
    && r.actor == p.actor && Shows(h, r) && Carries(p.manifest, p.references, r)
    && 1 <= h.revision <= h.version
  }

  ghost predicate Created(db: Db, next: Db, p: Plan, h: Head, r: Revision) {
    && p.operation == Create && PlanKey(p) !in db.heads && HeadIsNew(db.heads, h)
    && KeyOfRevision(r) !in db.revisions
    && h.revision == 1 && h.generation == 1 && h.version == 1 && h.createdBy == p.actor && h.createdAt == r.createdAt
    && next.heads == db.heads[PlanKey(p) := h] && next.revisions == db.revisions[KeyOfRevision(r) := r]
  }

  ghost predicate Updated(db: Db, next: Db, p: Plan, h: Head, r: Revision) {
    && p.operation == Update && PlanKey(p) in db.heads
    && var was := db.heads[PlanKey(p)];
       && was.id == p.targetResource && was.identity.uid == p.baseUid && was.version == p.baseVersion
       && RevisionKey(was.id, was.revision) in db.revisions && KeyOfRevision(r) !in db.revisions
       && h.id == was.id && h.identity == was.identity && h.organization == was.organization
       && h.createdBy == was.createdBy && h.createdAt == was.createdAt
       && h.revision == was.revision + 1 && h.version == was.version + 1
       && h.generation == was.generation + (if db.revisions[RevisionKey(was.id, was.revision)].spec != r.spec then 1 else 0)
       && next.heads == db.heads[PlanKey(p) := h] && next.revisions == db.revisions[KeyOfRevision(r) := r]
  }

  /** One apply: the plan is consumed, and its head and revision are stored. */
  ghost predicate Took(db: Db, next: Db, planId: string, at: int, h: Head, r: Revision) {
    && planId in db.plans && db.plans[planId].outcome.Pending?
    && Fulfils(db.plans[planId], h, r) && r.createdAt == at && db.plans[planId].createdAt <= at < db.plans[planId].expiresAt
    && next.plans == db.plans[planId := Consume(db.plans[planId], at, h)]
    && (Created(db, next, db.plans[planId], h, r) || Updated(db, next, db.plans[planId], h, r))
  }

  ghost predicate PlanKeys(db: Db) { forall id | id in db.plans :: db.plans[id].id == id }

  lemma NextIs(n: int, m: int)
    requires m == Next(n) && 0 < m <= MAX_INT
    ensures m == n + 1
  {}

  lemma LockedFacts(db: Db, scope: Scope, planId: string, env: Env)
    requires LoadLocked(db, scope, planId, env).Ok?
    ensures var s := LoadLocked(db, scope, planId, env).value;
      && planId in db.plans && s.plan == db.plans[planId] && s.plan.outcome.Pending? && s.scope == scope && s.at == env.now
      && s.plan.createdAt <= env.now < s.plan.expiresAt
      && s.plan.organization == scope.organization && (s.head.None? ==> s.identity.target == s.plan.target)
      && (s.plan.operation == Create ==> PlanKey(s.plan) !in db.heads && s.head.None? && s.current.None?)
      && (s.plan.operation == Update ==>
            && PlanKey(s.plan) in db.heads && s.head == Some(db.heads[PlanKey(s.plan)])
            && s.resource == s.head.value.id && s.identity == s.head.value.identity
            && s.head.value.id == s.plan.targetResource && s.head.value.identity.uid == s.plan.baseUid
            && s.head.value.version == s.plan.baseVersion
            && RevisionKey(s.head.value.id, s.head.value.revision) in db.revisions
            && s.current == Some(db.revisions[RevisionKey(s.head.value.id, s.head.value.revision)]))
  {
    hide ValidateHead, ValidateRevision;
  }

  lemma MutationFacts(s: Locked, m: Mutation)
    requires ValidateMutation(s, m).None?
    ensures m.head.organization == s.scope.organization && m.revision.organization == s.scope.organization
    ensures ValidateHead(s.scope, m.head).None? && ValidateRevision(s.scope, m.revision).None?
    ensures ValidCounters(m.head.revision, m.head.generation, m.head.version) && HeadAgrees(s, m)
    ensures Carries(s.plan.manifest, s.plan.references, m.revision) && (HeadAgrees(s, m) ==> Shows(m.head, m.revision))
    ensures if s.head.None? then ValidateCreate(s, m).None? else ValidateUpdate(s, m).None?
  {
    assert MatchesManifest(m.revision) && ValidateBinding(s, m).None? && HeadShows(m.head, m.revision.manifest) by {
      hide CanonicalReferences, ValidateCreate, ValidateUpdate, HeadShows, Authored, MatchesManifest, HeadAgrees, ValidReferences;
    }
    BindingFacts(s, m);
    hide CanonicalReferences, ValidateCreate, ValidateUpdate, Authored, MatchesManifest, ValidateBinding, Carries, ValidReferences;
  }

  lemma BindingFacts(s: Locked, m: Mutation)
    requires ValidateBinding(s, m).None? && MatchesManifest(m.revision)
    ensures Carries(s.plan.manifest, s.plan.references, m.revision) && m.artifactDigest == s.plan.artifactDigest
  {
    assert Authored(m.revision.manifest) == s.plan.manifest by { hide CanonicalReferences; }
    SameReferences(s.scope, s.plan.references, m.revision.references);
    hide CanonicalReferences, ValidReference;
  }

  lemma SameReferences(scope: Scope, a: seq<Reference>, b: seq<Reference>)
    requires CanonicalReferences(scope, a).Some? && CanonicalReferences(scope, b) == CanonicalReferences(scope, a)
    ensures forall x :: x in b <==> x in a
    ensures forall i, j :: 0 <= i < j < |b| ==> b[i] != b[j]
  {
    var s := CanonicalReferences(scope, a).value;
    assert forall x :: x in s <==> x in a;
    assert forall x :: x in s <==> x in b;
    hide ValidReference;
  }

  lemma ApplyPlanFacts(plan: Plan, at: int, h: Head)
    requires ApplyPlan(plan, at, h).Ok?
    ensures ApplyPlan(plan, at, h).value == Consume(plan, at, h) && h.identity.target == plan.target
  {}

  lemma UpdateFacts(s: Locked, m: Mutation)
    requires s.head.Some? && s.current.Some? && ValidateUpdate(s, m).None?
    requires ValidCounters(m.head.revision, m.head.generation, m.head.version)
    ensures var was, h := s.head.value, m.head;
      && h.id == was.id && h.organization == was.organization && h.identity == was.identity
      && h.createdBy == was.createdBy && h.createdAt == was.createdAt
      && h.revision == was.revision + 1 && h.version == was.version + 1
      && h.generation == was.generation + (if s.current.value.spec != m.revision.spec then 1 else 0)
  {
    NextIs(s.head.value.revision, m.head.revision);
    NextIs(s.head.value.version, m.head.version);
    if s.current.value.spec != m.revision.spec { NextIs(s.head.value.generation, m.head.generation); }
    hide Next;
  }

  lemma WriteFacts(db: Db, s: Locked, m: Mutation)
    requires WriteMutation(db, s, m).Ok? && s.plan.id in db.plans && db.plans[s.plan.id] == s.plan
    ensures var next := WriteMutation(db, s, m).value;
      && m.head.identity.target == s.plan.target
      && next.plans == db.plans[s.plan.id := Consume(s.plan, s.at, m.head)]
      && next.heads == db.heads[KeyOfHead(m.head) := m.head]
      && next.revisions == db.revisions[KeyOfRevision(m.revision) := m.revision]
      && KeyOfRevision(m.revision) !in db.revisions
      && (s.head.None? ==> HeadIsNew(db.heads, m.head))
  {
    ApplyPlanFacts(s.plan, s.at, m.head);
    hide ApplyPlan, HeadIsNew;
  }

  /** A successful apply took exactly one pending plan, and its head and revision are the builder's. */
  lemma ApplyTook(db: Db, scope: Scope, planId: string, env: Env, build: Builder) returns (h: Head, r: Revision)
    requires PlanKeys(db) && Transact(db, scope, planId, env, build).Ok?
    ensures Took(db, AfterApply(db, scope, planId, env, build), planId, env.now, h, r)
    ensures ApplyResult(db, scope, planId, env, build) == Ok(h) && ValidateHead(scope, h).None? && ValidateRevision(scope, r).None?
  {
    hide LoadLocked, ValidateMutation, WriteMutation;
    var s := LoadLocked(db, scope, planId, env).value;
    var m := build(s).value;
    h, r := m.head, m.revision;
    LockedFacts(db, scope, planId, env);
    MutationFacts(s, m);
    WriteFacts(db, s, m);
    hide Transact;
    TookFrom(db, scope, planId, env, s, m);
  }

  lemma TookFrom(db: Db, scope: Scope, planId: string, env: Env, s: Locked, m: Mutation)
    requires PlanKeys(db) && LoadLocked(db, scope, planId, env) == Ok(s) && ValidateMutation(s, m).None?
    requires WriteMutation(db, s, m).Ok?
    ensures Took(db, WriteMutation(db, s, m).value, planId, env.now, m.head, m.revision)
  {
    var next := WriteMutation(db, s, m).value;
    LockedFacts(db, scope, planId, env);
    MutationFacts(s, m);
    WriteFacts(db, s, m);
    hide LoadLocked, ValidateMutation, WriteMutation, Authored, HeadIsNew;
    if s.head.Some? {
      UpdateFacts(s, m);
      hide ValidateUpdate;
    }
  }

  /** Playing a run on the repository leaves exactly the tables of the run. */
  method Play(ops: seq<Op>) returns (repo: ApplyRepo.Repository)
    ensures fresh(repo) && repo.Value() == Final(ops)
  {
    hide AfterApply, AfterCreate, ApplyResult, CreateResult;
    repo := new ApplyRepo.Repository();
    for i := 0 to |ops|
      invariant fresh(repo) && repo.Value() == Final(ops[..i])
    {
      assert ops[..i + 1][..i] == ops[..i];
      match ops[i] {
        case CreateOp(plan) => var _ := repo.CreatePlan(plan);
        case ApplyOp(scope, planId, env, build) => var _ := repo.RunApplyTransaction(scope, planId, env, build);
      }
    }
    assert ops[..|ops|] == ops;
  }
}
