/** What exactly an apply answers for a pending plan, in every reachable state, and what it writes. */
module ApplyAnswers {
  import opened Text
  import opened Apply
  import opened ApplyRuns
  import opened ApplyChain

  /** The caller may see the plan, and it has not been applied. */
  ghost predicate Open(db: Db, scope: Scope, planId: string) {
    && SCOPE_CHECK(scope) && PLAN_ID_CHECK(planId) && planId in db.plans
    && db.plans[planId].organization == scope.organization && ValidPlan(scope, db.plans[planId])
    && db.plans[planId].outcome.Pending?
  }

  /** A plan to create finds no resource; a plan to update finds the one it was made for, at the version it was made on. */
  ghost predicate TargetFits(db: Db, p: Plan) {
    if p.operation == Create then PlanKey(p) !in db.heads
    else
      && PlanKey(p) in db.heads && db.heads[PlanKey(p)].id == p.targetResource
      && db.heads[PlanKey(p)].identity.uid == p.baseUid && db.heads[PlanKey(p)].version == p.baseVersion
  }

  /** What the builder is given: for an update the head and its revision, for a new resource an id and an identity. */
  ghost function Given(db: Db, scope: Scope, p: Plan, env: Env): Locked
    requires p.operation == Update ==> PlanKey(p) in db.heads && CurrentKey(db, p) in db.revisions
  {
    if p.operation == Create then Locked(p, scope, None, None, env.id, Identity(p.target, env.uid), env.now)
    else
      var h := db.heads[PlanKey(p)];
      Locked(p, scope, Some(h), Some(db.revisions[CurrentKey(db, p)]), h.id, h.identity, env.now)
  }

  ghost function CurrentKey(db: Db, p: Plan): RevisionKey
    requires PlanKey(p) in db.heads
  {
    RevisionKey(db.heads[PlanKey(p)].id, db.heads[PlanKey(p)].revision)
  }

  /** A first revision counts from one; a later one goes on from the head, its generation only if the spec differs. */
  ghost predicate Counts(g: Locked, h: Head, spec: string)
    requires g.head.Some? ==> g.current.Some?
  {
    if g.head.None? then h.revision == h.version == h.generation == 1 && h.createdBy == g.plan.actor && h.createdAt == g.at
    else
      && h.revision == g.head.value.revision + 1 && h.version == g.head.value.version + 1
      && h.generation == g.head.value.generation + (if g.current.value.spec != spec then 1 else 0)
      && h.createdBy == g.head.value.createdBy && h.createdAt == g.head.value.createdAt
  }

  /** What the head and the revision of a mutation must be, whoever built them. */
  ghost predicate Right(g: Locked, m: Mutation)
    requires g.head.Some? ==> g.current.Some?
  {
    var h, r := m.head, m.revision;
    && h.id == r.resource == g.resource && h.identity == r.identity == g.identity
    && h.organization == r.organization == g.scope.organization
    && h.revision == r.revision && h.generation == r.generation && h.version == r.version && Counts(g, h, r.spec)
    && r.actor == g.plan.actor && r.createdAt == g.at && Shows(h, r) && Carries(g.plan.manifest, g.plan.references, r)
    && Storable(h) && StorableRevision(r) && m.artifactDigest == g.plan.artifactDigest
  }

  /** The id and the uid drawn for a new resource belong to no other. */
  ghost predicate KeysAreNew(db: Db, p: Plan, h: Head) {
    p.operation == Create ==> forall k | k in db.heads :: db.heads[k].id != h.id && db.heads[k].identity.uid != h.identity.uid
  }

  // ---------------------------------------------------------------- loading

  lemma HeadLoads(ops: seq<Op>, scope: Scope, k: HeadKey)
    requires k in Final(ops).heads && k.organization == scope.organization && k.target.namespace == scope.slug && SCOPE_CHECK(scope)
    ensures var db, h := Final(ops), Final(ops).heads[k];
      && KeyOfHead(h) == k && Decoded(scope, h) == Ok(h) && RevisionKey(h.id, h.revision) in db.revisions
      && var r := db.revisions[RevisionKey(h.id, h.revision)];
         r.organization == scope.organization && ValidateRevision(scope, r).None?
  {
    AlwaysInv(ops);
    HeadsAreStorable(ops);
    var db, h := Final(ops), Final(ops).heads[k];
    assert HeadOk(db.revisions, h) && KeyOfHead(h) == k;
    hide Final, Inv, Storable, StorableRevision, SpecChanges, Decoded, ValidateRevision, Shows;
    DecodesExactly(scope, h);
    assert RevisionOk(db.revisions, h, h.revision);
    RevisionDecodesExactly(scope, db.revisions[RevisionKey(h.id, h.revision)]);
  }

  lemma LoadsExactly(ops: seq<Op>, scope: Scope, planId: string, env: Env)
    requires Open(Final(ops), scope, planId)
    ensures var db, p := Final(ops), Final(ops).plans[planId];
      && (p.operation == Update && TargetFits(db, p) ==> CurrentKey(db, p) in db.revisions)
      && LoadLocked(db, scope, planId, env) ==
           if env.now < p.createdAt then Err(Invalid)
           else if env.now >= p.expiresAt then Err(Expired)
           else if !TargetFits(db, p) then Err(if p.operation == Create then Conflict else Stale)
           else Ok(Given(db, scope, p, env))
  {
    var db, p := Final(ops), Final(ops).plans[planId];
    assert p.target.namespace == scope.slug && p.actor == scope.actor;
    if PlanKey(p) in db.heads { HeadLoads(ops, scope, PlanKey(p)); }
    hide Final, ValidPlan, Decoded, ValidateRevision;
  }

  // ---------------------------------------------------------------- the mutation

  lemma CountsExactly(g: Locked, m: Mutation)
    requires g.head.Some? <==> g.current.Some?
    requires ValidCounters(m.head.revision, m.head.generation, m.head.version)
    requires m.head.id == g.resource && m.head.identity == g.identity && m.head.organization == g.scope.organization
    requires g.head.Some? ==> g.resource == g.head.value.id && g.identity == g.head.value.identity
    requires g.head.Some? ==> g.head.value.organization == g.scope.organization && 0 < g.head.value.revision <= MAX_INT
    requires g.head.Some? ==> 0 < g.head.value.version <= MAX_INT && 0 < g.head.value.generation <= MAX_INT
    ensures Counts(g, m.head, m.revision.spec) <==> if g.head.None? then ValidateCreate(g, m).None? else ValidateUpdate(g, m).None?
  {}

  /** The given state is of the plan's own resource, and consistent. */
  ghost predicate Consistent(g: Locked) {
    && SCOPE_CHECK(g.scope) && g.plan.target.namespace == g.scope.slug && g.plan.actor == g.scope.actor
    && g.plan.manifest == Authored(g.plan.manifest) && g.identity.target == g.plan.target && (g.head.Some? <==> g.current.Some?) && ValidReferences(g.scope, g.plan.references)
    && (g.head.Some? ==>
          && g.resource == g.head.value.id && g.identity == g.head.value.identity
          && g.head.value.organization == g.scope.organization && 0 < g.head.value.revision <= MAX_INT
          && 0 < g.head.value.version <= MAX_INT && 0 < g.head.value.generation <= MAX_INT)
  }

  lemma BindsExactly(g: Locked, m: Mutation)
    requires Consistent(g) && ValidateRevision(g.scope, m.revision).None?
    ensures ValidateBinding(g, m).None? <==>
      Carries(g.plan.manifest, g.plan.references, m.revision) && m.artifactDigest == g.plan.artifactDigest
  {
    RevisionDecodesExactly(g.scope, m.revision);
    assert MatchesManifest(m.revision) && ValidReferences(g.scope, m.revision.references);
    CanonicalExactly(g.scope, g.plan.references);
    CanonicalExactly(g.scope, m.revision.references);
    hide ValidReferences, CanonicalReferences, ValidateRevision, StorableRevision, MatchesManifest;
    assert m.revision.version > 0 && m.revision.manifest.version == Numeral(m.revision.version, 10);
    if ValidateBinding(g, m).None? {
      BindingFacts(g, m);
    } else if Carries(g.plan.manifest, g.plan.references, m.revision) {
      assert (set x | x in m.revision.references) == set x | x in g.plan.references;
      assert Authored(m.revision.manifest) == Authored(g.plan.manifest);
    }
  }

  lemma CanonicalExactly(scope: Scope, references: seq<Reference>)
    requires ValidReferences(scope, references)
    ensures CanonicalReferences(scope, references) == Some(set r | r in references)
    ensures forall i, j :: 0 <= i < j < |references| ==> references[i] != references[j]
  {
    hide ValidReference;
    forall i, j | 0 <= i < j < |references|
      ensures references[i] != references[j]
    {
      assert !SameRevision(references[i], references[j]);
    }
  }

  lemma HeadValidExactly(scope: Scope, h: Head)
    ensures ValidateHead(scope, h).None? <==>
      Storable(h) && SCOPE_CHECK(scope) && h.organization == scope.organization && h.identity.target.namespace == scope.slug
  {}

  /** The checks accept exactly the right mutations. */
  lemma AcceptsExactly(g: Locked, m: Mutation)
    requires Consistent(g)
    ensures ValidateMutation(g, m).None? <==> Right(g, m)
  {
    HeadValidExactly(g.scope, m.head);
    RevisionDecodesExactly(g.scope, m.revision);
    if ValidateHead(g.scope, m.head).None? && ValidateRevision(g.scope, m.revision).None? {
      BindsExactly(g, m);
      assert ValidCounters(m.head.revision, m.head.generation, m.head.version);
      if HeadAgrees(g, m) { CountsExactly(g, m); }
    }
    hide ValidateHead, ValidateRevision, ValidateBinding, ValidateCreate, ValidateUpdate, Counts, Carries, Storable, StorableRevision,
         ValidReferences, ValidCounters, Authored;
  }

  lemma GivenIsConsistent(ops: seq<Op>, scope: Scope, planId: string, env: Env)
    requires Open(Final(ops), scope, planId) && TargetFits(Final(ops), Final(ops).plans[planId])
    ensures var db, p := Final(ops), Final(ops).plans[planId];
      && (p.operation == Update ==> CurrentKey(db, p) in db.revisions)
      && Consistent(Given(db, scope, p, env)) && Given(db, scope, p, env).plan == p && Given(db, scope, p, env).scope == scope
  {
    var db, p := Final(ops), Final(ops).plans[planId];
    if p.operation == Update {
      HeadLoads(ops, scope, PlanKey(p));
      HeadsAreStorable(ops);
      assert Storable(db.heads[PlanKey(p)]);
    }
    hide Final, Decoded, ValidateRevision, ValidOutcome, ValidReferences, AllStorable;
  }

  // ---------------------------------------------------------------- the writes

  /** The tables after an apply that succeeded. */
  ghost function Written(db: Db, p: Plan, at: int, m: Mutation): Db {
    Db(db.plans[p.id := Consume(p, at, m.head)], db.heads[PlanKey(p) := m.head],
       db.revisions[RevisionKey(m.head.id, m.head.revision) := m.revision])
  }

  lemma Consumes(db: Db, p: Plan, at: int, h: Head)
    requires p.id in db.plans && db.plans[p.id] == p && p.outcome.Pending? && p.createdAt <= at < p.expiresAt
    requires ResultFits(p, h.id, h.identity, h.version, h.revision)
    ensures ApplyPlan(p, at, h) == Ok(Consume(p, at, h))
    ensures ConsumePlan(db, Consume(p, at, h)) == Ok(db.(plans := db.plans[p.id := Consume(p, at, h)]))
  {
    hide ResultFits;
  }

  lemma Inserts(db: Db, m: Mutation)
    requires KeyOfHead(m.head) !in db.heads && (HeadIsNew(db.heads, m.head) ==> KeyOfRevision(m.revision) !in db.revisions)
    ensures InsertMutation(db, m) ==
      if HeadIsNew(db.heads, m.head)
      then Ok(Db(db.plans, db.heads[KeyOfHead(m.head) := m.head], db.revisions[KeyOfRevision(m.revision) := m.revision]))
      else Err(Conflict)
  {
    hide HeadIsNew;
  }

  lemma Updates(db: Db, g: Locked, m: Mutation)
    requires g.head.Some? && KeyOfHead(m.head) in db.heads && db.heads[KeyOfHead(m.head)] == g.head.value
    requires m.head.id == g.head.value.id && KeyOfRevision(m.revision) !in db.revisions
    ensures UpdateMutation(db, g, m) ==
      Ok(Db(db.plans, db.heads[KeyOfHead(m.head) := m.head], db.revisions[KeyOfRevision(m.revision) := m.revision]))
  {}

  /** The plan is the stored one, not applied yet and due, and the state was loaded for it. */
  ghost predicate Loaded(db: Db, g: Locked) {
    && Consistent(g) && TargetFits(db, g.plan) && g.plan.organization == g.scope.organization
    && g.plan.id in db.plans && db.plans[g.plan.id] == g.plan && g.plan.outcome.Pending?
    && g.plan.createdAt <= g.at < g.plan.expiresAt
    && g.head == (if g.plan.operation == Create then None else Some(db.heads[PlanKey(g.plan)]))
  }

  lemma KeysOfRows(g: Locked, m: Mutation)
    requires Consistent(g) && Right(g, m) && g.plan.organization == g.scope.organization
    ensures KeyOfHead(m.head) == PlanKey(g.plan) && KeyOfRevision(m.revision) == RevisionKey(m.head.id, m.head.revision)
    ensures g.head.Some? ==> m.head.id == g.head.value.id && m.head.revision == g.head.value.revision + 1
    ensures g.head.None? ==> m.head.revision == 1
  {
    hide Carries, Shows, Storable, StorableRevision;
  }

  /** A right mutation writes the three tables unless an id or a uid that was drawn is in use. */
  lemma WritesExactly(db: Db, g: Locked, m: Mutation)
    requires Inv(db) && Loaded(db, g) && Right(g, m)
    ensures WriteMutation(db, g, m) == if KeysAreNew(db, g.plan, m.head) then Ok(Written(db, g.plan, g.at, m)) else Err(Conflict)
  {
    hide Inv, Right, Loaded, Consistent, ResultFits, KeysAreNew, Written, ApplyPlan, ConsumePlan, InsertMutation, UpdateMutation;
    LoadedShape(db, g, m.head);
    KeysOfRows(g, m);
    FitsPlan(db, g, m);
    LoadedConsumes(db, g, m.head);
    if KeysAreNew(db, g.plan, m.head) { RowOfLoaded(db, g, m); }
    if g.plan.operation == Create { WritesNew(db, g, m); } else { WritesNext(db, g, m); }
  }

  lemma LoadedShape(db: Db, g: Locked, h: Head)
    requires Loaded(db, g)
    ensures Consistent(g) && (g.head.None? <==> g.plan.operation == Create) && g.plan.organization == g.scope.organization
    ensures g.plan.operation == Update ==> KeysAreNew(db, g.plan, h)
  {
    hide Consistent, TargetFits;
  }

  lemma RowOfLoaded(db: Db, g: Locked, m: Mutation)
    requires Inv(db) && Loaded(db, g) && Right(g, m) && KeysAreNew(db, g.plan, m.head)
    ensures RevisionKey(m.head.id, m.head.revision) !in db.revisions
  {
    KeysOfRows(g, m);
    hide Inv, Right, Consistent, KeysAreNew;
    RowIsFree(db, g.plan, m.head);
  }

  lemma LoadedConsumes(db: Db, g: Locked, h: Head)
    requires Loaded(db, g) && ResultFits(g.plan, h.id, h.identity, h.version, h.revision)
    ensures ApplyPlan(g.plan, g.at, h) == Ok(Consume(g.plan, g.at, h))
    ensures ConsumePlan(db, Consume(g.plan, g.at, h)) == Ok(db.(plans := db.plans[g.plan.id := Consume(g.plan, g.at, h)]))
  {
    hide Consistent, TargetFits, ResultFits;
    Consumes(db, g.plan, g.at, h);
  }

  lemma WritesNew(db: Db, g: Locked, m: Mutation)
    requires Loaded(db, g) && g.plan.operation == Create && KeyOfHead(m.head) == PlanKey(g.plan)
    requires KeyOfRevision(m.revision) == RevisionKey(m.head.id, m.head.revision)
    requires KeysAreNew(db, g.plan, m.head) ==> RevisionKey(m.head.id, m.head.revision) !in db.revisions
    ensures var taken := db.(plans := db.plans[g.plan.id := Consume(g.plan, g.at, m.head)]);
      InsertMutation(taken, m) == if KeysAreNew(db, g.plan, m.head) then Ok(Written(db, g.plan, g.at, m)) else Err(Conflict)
  {
    hide Consistent;
    assert HeadIsNew(db.heads, m.head) <==> KeysAreNew(db, g.plan, m.head);
    hide HeadIsNew, KeysAreNew;
    Inserts(db.(plans := db.plans[g.plan.id := Consume(g.plan, g.at, m.head)]), m);
    hide InsertMutation;
  }

  lemma WritesNext(db: Db, g: Locked, m: Mutation)
    requires Loaded(db, g) && g.plan.operation == Update && KeyOfHead(m.head) == PlanKey(g.plan)
    requires KeyOfRevision(m.revision) == RevisionKey(m.head.id, m.head.revision)
    requires g.head.Some? && m.head.id == g.head.value.id && RevisionKey(m.head.id, m.head.revision) !in db.revisions
    ensures var taken := db.(plans := db.plans[g.plan.id := Consume(g.plan, g.at, m.head)]);
      UpdateMutation(taken, g, m) == Ok(Written(db, g.plan, g.at, m))
  {
    hide Consistent;
    Updates(db.(plans := db.plans[g.plan.id := Consume(g.plan, g.at, m.head)]), g, m);
    hide UpdateMutation;
  }

  lemma FitsPlan(db: Db, g: Locked, m: Mutation)
    requires Loaded(db, g) && Right(g, m)
    ensures ResultFits(g.plan, m.head.id, m.head.identity, m.head.version, m.head.revision)
  {
    hide Carries, Shows, StorableRevision;
  }

  lemma RowIsFree(db: Db, p: Plan, h: Head)
    requires Inv(db) && TargetFits(db, p) && KeysAreNew(db, p, h)
    requires p.operation == Update ==> h.id == db.heads[PlanKey(p)].id && h.revision == db.heads[PlanKey(p)].revision + 1
    ensures RevisionKey(h.id, h.revision) !in db.revisions
  {
    if p.operation == Update { HeadVersion(db, PlanKey(p)); }
  }

  // ---------------------------------------------------------------- the answer

  /** What is answered and written once the target fits: the caller must be allowed, the mutation right and the keys new. */
  ghost predicate AnswersGiven(db: Db, g: Locked, env: Env, build: Builder, r: Result<Head, Error>, next: Db)
    requires g.head.Some? ==> g.current.Some?
  {
    if !MayApply(g.scope, g.plan, if g.head.None? then 0 else g.head.value.createdBy, env.member) then r == Err(Forbidden) && next == db
    else if build(g).Err? then r == Err(build(g).error) && next == db
    else if !Right(g, build(g).value) then r.Err? && next == db
    else if !KeysAreNew(db, g.plan, build(g).value.head) then r == Err(Conflict) && next == db
    else r == Ok(build(g).value.head) && next == Written(db, g.plan, env.now, build(g).value)
  }

  /**
   * The answer to a pending plan in every reachable state, for every builder: the plan must be due, its target as it was
   * planned on, the caller allowed, the builder's mutation right and the drawn keys new; then it is applied, and nothing
   * else can stop it.
   */
  lemma ApplyAnswers(ops: seq<Op>, scope: Scope, planId: string, env: Env, build: Builder)
    requires Open(Final(ops), scope, planId)
    ensures var db, p := Final(ops), Final(ops).plans[planId];
      var r, next := ApplyResult(db, scope, planId, env, build), AfterApply(db, scope, planId, env, build);
      && (TargetFits(db, p) && p.operation == Update ==> CurrentKey(db, p) in db.revisions)
      && if env.now < p.createdAt then r == Err(Invalid) && next == db
         else if env.now >= p.expiresAt then r == Err(Expired) && next == db
         else if !TargetFits(db, p) then r == Err(if p.operation == Create then Conflict else Stale) && next == db
         else AnswersGiven(db, Given(db, scope, p, env), env, build, r, next)
  {
    var db, p := Final(ops), Final(ops).plans[planId];
    LoadsExactly(ops, scope, planId, env);
    if p.createdAt <= env.now < p.expiresAt && TargetFits(db, p) {
      GivenIsLoaded(ops, scope, planId, env);
      AlwaysInv(ops);
      hide Final, LoadLocked, Given, TargetFits, AnswersGiven, Inv, Loaded, Open, ApplyResult, AfterApply;
      AppliesGiven(db, scope, planId, env, build, Given(db, scope, p, env));
    } else {
      hide Final, LoadLocked, TargetFits, ApplyResult, AfterApply, AnswersGiven, Given;
      NotLoaded(db, scope, planId, env, build);
    }
  }

  lemma GivenIsLoaded(ops: seq<Op>, scope: Scope, planId: string, env: Env)
    requires Open(Final(ops), scope, planId) && TargetFits(Final(ops), Final(ops).plans[planId])
    requires Final(ops).plans[planId].createdAt <= env.now < Final(ops).plans[planId].expiresAt
    ensures var db, p := Final(ops), Final(ops).plans[planId];
      && (p.operation == Update ==> CurrentKey(db, p) in db.revisions)
      && var g := Given(db, scope, p, env);
         Loaded(db, g) && g.plan == p && p.id == planId && g.scope == scope && g.at == env.now
  {
    hide Final, Inv, Consistent, ValidPlan;
    GivenIsConsistent(ops, scope, planId, env);
    AlwaysInv(ops);
    KeysOf(Final(ops));
  }

  lemma NotLoaded(db: Db, scope: Scope, planId: string, env: Env, build: Builder)
    requires SCOPE_CHECK(scope) && PLAN_ID_CHECK(planId)
    requires LoadLocked(db, scope, planId, env).Err? && LoadLocked(db, scope, planId, env).error != Consumed
    ensures ApplyResult(db, scope, planId, env, build) == Err(LoadLocked(db, scope, planId, env).error)
    ensures AfterApply(db, scope, planId, env, build) == db
  {
    hide LoadLocked;
  }

  /** The transaction from the state that was loaded. */
  lemma TransactsGiven(db: Db, scope: Scope, planId: string, env: Env, build: Builder, g: Locked)
    requires SCOPE_CHECK(scope) && PLAN_ID_CHECK(planId) && LoadLocked(db, scope, planId, env) == Ok(g)
    ensures var r, next := ApplyResult(db, scope, planId, env, build), AfterApply(db, scope, planId, env, build);
      var refusal, m := Authorize(scope, g.plan, g.head, env), build(g);
      && (r.Err? ==> next == db)
      && if refusal.Some? then r == Err(refusal.value)
         else if m.Err? then r == Err(m.error)
         else if ValidateMutation(g, m.value).Some? then r.Err?
         else
           var written, stored := WriteMutation(db, g, m.value), Decoded(scope, m.value.head);
           if written.Err? then r == Err(written.error) else stored.Ok? ==> r == Ok(stored.value) && next == written.value
  {
    hide LoadLocked, Authorize, ValidateMutation, WriteMutation, Decoded, ConsumedAnswer;
  }

  lemma AppliesGiven(db: Db, scope: Scope, planId: string, env: Env, build: Builder, g: Locked)
    requires SCOPE_CHECK(scope) && PLAN_ID_CHECK(planId) && LoadLocked(db, scope, planId, env) == Ok(g)
    requires Inv(db) && Loaded(db, g) && g.scope == scope && g.at == env.now
    ensures g.head.Some? ==> g.current.Some?
    ensures AnswersGiven(db, g, env, build, ApplyResult(db, scope, planId, env, build), AfterApply(db, scope, planId, env, build))
  {
    hide LoadLocked, Authorize, ValidateMutation, WriteMutation, Decoded, ApplyResult, AfterApply, Right, KeysAreNew, Written, MayApply,
         Inv, TargetFits, Consistent;
    TransactsGiven(db, scope, planId, env, build, g);
    assert Consistent(g);
    LoadedFor(db, g);
    hide Loaded;
    AuthorizesExactly(scope, g.plan, g.head, env);
    if build(g).Ok? {
      var m := build(g).value;
      AcceptsExactly(g, m);
      if Right(g, m) {
        WritesExactly(db, g, m);
        RightHeadDecodes(g, m);
      }
    }
  }

  lemma LoadedFor(db: Db, g: Locked)
    requires Loaded(db, g)
    ensures (g.plan.operation == Update ==> g.head.Some?) && (g.head.None? <==> g.plan.operation == Create)
    ensures g.head.Some? ==> g.current.Some?
  {}

  lemma RightHeadDecodes(g: Locked, m: Mutation)
    requires Consistent(g) && Right(g, m)
    ensures Decoded(g.scope, m.head) == Ok(m.head)
  {
    HeadValidExactly(g.scope, m.head);
    hide ValidateHead, Carries, Shows, Storable, StorableRevision, Counts;
  }

  /** A plan that is not there, or is another tenant's or another actor's, is not found; coordinates that do not parse are invalid. */
  lemma OthersPlanIsNotFound(db: Db, scope: Scope, planId: string, env: Env, build: Builder, kind: string, artifactKind: string)
    requires planId in db.plans ==> db.plans[planId].organization != scope.organization || db.plans[planId].actor != scope.actor
    ensures var e := if SCOPE_CHECK(scope) && PLAN_ID_CHECK(planId) then NotFound else Invalid;
      && ApplyResult(db, scope, planId, env, build) == Err(e) && AfterApply(db, scope, planId, env, build) == db
      && IdempotentResult(db, scope, planId, kind, artifactKind, env, build) == Err(e)
  {
    hide LoadTarget, ConsumedAnswer, LoadApplied, ValidateMutation, WriteMutation, Authorize;
  }

  /** Only a plan of the kinds it serves is applied by an idempotent apply. */
  lemma OtherKindIsInvalid(ops: seq<Op>, scope: Scope, planId: string, env: Env, build: Builder, kind: string, artifactKind: string)
    requires Open(Final(ops), scope, planId) || Spent(Final(ops), scope, planId)
    requires Final(ops).plans[planId].target.kind != kind || Final(ops).plans[planId].artifactKind != artifactKind
    ensures IdempotentResult(Final(ops), scope, planId, kind, artifactKind, env, build).Err?
    ensures AfterApply(Final(ops), scope, planId, env, Guarded(kind, artifactKind, build)) == Final(ops)
  {
    var db, p := Final(ops), Final(ops).plans[planId];
    if p.outcome.Pending? {
      ApplyAnswers(ops, scope, planId, env, Guarded(kind, artifactKind, build));
      hide Final, ApplyResult, AfterApply, Given, TargetFits, MayApply, Right, KeysAreNew, Written, LoadApplied, ValidPlan, Open;
    } else {
      AppliedPlanIsSpent(ops, scope, planId, env, Guarded(kind, artifactKind, build));
      hide Final, ApplyResult, AfterApply, MayApply, StillCurrent, ValidPlan, Decoded, IsOutcome;
    }
  }

  /** A plan is stored once, pending; a plan that says it was applied, or whose id is taken, is refused. */
  lemma PlanIsStored(db: Db, plan: Plan)
    ensures if plan.outcome != Pending then CreateResult(db, plan) == Err(Invalid) && AfterCreate(db, plan) == db
      else if plan.id in db.plans then CreateResult(db, plan) == Err(Conflict) && AfterCreate(db, plan) == db
      else CreateResult(db, plan) == Ok(()) && AfterCreate(db, plan) == Db(db.plans[plan.id := plan], db.heads, db.revisions)
  {}
}
