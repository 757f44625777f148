/** Applying plans to orchestration resources: tables, plans, and what one apply transaction does. */
module Apply {
  import opened Text

  const MAX_INT := MAX_INT64

  /** Addition of one as a signed 64-bit machine does it. */
  function Next(n: int): int { if n == MAX_INT then -MAX_INT - 1 else n + 1 }

  datatype Scope = Scope(organization: int, slug: string, actor: int)

  datatype Target = Target(apiVersion: string, kind: string, namespace: string, name: string)

  datatype Identity = Identity(target: Target, uid: string)

  datatype Reference = Reference(
    apiVersion: string, kind: string, namespace: string, name: string, uid: string, revision: int, digest: string)

  /** A resource document. Canonical JSON is injective, so documents are compared as the values they encode. */
  datatype Manifest = Manifest(
    apiVersion: string, kind: string, namespace: string, name: string, displayName: string, labels: map<string, string>,
    uid: string, version: string, generation: int, spec: string, status: string)

  datatype Head = Head(
    id: int, organization: int, identity: Identity, displayName: string, labels: map<string, string>, status: string,
    revision: int, generation: int, version: int, createdBy: int, updatedBy: int, createdAt: int, updatedAt: int)

  datatype Revision = Revision(
    organization: int, resource: int, identity: Identity, revision: int, generation: int, version: int,
    manifest: Manifest, spec: string, references: seq<Reference>, actor: int, createdAt: int)

  datatype Operation = Create | Update

  datatype Outcome = Pending | Applied(at: int, consumer: int, resource: int, identity: Identity, version: int, revision: int)

  datatype Plan = Plan(
    id: string, organization: int, actor: int, operation: Operation, target: Target, targetResource: int, baseUid: string,
    baseVersion: int, manifest: Manifest, references: seq<Reference>, artifactKind: string, artifactDigest: string,
    createdAt: int, expiresAt: int, outcome: Outcome)

  datatype Error = Invalid | NotFound | Conflict | Stale | Expired | Consumed | Corrupt | Forbidden | Other

  datatype Role = Owner | Admin | Member

  // ---------------------------------------------------------------- tables

  /** Heads are found by tenant and target, revisions by resource and number. */
  datatype HeadKey = HeadKey(organization: int, target: Target)
  datatype RevisionKey = RevisionKey(resource: int, revision: int)

  datatype Db = Db(plans: map<string, Plan>, heads: map<HeadKey, Head>, revisions: map<RevisionKey, Revision>)

  const EMPTY := Db(map[], map[], map[])

  function KeyOfHead(h: Head): HeadKey { HeadKey(h.organization, h.identity.target) }

  function KeyOfRevision(r: Revision): RevisionKey { RevisionKey(r.resource, r.revision) }

  // ---------------------------------------------------------------- validity

  /** The checks of identifiers and documents that nothing else depends on. Left open. */
  const SCOPE_CHECK: Scope -> bool
  const PLAN_ID_CHECK: string -> bool
  const PLAN_CHECK: (Scope, Plan) -> bool
  const IDENTITY_CHECK: Identity -> bool
  const HEAD_CHECK: Head -> Option<Error>
  const REVISION_CHECK: Revision -> Option<Error>
  const REFERENCE_CHECK: Reference -> bool

  predicate ValidCounters(revision: int, generation: int, version: int) {
    revision > 0 && generation > 0 && version > 0 && generation <= revision && revision <= version <= MAX_INT
  }

  /** Instants count nanoseconds; zero is the zero time. */
  predicate ValidTimes(from: int, to: int) { from != 0 && to != 0 && from <= to }

  function ValidateHead(scope: Scope, h: Head): Option<Error> {
    if h.id <= 0 || h.organization != scope.organization then Some(Invalid)
    else if !SCOPE_CHECK(scope) || h.identity.target.namespace != scope.slug || !IDENTITY_CHECK(h.identity) then Some(Invalid)
    else if HEAD_CHECK(h).Some? then HEAD_CHECK(h)
    else if !ValidCounters(h.revision, h.generation, h.version) || h.createdBy <= 0 || h.updatedBy <= 0
            || !ValidTimes(h.createdAt, h.updatedAt) then Some(Invalid)
    else None
  }

  /** The head that a row holds; whatever is wrong with it, the row is corrupt. */
  function Decoded(scope: Scope, h: Head): Result<Head, Error> {
    if ValidateHead(scope, h).Some? then Err(Corrupt) else Ok(h)
  }

  /** Whether a head with these coordinates can be the result of a plan. */
  predicate ResultFits(plan: Plan, resource: int, identity: Identity, version: int, revision: int) {
    && IDENTITY_CHECK(identity) && resource > 0 && identity.target == plan.target && 0 < revision <= version
    && (plan.operation == Create ==> version == 1 && revision == 1)
    && (plan.operation == Update ==> resource == plan.targetResource && identity.uid == plan.baseUid && version > plan.baseVersion)
  }

  predicate ValidOutcome(plan: Plan) {
    match plan.outcome
    case Pending => true
    case Applied(at, consumer, resource, identity, version, revision) =>
      consumer == plan.actor && plan.createdAt <= at < plan.expiresAt && ResultFits(plan, resource, identity, version, revision)
  }

  predicate ValidReference(scope: Scope, r: Reference) {
    SCOPE_CHECK(scope) && r.namespace == scope.slug && r.revision > 0 && REFERENCE_CHECK(r)
  }

  /** Two references to one revision of a resource, whatever their digests. */
  predicate SameRevision(a: Reference, b: Reference) { a.(digest := "") == b.(digest := "") }

  predicate ValidReferences(scope: Scope, references: seq<Reference>) {
    && (forall i :: 0 <= i < |references| ==> ValidReference(scope, references[i]))
    && (forall i, j :: 0 <= i < j < |references| ==> !SameRevision(references[i], references[j]))
  }

  /** The checks of a plan's document do not look at what became of it. */
  predicate ValidPlan(scope: Scope, plan: Plan) {
    && plan.target.namespace == scope.slug && plan.actor == scope.actor > 0 && ValidReferences(scope, plan.references)
    && plan.manifest == Authored(plan.manifest)
    && plan.target == Target(plan.manifest.apiVersion, plan.manifest.kind, plan.manifest.namespace, plan.manifest.name)
    && PLAN_CHECK(scope, plan.(outcome := Pending)) && ValidOutcome(plan)
  }

  predicate MatchesManifest(r: Revision) {
    && r.manifest.apiVersion == r.identity.target.apiVersion && r.manifest.kind == r.identity.target.kind
    && r.manifest.namespace == r.identity.target.namespace && r.manifest.name == r.identity.target.name
    && r.manifest.uid == r.identity.uid && r.manifest.generation == r.generation
    && r.version > 0 && r.manifest.version == Numeral(r.version, 10)
  }

  function ValidateRevision(scope: Scope, r: Revision): Option<Error> {
    if !SCOPE_CHECK(scope) || r.organization != scope.organization || r.resource <= 0
       || r.identity.target.namespace != scope.slug || !IDENTITY_CHECK(r.identity)
       || !ValidCounters(r.revision, r.generation, r.version) || r.actor <= 0 || r.createdAt == 0
       || !ValidReferences(scope, r.references) then Some(Invalid)
    else if !MatchesManifest(r) || r.spec != r.manifest.spec then Some(Corrupt)
    else REVISION_CHECK(r)
  }

  // ---------------------------------------------------------------- the locked state

  datatype Locked = Locked(
    plan: Plan, scope: Scope, head: Option<Head>, current: Option<Revision>, resource: int, identity: Identity, at: int)

  /** What the environment supplies: the time, an id and a uid for a new resource, and the actor's membership. */
  datatype Env = Env(now: int, id: int, uid: string, member: Option<Role>)

  function LoadTarget(db: Db, scope: Scope, plan: Plan, env: Env): Result<Locked, Error> {
    var k := HeadKey(scope.organization, plan.target);
    if plan.operation == Create then
      if k in db.heads then Err(Conflict)
      else Ok(Locked(plan, scope, None, None, env.id, Identity(plan.target, env.uid), env.now))
    else if k !in db.heads then Err(Stale)
    else
      var h := db.heads[k];
      if Decoded(scope, h).Err? then Err(Corrupt)
      else if h.id != plan.targetResource || h.identity.uid != plan.baseUid || h.version != plan.baseVersion then Err(Stale)
      else if RevisionKey(h.id, h.revision) !in db.revisions then Err(Corrupt)
      else
        var r := db.revisions[RevisionKey(h.id, h.revision)];
        if r.organization != scope.organization || ValidateRevision(scope, r).Some? then Err(Corrupt)
        else Ok(Locked(plan, scope, Some(h), Some(r), h.id, h.identity, env.now))
  }

  function LoadLocked(db: Db, scope: Scope, planId: string, env: Env): Result<Locked, Error> {
    if planId !in db.plans || db.plans[planId].organization != scope.organization || db.plans[planId].actor != scope.actor
    then Err(NotFound)
    else
      var plan := db.plans[planId];
      if !ValidPlan(scope, plan) then Err(Corrupt)
      else if !plan.outcome.Pending? then Err(Consumed)
      else if env.now < plan.createdAt then Err(Invalid)
      else if env.now >= plan.expiresAt then Err(Expired)
      else LoadTarget(db, scope, plan, env)
  }

  // ---------------------------------------------------------------- authorization

  /** Any member may create; a resource is updated by its creator, an owner or an admin. */
  function Authorize(scope: Scope, plan: Plan, head: Option<Head>, env: Env): Option<Error> {
    if plan.operation == Update && head.None? then Some(Corrupt)
    else if env.member.None? then Some(Forbidden)
    else if plan.operation == Update && head.value.createdBy != scope.actor && env.member == Some(Member) then Some(Forbidden)
    else None
  }

  /** Whether a head is still what the plan made of it. */
  predicate IsOutcome(plan: Plan, h: Head)
    requires plan.outcome.Applied?
  {
    && h.id == plan.outcome.resource && h.identity == plan.outcome.identity
    && h.revision == plan.outcome.revision && h.version == plan.outcome.version
  }

  /** The answer to a plan that was consumed before: only who may apply it is told so. */
  function ConsumedAnswer(db: Db, scope: Scope, planId: string, env: Env): Error {
    if planId !in db.plans || db.plans[planId].organization != scope.organization || db.plans[planId].actor != scope.actor
    then NotFound
    else
      var plan := db.plans[planId];
      if !ValidPlan(scope, plan) then Corrupt
      else if !plan.outcome.Applied? then Consumed
      else
        var k := HeadKey(scope.organization, plan.target);
        if k !in db.heads || Decoded(scope, db.heads[k]).Err? || !IsOutcome(plan, db.heads[k]) then Corrupt
        else
          var refusal := Authorize(scope, plan, Some(db.heads[k]), env);
          if refusal.Some? then refusal.value else Consumed
  }

  // ---------------------------------------------------------------- the mutation

  datatype Mutation = Mutation(head: Head, revision: Revision, artifactDigest: string)

  /** The document as its author wrote it, without what the store fills in. */
  function Authored(m: Manifest): Manifest { m.(uid := "", version := "", generation := 0, status := "") }

  /** References count as a set, and none may occur twice. */
  function CanonicalReferences(scope: Scope, references: seq<Reference>): Option<set<Reference>> {
    if (forall i :: 0 <= i < |references| ==> ValidReference(scope, references[i]))
       && (forall i, j :: 0 <= i < j < |references| ==> references[i] != references[j])
    then Some(set r | r in references)
    else None
  }

  function ValidateBinding(s: Locked, m: Mutation): Option<Error> {
    if m.artifactDigest != s.plan.artifactDigest then Some(Invalid)
    else if Authored(m.revision.manifest) != s.plan.manifest || m.revision.spec != s.plan.manifest.spec then Some(Invalid)
    else if CanonicalReferences(s.scope, s.plan.references).None? then Some(Corrupt)
    else if CanonicalReferences(s.scope, m.revision.references) != CanonicalReferences(s.scope, s.plan.references)
    then Some(Invalid)
    else None
  }

  function ValidateCreate(s: Locked, m: Mutation): Option<Error> {
    if s.current.Some? || m.head.revision != 1 || m.head.generation != 1 || m.head.version != 1
       || m.head.createdBy != s.plan.actor || m.head.createdAt != s.at then Some(Invalid)
    else None
  }

  function ValidateUpdate(s: Locked, m: Mutation): Option<Error>
    requires s.head.Some?
  {
    if s.current.None? then Some(Corrupt)
    else
      var was, h := s.head.value, m.head;
      if h.id != was.id || h.organization != was.organization || h.identity != was.identity
         || h.createdBy != was.createdBy || h.createdAt != was.createdAt
         || h.revision != Next(was.revision) || h.version != Next(was.version) then Some(Invalid)
      else if h.generation != (if s.current.value.spec != m.revision.spec then Next(was.generation) else was.generation)
      then Some(Invalid)
      else None
  }

  predicate HeadAgrees(s: Locked, m: Mutation) {
    var h, r := m.head, m.revision;
    && h.id == s.resource && h.identity == s.identity && r.resource == h.id && r.identity == h.identity
    && r.revision == h.revision && r.generation == h.generation && r.version == h.version
    && r.actor == s.plan.actor && r.createdAt == s.at && h.updatedBy == s.plan.actor && h.updatedAt == s.at
  }

  predicate HeadShows(h: Head, m: Manifest) {
    m.displayName == h.displayName && m.labels == h.labels && m.status == h.status
  }

  /** The first objection to a mutation, in the order the checks are made. */
  function ValidateMutation(s: Locked, m: Mutation): Option<Error> {
    if ValidateHead(s.scope, m.head).Some? then ValidateHead(s.scope, m.head)
    else if ValidateRevision(s.scope, m.revision).Some? then ValidateRevision(s.scope, m.revision)
    else if !HeadAgrees(s, m) || !HeadShows(m.head, m.revision.manifest) then Some(Invalid)
    else if ValidateBinding(s, m).Some? then ValidateBinding(s, m)
    else if s.head.None? then ValidateCreate(s, m)
    else ValidateUpdate(s, m)
  }

  // ---------------------------------------------------------------- the writes

  /** What the plan itself demands of its result. */
  function ApplyPlan(plan: Plan, at: int, h: Head): Result<Plan, Error> {
    if !plan.outcome.Pending? then Err(Consumed)
    else if at < plan.createdAt then Err(Invalid)
    else if at >= plan.expiresAt then Err(Expired)
    else if !ResultFits(plan, h.id, h.identity, h.version, h.revision) then Err(Invalid)
    else Ok(plan.(outcome := Applied(at, plan.actor, h.id, h.identity, h.version, h.revision)))
  }

  /** The unique keys of the head table besides the one it is found by. */
  predicate HeadIsNew(heads: map<HeadKey, Head>, h: Head) {
    KeyOfHead(h) !in heads && forall k | k in heads :: heads[k].id != h.id && heads[k].identity.uid != h.identity.uid
  }

  function InsertRevision(db: Db, r: Revision): Result<Db, Error> {
    if KeyOfRevision(r) in db.revisions then Err(Conflict)
    else Ok(db.(revisions := db.revisions[KeyOfRevision(r) := r]))
  }

  function InsertMutation(db: Db, m: Mutation): Result<Db, Error> {
    if !HeadIsNew(db.heads, m.head) then Err(Conflict)
    else InsertRevision(db.(heads := db.heads[KeyOfHead(m.head) := m.head]), m.revision)
  }

  /** The revision first, then the head if it still has the version that was read. */
  function UpdateMutation(db: Db, s: Locked, m: Mutation): Result<Db, Error>
    requires s.head.Some?
  {
    var inserted := InsertRevision(db, m.revision);
    var k := KeyOfHead(m.head);
    if inserted.Err? then inserted
    else if k !in db.heads || db.heads[k].id != m.head.id || db.heads[k].version != s.head.value.version then Err(Stale)
    else Ok(inserted.value.(heads := db.heads[k := m.head]))
  }

  function ConsumePlan(db: Db, plan: Plan): Result<Db, Error> {
    if plan.id !in db.plans || db.plans[plan.id].organization != plan.organization
       || db.plans[plan.id].actor != plan.actor || !db.plans[plan.id].outcome.Pending? then Err(Consumed)
    else Ok(db.(plans := db.plans[plan.id := plan]))
  }

  function WriteMutation(db: Db, s: Locked, m: Mutation): Result<Db, Error> {
    var applied := ApplyPlan(s.plan, s.at, m.head);
    if applied.Err? then Err(applied.error)
    else
      var consumed := ConsumePlan(db, applied.value);
      if consumed.Err? then consumed
      else if s.head.None? then InsertMutation(consumed.value, m)
      else UpdateMutation(consumed.value, s, m)
  }

  // ---------------------------------------------------------------- transactions

  type Builder = Locked -> Result<Mutation, Error>

  /** The new tables and the head, or the error. */
  function Transact(db: Db, scope: Scope, planId: string, env: Env, build: Builder): Result<(Db, Head), Error> {
    if !SCOPE_CHECK(scope) || !PLAN_ID_CHECK(planId) then Err(Invalid)
    else
      var locked := LoadLocked(db, scope, planId, env);
      if locked == Err(Consumed) then Err(ConsumedAnswer(db, scope, planId, env))
      else if locked.Err? then Err(locked.error)
      else if Authorize(scope, locked.value.plan, locked.value.head, env).Some? then
        Err(Authorize(scope, locked.value.plan, locked.value.head, env).value)
      else
        var built := build(locked.value);
        if built.Err? then Err(built.error)
        else if ValidateMutation(locked.value, built.value).Some? then Err(ValidateMutation(locked.value, built.value).value)
        else
          var written := WriteMutation(db, locked.value, built.value);
          var stored := Decoded(scope, built.value.head);
          if written.Err? then Err(written.error)
          else if stored.Err? then Err(stored.error)
          else Ok((written.value, stored.value))
  }

  function ApplyResult(db: Db, scope: Scope, planId: string, env: Env, build: Builder): Result<Head, Error> {
    var r := Transact(db, scope, planId, env, build);
    if r.Err? then Err(r.error) else Ok(r.value.1)
  }

  /** A failed apply leaves every table as it was. */
  function AfterApply(db: Db, scope: Scope, planId: string, env: Env, build: Builder): Db {
    var r := Transact(db, scope, planId, env, build);
    if r.Err? then db else r.value.0
  }

  /** A plan is stored once and pending. */
  function CreateResult(db: Db, plan: Plan): Result<(), Error> {
    if !plan.outcome.Pending? then Err(Invalid) else if plan.id in db.plans then Err(Conflict) else Ok(())
  }

  function AfterCreate(db: Db, plan: Plan): Db {
    if CreateResult(db, plan).Ok? then db.(plans := db.plans[plan.id := plan]) else db
  }

  // ---------------------------------------------------------------- running a plan again

  /** The builder of an idempotent apply refuses plans of another kind. */
  function Guarded(kind: string, artifactKind: string, build: Builder): Builder {
    (s: Locked) => if s.plan.target.kind != kind || s.plan.artifactKind != artifactKind then Err(Invalid) else build(s)
  }

  function LoadApplied(db: Db, scope: Scope, planId: string, kind: string, artifactKind: string): Result<Head, Error> {
    if !SCOPE_CHECK(scope) || !PLAN_ID_CHECK(planId) then Err(Invalid)
    else if planId !in db.plans || db.plans[planId].organization != scope.organization || db.plans[planId].actor != scope.actor
    then Err(NotFound)
    else
      var plan := db.plans[planId];
      if !ValidPlan(scope, plan) then Err(Corrupt)
      else if plan.target.kind != kind || plan.artifactKind != artifactKind then Err(Invalid)
      else if !plan.outcome.Applied? then Err(Consumed)
      else
        var k := HeadKey(scope.organization, plan.target);
        if k !in db.heads then Err(NotFound)
        else
          var h := db.heads[k];
          if Decoded(scope, h).Err? || !IsOutcome(plan, h) then Err(Corrupt) else Ok(h)
  }

  function IdempotentResult(
    db: Db, scope: Scope, planId: string, kind: string, artifactKind: string, env: Env, build: Builder): Result<Head, Error>
  {
    var r := ApplyResult(db, scope, planId, env, Guarded(kind, artifactKind, build));
    if r == Err(Consumed)
    then LoadApplied(AfterApply(db, scope, planId, env, Guarded(kind, artifactKind, build)), scope, planId, kind, artifactKind)
    else r
  }
}
