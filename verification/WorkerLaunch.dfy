/** The worker-launch lease: rows, claims, and what claiming, completing and releasing do. */
module WorkerLaunch {
  import opened Text

  type Bytes = seq<bv8>

  /** Instants and durations count nanoseconds; zero is the zero time. */
  const ZERO_TIME := 0
  const MAX_LEASE := 600_000_000_000
  const MAX_DISPATCH_TTL := 604_800_000_000_000
  const MAX_PAYLOAD := 0x40_0000

  datatype Scope = Scope(organization: int, slug: string, actor: int)

  datatype State = Pending | Materializing | Dispatched

  datatype Launch = Launch(
    id: int, organization: int, actor: int, plan: string, resource: int, revision: int, snapshot: int,
    prompt: Option<string>, alias: string, state: State, token: Option<string>, lease: Option<int>, attempts: nat,
    lastError: Option<string>, pod: Option<Pod>, dispatchedAt: Option<int>)

  /** The pod a launch was turned into: its id, key and runner. */
  datatype Pod = Pod(id: int, key: string, runner: int)

  datatype Claim = Claim(
    launch: int, plan: string, organization: int, actor: int, resource: int, revision: int, snapshot: int,
    prompt: Option<string>, alias: string, token: string, lease: int)

  datatype Command = Command(id: string, organization: int, runner: int, podKey: string, payload: Bytes, expiresAt: int, createdAt: int)

  datatype Error = Invalid | NotFound | InProgress | Consumed | Corrupt | LeaseLost

  datatype Db = Db(launches: map<int, Launch>, pending: map<string, Command>)

  const EMPTY := Db(map[], map[])

  /** The checks of slugs and UUIDs. Left open. */
  const SLUG_CHECK: string -> bool
  const TOKEN_CHECK: string -> bool

  predicate ValidScope(s: Scope) { s.organization > 0 && SLUG_CHECK(s.slug) && s.actor > 0 }

  predicate ValidToken(t: string) { t != "" && TOKEN_CHECK(t) }

  // ---------------------------------------------------------------- creating

  predicate IsNew(l: Launch) {
    l.state == Pending && l.token.None? && l.lease.None? && l.attempts == 0 && l.pod.None? && l.dispatchedAt.None?
  }

  function AfterInsert(db: Db, l: Launch): Db {
    if IsNew(l) && l.id !in db.launches then db.(launches := db.launches[l.id := l]) else db
  }

  // ---------------------------------------------------------------- claiming

  predicate ValidClaimRequest(scope: Scope, id: int, duration: int, token: string) {
    ValidScope(scope) && id > 0 && 0 < duration <= MAX_LEASE && ValidToken(token)
  }

  /** A launch is free when it is pending, or when its lease has run out. */
  predicate Claimable(l: Launch, organization: int, now: int) {
    l.organization == organization &&
    (l.state == Pending || (l.state == Materializing && l.lease.Some? && l.lease.value <= now))
  }

  function Claimed(l: Launch, now: int, duration: int, token: string): Launch {
    l.(state := Materializing, token := Some(token), lease := Some(now + duration), attempts := l.attempts + 1, lastError := None)
  }

  function ClaimOf(l: Launch): Result<Claim, Error> {
    if l.id <= 0 || l.organization <= 0 || l.actor <= 0 || l.plan == "" || l.resource <= 0 || l.revision <= 0 || l.snapshot <= 0
       || l.state != Materializing || l.token.None? || l.token.value == "" || l.lease.None? || l.lease.value == ZERO_TIME
    then Err(Corrupt)
    else Ok(Claim(l.id, l.plan, l.organization, l.actor, l.resource, l.revision, l.snapshot, l.prompt, l.alias,
                  l.token.value, l.lease.value))
  }

  predicate TakesClaim(db: Db, scope: Scope, id: int, now: int, duration: int, token: string) {
    && ValidClaimRequest(scope, id, duration, token)
    && id in db.launches && Claimable(db.launches[id], scope.organization, now)
  }

  function ClaimResult(db: Db, scope: Scope, id: int, now: int, duration: int, token: string): Result<Claim, Error> {
    if !ValidClaimRequest(scope, id, duration, token) then Err(Invalid)
    else if id !in db.launches || db.launches[id].organization != scope.organization then Err(NotFound)
    else if Claimable(db.launches[id], scope.organization, now) then ClaimOf(Claimed(db.launches[id], now, duration, token))
    else
      match db.launches[id].state
      case Materializing => Err(InProgress)
      case Dispatched => Err(Consumed)
      case Pending => Err(Corrupt)
  }

  /** The row is changed even when it makes no well-formed claim. */
  function AfterClaim(db: Db, scope: Scope, id: int, now: int, duration: int, token: string): Db {
    if TakesClaim(db, scope, id, now, duration, token)
    then db.(launches := db.launches[id := Claimed(db.launches[id], now, duration, token)])
    else db
  }

  // ---------------------------------------------------------------- completing

  predicate ValidCoordinates(scope: Scope, c: Claim) {
    && ValidScope(scope) && c.launch > 0 && c.organization == scope.organization && c.actor == scope.actor
    && c.resource > 0 && c.revision > 0 && c.snapshot > 0 && c.token != "" && c.lease != ZERO_TIME
  }

  predicate ValidCompletion(scope: Scope, c: Claim, pod: Pod, payload: Bytes, ttl: int) {
    && ValidCoordinates(scope, c) && TOKEN_CHECK(c.token)
    && pod.id > 0 && pod.key != "" && pod.runner > 0 && 0 < |payload| <= MAX_PAYLOAD && 0 < ttl <= MAX_DISPATCH_TTL
  }

  function VerifyLease(l: Launch, c: Claim, now: int): Option<Error> {
    if l.state != Materializing || l.token != Some(c.token) || l.lease.None? || now >= l.lease.value then Some(LeaseLost)
    else if l.organization != c.organization || l.actor != c.actor || l.plan != c.plan || l.resource != c.resource
            || l.revision != c.revision || l.snapshot != c.snapshot || l.lease.value != c.lease then Some(Corrupt)
    else None
  }

  /** `worker-<id>`, the id in decimal. */
  function CommandId(launch: int): string
    requires launch > 0
  {
    "worker-" + Numeral(launch, 10)
  }

  function CommandFor(c: Claim, pod: Pod, payload: Bytes, now: int, ttl: int): Command
    requires c.launch > 0
  {
    Command(CommandId(c.launch), c.organization, pod.runner, pod.key, payload, now + ttl, now)
  }

  function DispatchedAs(l: Launch, pod: Pod, now: int): Launch {
    l.(state := Dispatched, token := None, lease := None, pod := Some(pod), dispatchedAt := Some(now))
  }

  /** `podCheck` is what checking the pod row against the claim found. */
  function CompleteResult(
    db: Db, scope: Scope, c: Claim, pod: Pod, podCheck: Option<Error>, payload: Bytes, now: int, ttl: int): Result<(), Error>
  {
    if !ValidCompletion(scope, c, pod, payload, ttl) then Err(Invalid)
    else if c.launch !in db.launches || db.launches[c.launch].organization != scope.organization then Err(NotFound)
    else if VerifyLease(db.launches[c.launch], c, now).Some? then Err(VerifyLease(db.launches[c.launch], c, now).value)
    else if podCheck.Some? then Err(podCheck.value)
    else if CommandId(c.launch) in db.pending then Err(Corrupt)
    else Ok(())
  }

  function AfterComplete(
    db: Db, scope: Scope, c: Claim, pod: Pod, podCheck: Option<Error>, payload: Bytes, now: int, ttl: int): Db
  {
    if CompleteResult(db, scope, c, pod, podCheck, payload, now, ttl).Ok?
    then Db(db.launches[c.launch := DispatchedAs(db.launches[c.launch], pod, now)],
            db.pending[CommandId(c.launch) := CommandFor(c, pod, payload, now, ttl)])
    else db
  }

  // ---------------------------------------------------------------- releasing

  predicate Holds(l: Launch, organization: int, token: string) {
    l.organization == organization && l.state == Materializing && l.token == Some(token)
  }

  function Released(l: Launch, reason: string): Launch {
    l.(state := Pending, token := None, lease := None, lastError := Some(reason))
  }

  function ReleaseResult(db: Db, scope: Scope, c: Claim, reason: string): Result<(), Error> {
    if !ValidCoordinates(scope, c) || reason == "" || ByteLen(reason) > 500 then Err(Invalid)
    else if c.launch !in db.launches || !Holds(db.launches[c.launch], scope.organization, c.token) then Err(LeaseLost)
    else Ok(())
  }

  function AfterRelease(db: Db, scope: Scope, c: Claim, reason: string): Db {
    if ReleaseResult(db, scope, c, reason).Ok?
    then db.(launches := db.launches[c.launch := Released(db.launches[c.launch], reason)])
    else db
  }
}
