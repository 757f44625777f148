/** The expert market: applications, their releases, and the cached pointer to the latest published release. */
module Market {
  import opened Text

  const MAX_INT32 := 0x7FFF_FFFF

  datatype Status = Draft | PendingReview | Published | Rejected | Withdrawn | Unknown(name: string)

  datatype Release = Release(
    id: int, application: int, organization: int, version: int, status: Status, documentsOk: bool,
    reviewer: Option<int>, reason: Option<string>, submittedAt: Option<int>, reviewedAt: Option<int>,
    publishedAt: Option<int>, rejectedAt: Option<int>, withdrawnAt: Option<int>)

  datatype Application = Application(id: int, slug: string, organization: int, sourceExpert: int, latest: Option<int>)

  datatype Update = Update(
    status: Status, expected: Option<Status>, reviewer: Option<int>, reason: Option<string>, submittedAt: Option<int>,
    reviewedAt: Option<int>, publishedAt: Option<int>, rejectedAt: Option<int>, withdrawnAt: Option<int>)

  datatype Error =
    | NotFound | Conflict | InvalidStatus | InvalidVersion | InvalidSnapshot | InvalidLatestStatus
    | PublicationRequiresLatest | LatestStatusConflict | InvalidWithdrawalStatus | PendingExists | StatusConflict | OutOfRange

  type Applications = map<int, Application>
  type Releases = map<int, Release>

  datatype Db = Db(applications: Applications, releases: Releases)

  const EMPTY := Db(map[], map[])

  predicate ValidStatus(s: Status) { !s.Unknown? }

  predicate ValidUpdate(u: Update) { ValidStatus(u.status) && (u.expected.Some? ==> ValidStatus(u.expected.value)) }

  // ---------------------------------------------------------------- creating

  function ValidateRelease(r: Release): Option<Error> {
    if r.version <= 0 then Some(InvalidVersion)
    else if !ValidStatus(r.status) then Some(InvalidStatus)
    else if !r.documentsOk then Some(InvalidSnapshot)
    else None
  }

  /** A new application cannot point at a release, since it has none; slug and source are unique. */
  predicate ApplicationFits(applications: Applications, a: Application) {
    && a.id !in applications && a.latest.None?
    && forall k | k in applications :: applications[k].slug != a.slug &&
         !(applications[k].organization == a.organization && applications[k].sourceExpert == a.sourceExpert)
  }

  /** A release belongs to an application of its publisher, and its version is unique there. */
  predicate ReleaseFits(db: Db, r: Release) {
    && r.id !in db.releases
    && r.application in db.applications && db.applications[r.application].organization == r.organization
    && forall k | k in db.releases :: !(db.releases[k].application == r.application && db.releases[k].version == r.version)
  }

  function InsertRelease(db: Db, r: Release): Result<Db, Error> {
    if r.version > MAX_INT32 then Err(OutOfRange)
    else if !ReleaseFits(db, r) then Err(Conflict)
    else Ok(db.(releases := db.releases[r.id := r]))
  }

  function InsertApplication(db: Db, a: Application): Result<Db, Error> {
    if !ApplicationFits(db.applications, a) then Err(Conflict)
    else Ok(db.(applications := db.applications[a.id := a]))
  }

  function CreateRelease(db: Db, r: Release): Result<Db, Error> {
    if ValidateRelease(r).Some? then Err(ValidateRelease(r).value) else InsertRelease(db, r)
  }

  /** v is the greatest version of an application, or zero if it has no release. */
  ghost predicate IsMaxVersion(releases: Releases, application: int, v: int) {
    && (forall k | k in releases && releases[k].application == application :: releases[k].version <= v)
    && (v == 0 || exists k | k in releases && releases[k].application == application :: releases[k].version == v)
  }

  predicate HasPending(releases: Releases, application: int) {
    exists k | k in releases :: releases[k].application == application && releases[k].status == PendingReview
  }

  /** The application of a submission: a new row for id zero, else the one that is there. */
  function SubmissionApplication(db: Db, a: Application, newId: int): Result<(Db, int), Error> {
    if a.id == 0 then
      var inserted := InsertApplication(db, a.(id := newId));
      if inserted.Err? then Err(inserted.error) else Ok((inserted.value, newId))
    else if a.id !in db.applications then Err(NotFound)
    else if db.applications[a.id].organization != a.organization then Err(Conflict)
    else Ok((db, a.id))
  }

  /** A submission whose version v is the one after the greatest. */
  function Submit(db: Db, application: int, r: Release, newId: int, v: int): Result<Db, Error> {
    if HasPending(db.releases, application) then Err(PendingExists)
    else CreateRelease(db, r.(id := newId, application := application, version := v))
  }

  // ---------------------------------------------------------------- status changes

  function Apply(r: Release, u: Update): Release {
    r.(status := u.status,
       reviewer := if u.reviewer.Some? then u.reviewer else r.reviewer,
       reason := if u.reason.Some? then u.reason else r.reason,
       submittedAt := if u.submittedAt.Some? then u.submittedAt else r.submittedAt,
       reviewedAt := if u.reviewedAt.Some? then u.reviewedAt else r.reviewedAt,
       publishedAt := if u.publishedAt.Some? then u.publishedAt else r.publishedAt,
       rejectedAt := if u.rejectedAt.Some? then u.rejectedAt else r.rejectedAt,
       withdrawnAt := if u.withdrawnAt.Some? then u.withdrawnAt else r.withdrawnAt)
  }

  function Updated(db: Db, id: int, u: Update): Db
    requires id in db.releases
  {
    db.(releases := db.releases[id := Apply(db.releases[id], u)])
  }

  function Pointed(db: Db, application: int, latest: Option<int>): Db
    requires application in db.applications
  {
    db.(applications := db.applications[application := db.applications[application].(latest := latest)])
  }

  predicate Expected(r: Release, u: Update) { u.expected.Some? ==> r.status == u.expected.value }

  function UpdateLifecycle(db: Db, id: int, u: Update): Result<Db, Error> {
    if !ValidUpdate(u) then Err(InvalidStatus)
    else if u.status == Published then Err(PublicationRequiresLatest)
    else if id !in db.releases || db.releases[id].application !in db.applications then Err(NotFound)
    else if !Expected(db.releases[id], u) then Err(StatusConflict)
    else if db.applications[db.releases[id].application].latest == Some(id) then Err(LatestStatusConflict)
    else Ok(Updated(db, id, u))
  }

  /** The release of an application, or why there is none. */
  function ReleaseOf(db: Db, application: int, id: int): Result<Release, Error> {
    if id !in db.releases then Err(NotFound)
    else if db.releases[id].application != application then Err(Conflict)
    else Ok(db.releases[id])
  }

  function Publish(db: Db, application: int, id: int, u: Update): Result<Db, Error> {
    if !ValidUpdate(u) then Err(InvalidStatus)
    else if u.status != Published then Err(InvalidLatestStatus)
    else if application !in db.applications then Err(NotFound)
    else if ReleaseOf(db, application, id).Err? then Err(ReleaseOf(db, application, id).error)
    else if !Expected(db.releases[id], u) then Err(StatusConflict)
    else
      var next := Updated(db, id, u);
      var latest := db.applications[application].latest;
      if latest.None? then Ok(Pointed(next, application, Some(id)))
      else if latest.value !in next.releases then Err(NotFound)
      else if next.releases[id].version <= next.releases[latest.value].version then Ok(next)
      else Ok(Pointed(next, application, Some(id)))
  }

  predicate Candidate(r: Release, application: int, except: int) {
    r.application == application && r.id != except && r.status == Published
  }

  /** Higher version first, then higher id. */
  predicate Precedes(a: Release, b: Release) { a.version > b.version || (a.version == b.version && a.id >= b.id) }

  /** The published release that comes first, leaving one out. */
  ghost predicate IsFirst(releases: Releases, application: int, except: int, best: Option<int>) {
    if best.None? then forall k | k in releases :: !Candidate(releases[k], application, except)
    else
      && best.value in releases && Candidate(releases[best.value], application, except)
      && forall k | k in releases && Candidate(releases[k], application, except) :: Precedes(releases[best.value], releases[k])
  }

  /** Withdrawing, where `best` is the published release that comes first without this one. */
  function Withdraw(db: Db, application: int, id: int, u: Update, best: Option<int>): Result<Db, Error> {
    if !ValidUpdate(u) then Err(InvalidStatus)
    else if u.status != Withdrawn then Err(InvalidWithdrawalStatus)
    else if application !in db.applications then Err(NotFound)
    else if ReleaseOf(db, application, id).Err? then Err(ReleaseOf(db, application, id).error)
    else if !Expected(db.releases[id], u) then Err(StatusConflict)
    else
      var next := Updated(db, id, u);
      if db.applications[application].latest != Some(id) then Ok(next) else Ok(Pointed(next, application, best))
  }
}
