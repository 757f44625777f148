/** What exactly the market answers and writes, and what its submissions keep over every run. */
module MarketAnswers {
  import opened Text
  import opened Market
  import opened MarketRuns

  // ---------------------------------------------------------------- status changes

  /** What was given, or else what was there. */
  function Later<T>(was: Option<T>, given: Option<T>): Option<T> {
    match given
    case None => was
    case Some(_) => given
  }

  /** The release with the new status; the rest is the update's where it says something and stays where it does not. */
  function Rewritten(r: Release, u: Update): Release {
    Release(r.id, r.application, r.organization, r.version, u.status, r.documentsOk,
            Later(r.reviewer, u.reviewer), Later(r.reason, u.reason), Later(r.submittedAt, u.submittedAt),
            Later(r.reviewedAt, u.reviewedAt), Later(r.publishedAt, u.publishedAt), Later(r.rejectedAt, u.rejectedAt),
            Later(r.withdrawnAt, u.withdrawnAt))
  }

  lemma ApplyRewrites(r: Release, u: Update)
    ensures Apply(r, u) == Rewritten(r, u)
  {}

  predicate KnownStatus(s: Status) { s in {Draft, PendingReview, Status.Published, Rejected, Withdrawn} }

  lemma StatusIsKnown(s: Status)
    ensures ValidStatus(s) <==> KnownStatus(s)
  {
    match s
    case Draft =>
    case PendingReview =>
    case Published =>
    case Rejected =>
    case Withdrawn =>
    case Unknown(_) =>
  }

  predicate SoundUpdate(u: Update) { KnownStatus(u.status) && (u.expected != None ==> KnownStatus(u.expected.value)) }

  lemma UpdateIsSound(u: Update)
    ensures ValidUpdate(u) <==> SoundUpdate(u)
  {
    StatusIsKnown(u.status);
    if u.expected.Some? { StatusIsKnown(u.expected.value); }
    hide KnownStatus, ValidStatus;
  }

  /** The update was made for the status the release is in. */
  predicate Meets(r: Release, u: Update) { u.expected == None || u.expected == Some(r.status) }

  /** The answer to a change that does not publish, and what it writes. */
  lemma ChangeAnswers(db: Db, id: int, u: Update)
    requires Inv(db)
    ensures var r := UpdateLifecycle(db, id, u);
      if !SoundUpdate(u) then r == Err(InvalidStatus)
      else if u.status == Published then r == Err(PublicationRequiresLatest)
      else if id !in db.releases then r == Err(NotFound)
      else
        && db.releases[id].application in db.applications
        && if !Meets(db.releases[id], u) then r == Err(StatusConflict)
           else if db.applications[db.releases[id].application].latest == Some(id) then r == Err(LatestStatusConflict)
           else r == Ok(Db(db.applications, db.releases[id := Rewritten(db.releases[id], u)]))
  {
    UpdateIsSound(u);
    if id in db.releases { ApplyRewrites(db.releases[id], u); }
    hide Apply, Rewritten, SoundUpdate, ValidUpdate, UniqueVersions, PointerOk;
  }

  /** No other release of the application that is published has a version as high. */
  ghost predicate Outranks(releases: Releases, application: int, id: int)
    requires id in releases
  {
    forall k | k in releases && k != id && IsPublished(releases[k], application) :: releases[k].version < releases[id].version
  }

  /** The answer to a publication, and what it writes: the pointer moves exactly to a release that outranks the published ones. */
  lemma PublishAnswers(db: Db, application: int, id: int, u: Update)
    requires Inv(db)
    ensures var r := Publish(db, application, id, u);
      if !SoundUpdate(u) then r == Err(InvalidStatus)
      else if u.status != Published then r == Err(InvalidLatestStatus)
      else if application !in db.applications || id !in db.releases then r == Err(NotFound)
      else if db.releases[id].application != application then r == Err(Conflict)
      else if !Meets(db.releases[id], u) then r == Err(StatusConflict)
      else
        var a := db.applications[application];
        r == Ok(Db(
          if Outranks(db.releases, application, id) then db.applications[application := a.(latest := Some(id))] else db.applications,
          db.releases[id := Rewritten(db.releases[id], u)]))
  {
    UpdateIsSound(u);
    if application in db.applications && id in db.releases && db.releases[id].application == application {
      ApplyRewrites(db.releases[id], u);
      ApplyFields(db.releases[id], u);
      hide Apply, Rewritten, SoundUpdate, ValidUpdate;
      var a := db.applications[application];
      assert PointerOk(db.releases, a) && a.id == application;
      if a.latest == Some(id) {
        assert Outranks(db.releases, application, id) by { HighestOutranks(db, application, id); }
        assert db.applications[application := a.(latest := Some(id))] == db.applications;
      }
      hide UniqueVersions;
    } else {
      hide Apply, Rewritten, SoundUpdate, ValidUpdate, UniqueVersions, PointerOk;
    }
  }

  lemma HighestOutranks(db: Db, application: int, id: int)
    requires Inv(db) && Highest(db.releases, application, id)
    ensures Outranks(db.releases, application, id)
  {
    forall k | k in db.releases && k != id && IsPublished(db.releases[k], application)
      ensures db.releases[k].version < db.releases[id].version
    {
      assert db.releases[k].version != db.releases[id].version;
    }
  }

  /** The answer to a withdrawal, and what it writes: a pointer to the release goes to the highest of the others, if there is one. */
  lemma WithdrawAnswers(db: Db, op: Op, best: Option<int>, next: Db)
    requires Inv(db) && op.Withdrawal? && Withdraws(db, op, best, next)
    ensures var r := Withdraw(db, op.application, op.id, op.u, best);
      && (r.Err? ==> next == db)
      && if !SoundUpdate(op.u) then r == Err(InvalidStatus)
         else if op.u.status != Withdrawn then r == Err(InvalidWithdrawalStatus)
         else if op.application !in db.applications || op.id !in db.releases then r == Err(NotFound)
         else if db.releases[op.id].application != op.application then r == Err(Conflict)
         else if !Meets(db.releases[op.id], op.u) then r == Err(StatusConflict)
         else
           && next.releases == db.releases[op.id := Rewritten(db.releases[op.id], op.u)]
           && next.applications == db.applications[op.application := next.applications[op.application]]
           && (db.applications[op.application].latest != Some(op.id) ==> next.applications == db.applications)
           && (db.applications[op.application].latest == Some(op.id) ==>
                 var l := next.applications[op.application].latest;
                 && next.applications[op.application] == db.applications[op.application].(latest := l)
                 && match l
                    case None => forall k | k in db.releases && k != op.id :: !IsPublished(db.releases[k], op.application)
                    case Some(id) => id != op.id && Highest(next.releases, op.application, id))
  {
    UpdateIsSound(op.u);
    var r := Withdraw(db, op.application, op.id, op.u, best);
    if r.Ok? {
      ApplyRewrites(db.releases[op.id], op.u);
      WithdrawnPointer(db, op, best, next);
      hide Apply, Rewritten, SoundUpdate, ValidUpdate, UniqueVersions;
      var a := db.applications[op.application];
      assert next.applications[op.application] == if a.latest == Some(op.id) then a.(latest := best) else a;
      forall k | k in db.releases && k != op.id && a.latest == Some(op.id) && best.None?
        ensures !IsPublished(db.releases[k], op.application)
      {
        assert k in next.releases && next.releases[k] == db.releases[k] && !IsPublished(next.releases[k], op.application);
      }
    }
    hide Apply, Rewritten, SoundUpdate, ValidUpdate, UniqueVersions, IsFirst;
  }

  // ---------------------------------------------------------------- submissions

  /** The id, the slug and the source of a new application are taken by no other. */
  ghost predicate IsNewApplication(db: Db, a: Application, id: int) {
    && id !in db.applications && a.latest == None
    && forall k | k in db.applications ::
         && db.applications[k].slug != a.slug
         && (db.applications[k].organization, db.applications[k].sourceExpert) != (a.organization, a.sourceExpert)
  }

  /** Where a submission goes: to a new application when it names none, else to the publisher's own. */
  lemma SubmissionLocates(db: Db, a: Application, newId: int)
    ensures SubmissionApplication(db, a, newId) ==
      if a.id == 0 then
        if IsNewApplication(db, a, newId)
        then Ok((Db(db.applications[newId := Application(newId, a.slug, a.organization, a.sourceExpert, None)], db.releases), newId))
        else Err(Conflict)
      else if a.id !in db.applications then Err(NotFound)
      else if db.applications[a.id].organization != a.organization then Err(Conflict)
      else Ok((db, a.id))
  {}

  /** Some release of the application awaits review. */
  ghost predicate AwaitsReview(releases: Releases, application: int) {
    exists k | k in releases :: releases[k].application == application && releases[k].status == PendingReview
  }

  /** The answer to a submission to a located application, with the version after the greatest. */
  lemma SubmissionAnswers(db: Db, application: int, r: Release, newId: int, v: int)
    requires Inv(db) && application in db.applications && IsMaxVersion(db.releases, application, v - 1)
    ensures Submit(db, application, r, newId, v) ==
      if AwaitsReview(db.releases, application) then Err(PendingExists)
      else if !KnownStatus(r.status) then Err(InvalidStatus)
      else if !r.documentsOk then Err(InvalidSnapshot)
      else if v > 0x7FFF_FFFF then Err(OutOfRange)
      else if newId in db.releases || r.organization != db.applications[application].organization then Err(Conflict)
      else Ok(Db(db.applications, db.releases[newId := r.(id := newId, application := application, version := v)]))
  {
    StatusIsKnown(r.status);
    assert v > 0 by { hide UniqueVersions, PointerOk; }
    hide KnownStatus, ValidStatus, Inv;
    assert HasPending(db.releases, application) <==> AwaitsReview(db.releases, application);
    assert forall k | k in db.releases && db.releases[k].application == application :: db.releases[k].version < v;
  }

  /** The answer to a release that is created by itself. */
  lemma ReleaseAnswers(db: Db, r: Release)
    ensures CreateRelease(db, r) ==
      if r.version <= 0 then Err(InvalidVersion)
      else if !KnownStatus(r.status) then Err(InvalidStatus)
      else if !r.documentsOk then Err(InvalidSnapshot)
      else if r.version > 0x7FFF_FFFF then Err(OutOfRange)
      else if
        && r.id !in db.releases && r.application in db.applications && db.applications[r.application].organization == r.organization
        && forall k | k in db.releases && db.releases[k].application == r.application :: db.releases[k].version != r.version
      then Ok(Db(db.applications, db.releases[r.id := r]))
      else Err(Conflict)
  {
    StatusIsKnown(r.status);
    hide KnownStatus, ValidStatus;
  }

  // ---------------------------------------------------------------- every run

  /** Nothing but a submission puts a release under review. */
  ghost predicate ReviewsAreSubmitted(op: Op) {
    match op
    case NewRelease(r) => r.status != PendingReview
    case Change(_, u) => u.status != PendingReview
    case _ => true
  }

  ghost predicate OneReview(releases: Releases) {
    forall j, k | j in releases && k in releases && j != k ::
      !(releases[j].application == releases[k].application && releases[j].status == PendingReview && releases[k].status == PendingReview)
  }

  lemma WriteKeepsOneReview(releases: Releases, id: int, r: Release)
    requires OneReview(releases) && (id in releases ==> releases[id].application == r.application)
    requires r.status == PendingReview ==> !AwaitsReview(releases, r.application)
    ensures OneReview(releases[id := r])
  {}

  lemma StepKeepsOneReview(db: Db, op: Op, next: Db)
    requires OneReview(db.releases) && Steps(db, op, next) && ReviewsAreSubmitted(op)
    ensures OneReview(next.releases)
  {
    match op
    case NewApplication(a) => hide OneReview, ApplicationFits;
    case NewRelease(r) =>
      hide OneReview, ReleaseFits, ValidateRelease;
      if CreateRelease(db, r).Ok? { WriteKeepsOneReview(db.releases, r.id, r); }
    case Submission(_, _, _, _) => SubmissionKeepsOneReview(db, op, next);
    case Change(id, u) =>
      if UpdateLifecycle(db, id, u).Ok? {
        ApplyFields(db.releases[id], u);
        hide OneReview, Apply;
        WriteKeepsOneReview(db.releases, id, Apply(db.releases[id], u));
      }
    case Publication(application, id, u) =>
      if Publish(db, application, id, u).Ok? {
        ApplyFields(db.releases[id], u);
        hide OneReview, Apply;
        WriteKeepsOneReview(db.releases, id, Apply(db.releases[id], u));
      }
    case Withdrawal(application, id, u) =>
      var best :| Withdraws(db, op, best, next);
      if Withdraw(db, application, id, u, best).Ok? {
        ApplyFields(db.releases[id], u);
        hide OneReview, Apply, IsFirst;
        WriteKeepsOneReview(db.releases, id, Apply(db.releases[id], u));
      }
  }

  lemma SubmissionKeepsOneReview(db: Db, op: Op, next: Db)
    requires OneReview(db.releases) && op.Submission? && Steps(db, op, next)
    ensures OneReview(next.releases)
  {
    var v :| Submits(db, op, v, next);
    SubmissionLocates(db, op.a, op.newApplication);
    var located := SubmissionApplication(db, op.a, op.newApplication);
    if located.Ok? {
      var app := located.value.1;
      var r := op.r.(id := op.newRelease, application := app, version := v);
      hide SubmissionApplication, OneReview, IsNewApplication, IsMaxVersion;
      assert HasPending(db.releases, app) <==> AwaitsReview(db.releases, app);
      if !HasPending(db.releases, app) && CreateRelease(located.value.0, r).Ok? {
        assert CreateRelease(located.value.0, r).value.releases == db.releases[op.newRelease := r] && op.newRelease !in db.releases by {
          ReleaseAnswers(located.value.0, r);
        }
        WriteKeepsOneReview(db.releases, op.newRelease, r);
      }
      hide CreateRelease, HasPending, AwaitsReview;
    }
  }

  /** In every run whose releases come under review by submission only, no application ever has two releases under review. */
  lemma {:induction false} OneReviewAtATime(dbs: seq<Db>, ops: seq<Op>, i: nat)
    requires IsRun(dbs, ops) && i <= |ops| && forall j :: 0 <= j < i ==> ReviewsAreSubmitted(ops[j])
    ensures OneReview(dbs[i].releases)
  {
    hide Steps, ReviewsAreSubmitted;
    if i > 0 {
      OneReviewAtATime(dbs, ops, i - 1);
      hide OneReview;
      StepKeepsOneReview(dbs[i - 1], ops[i - 1], dbs[i]);
    }
  }

  /** No two applications share a slug or a source, and every release belongs to the publisher of its application. */
  ghost predicate Registered(db: Db) {
    && (forall j, k | j in db.applications && k in db.applications && j != k ::
          && db.applications[j].slug != db.applications[k].slug
          && (db.applications[j].organization, db.applications[j].sourceExpert) !=
             (db.applications[k].organization, db.applications[k].sourceExpert))
    && (forall k | k in db.releases ::
          db.releases[k].application in db.applications && db.applications[db.releases[k].application].organization == db.releases[k].organization)
  }

  /** The tables keep what registers applications and releases. */
  ghost predicate SameRegister(db: Db, next: Db) {
    && next.applications.Keys == db.applications.Keys && next.releases.Keys == db.releases.Keys
    && (forall k | k in db.applications ::
          next.applications[k].slug == db.applications[k].slug && next.applications[k].organization == db.applications[k].organization
          && next.applications[k].sourceExpert == db.applications[k].sourceExpert)
    && (forall k | k in db.releases ::
          next.releases[k].application == db.releases[k].application && next.releases[k].organization == db.releases[k].organization)
  }

  lemma SameKeepsRegistered(db: Db, next: Db)
    requires Registered(db) && SameRegister(db, next)
    ensures Registered(next)
  {}

  lemma ApplicationKeepsRegistered(db: Db, a: Application, id: int)
    requires Registered(db) && IsNewApplication(db, a, id)
    ensures Registered(Db(db.applications[id := a.(id := id)], db.releases))
  {}

  lemma ReleaseKeepsRegistered(db: Db, r: Release)
    requires Registered(db) && CreateRelease(db, r).Ok?
    ensures Registered(CreateRelease(db, r).value)
  {
    hide ValidateRelease;
  }

  lemma StepKeepsRegistered(db: Db, op: Op, next: Db)
    requires Registered(db) && Steps(db, op, next)
    ensures Registered(next)
  {
    match op
    case NewApplication(a) =>
      if InsertApplication(db, a).Ok? {
        ApplicationKeepsRegistered(db, a, a.id);
        assert a.(id := a.id) == a;
      }
      hide Registered;
    case NewRelease(r) =>
      if CreateRelease(db, r).Ok? { ReleaseKeepsRegistered(db, r); }
      hide Registered, CreateRelease;
    case Submission(a, r, newApplication, newRelease) =>
      var v :| Submits(db, op, v, next);
      SubmissionLocates(db, a, newApplication);
      if a.id == 0 && IsNewApplication(db, a, newApplication) { ApplicationKeepsRegistered(db, a, newApplication); }
      var located := SubmissionApplication(db, a, newApplication);
      hide Registered, SubmissionApplication, IsNewApplication, CreateRelease, HasPending, IsMaxVersion;
      if located.Ok? {
        var t := r.(id := newRelease, application := located.value.1, version := v);
        if CreateRelease(located.value.0, t).Ok? { ReleaseKeepsRegistered(located.value.0, t); }
      }
    case _ =>
      hide Registered, Steps;
      StatusKeepsRegister(db, op, next);
      SameKeepsRegistered(db, next);
  }

  lemma StatusKeepsRegister(db: Db, op: Op, next: Db)
    requires Steps(db, op, next) && (op.Change? || op.Publication? || op.Withdrawal?)
    ensures SameRegister(db, next)
  {
    if op.id in db.releases { ApplyRewrites(db.releases[op.id], op.u); }
    hide Apply, IsFirst;
  }

  lemma {:induction false} AlwaysRegistered(dbs: seq<Db>, ops: seq<Op>, i: nat)
    requires IsRun(dbs, ops) && i <= |ops|
    ensures Registered(dbs[i])
  {
    hide Steps;
    if i > 0 {
      AlwaysRegistered(dbs, ops, i - 1);
      hide Registered;
      StepKeepsRegistered(dbs[i - 1], ops[i - 1], dbs[i]);
    }
  }
}
