/** The latest pointer over every run of creations, submissions, publications, withdrawals and status changes. */
module MarketRuns {
  import opened Text
  import opened Market
  import MarketRepo

  datatype Op =
    | NewApplication(a: Application)
    | NewRelease(r: Release)
    | Submission(a: Application, r: Release, newApplication: int, newRelease: int)
    | Change(id: int, u: Update)
    | Publication(application: int, id: int, u: Update)
    | Withdrawal(application: int, id: int, u: Update)

  /** A transaction commits its tables or leaves the old ones. */
  ghost predicate Leaves(db: Db, r: Result<Db, Error>, next: Db) { next == if r.Ok? then r.value else db }

  ghost predicate Submits(db: Db, op: Op, v: int, next: Db)
    requires op.Submission?
  {
    var located := SubmissionApplication(db, op.a, op.newApplication);
    if located.Err? then next == db
    else IsMaxVersion(db.releases, located.value.1, v - 1) &&
         var s := Submit(located.value.0, located.value.1, op.r, op.newRelease, v);
         next == if s.Ok? then s.value else db
  }

  ghost predicate Withdraws(db: Db, op: Op, best: Option<int>, next: Db)
    requires op.Withdrawal?
  {
    var r := Withdraw(db, op.application, op.id, op.u, best);
    Leaves(db, r, next) &&
    (r.Ok? && db.applications[op.application].latest == Some(op.id) ==> IsFirst(next.releases, op.application, op.id, best))
  }

  ghost predicate Steps(db: Db, op: Op, next: Db) {
    match op
    case NewApplication(a) => Leaves(db, InsertApplication(db, a), next)
    case NewRelease(r) => Leaves(db, CreateRelease(db, r), next)
    case Submission(_, _, _, _) => exists v :: Submits(db, op, v, next)
    case Change(id, u) => Leaves(db, UpdateLifecycle(db, id, u), next)
    case Publication(application, id, u) => Leaves(db, Publish(db, application, id, u), next)
    case Withdrawal(_, _, _) => exists best :: Withdraws(db, op, best, next)
  }

  ghost predicate IsRun(dbs: seq<Db>, ops: seq<Op>) {
    |dbs| == |ops| + 1 && dbs[0] == EMPTY && forall i :: 0 <= i < |ops| ==> Steps(dbs[i], ops[i], dbs[i + 1])
  }

  /** No release is created as already published. */
  predicate NotYetPublished(op: Op) {
    (op.NewRelease? ==> op.r.status != Published) && (op.Submission? ==> op.r.status != Published)
  }

  // ---------------------------------------------------------------- the invariant

  ghost predicate Keyed(db: Db) {
    && (forall k | k in db.applications :: db.applications[k].id == k)
    && (forall k | k in db.releases ::
          db.releases[k].id == k && db.releases[k].version > 0 && db.releases[k].application in db.applications)
  }

  ghost predicate UniqueVersions(releases: Releases) {
    forall j, k | j in releases && k in releases && j != k ::
      !(releases[j].application == releases[k].application && releases[j].version == releases[k].version)
  }

  predicate IsPublished(r: Release, application: int) { r.application == application && r.status == Published }

  /** A published release of the application that no other published one outranks. */
  ghost predicate Highest(releases: Releases, application: int, id: int) {
    && id in releases && IsPublished(releases[id], application)
    && forall k | k in releases && IsPublished(releases[k], application) :: releases[k].version <= releases[id].version
  }

  ghost predicate PointerOk(releases: Releases, a: Application) {
    match a.latest
    case None => forall k | k in releases :: !IsPublished(releases[k], a.id)
    case Some(id) => Highest(releases, a.id, id)
  }

  ghost predicate Inv(db: Db) {
    Keyed(db) && UniqueVersions(db.releases) && forall k | k in db.applications :: PointerOk(db.releases, db.applications[k])
  }

  // ---------------------------------------------------------------- creations

  lemma InsertApplicationKeeps(db: Db, a: Application)
    requires Inv(db) && InsertApplication(db, a).Ok?
    ensures Inv(InsertApplication(db, a).value)
  {
    var next := InsertApplication(db, a).value;
    hide UniqueVersions;
    forall k | k in next.applications
      ensures PointerOk(next.releases, next.applications[k])
    {
      if k == a.id { hide Highest; }
    }
  }

  lemma InsertKeepsShape(db: Db, r: Release)
    requires Keyed(db) && UniqueVersions(db.releases) && CreateRelease(db, r).Ok?
    ensures var next := CreateRelease(db, r).value;
      Keyed(next) && UniqueVersions(next.releases) && next == db.(releases := db.releases[r.id := r]) && r.id !in db.releases
    ensures r.application in db.applications && ReleaseFits(db, r)
  {
    hide PointerOk;
  }

  /**
   * When inserting a release keeps its application's pointer right: exactly when it is not published yet, or when
   * it is outranked by the one pointed at.
   */
  lemma InsertKeepsPointerExactly(db: Db, r: Release)
    requires Inv(db) && CreateRelease(db, r).Ok?
    ensures r.application in db.applications
    ensures var latest := db.applications[r.application].latest;
      PointerOk(CreateRelease(db, r).value.releases, db.applications[r.application]) <==>
      (r.status != Published || (latest.Some? && latest.value in db.releases && db.releases[latest.value].version > r.version))
  {
    InsertKeepsShape(db, r);
    var next, a := CreateRelease(db, r).value.releases, db.applications[r.application];
    hide CreateRelease, UniqueVersions;
    assert PointerOk(db.releases, a);
    if r.status != Published {
      SameForUnpublished(db.releases, r, a);
    } else if a.latest.None? {
      assert IsPublished(next[r.id], a.id);
    } else {
      assert IsPublished(next[r.id], a.id) && next[a.latest.value] == db.releases[a.latest.value];
    }
  }

  lemma SameForUnpublished(releases: Releases, r: Release, a: Application)
    requires PointerOk(releases, a) && r.id !in releases && !IsPublished(r, a.id)
    ensures PointerOk(releases[r.id := r], a)
  {}

  lemma InsertReleaseKeeps(db: Db, r: Release)
    requires Inv(db) && CreateRelease(db, r).Ok? && r.status != Published
    ensures Inv(CreateRelease(db, r).value)
  {
    InsertKeepsShape(db, r);
    hide CreateRelease, PointerOk, UniqueVersions, Keyed, ReleaseFits;
    forall k | k in db.applications
      ensures PointerOk(db.releases[r.id := r], db.applications[k])
    {
      SameForUnpublished(db.releases, r, db.applications[k]);
    }
  }

  /** A submission gets the version after all others, so it keeps the pointer right exactly when it is unpublished. */
  lemma SubmissionKeepsPointerExactly(db: Db, op: Op, v: int, next: Db)
    requires Inv(db) && op.Submission? && Submits(db, op, v, next) && op.newRelease in next.releases && op.newRelease !in db.releases
    ensures var r := next.releases[op.newRelease];
      && r.version == v && v > 0 && r.application in next.applications
      && (forall k | k in db.releases && db.releases[k].application == r.application :: db.releases[k].version < v)
      && (PointerOk(next.releases, next.applications[r.application]) <==> op.r.status != Published)
  {
    var located := SubmissionApplication(db, op.a, op.newApplication);
    var db1, app := located.value.0, located.value.1;
    LocatedKeeps(db, op.a, op.newApplication);
    var r := op.r.(id := op.newRelease, application := app, version := v);
    hide InsertApplication, CreateRelease, SubmissionApplication, HasPending, PointerOk, UniqueVersions;
    InsertKeepsPointerExactly(db1, r);
    InsertKeepsShape(db1, r);
  }

  lemma LocatedKeeps(db: Db, a: Application, newId: int)
    requires Inv(db) && SubmissionApplication(db, a, newId).Ok?
    ensures var (db1, app) := SubmissionApplication(db, a, newId).value; Inv(db1) && db1.releases == db.releases && app in db1.applications
  {
    hide Inv, ApplicationFits;
    if a.id == 0 { InsertApplicationKeeps(db, a.(id := newId)); }
  }

  lemma SubmissionKeeps(db: Db, op: Op, next: Db)
    requires Inv(db) && op.Submission? && Steps(db, op, next) && NotYetPublished(op)
    ensures Inv(next)
  {
    var v :| Submits(db, op, v, next);
    var located := SubmissionApplication(db, op.a, op.newApplication);
    hide Inv, CreateRelease, SubmissionApplication, HasPending;
    if located.Ok? {
      LocatedKeeps(db, op.a, op.newApplication);
      var r := op.r.(id := op.newRelease, application := located.value.1, version := v);
      if CreateRelease(located.value.0, r).Ok? { InsertReleaseKeeps(located.value.0, r); }
    }
  }

  // ---------------------------------------------------------------- status changes

  lemma ApplyFields(r: Release, u: Update)
    ensures var t := Apply(r, u); t.id == r.id && t.application == r.application && t.version == r.version && t.status == u.status
  {}

  lemma UpdatedShape(db: Db, id: int, u: Update)
    requires Keyed(db) && UniqueVersions(db.releases) && id in db.releases
    ensures Keyed(Updated(db, id, u)) && UniqueVersions(Updated(db, id, u).releases)
  {
    ApplyFields(db.releases[id], u);
    hide Apply;
  }

  /** Applications other than the release's own do not notice. */
  lemma OtherPointer(db: Db, id: int, u: Update, a: Application)
    requires Inv(db) && id in db.releases && a.id != db.releases[id].application && PointerOk(db.releases, a)
    ensures PointerOk(Updated(db, id, u).releases, a)
  {
    ApplyFields(db.releases[id], u);
    hide Apply, UniqueVersions;
  }

  /** Writing a status keeps the pointer right exactly when the release published is, or stays behind, the latest one. */
  lemma UpdateKeepsPointerExactly(db: Db, id: int, u: Update)
    requires Inv(db) && id in db.releases
    ensures db.releases[id].application in db.applications
    ensures var a := db.applications[db.releases[id].application];
      PointerOk(Updated(db, id, u).releases, a) <==>
      if u.status != Published then a.latest != Some(id)
      else a.latest.Some? && a.latest.value in db.releases && db.releases[a.latest.value].version >= db.releases[id].version
  {
    ApplyFields(db.releases[id], u);
    hide Apply;
    var a, next := db.applications[db.releases[id].application], Updated(db, id, u).releases;
    assert PointerOk(db.releases, a) && a.id == db.releases[id].application;
    assert forall k | k in db.releases && k != id :: next[k] == db.releases[k];
    if u.status == Published { assert IsPublished(next[id], a.id); }
  }

  /**
   * Of the status changes that do not publish, those refused for the pointer's sake are exactly those that would
   * make it wrong; an accepted one leaves every other release, every pointer and every application's highest.
   */
  lemma ChangeIsRefusedExactly(db: Db, id: int, u: Update)
    requires Inv(db) && id in db.releases && ValidUpdate(u) && u.status != Published && Expected(db.releases[id], u)
    ensures db.releases[id].application in db.applications
    ensures UpdateLifecycle(db, id, u).Ok? <==>
      PointerOk(Updated(db, id, u).releases, db.applications[db.releases[id].application])
    ensures UpdateLifecycle(db, id, u).Ok? ==>
      var next := UpdateLifecycle(db, id, u).value;
      && next.applications == db.applications && next.releases.Keys == db.releases.Keys
      && (forall k | k in db.releases && k != id :: next.releases[k] == db.releases[k])
      && next.releases[id].version == db.releases[id].version && next.releases[id].status == u.status
      && forall a, k | a in db.applications :: Highest(next.releases, a, k) <==> Highest(db.releases, a, k)
  {
    UpdateKeepsPointerExactly(db, id, u);
    if UpdateLifecycle(db, id, u).Ok? {
      ApplyFields(db.releases[id], u);
      forall a, k | a in db.applications
        ensures Highest(Updated(db, id, u).releases, a, k) <==> Highest(db.releases, a, k)
      {
        SameHighest(db, id, u, a, k);
      }
    }
    hide Inv, Apply, Highest, PointerOk;
  }

  lemma SameHighest(db: Db, id: int, u: Update, a: int, k: int)
    requires Inv(db) && UpdateLifecycle(db, id, u).Ok? && a in db.applications
    ensures Highest(Updated(db, id, u).releases, a, k) <==> Highest(db.releases, a, k)
  {
    var next := UpdateLifecycle(db, id, u).value;
    ChangeKeeps(db, id, u);
    hide Updated, Apply;
    assert PointerOk(db.releases, db.applications[a]) && PointerOk(next.releases, next.applications[a]);
    if db.applications[a].latest.Some? {
      var latest := db.applications[a].latest.value;
      if Highest(db.releases, a, k) { HighestIsUnique(db.releases, a, k, latest); }
      if Highest(next.releases, a, k) { HighestIsUnique(next.releases, a, k, latest); }
    }
  }

  lemma ChangeKeeps(db: Db, id: int, u: Update)
    requires Inv(db) && UpdateLifecycle(db, id, u).Ok?
    ensures Inv(UpdateLifecycle(db, id, u).value)
  {
    UpdatedShape(db, id, u);
    ApplyFields(db.releases[id], u);
    var next := Updated(db, id, u);
    hide Apply, UniqueVersions;
    forall k | k in db.applications
      ensures PointerOk(next.releases, db.applications[k])
    {
      if k != db.releases[id].application {
        OtherPointer(db, id, u, db.applications[k]);
      } else {
        assert PointerOk(db.releases, db.applications[k]);
      }
    }
  }

  lemma PublishKeeps(db: Db, application: int, id: int, u: Update)
    requires Inv(db) && Publish(db, application, id, u).Ok?
    ensures Inv(Publish(db, application, id, u).value)
  {
    UpdatedShape(db, id, u);
    ApplyFields(db.releases[id], u);
    var updated, next := Updated(db, id, u), Publish(db, application, id, u).value;
    assert next.releases == updated.releases;
    hide Apply, UniqueVersions, Updated;
    forall k | k in db.applications && k != application
      ensures PointerOk(updated.releases, db.applications[k])
    {
      OtherPointer(db, id, u, db.applications[k]);
    }
    assert PointerOk(db.releases, db.applications[application]);
    PublishedPointer(db, application, id, u);
    hide PointerOk;
  }

  lemma PublishedPointer(db: Db, application: int, id: int, u: Update)
    requires Inv(db) && Publish(db, application, id, u).Ok?
    ensures var next := Publish(db, application, id, u).value;
      application in next.applications && PointerOk(next.releases, next.applications[application])
  {
    ApplyFields(db.releases[id], u);
    hide Apply, UniqueVersions;
    assert PointerOk(db.releases, db.applications[application]);
    var next := Publish(db, application, id, u).value;
    assert IsPublished(next.releases[id], application);
    assert forall k | k in db.releases && k != id :: next.releases[k] == db.releases[k];
  }

  lemma WithdrawnPointer(db: Db, op: Op, best: Option<int>, next: Db)
    requires Inv(db) && op.Withdrawal? && Withdraws(db, op, best, next)
    requires Withdraw(db, op.application, op.id, op.u, best).Ok?
    ensures op.application in next.applications && PointerOk(next.releases, next.applications[op.application])
  {
    ApplyFields(db.releases[op.id], op.u);
    UpdatedShape(db, op.id, op.u);
    hide Apply, UniqueVersions;
    var a := db.applications[op.application];
    assert PointerOk(db.releases, a);
    assert !IsPublished(next.releases[op.id], op.application);
    assert forall k | k in db.releases && k != op.id :: next.releases[k] == db.releases[k];
    if a.latest == Some(op.id) {
      assert forall k | k in next.releases :: IsPublished(next.releases[k], op.application) <==>
        Candidate(next.releases[k], op.application, op.id);
    }
  }

  lemma WithdrawKeeps(db: Db, op: Op, next: Db)
    requires Inv(db) && op.Withdrawal? && Steps(db, op, next)
    ensures Inv(next)
  {
    var best :| Withdraws(db, op, best, next);
    if Withdraw(db, op.application, op.id, op.u, best).Ok? {
      WithdrawnPointer(db, op, best, next);
      UpdatedShape(db, op.id, op.u);
      assert next.releases == Updated(db, op.id, op.u).releases;
      hide Apply, UniqueVersions, Updated, IsFirst;
      forall k | k in db.applications && k != op.application
        ensures PointerOk(next.releases, db.applications[k])
      {
        OtherPointer(db, op.id, op.u, db.applications[k]);
      }
      hide PointerOk;
    }
  }

  lemma StepKeeps(db: Db, op: Op, next: Db)
    requires Inv(db) && Steps(db, op, next) && NotYetPublished(op)
    ensures Inv(next)
  {
    hide Inv, InsertApplication, CreateRelease, UpdateLifecycle, Publish;
    match op
    case NewApplication(a) => if InsertApplication(db, a).Ok? { InsertApplicationKeeps(db, a); }
    case NewRelease(r) => if CreateRelease(db, r).Ok? { InsertReleaseKeeps(db, r); }
    case Submission(_, _, _, _) => SubmissionKeeps(db, op, next);
    case Change(id, u) => if UpdateLifecycle(db, id, u).Ok? { ChangeKeeps(db, id, u); }
    case Publication(application, id, u) => if Publish(db, application, id, u).Ok? { PublishKeeps(db, application, id, u); }
    case Withdrawal(_, _, _) => WithdrawKeeps(db, op, next);
  }

  lemma {:induction false} AlwaysInv(dbs: seq<Db>, ops: seq<Op>, i: nat)
    requires IsRun(dbs, ops) && i <= |ops| && forall j :: 0 <= j < i ==> NotYetPublished(ops[j])
    ensures Inv(dbs[i])
  {
    hide Steps, NotYetPublished;
    if i == 0 {
      EmptyInv();
    } else {
      AlwaysInv(dbs, ops, i - 1);
      hide Inv;
      StepKeeps(dbs[i - 1], ops[i - 1], dbs[i]);
    }
  }

  lemma EmptyInv()
    ensures Inv(EMPTY)
  {}

  /**
   * In every state of every run in which releases are created unpublished, an application's pointer names a
   * release exactly when that is its highest published one, and is empty exactly when none is published.
   */
  lemma PointerIsMaximum(dbs: seq<Db>, ops: seq<Op>, i: nat, k: int, id: int)
    requires IsRun(dbs, ops) && i <= |ops| && forall j :: 0 <= j < i ==> NotYetPublished(ops[j])
    requires k in dbs[i].applications
    ensures dbs[i].applications[k].latest == Some(id) <==> Highest(dbs[i].releases, k, id)
    ensures dbs[i].applications[k].latest == None <==> forall r | r in dbs[i].releases :: !IsPublished(dbs[i].releases[r], k)
  {
    AlwaysInv(dbs, ops, i);
    var db := dbs[i];
    hide IsRun, NotYetPublished;
    assert PointerOk(db.releases, db.applications[k]) && db.applications[k].id == k;
    if Highest(db.releases, k, id) && db.applications[k].latest.Some? {
      HighestIsUnique(db.releases, k, id, db.applications[k].latest.value);
    }
  }

  lemma HighestIsUnique(releases: Releases, application: int, a: int, b: int)
    requires UniqueVersions(releases) && Highest(releases, application, a) && Highest(releases, application, b)
    ensures a == b
  {
    assert releases[a].version == releases[b].version;
  }

  /** A submission that is stored as already published leaves the pointer of its application wrong. */
  lemma PublishedSubmissionBreaksPointer(db: Db, op: Op, next: Db)
    requires Inv(db) && op.Submission? && op.r.status == Published && Steps(db, op, next)
    requires op.newRelease in next.releases && op.newRelease !in db.releases
    ensures next.releases[op.newRelease].application in next.applications
    ensures !PointerOk(next.releases, next.applications[next.releases[op.newRelease].application])
  {
    var v :| Submits(db, op, v, next);
    SubmissionKeepsPointerExactly(db, op, v, next);
    hide Submits, PointerOk, Keyed, UniqueVersions;
  }

  // ---------------------------------------------------------------- the repository makes these runs

  ghost predicate Shape(db: Db) { Keyed(db) && UniqueVersions(db.releases) }

  lemma LocatedShape(db: Db, a: Application, newId: int)
    requires Shape(db) && SubmissionApplication(db, a, newId).Ok?
    ensures Shape(SubmissionApplication(db, a, newId).value.0)
  {
    hide ApplicationFits;
  }

  lemma PublishKeepsShape(db: Db, application: int, id: int, u: Update)
    requires Shape(db) && Publish(db, application, id, u).Ok?
    ensures Shape(Publish(db, application, id, u).value)
  {
    UpdatedShape(db, id, u);
    ApplyFields(db.releases[id], u);
    hide UniqueVersions, Apply;
  }

  lemma WithdrawKeepsShape(db: Db, application: int, id: int, u: Update, best: Option<int>)
    requires Shape(db) && Withdraw(db, application, id, u, best).Ok?
    ensures Shape(Withdraw(db, application, id, u, best).value)
  {
    UpdatedShape(db, id, u);
    ApplyFields(db.releases[id], u);
    hide UniqueVersions, Apply;
  }

  lemma StepKeepsShape(db: Db, op: Op, next: Db)
    requires Shape(db) && Steps(db, op, next)
    ensures Shape(next)
  {
    hide CreateRelease, Apply, HasPending, SubmissionApplication, ApplicationFits, Updated, UniqueVersions;
    match op
    case NewApplication(a) =>
    case NewRelease(r) => if CreateRelease(db, r).Ok? { InsertKeepsShape(db, r); }
    case Submission(a, r, newApplication, newRelease) =>
      var v :| Submits(db, op, v, next);
      var located := SubmissionApplication(db, a, newApplication);
      if located.Ok? {
        LocatedShape(db, a, newApplication);
        var t := r.(id := newRelease, application := located.value.1, version := v);
        if CreateRelease(located.value.0, t).Ok? { InsertKeepsShape(located.value.0, t); }
      }
    case Change(id, u) => if UpdateLifecycle(db, id, u).Ok? { UpdatedShape(db, id, u); }
    case Publication(application, id, u) => if Publish(db, application, id, u).Ok? { PublishKeepsShape(db, application, id, u); }
    case Withdrawal(application, id, u) =>
      var best :| Withdraws(db, op, best, next);
      if Withdraw(db, application, id, u, best).Ok? { WithdrawKeepsShape(db, application, id, u, best); }
  }

  method PlayOne(repo: MarketRepo.Repository, op: Op)
    requires Shape(repo.Value())
    modifies repo
    ensures Steps(old(repo.Value()), op, repo.Value())
  {
    hide CreateRelease, InsertApplication, UpdateLifecycle, Publish, UniqueVersions, SubmissionApplication, Submit, IsFirst, IsMaxVersion;
    ghost var db := repo.Value();
    match op {
      case NewApplication(a) => var _ := repo.CreateApplication(a);
      case NewRelease(r) => var _ := repo.CreateReleaseRow(r);
      case Submission(a, r, newApplication, newRelease) =>
        var _, v := repo.CreateSubmission(a, r, newApplication, newRelease);
        assert Submits(db, op, v, repo.Value());
      case Change(id, u) => var _ := repo.UpdateReleaseLifecycle(id, u);
      case Publication(application, id, u) => var _ := repo.UpdateReleaseLifecycleAndLatest(application, id, u);
      case Withdrawal(application, id, u) =>
        var _, best := repo.WithdrawReleaseAndRefreshLatest(application, id, u);
        assert Withdraws(db, op, best, repo.Value());
    }
  }

  /** Playing operations on the repository goes through a run, so every theorem here holds of its tables. */
  method Play(ops: seq<Op>) returns (repo: MarketRepo.Repository, ghost dbs: seq<Db>)
    ensures fresh(repo) && IsRun(dbs, ops) && repo.Value() == dbs[|ops|]
  {
    hide Steps, Keyed, UniqueVersions;
    repo := new MarketRepo.Repository();
    dbs := [EMPTY];
    assert Shape(EMPTY) by { EmptyInv(); }
    for i := 0 to |ops|
      invariant fresh(repo) && |dbs| == i + 1 && dbs[0] == EMPTY && repo.Value() == dbs[i] && Shape(dbs[i])
      invariant forall j :: 0 <= j < i ==> Steps(dbs[j], ops[j], dbs[j + 1])
    {
      PlayOne(repo, ops[i]);
      StepKeepsShape(dbs[i], ops[i], repo.Value());
      dbs := dbs + [repo.Value()];
    }
  }
}
