/** The expert-market repository as the program runs it: rows changed in place, each call one transaction. */
module MarketRepo {
  import opened Text
  import opened Market

  class Repository {
    var applications: Applications
    var releases: Releases

    /** The two tables together. */
    function Value(): Db
      reads this
    {
      Db(applications, releases)
    }

    constructor ()
      ensures Value() == EMPTY
    {
      applications, releases := map[], map[];
    }

    /** What a transaction leaves: its new tables, or the old ones. */
    ghost predicate Left(was: Db, r: Result<Db, Error>, result: Result<(), Error>)
      reads this
    {
      if r.Ok? then result == Ok(()) && Value() == r.value else result == Err(r.error) && Value() == was
    }

    method InsertReleaseRow(r: Release) returns (result: Result<(), Error>)
      modifies this`releases
      ensures Left(old(Value()), InsertRelease(old(Value()), r), result)
    {
      hide ReleaseFits;
      if r.version > MAX_INT32 { return Err(OutOfRange); }
      if !ReleaseFits(Value(), r) { return Err(Conflict); }
      releases := releases[r.id := r];
      result := Ok(());
    }

    method CreateReleaseRow(r: Release) returns (result: Result<(), Error>)
      modifies this`releases
      ensures Left(old(Value()), CreateRelease(old(Value()), r), result)
    {
      hide InsertRelease;
      var objection := ValidateRelease(r);
      if objection.Some? { return Err(objection.value); }
      result := InsertReleaseRow(r);
    }

    method CreateApplication(a: Application) returns (result: Result<(), Error>)
      modifies this`applications
      ensures Left(old(Value()), InsertApplication(old(Value()), a), result)
    {
      hide ApplicationFits;
      if !ApplicationFits(applications, a) { return Err(Conflict); }
      applications := applications[a.id := a];
      result := Ok(());
    }

    /** `COALESCE(MAX(version), 0)`; the schema keeps versions positive. */
    method LatestVersion(application: int) returns (v: int)
      requires forall k | k in releases :: releases[k].version > 0
      ensures IsMaxVersion(releases, application, v)
    {
      v := 0;
      var todo: set<int> := releases.Keys;
      while todo != {}
        invariant todo <= releases.Keys && v >= 0
        invariant forall k | k in releases && k !in todo && releases[k].application == application :: releases[k].version <= v
        invariant v == 0 || exists k | k in releases && releases[k].application == application :: releases[k].version == v
        decreases todo
      {
        MemberExists(todo);
        var k :| k in todo;
        todo := todo - {k};
        if releases[k].application == application && releases[k].version > v { v := releases[k].version; }
      }
    }

    method CreateSubmission(a: Application, r: Release, newApplication: int, newRelease: int) returns (result: Result<int, Error>, v: int)
      requires forall k | k in releases :: releases[k].version > 0
      modifies this
      ensures var located := SubmissionApplication(old(Value()), a, newApplication);
        if located.Err? then result == Err(located.error) && Value() == old(Value())
        else
          && IsMaxVersion(old(releases), located.value.1, v - 1)
          && var s := Submit(located.value.0, located.value.1, r, newRelease, v);
             if s.Err? then result == Err(s.error) && Value() == old(Value()) else result == Ok(newRelease) && Value() == s.value
    {
      hide InsertApplication, CreateRelease, HasPending;
      v := 0;
      var before := applications;
      var id := a.id;
      if a.id == 0 {
        var created := CreateApplication(a.(id := newApplication));
        if created.Err? { return Err(created.error), v; }
        id := newApplication;
      } else {
        if a.id !in applications { return Err(NotFound), v; }
        if applications[a.id].organization != a.organization { return Err(Conflict), v; }
      }
      assert releases == old(releases) by { ReleasesStay(old(Value()), a, newApplication); }
      var max := LatestVersion(id);
      v := max + 1;
      if HasPending(releases, id) {
        applications := before;
        return Err(PendingExists), v;
      }
      var inserted := CreateReleaseRow(r.(id := newRelease, application := id, version := v));
      if inserted.Err? {
        applications := before;
        return Err(inserted.error), v;
      }
      result := Ok(newRelease);
    }

    method UpdateReleaseLifecycle(id: int, u: Update) returns (result: Result<(), Error>)
      modifies this
      ensures Left(old(Value()), UpdateLifecycle(old(Value()), id, u), result)
    {
      hide Apply;
      if !ValidUpdate(u) { return Err(InvalidStatus); }
      if u.status == Published { return Err(PublicationRequiresLatest); }
      if id !in releases || releases[id].application !in applications { return Err(NotFound); }
      if !Expected(releases[id], u) { return Err(StatusConflict); }
      if applications[releases[id].application].latest == Some(id) { return Err(LatestStatusConflict); }
      releases := releases[id := Apply(releases[id], u)];
      result := Ok(());
    }

    method SetLatest(application: int, latest: Option<int>)
      requires application in applications
      modifies this`applications
      ensures Value() == Pointed(old(Value()), application, latest)
    {
      applications := applications[application := applications[application].(latest := latest)];
    }

    method UpdateReleaseLifecycleAndLatest(application: int, id: int, u: Update) returns (result: Result<(), Error>)
      modifies this
      ensures Left(old(Value()), Publish(old(Value()), application, id, u), result)
    {
      hide Apply;
      if !ValidUpdate(u) { return Err(InvalidStatus); }
      if u.status != Published { return Err(InvalidLatestStatus); }
      if application !in applications { return Err(NotFound); }
      if id !in releases { return Err(NotFound); }
      if releases[id].application != application { return Err(Conflict); }
      if !Expected(releases[id], u) { return Err(StatusConflict); }
      var before := releases;
      releases := releases[id := Apply(releases[id], u)];
      var latest := applications[application].latest;
      if latest.None? {
        SetLatest(application, Some(id));
        return Ok(());
      }
      if latest.value !in releases {
        releases := before;
        return Err(NotFound);
      }
      if releases[id].version > releases[latest.value].version { SetLatest(application, Some(id)); }
      result := Ok(());
    }

    /** The first published release by version and id, both descending, other than one. */
    method FirstPublished(application: int, except: int) returns (best: Option<int>)
      requires forall k | k in releases :: releases[k].id == k
      ensures IsFirst(releases, application, except, best)
    {
      best := None;
      var todo: set<int> := releases.Keys;
      while todo != {}
        invariant todo <= releases.Keys
        invariant best.None? ==> forall k | k in releases && k !in todo :: !Candidate(releases[k], application, except)
        invariant best.Some? ==> best.value in releases && Candidate(releases[best.value], application, except)
        invariant best.Some? ==> forall k | k in releases && k !in todo && Candidate(releases[k], application, except) ::
          Precedes(releases[best.value], releases[k])
        decreases todo
      {
        MemberExists(todo);
        var k :| k in todo;
        todo := todo - {k};
        if Candidate(releases[k], application, except) && (best.None? || Precedes(releases[k], releases[best.value])) {
          best := Some(k);
        }
      }
    }

    method WithdrawReleaseAndRefreshLatest(application: int, id: int, u: Update) returns (result: Result<(), Error>, best: Option<int>)
      requires forall k | k in releases :: releases[k].id == k
      modifies this
      ensures Left(old(Value()), Withdraw(old(Value()), application, id, u, best), result)
      ensures result.Ok? && application in old(applications) && old(applications)[application].latest == Some(id) ==>
        IsFirst(releases, application, id, best)
    {
      hide Apply, Candidate, Precedes;
      best := None;
      if !ValidUpdate(u) { return Err(InvalidStatus), best; }
      if u.status != Withdrawn { return Err(InvalidWithdrawalStatus), best; }
      if application !in applications { return Err(NotFound), best; }
      if id !in releases { return Err(NotFound), best; }
      if releases[id].application != application { return Err(Conflict), best; }
      if !Expected(releases[id], u) { return Err(StatusConflict), best; }
      assert Apply(releases[id], u).id == id by { ApplyKeepsId(releases[id], u); }
      releases := releases[id := Apply(releases[id], u)];
      if applications[application].latest == Some(id) {
        best := FirstPublished(application, id);
        SetLatest(application, best);
      }
      result := Ok(());
    }
  }

  lemma MemberExists(s: set<int>)
    ensures s == {} || exists k :: k in s
  {
    assert (forall k :: k !in s) ==> s == {};
  }

  lemma ApplyKeepsId(r: Release, u: Update)
    ensures Apply(r, u).id == r.id
  {}

  lemma ReleasesStay(db: Db, a: Application, newId: int)
    ensures SubmissionApplication(db, a, newId).Ok? ==> SubmissionApplication(db, a, newId).value.0.releases == db.releases
  {
    hide ApplicationFits;
  }
}
