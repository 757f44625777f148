/** Appends happen exactly once: what source events record, and what the store answers from then on. */
module WorkbenchOnce {
  import opened Text
  import opened Workbench
  import opened WorkbenchRuns

  function AllSources(qs: seq<Request>): seq<Source> {
    if qs == [] then [] else AllSources(qs[..|qs| - 1]) + qs[|qs| - 1].sources
  }

  /** Stable ids and runner sequences are both keys: no two rows share either. */
  ghost predicate Unique(sources: Sources) {
    && (forall k | k in sources :: KeyOfSource(sources[k]) == k)
    && (forall k, l | k in sources && l in sources && k != l :: !Clash(sources[k], sources[l]))
  }

  /** The rows of a session are the sources of its applied appends. */
  ghost predicate Records(sources: Sources, srcs: seq<Source>, x: string) {
    && (forall a | a in srcs :: a.session == x && KeyOfSource(a) in sources && sources[KeyOfSource(a)] == a)
    && (forall k | k in sources && k.session == x :: sources[k] in srcs)
  }

  lemma FreshDoesNotClash(sources: Sources, a: Source)
    requires Fresh(sources, a)
    ensures forall k | k in sources :: !Clash(sources[k], a)
  {
    assert forall k | k in sources && Clash(sources[k], a) :: sources[k] in Matches(sources, a);
  }

  lemma {:induction false} InsertedSources(sources: Sources, qs: seq<Source>)
    requires Unique(sources) && InsertSources(sources, qs).Ok?
    ensures var r := InsertSources(sources, qs).value;
      && Unique(r)
      && (forall k | k in sources :: k in r && r[k] == sources[k])
      && (forall a | a in qs :: KeyOfSource(a) in r && r[KeyOfSource(a)] == a)
      && (forall k | k in r :: k in sources || r[k] in qs)
    decreases qs
  {
    if qs != [] {
      var next := sources[KeyOfSource(qs[0]) := qs[0]];
      FreshDoesNotClash(sources, qs[0]);
      InsertedSources(next, qs[1..]);
      var r := InsertSources(sources, qs).value;
      forall k | k in r
        ensures k in sources || r[k] in qs
      {
        if k !in next {
          assert r[k] in qs[1..];
        }
      }
    }
  }

  lemma RecordsExtend(sources: Sources, srcs: seq<Source>, more: seq<Source>, x: string)
    requires Unique(sources) && Records(sources, srcs, x) && InsertSources(sources, more).Ok?
    requires forall a | a in more :: a.session == x
    ensures Records(InsertSources(sources, more).value, srcs + more, x)
  {
    InsertedSources(sources, more);
    hide InsertSources, Clash;
  }

  lemma RecordsOfOthers(sources: Sources, srcs: seq<Source>, more: seq<Source>, x: string, y: string)
    requires Unique(sources) && Records(sources, srcs, x) && InsertSources(sources, more).Ok? && x != y
    requires forall a | a in more :: a.session == y
    ensures Records(InsertSources(sources, more).value, srcs, x)
  {
    InsertedSources(sources, more);
    var r := InsertSources(sources, more).value;
    hide InsertSources, Clash;
    assert forall k | k in r && k !in sources :: r[k] in more && KeyOfSource(r[k]) == k;
  }

  lemma SourceFields(q: Request)
    requires ValidAppend(q)
    ensures forall a | a in q.sources :: a.session == q.session
    ensures forall i, j :: 0 <= i < j < |q.sources| ==> !Clash(q.sources[i], q.sources[j])
  {
    hide ValidText, ValidDigest, ValidReceipt, ValidEvents, ValidFiles;
  }

  lemma AllSourcesSnoc(qs: seq<Request>, q: Request)
    ensures AllSources(qs + [q]) == AllSources(qs) + q.sources
  {
    assert (qs + [q])[..|qs|] == qs;
  }

  ghost predicate SourceShape(s: Store, x: string, qs: seq<Request>) {
    Unique(s.sources) && Records(s.sources, AllSources(qs), x)
  }

  lemma StepKeepsSources(s: Store, op: Op, x: string, qs: seq<Request>)
    requires SourceShape(s, x, qs)
    ensures SourceShape(Step(s, op), x, qs + if AppliesTo(s, op, x) then [op.q] else [])
  {
    assert qs + [] == qs;
    if op.AppendOp? && Applies(s, op.q) {
      var q := op.q;
      AppliesFacts(s, q);
      SourceFields(q);
      InsertedSources(s.sources, q.sources);
      AllSourcesSnoc(qs, q);
      hide Applies, AfterAppend, ValidAppend, InsertSources, AllSources, Unique, Records, CheckCurrent;
      if q.session == x {
        RecordsExtend(s.sources, AllSources(qs), q.sources, x);
      } else {
        RecordsOfOthers(s.sources, AllSources(qs), q.sources, x, q.session);
      }
    } else {
      hide Applies, Unique, Records, ValidInitial, PutReceipt, ValidReceipt, AllSources;
    }
  }

  lemma {:induction false} SourcesHold(ops: seq<Op>, x: string)
    ensures SourceShape(Final(ops), x, Applied(ops, x))
  {
    if ops == [] {
    } else {
      hide SourceShape, Step, AppliesTo;
      SourcesHold(ops[..|ops| - 1], x);
      StepKeepsSources(Final(ops[..|ops| - 1]), ops[|ops| - 1], x, Applied(ops[..|ops| - 1], x));
    }
  }

  /** A recorded source is seen as itself, whatever else is in the table. */
  lemma RecordedIsSeen(sources: Sources, a: Source)
    requires Unique(sources) && KeyOfSource(a) in sources && sources[KeyOfSource(a)] == a
    ensures Seen(sources, a)
  {
    var k := KeyOfSource(a);
    assert Clash(sources[k], a);
    assert forall l | l in sources && l != k :: !Clash(sources[l], sources[k]);
    assert a in Matches(sources, a);
    hide Clash;
  }

  lemma SeenIsRecorded(sources: Sources, a: Source)
    requires Unique(sources) && Seen(sources, a)
    ensures KeyOfSource(a) in sources && sources[KeyOfSource(a)] == a
  {
    hide Clash;
    assert a in Matches(sources, a);
    var k :| k in sources && Clash(sources[k], a) && sources[k] == a;
  }

  lemma {:induction false} SourceIsInAll(qs: seq<Request>, i: nat, a: Source)
    requires i < |qs| && a in qs[i].sources
    ensures a in AllSources(qs)
  {
    if i < |qs| - 1 { SourceIsInAll(qs[..|qs| - 1], i, a); }
  }

  /** In every reachable state a valid request with sources is a replay exactly when all of them are recorded. */
  lemma ReplayIffRecorded(ops: seq<Op>, q: Request)
    requires ValidAppend(q) && q.sources != []
    ensures AppendResult(Final(ops), q) == Ok(false) <==>
      forall a | a in q.sources :: a in AllSources(Applied(ops, q.session))
  {
    var s, srcs := Final(ops), AllSources(Applied(ops, q.session));
    SourcesHold(ops, q.session);
    SourceFields(q);
    hide ValidAppend, Final, Applied, AllSources, CheckCurrent, Write, Unique;
    forall a | a in q.sources
      ensures Seen(s.sources, a) <==> a in srcs
    {
      if a in srcs {
        RecordedIsSeen(s.sources, a);
      } else if Seen(s.sources, a) {
        SeenIsRecorded(s.sources, a);
      }
    }
    hide Seen, Fresh;
    ReplayIff(s, q);
  }

  lemma ReplayIff(s: Store, q: Request)
    requires ValidAppend(q) && q.sources != []
    ensures AppendResult(s, q) == Ok(false) <==> forall a | a in q.sources :: Seen(s.sources, a)
  {
    hide ValidAppend, CheckCurrent, Write, Seen, Fresh;
    if forall a | a in q.sources :: Seen(s.sources, a) {
    } else {
      var i :| 0 <= i < |q.sources| && !Seen(s.sources, q.sources[i]);
      assert Inspect(s.sources, q.sources) != Replay;
    }
  }

  /**
   * Exactly once: an append with sources that the run applied is answered as a replay at every later point of
   * the run, and changes nothing.
   */
  lemma AppliedIsReplayed(ops: seq<Op>, x: string, i: nat)
    requires i < |Applied(ops, x)| && Applied(ops, x)[i].sources != []
    ensures var q := Applied(ops, x)[i]; AppendResult(Final(ops), q) == Ok(false) && AfterAppend(Final(ops), q) == Final(ops)
  {
    var qs := Applied(ops, x);
    LogShape(ops, x);
    forall a | a in qs[i].sources
      ensures a in AllSources(qs)
    {
      SourceIsInAll(qs, i, a);
    }
    hide Final, Applied, AllSources, ValidAppend, AllEvents, AppendResult;
    ReplayIffRecorded(ops, qs[i]);
  }

  /** A request of which some sources are known and some are not is a conflict and changes nothing. */
  lemma PartlySeenConflicts(ops: seq<Op>, q: Request, a: Source, b: Source)
    requires ValidAppend(q) && a in q.sources && b in q.sources
    requires exists c | c in AllSources(Applied(ops, q.session)) :: Clash(c, a)
    requires b !in AllSources(Applied(ops, q.session))
    ensures AppendResult(Final(ops), q) == Err(SourceConflict) && AfterAppend(Final(ops), q) == Final(ops)
  {
    var s, srcs := Final(ops), AllSources(Applied(ops, q.session));
    SourcesHold(ops, q.session);
    ReplayIffRecorded(ops, q);
    var c :| c in srcs && Clash(c, a);
    hide ValidAppend, Final, Applied, AllSources, CheckCurrent, Write, Unique, Clash;
    assert c in Matches(s.sources, a);
    var i :| 0 <= i < |q.sources| && q.sources[i] == a;
    assert !Fresh(s.sources, q.sources[i]);
    hide Matches, Seen, Fresh;
  }

  /** Of all appends to a session at most one with a given expected revision is ever applied. */
  lemma OneApplyPerRevision(ops: seq<Op>, x: string, i: nat, j: nat)
    requires i < |Applied(ops, x)| && j < |Applied(ops, x)| && Applied(ops, x)[i].expected == Applied(ops, x)[j].expected
    ensures i == j
  {
    LogShape(ops, x);
    hide Applied, Final, ValidAppend, AllEvents;
  }

  // ---------------------------------------------------------------- when an append is applied

  lemma {:induction false} SourcesInsert(sources: Sources, qs: seq<Source>)
    requires forall i :: 0 <= i < |qs| ==> Fresh(sources, qs[i])
    requires forall i, j :: 0 <= i < j < |qs| ==> !Clash(qs[i], qs[j])
    ensures InsertSources(sources, qs).Ok?
    decreases qs
  {
    if qs != [] {
      var next := sources[KeyOfSource(qs[0]) := qs[0]];
      forall i | 0 <= i < |qs| - 1
        ensures Fresh(next, qs[1..][i])
      {
        var a := qs[1..][i];
        assert a == qs[i + 1] && Fresh(sources, a) && !Clash(qs[0], a);
        FreshDoesNotClash(sources, a);
      }
      SourcesInsert(next, qs[1..]);
    }
  }

  lemma NewSourcesInsert(s: Store, q: Request)
    requires ValidAppend(q) && Inspect(s.sources, q.sources) == New
    ensures InsertSources(s.sources, q.sources).Ok?
  {
    SourceFields(q);
    hide ValidAppend, Clash;
    assert forall i :: 0 <= i < |q.sources| ==> Fresh(s.sources, q.sources[i]);
    hide Fresh;
    SourcesInsert(s.sources, q.sources);
  }

  lemma NewEventsInsert(ops: seq<Op>, q: Request)
    requires ValidAppend(q) && q.events != [] && CheckCurrent(StateOf(Final(ops), q.session), q).None?
    ensures InsertEvents(Final(ops).events, q.events).Ok?
  {
    var s, x, es := Final(ops), q.session, AllEvents(Applied(ops, q.session));
    LogShape(ops, x);
    assert x !in s.states ==> es == [] by { assert AllEvents([]) == []; }
    NewSequences(s, q, es);
    EventFields(q);
    hide ValidAppend, Final, Applied, AllEvents, CheckCurrent, Labelled;
    forall i | 0 <= i < |q.events|
      ensures KeyOfEvent(q.events[i]) !in s.events
    {
      NewRowIsFree(s, x, es, q.events[i]);
    }
    EventsInsert(s.events, q.events);
  }

  lemma NewRowIsFree(s: Store, x: string, es: seq<Event>, e: Event)
    requires Rows(s.events, es, x) && (forall i :: 0 <= i < |es| ==> es[i].sequence == i + 1)
    requires e.session == x && e.sequence > |es|
    ensures KeyOfEvent(e) !in s.events
  {
    assert forall r | r in es :: r.sequence <= |es|;
  }
}
