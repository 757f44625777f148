/** What holds after any run of workbench calls: the shape of the log, and appends that happen exactly once. */
module WorkbenchRuns {
  import opened Text
  import opened Workbench
  import WorkbenchRepo

  /** The calls of the repository, and whatever else is done to the file table by the services that share it. */
  datatype Op = AppendOp(q: Request) | EnsureOp(initial: SessionState) | PutOp(r: Receipt) | FilesOp(files: Files)

  function Step(s: Store, op: Op): Store {
    match op
    case AppendOp(q) => AfterAppend(s, q)
    case EnsureOp(initial) => AfterEnsure(s, initial)
    case PutOp(r) => AfterPut(s, r)
    case FilesOp(files) => s.(files := files)
  }

  /** The tables after a run from the empty store. */
  function Final(ops: seq<Op>): Store {
    if ops == [] then EMPTY else Step(Final(ops[..|ops| - 1]), ops[|ops| - 1])
  }

  predicate AppliesTo(s: Store, op: Op, x: string) { op.AppendOp? && op.q.session == x && Applies(s, op.q) }

  /** The appends to a session that the run applied, in order. */
  function Applied(ops: seq<Op>, x: string): seq<Request> {
    if ops == [] then []
    else
      var init, last := ops[..|ops| - 1], ops[|ops| - 1];
      Applied(init, x) + if AppliesTo(Final(init), last, x) then [last.q] else []
  }

  function AllEvents(qs: seq<Request>): seq<Event> {
    if qs == [] then [] else AllEvents(qs[..|qs| - 1]) + qs[|qs| - 1].events
  }

  // ---------------------------------------------------------------- inserting events

  lemma {:induction false} SequencesRun(q: Request, i: nat)
    requires ValidEvents(q) && i < |q.events|
    ensures q.events[i].sequence == q.events[0].sequence + i
  {
    if i > 0 { SequencesRun(q, i - 1); }
  }

  lemma {:induction false} InsertedEvents(events: Events, es: seq<Event>)
    requires InsertEvents(events, es).Ok?
    ensures var r := InsertEvents(events, es).value;
      && (forall k | k in events :: k in r && r[k] == events[k])
      && (forall e | e in es :: KeyOfEvent(e) in r && r[KeyOfEvent(e)] == e)
      && (forall k | k in r :: k in events || exists e | e in es :: KeyOfEvent(e) == k)
    decreases es
  {
    if es != [] {
      var next := events[KeyOfEvent(es[0]) := es[0]];
      InsertedEvents(next, es[1..]);
      var r := InsertEvents(events, es).value;
      forall k | k in r
        ensures k in events || exists e | e in es :: KeyOfEvent(e) == k
      {
        if k !in events && k != KeyOfEvent(es[0]) {
          var e :| e in es[1..] && KeyOfEvent(e) == k;
          assert e in es;
        }
      }
    }
  }

  lemma {:induction false} EventsInsert(events: Events, es: seq<Event>)
    requires forall i :: 0 <= i < |es| ==> KeyOfEvent(es[i]) !in events
    requires forall i, j :: 0 <= i < j < |es| ==> KeyOfEvent(es[i]) != KeyOfEvent(es[j])
    ensures InsertEvents(events, es).Ok?
    decreases es
  {
    if es != [] {
      assert es[0] == es[0];
      EventsInsert(events[KeyOfEvent(es[0]) := es[0]], es[1..]);
    }
  }

  // ---------------------------------------------------------------- the log

  ghost predicate Labelled(qs: seq<Request>, x: string) {
    forall i :: 0 <= i < |qs| ==>
      (&& ValidAppend(qs[i]) && qs[i].session == x && qs[i].expected == i && qs[i].projection.revision == i + 1
       && forall e | e in qs[i].events :: e.revision == i + 1)
  }

  ghost predicate Numbered(es: seq<Event>, x: string, epoch: string) {
    forall i :: 0 <= i < |es| ==> es[i].session == x && es[i].epoch == epoch && es[i].sequence == i + 1
  }

  /** The rows of a session are the events of the log and nothing else. */
  ghost predicate Rows(events: Events, es: seq<Event>, x: string) {
    && (forall e | e in es :: KeyOfEvent(e) in events && events[KeyOfEvent(e)] == e)
    && (forall k | k in events && k.session == x :: events[k] in es && KeyOfEvent(events[k]) == k)
  }

  /** The log of a session is the concatenation of the appends that were applied to it. */
  ghost predicate IsLog(s: Store, x: string, qs: seq<Request>) {
    var es := AllEvents(qs);
    && Labelled(qs, x) && Rows(s.events, es, x)
    && if x !in s.states then qs == []
       else
         var st := s.states[x];
         && st.session == x && st.revision == |qs| && st.latest == |es| && Numbered(es, x, st.epoch)
         && (qs != [] ==> st == qs[|qs| - 1].projection)
  }

  lemma AllEventsSnoc(qs: seq<Request>, q: Request)
    ensures AllEvents(qs + [q]) == AllEvents(qs) + q.events
  {
    assert (qs + [q])[..|qs|] == qs;
  }

  lemma NewSequences(s: Store, q: Request, es: seq<Event>)
    requires ValidAppend(q) && CheckCurrent(StateOf(s, q.session), q).None?
    requires q.session in s.states ==> s.states[q.session].latest == |es|
    requires q.session !in s.states ==> es == []
    ensures forall i :: 0 <= i < |q.events| ==> q.events[i].sequence == |es| + i + 1
    ensures q.projection.latest == |es| + |q.events|
  {
    hide ValidText, ValidDigest, ValidSources, ValidReceipt, ValidFiles;
    forall i | 0 <= i < |q.events|
      ensures q.events[i].sequence == |es| + i + 1
    {
      SequencesRun(q, i);
    }
  }

  lemma EventFields(q: Request)
    requires ValidAppend(q)
    ensures forall e | e in q.events ::
      e.session == q.session && e.epoch == q.projection.epoch && e.revision == q.projection.revision
    ensures q.projection.session == q.session && q.expected < MAX_UINT64 && q.projection.revision == q.expected + 1
    ensures q.events != []
  {
    hide ValidText, ValidDigest, ValidSources, ValidReceipt, ValidFiles;
  }

  lemma CurrentFields(s: Store, q: Request)
    requires q.events != [] && CheckCurrent(StateOf(s, q.session), q).None?
    ensures q.session in s.states ==>
      s.states[q.session].revision == q.expected && s.states[q.session].epoch == q.projection.epoch
    ensures q.session !in s.states ==> q.expected == 0
  {}

  lemma NumberedExtends(es: seq<Event>, more: seq<Event>, x: string, epoch: string)
    requires Numbered(es, x, epoch)
    requires forall i :: 0 <= i < |more| ==> more[i].sequence == |es| + i + 1
    requires forall e | e in more :: e.session == x && e.epoch == epoch
    ensures Numbered(es + more, x, epoch)
  {
    var all := es + more;
    forall i | 0 <= i < |all|
      ensures all[i].session == x && all[i].epoch == epoch && all[i].sequence == i + 1
    {
      if i >= |es| {
        assert all[i] == more[i - |es|] && more[i - |es|] in more;
      }
    }
  }

  lemma RowsExtend(events: Events, es: seq<Event>, more: seq<Event>, x: string)
    requires Rows(events, es, x) && InsertEvents(events, more).Ok?
    requires forall e | e in more :: e.session == x
    ensures Rows(InsertEvents(events, more).value, es + more, x)
  {
    InsertedEvents(events, more);
    var r := InsertEvents(events, more).value;
    forall k | k in r && k.session == x
      ensures r[k] in es + more && KeyOfEvent(r[k]) == k
    {
      if k !in events {
        var e :| e in more && KeyOfEvent(e) == k;
      }
    }
  }

  lemma RowsOfOthers(events: Events, es: seq<Event>, more: seq<Event>, x: string, y: string)
    requires Rows(events, es, x) && InsertEvents(events, more).Ok? && x != y
    requires forall e | e in more :: e.session == y
    ensures Rows(InsertEvents(events, more).value, es, x)
  {
    InsertedEvents(events, more);
  }

  lemma LabelledSnoc(qs: seq<Request>, q: Request, x: string)
    requires Labelled(qs, x) && ValidAppend(q) && q.session == x && q.expected == |qs|
    ensures Labelled(qs + [q], x)
  {
    EventFields(q);
    hide ValidAppend;
  }

  /** An append that is applied adds its events to the end of the log of its session. */
  lemma AppendExtends(s: Store, q: Request, qs: seq<Request>)
    requires Applies(s, q) && IsLog(s, q.session, qs)
    ensures IsLog(AfterAppend(s, q), q.session, qs + [q])
  {
    var x, es, next := q.session, AllEvents(qs), AfterAppend(s, q);
    AppliesFacts(s, q);
    EventFields(q);
    CurrentFields(s, q);
    hide ValidAppend, Applies, AfterAppend, CheckCurrent;
    NewSequences(s, q, es);
    AllEventsSnoc(qs, q);
    hide AllEvents;
    LabelledSnoc(qs, q, x);
    RowsExtend(s.events, es, q.events, x);
    assert Numbered(es, x, q.projection.epoch);
    NumberedExtends(es, q.events, x, q.projection.epoch);
    hide Rows, Numbered, Labelled;
  }

  lemma AppliesFacts(s: Store, q: Request)
    requires Applies(s, q)
    ensures ValidAppend(q) && Inspect(s.sources, q.sources) == New
    ensures q.events != [] && CheckCurrent(StateOf(s, q.session), q).None?
    ensures InsertEvents(s.events, q.events).Ok? && InsertSources(s.sources, q.sources).Ok?
    ensures PutReceipts(s.receipts, q.receipts).Ok? && InsertFiles(s.files, q.files).Ok?
    ensures AfterAppend(s, q) == Store(s.states[q.session := q.projection], InsertEvents(s.events, q.events).value,
      InsertSources(s.sources, q.sources).value, PutReceipts(s.receipts, q.receipts).value, InsertFiles(s.files, q.files).value)
  {
    hide Inspect, CheckCurrent, InsertEvents, InsertSources, PutReceipts, InsertFiles;
    hide ValidText, ValidDigest, ValidEvents, ValidSources, ValidReceipt, ValidFiles;
  }

  lemma StepKeepsLog(s: Store, op: Op, x: string, qs: seq<Request>)
    requires IsLog(s, x, qs)
    ensures IsLog(Step(s, op), x, qs + if AppliesTo(s, op, x) then [op.q] else [])
  {
    hide IsLog, Applies;
    assert qs + [] == qs;
    match op
    case AppendOp(q) =>
      if !Applies(s, q) {
        assert AfterAppend(s, q) == s;
      } else if q.session == x {
        hide AfterAppend;
        AppendExtends(s, q, qs);
      } else {
        hide AfterAppend;
        OtherAppend(s, q, x, qs);
      }
    case EnsureOp(initial) => EnsureKeeps(s, initial, x, qs);
    case PutOp(r) => PutKeeps(s, r, x, qs);
    case FilesOp(_) => FilesKeep(s, op, x, qs);
  }

  lemma OtherAppend(s: Store, q: Request, x: string, qs: seq<Request>)
    requires IsLog(s, x, qs) && Applies(s, q) && q.session != x
    ensures IsLog(AfterAppend(s, q), x, qs)
  {
    AppliesFacts(s, q);
    EventFields(q);
    hide ValidAppend, Applies, AfterAppend, CheckCurrent, AllEvents;
    RowsOfOthers(s.events, AllEvents(qs), q.events, x, q.session);
    hide Rows, Numbered, Labelled;
  }

  lemma EnsureKeeps(s: Store, initial: SessionState, x: string, qs: seq<Request>)
    requires IsLog(s, x, qs)
    ensures IsLog(AfterEnsure(s, initial), x, qs)
  {
    hide ValidText, ValidDigest, Rows, Labelled;
    assert AllEvents([]) == [];
  }

  lemma PutKeeps(s: Store, r: Receipt, x: string, qs: seq<Request>)
    requires IsLog(s, x, qs)
    ensures IsLog(AfterPut(s, r), x, qs)
  {
    hide ValidReceipt, PutReceipt, Rows, Labelled, Numbered, AllEvents;
  }

  lemma FilesKeep(s: Store, op: Op, x: string, qs: seq<Request>)
    requires IsLog(s, x, qs) && op.FilesOp?
    ensures IsLog(Step(s, op), x, qs)
  {
    hide Rows, Labelled, Numbered, AllEvents;
  }

  /** The log shape, in every reachable state and for every session. */
  lemma {:induction false} LogShape(ops: seq<Op>, x: string)
    ensures IsLog(Final(ops), x, Applied(ops, x))
  {
    if ops == [] {
      EmptyLog(x);
    } else {
      hide IsLog, Step, AppliesTo;
      LogShape(ops[..|ops| - 1], x);
      StepKeepsLog(Final(ops[..|ops| - 1]), ops[|ops| - 1], x, Applied(ops[..|ops| - 1], x));
    }
  }

  lemma EmptyLog(x: string)
    ensures IsLog(EMPTY, x, [])
  {}

  // ---------------------------------------------------------------- what the shape means for the tables

  /** The length of the log up to a revision. */
  function BlockEnd(qs: seq<Request>, r: nat): nat
    requires r <= |qs|
  {
    |AllEvents(qs[..r])|
  }

  lemma {:induction false} BlocksOf(qs: seq<Request>, x: string, r: nat)
    requires Labelled(qs, x) && r <= |qs|
    ensures var es := AllEvents(qs);
      && BlockEnd(qs, r) <= |es|
      && (forall i :: 0 <= i < |es| ==> (es[i].revision <= r <==> i < BlockEnd(qs, r)))
      && (r > 0 ==> BlockEnd(qs, r - 1) < BlockEnd(qs, r))
  {
    hide ValidAppend;
    if |qs| == 0 {
      assert qs[..r] == qs;
    } else {
      var init, last := qs[..|qs| - 1], qs[|qs| - 1];
      assert last.events != [] by { assert ValidAppend(last); EventFields(last); }
      assert forall i :: 0 <= i < |last.events| ==> last.events[i] in last.events;
      if r == |qs| {
        assert qs[..r] == qs && qs[..r - 1] == init;
        if r > 1 { BlocksOf(init, x, r - 1); } else { BlocksOf(init, x, 0); }
        assert init[..r - 1] == init;
      } else {
        BlocksOf(init, x, r);
        assert qs[..r] == init[..r];
        if r > 0 {
          assert qs[..r - 1] == init[..r - 1];
        }
      }
    }
  }

  /** The rows of a session are the sequences 1 to the latest, all in its epoch. */
  ghost predicate Gapless(s: Store, st: SessionState) {
    && (forall n: U64 :: EventKey(st.session, st.epoch, n) in s.events <==> 1 <= n <= st.latest)
    && (forall k | k in s.events && k.session == st.session :: k.epoch == st.epoch)
  }

  /** Revision r labels exactly the sequences after `first` up to `last`. */
  ghost predicate LabelsBlock(s: Store, st: SessionState, r: nat, first: nat, last: nat) {
    && first < last <= st.latest
    && forall n: U64 | 1 <= n <= st.latest ::
         var k := EventKey(st.session, st.epoch, n);
         k in s.events && (s.events[k].revision == r <==> first < n <= last)
  }

  /**
   * In every reachable state the events of a session are exactly the sequences 1 to the latest, all in the one
   * epoch; the revision counts the applied appends, and each revision labels one non-empty contiguous block.
   */
  lemma LogIsContiguous(ops: seq<Op>, x: string)
    requires x in Final(ops).states
    ensures Final(ops).states[x].session == x && Final(ops).states[x].revision == |Applied(ops, x)|
    ensures Gapless(Final(ops), Final(ops).states[x])
    ensures forall r :: 1 <= r <= Final(ops).states[x].revision ==>
      LabelsBlock(Final(ops), Final(ops).states[x], r, BlockEnd(Applied(ops, x), r - 1), BlockEnd(Applied(ops, x), r))
  {
    var s, st, qs := Final(ops), Final(ops).states[x], Applied(ops, x);
    LogShape(ops, x);
    hide Final, Applied;
    LogIsGapless(s, x, qs);
    forall r | 1 <= r <= st.revision
      ensures LabelsBlock(s, st, r, BlockEnd(qs, r - 1), BlockEnd(qs, r))
    {
      LogHasBlock(s, x, qs, r);
    }
    hide Gapless, BlockEnd, LabelsBlock, Rows, Numbered, Labelled, AllEvents;
  }

  lemma RowAt(s: Store, x: string, qs: seq<Request>, n: nat)
    requires x in s.states && IsLog(s, x, qs) && 1 <= n <= |AllEvents(qs)|
    ensures n <= MAX_UINT64 && EventKey(x, s.states[x].epoch, n) in s.events
    ensures s.events[EventKey(x, s.states[x].epoch, n)] == AllEvents(qs)[n - 1]
  {
    hide AllEvents, Labelled;
    assert AllEvents(qs)[n - 1] in AllEvents(qs);
  }

  lemma RowIsNumbered(s: Store, x: string, qs: seq<Request>, k: EventKey)
    requires x in s.states && IsLog(s, x, qs) && k in s.events && k.session == x
    ensures k.epoch == s.states[x].epoch && 1 <= k.sequence <= |AllEvents(qs)|
  {
    hide AllEvents, Labelled;
    var es := AllEvents(qs);
    assert s.events[k] in es;
    var i :| 0 <= i < |es| && es[i] == s.events[k];
  }

  lemma LogIsGapless(s: Store, x: string, qs: seq<Request>)
    requires x in s.states && IsLog(s, x, qs)
    ensures Gapless(s, s.states[x])
  {
    var st := s.states[x];
    forall n: U64
      ensures EventKey(x, st.epoch, n) in s.events <==> 1 <= n <= st.latest
    {
      if 1 <= n <= st.latest {
        RowAt(s, x, qs, n);
      } else if EventKey(x, st.epoch, n) in s.events {
        RowIsNumbered(s, x, qs, EventKey(x, st.epoch, n));
      }
    }
    forall k | k in s.events && k.session == x
      ensures k.epoch == st.epoch
    {
      RowIsNumbered(s, x, qs, k);
    }
    hide Rows, Numbered, Labelled, AllEvents;
  }

  lemma LogHasBlock(s: Store, x: string, qs: seq<Request>, r: nat)
    requires x in s.states && IsLog(s, x, qs) && 1 <= r <= |qs|
    ensures LabelsBlock(s, s.states[x], r, BlockEnd(qs, r - 1), BlockEnd(qs, r))
  {
    var st := s.states[x];
    BlocksOf(qs, x, r);
    BlocksOf(qs, x, r - 1);
    hide BlockEnd, AllEvents;
    forall n: U64 | 1 <= n <= st.latest
      ensures EventKey(x, st.epoch, n) in s.events
      ensures s.events[EventKey(x, st.epoch, n)] == AllEvents(qs)[n - 1]
    {
      RowAt(s, x, qs, n);
    }
    hide Rows, Numbered, Labelled;
  }

  ghost predicate Grows(s: Store, t: Store, x: string)
    requires x in s.states
  {
    && x in t.states && t.states[x].epoch == s.states[x].epoch
    && t.states[x].revision >= s.states[x].revision && t.states[x].latest >= s.states[x].latest
    && forall k | k in s.events :: k in t.events && t.events[k] == s.events[k]
  }

  /** The log only grows: a session keeps its epoch, its counters never go back, and no event row changes. */
  lemma LogOnlyGrows(ops: seq<Op>, op: Op, x: string)
    requires x in Final(ops).states
    ensures Grows(Final(ops), Step(Final(ops), op), x)
  {
    var s := Final(ops);
    LogShape(ops, x);
    hide Final, Applied, AllEvents, Rows, Labelled, Numbered;
    if op.AppendOp? && Applies(s, op.q) {
      GrowsByAppend(s, op.q, x, Applied(ops, x));
      hide Applies;
    } else {
      hide Applies, ValidInitial, PutReceipt, ValidReceipt;
    }
  }

  lemma GrowsByAppend(s: Store, q: Request, x: string, qs: seq<Request>)
    requires x in s.states && Applies(s, q) && IsLog(s, x, qs)
    ensures Grows(s, AfterAppend(s, q), x)
  {
    hide Rows, Labelled, Numbered, AllEvents;
    AppliesFacts(s, q);
    InsertedEvents(s.events, q.events);
    CurrentFields(s, q);
    EventFields(q);
    hide Applies, AfterAppend, ValidAppend, CheckCurrent, InsertEvents;
    if q.session == x {
      NewSequences(s, q, AllEvents(qs));
    }
  }

  /**
   * Ensuring a snapshot is done once: at every later point of every run, ensuring any snapshot of the session
   * changes nothing and answers the current state, in the epoch that the first call answered.
   */
  lemma {:induction false} SnapshotIsEnsuredOnce(ops: seq<Op>, initial: SessionState, more: seq<Op>, again: SessionState)
    requires ValidInitial(initial) && ValidInitial(again) && again.session == initial.session
    ensures var s := Final(ops + [EnsureOp(initial)] + more);
      && again.session in s.states && s.states[again.session].epoch == EnsureResult(Final(ops), initial).value.epoch
      && EnsureResult(s, again) == Ok(s.states[again.session]) && AfterEnsure(s, again) == s
  {
    hide ValidText, ValidDigest;
    var run := ops + [EnsureOp(initial)] + more;
    if more == [] {
      assert run[..|run| - 1] == ops && run[|run| - 1] == EnsureOp(initial);
    } else {
      var init := more[..|more| - 1];
      SnapshotIsEnsuredOnce(ops, initial, init, again);
      var before := ops + [EnsureOp(initial)] + init;
      assert run[..|run| - 1] == before && run[|run| - 1] == more[|more| - 1];
      LogOnlyGrows(before, more[|more| - 1], again.session);
      hide Step;
    }
  }

  /** Ensuring answers what is stored from then on: the state that was there, or the one given; an invalid one changes nothing. */
  lemma EnsureStores(s: Store, initial: SessionState)
    ensures var r, next := EnsureResult(s, initial), AfterEnsure(s, initial);
      && (r.Ok? <==> ValidInitial(initial)) && (r.Err? ==> r.error == InvalidArgument && next == s)
      && (r.Ok? ==> initial.session in next.states && next.states[initial.session] == r.value
                    && next == s.(states := s.states[initial.session := r.value])
                    && r.value == if initial.session in s.states then s.states[initial.session] else initial)
  {
    hide ValidInitial;
    if initial.session in s.states { assert s.states[initial.session := s.states[initial.session]] == s.states; }
  }

  /** Playing a run on the repository leaves exactly the tables of the run, so every theorem here holds of it. */
  method Play(ops: seq<Op>) returns (repo: WorkbenchRepo.Repository)
    ensures fresh(repo) && repo.Value() == Final(ops)
  {
    hide AfterAppend, AfterEnsure, AfterPut, AppendResult, EnsureResult, PutResult;
    repo := new WorkbenchRepo.Repository();
    for i := 0 to |ops|
      invariant fresh(repo) && repo.Value() == Final(ops[..i])
    {
      assert ops[..i + 1][..i] == ops[..i];
      match ops[i] {
        case AppendOp(q) => var _ := repo.Append(q);
        case EnsureOp(initial) => var _ := repo.EnsureSnapshot(initial);
        case PutOp(r) => var _ := repo.PutCommandReceipt(r);
        case FilesOp(files) => repo.files := files;
      }
    }
    assert ops[..|ops|] == ops;
  }
}
