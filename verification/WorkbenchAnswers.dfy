/** What exactly the store answers to an append, in every reachable state, and what it writes. */
module WorkbenchAnswers {
  import opened Text
  import opened Workbench
  import opened WorkbenchRuns
  import opened WorkbenchOnce
  import opened WorkbenchFiles
  import opened WorkbenchReceipts

  /** Every source of the request has been recorded, and there is one. */
  ghost predicate AllKnown(srcs: seq<Source>, qs: seq<Source>) { qs != [] && forall a | a in qs :: a in srcs }

  /** A source of the request has the stable id, or the runner sequence, of a recorded one. */
  ghost predicate SomeClash(srcs: seq<Source>, qs: seq<Source>) {
    exists a, c | a in qs && c in srcs ::
      c.stableId == a.stableId || (c.runnerEpoch == a.runnerEpoch && c.sequence == a.sequence)
  }

  /** Each receipt is new or an allowed edge from what is stored by then. */
  ghost predicate ReceiptsFit(receipts: Receipts, rs: seq<Receipt>)
    decreases rs
  {
    rs == [] ||
    (&& (KeyOfReceipt(rs[0]) in receipts ==> Edge(receipts[KeyOfReceipt(rs[0])], rs[0]))
     && ReceiptsFit(receipts[KeyOfReceipt(rs[0]) := rs[0]], rs[1..]))
  }

  /** The table with each receipt in place, the last one of a command on top. */
  function WithReceipts(receipts: Receipts, rs: seq<Receipt>): Receipts
    decreases rs
  {
    if rs == [] then receipts else WithReceipts(receipts[KeyOfReceipt(rs[0]) := rs[0]], rs[1..])
  }

  ghost predicate ReceiptsKeyed(receipts: Receipts) {
    forall k | k in receipts :: receipts[k].session == k.session && receipts[k].command == k.command && 1 <= receipts[k].state <= 7
  }

  lemma PutExactly(receipts: Receipts, r: Receipt)
    requires ReceiptsKeyed(receipts) && 1 <= r.state <= 7
    ensures PutReceipt(receipts, r).Ok? <==> KeyOfReceipt(r) in receipts ==> Edge(receipts[KeyOfReceipt(r)], r)
    ensures PutReceipt(receipts, r).Ok? ==> PutReceipt(receipts, r).value == receipts[KeyOfReceipt(r) := r]
    ensures PutReceipt(receipts, r).Err? ==> PutReceipt(receipts, r).error in {CommandIdConflict, ReceiptConflict}
  {
    var k := KeyOfReceipt(r);
    if k in receipts && Edge(receipts[k], r) {
      assert receipts[k].(state := r.state, body := r.body) == r;
    }
  }

  lemma {:induction false} PutsExactly(receipts: Receipts, rs: seq<Receipt>)
    requires ReceiptsKeyed(receipts) && forall i :: 0 <= i < |rs| ==> 1 <= rs[i].state <= 7
    ensures PutReceipts(receipts, rs).Ok? <==> ReceiptsFit(receipts, rs)
    ensures PutReceipts(receipts, rs).Ok? ==> PutReceipts(receipts, rs).value == WithReceipts(receipts, rs)
    ensures PutReceipts(receipts, rs).Err? ==> PutReceipts(receipts, rs).error in {CommandIdConflict, ReceiptConflict}
    decreases rs
  {
    if rs != [] {
      PutExactly(receipts, rs[0]);
      hide PutReceipt, Edge;
      if PutReceipt(receipts, rs[0]).Ok? { PutsExactly(PutReceipt(receipts, rs[0]).value, rs[1..]); }
    }
  }

  lemma ReceiptsAreKeyed(ops: seq<Op>)
    ensures ReceiptsKeyed(Final(ops).receipts)
  {
    hide Final, History;
    forall k | k in Final(ops).receipts
      ensures Final(ops).receipts[k].session == k.session && Final(ops).receipts[k].command == k.command
      ensures 1 <= Final(ops).receipts[k].state <= 7
    {
      ReceiptRuns(ops, k);
    }
  }

  // ---------------------------------------------------------------- sources

  lemma ClashSpelled(a: Source, c: Source)
    requires a.session == c.session
    ensures Clash(c, a) <==> c.stableId == a.stableId || (c.runnerEpoch == a.runnerEpoch && c.sequence == a.sequence)
  {}

  lemma FreshExactly(s: Store, x: string, srcs: seq<Source>, a: Source)
    requires Records(s.sources, srcs, x) && Unique(s.sources) && a.session == x
    ensures Fresh(s.sources, a) <==> forall c | c in srcs :: !Clash(c, a)
  {
    if Fresh(s.sources, a) {
      FreshDoesNotClash(s.sources, a);
      hide Clash;
    } else {
      assert Matches(s.sources, a) != {};
      var c :| c in Matches(s.sources, a);
      var k :| k in s.sources && Clash(s.sources[k], a) && s.sources[k] == c;
      assert s.sources[k].session == x && KeyOfSource(s.sources[k]) == k;
      hide Clash;
    }
  }

  lemma SeenExactly(s: Store, x: string, srcs: seq<Source>, a: Source)
    requires Records(s.sources, srcs, x) && Unique(s.sources) && a.session == x
    ensures Seen(s.sources, a) <==> a in srcs
  {
    hide Clash, Matches;
    if a in srcs {
      RecordedIsSeen(s.sources, a);
    } else if Seen(s.sources, a) {
      SeenIsRecorded(s.sources, a);
    }
  }

  lemma InspectExactly(s: Store, x: string, srcs: seq<Source>, qs: seq<Source>)
    requires Records(s.sources, srcs, x) && Unique(s.sources) && forall a | a in qs :: a.session == x
    ensures Inspect(s.sources, qs) == if AllKnown(srcs, qs) then Replay else if SomeClash(srcs, qs) then Conflict else New
  {
    forall a | a in qs
      ensures (Seen(s.sources, a) <==> a in srcs) && (Fresh(s.sources, a) <==> forall c | c in srcs :: !Clash(c, a))
    {
      SeenExactly(s, x, srcs, a);
      FreshExactly(s, x, srcs, a);
    }
    forall a, c | a in qs && c in srcs
      ensures Clash(c, a) <==> c.stableId == a.stableId || (c.runnerEpoch == a.runnerEpoch && c.sequence == a.sequence)
    {
      ClashSpelled(a, c);
    }
    hide Clash, Seen, Fresh, Unique, Records;
    assert forall i :: 0 <= i < |qs| ==> qs[i] in qs;
  }

  // ---------------------------------------------------------------- the answer

  /** Which answer the state of the session gives, once the sources are new. */
  ghost predicate Refuses(s: Store, q: Request, count: nat, length: nat, e: Error)
    requires q.events != []
  {
    if q.expected != count then e == RevisionConflict
    else if q.session in s.states && s.states[q.session].epoch != q.projection.epoch then e == StreamConflict
    else q.events[0].sequence != length + 1 && e == EventConflict
  }

  /** Revision, epoch and first sequence continue the log. */
  ghost predicate Continues(s: Store, q: Request, count: nat, length: nat)
    requires q.events != []
  {
    && q.expected == count && q.events[0].sequence == length + 1
    && (q.session in s.states ==> s.states[q.session].epoch == q.projection.epoch)
  }

  lemma CheckExactly(s: Store, q: Request, qs: seq<Request>)
    requires IsLog(s, q.session, qs) && q.events != []
    ensures var r := CheckCurrent(StateOf(s, q.session), q);
      && (r.None? <==> Continues(s, q, |qs|, |AllEvents(qs)|))
      && (r.Some? ==> Refuses(s, q, |qs|, |AllEvents(qs)|, r.value))
  {
    hide Rows, Labelled, Numbered;
    assert AllEvents([]) == [];
  }

  lemma SourcesAnswer(ops: seq<Op>, q: Request)
    requires ValidAppend(q)
    ensures var srcs := AllSources(Applied(ops, q.session));
      Inspect(Final(ops).sources, q.sources) ==
      if AllKnown(srcs, q.sources) then Replay else if SomeClash(srcs, q.sources) then Conflict else New
  {
    SourcesHold(ops, q.session);
    SourceFields(q);
    hide ValidAppend, Final, Applied, AllSources, AllKnown, SomeClash, Inspect, Records, Unique;
    InspectExactly(Final(ops), q.session, AllSources(Applied(ops, q.session)), q.sources);
  }

  lemma WritesAnswer(ops: seq<Op>, q: Request)
    requires ValidAppend(q)
    ensures var s := Final(ops); var files, receipts := InsertFiles(s.files, q.files), PutReceipts(s.receipts, q.receipts);
      && (files.Ok? <==> !exists f | f in q.files :: !FileIsAccepted(s.files, f))
      && (files.Err? ==> files.error in {FileRejected, FileMissing, FileConflict})
      && (receipts.Ok? <==> ReceiptsFit(s.receipts, q.receipts))
      && (receipts.Err? ==> receipts.error in {CommandIdConflict, ReceiptConflict})
  {
    var s := Final(ops);
    FileFields(q);
    ReceiptsAreKeyed(ops);
    ReceiptsInRange(q);
    hide ValidAppend, Final, ReceiptsFit, PutReceipts, InsertFiles, FileIsAccepted;
    PutsExactly(s.receipts, q.receipts);
    FilesInsertExactly(s.files, q.files);
    FileErrors(s.files, q.files);
    assert forall i :: 0 <= i < |q.files| ==> q.files[i] in q.files;
  }

  /**
   * The answer to a valid append in every reachable state. Known sources make it a replay and clashing ones a
   * conflict; then it must continue the log in revision, epoch and sequence; then its files and receipts must be
   * accepted; and nothing else can stop it.
   */
  lemma AppendAnswers(ops: seq<Op>, q: Request)
    requires ValidAppend(q)
    ensures q.events != []
    ensures var s, qs := Final(ops), Applied(ops, q.session);
      var r, srcs, es := AppendResult(s, q), AllSources(qs), AllEvents(qs);
      if AllKnown(srcs, q.sources) then r == Ok(false)
      else if SomeClash(srcs, q.sources) then r == Err(SourceConflict)
      else if !Continues(s, q, |qs|, |es|) then r.Err? && Refuses(s, q, |qs|, |es|, r.error)
      else if exists f | f in q.files :: !FileIsAccepted(s.files, f) then r.Err? && r.error in {FileRejected, FileMissing, FileConflict}
      else if !ReceiptsFit(s.receipts, q.receipts) then r.Err? && r.error in {CommandIdConflict, ReceiptConflict}
      else r == Ok(true)
  {
    EventFields(q);
    var s, x, qs := Final(ops), q.session, Applied(ops, q.session);
    LogShape(ops, x);
    SourcesAnswer(ops, q);
    WritesAnswer(ops, q);
    hide ValidAppend, Final, Applied, AllEvents, AllSources;
    CheckExactly(s, q, qs);
    hide Inspect, CheckCurrent, PutReceipts, InsertFiles, FileIsAccepted, IsLog, AllKnown, SomeClash, Refuses, ReceiptsFit, SourceShape;
    if Inspect(s.sources, q.sources) == New {
      NewSourcesInsert(s, q);
      if CheckCurrent(StateOf(s, x), q).None? { NewEventsInsert(ops, q); }
    }
    hide InsertSources, InsertEvents, Continues;
  }

  /** In every reachable state, exactly which valid appends are applied. */
  lemma AppliedExactly(ops: seq<Op>, q: Request)
    requires ValidAppend(q)
    ensures q.events != []
    ensures var s, qs := Final(ops), Applied(ops, q.session);
      Applies(s, q) <==>
      && !AllKnown(AllSources(qs), q.sources) && !SomeClash(AllSources(qs), q.sources)
      && q.expected == |qs| && q.events[0].sequence == |AllEvents(qs)| + 1
      && (q.session in s.states ==> s.states[q.session].epoch == q.projection.epoch)
      && (forall f | f in q.files :: FileIsAccepted(s.files, f)) && ReceiptsFit(s.receipts, q.receipts)
  {
    AppendAnswers(ops, q);
    hide Final, Applied, AllEvents, AllSources, AllKnown, SomeClash, FileIsAccepted, ReceiptsFit, AppendResult, Refuses, ValidAppend;
  }

  lemma {:induction false} FileErrors(files: Files, fs: seq<ArtifactFile>)
    ensures InsertFiles(files, fs).Err? ==> InsertFiles(files, fs).error in {FileRejected, FileMissing, FileConflict}
    decreases fs
  {
    hide IsFileId, FileIsFree, FileIsRecorded;
    if fs != [] && InsertFile(files, fs[0]).Ok? { FileErrors(InsertFile(files, fs[0]).value, fs[1..]); }
  }

  /** An append that is applied puts its receipts in order and its projection, and touches no other receipt or state. */
  lemma AppendWrites(ops: seq<Op>, q: Request)
    requires AppendResult(Final(ops), q) == Ok(true)
    ensures AfterAppend(Final(ops), q).receipts == WithReceipts(Final(ops).receipts, q.receipts)
    ensures AfterAppend(Final(ops), q).states == Final(ops).states[q.session := q.projection]
  {
    AppliesFacts(Final(ops), q);
    ReceiptsAreKeyed(ops);
    ReceiptsInRange(q);
    PutsExactly(Final(ops).receipts, q.receipts);
    hide Final, AfterAppend, ValidAppend, CheckCurrent, PutReceipts, WithReceipts, ReceiptsFit;
  }
}
