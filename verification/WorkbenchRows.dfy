/** What every stored row is like, and that no append reaches beyond its own session. */
module WorkbenchRows {
  import opened Text
  import opened Workbench
  import opened WorkbenchRuns
  import opened WorkbenchOnce
  import opened WorkbenchFiles
  import opened WorkbenchReceipts
  import opened WorkbenchAnswers

  // ---------------------------------------------------------------- texts and digests

  /** A text that is not empty, not too long, and has no white space at either end. */
  predicate IsText(s: string, limit: nat) {
    s != "" && ByteLen(s) <= limit && !IsSpace(s[0]) && !IsSpace(s[|s| - 1])
  }

  ghost predicate IsDigest(s: string) {
    exists hex: string | |hex| == 64 :: s == "sha256:" + hex && forall c | c in hex :: c in "0123456789abcdef"
  }

  lemma {:induction false} TrimRightShrinks(s: string)
    ensures |TrimRight(s)| <= |s|
  {
    if s != "" && IsSpace(s[|s| - 1]) { TrimRightShrinks(s[..|s| - 1]); }
  }

  lemma {:induction false} TrimLeftShrinks(s: string)
    ensures |TrimLeft(s)| <= |s| && (s != "" && IsSpace(s[0]) ==> |TrimLeft(s)| < |s|)
  {
    if s != "" && IsSpace(s[0]) { TrimLeftShrinks(s[1..]); }
  }

  lemma TextExactly(s: string, limit: nat)
    ensures ValidText(s, limit) <==> IsText(s, limit)
  {
    hide ByteLen, IsSpace;
    TrimLeftShrinks(s);
    TrimRightShrinks(TrimLeft(s));
    if s != "" {
      if !IsSpace(s[0]) && IsSpace(s[|s| - 1]) { TrimRightShrinks(s[..|s| - 1]); }
    }
  }

  lemma DigestExactly(s: string)
    ensures ValidDigest(s) <==> IsDigest(s)
  {
    if ValidDigest(s) {
      var hex := s[7..];
      assert s == "sha256:" + hex;
      forall c | c in hex
        ensures c in "0123456789abcdef"
      {
        var i :| 0 <= i < |hex| && hex[i] == c;
        assert s[i + 7] == c;
        HexDigits(c);
      }
    } else if IsDigest(s) {
      var hex: string :| |hex| == 64 && s == "sha256:" + hex && forall c | c in hex :: c in "0123456789abcdef";
      forall i | 7 <= i < 71
        ensures '0' <= s[i] <= '9' || 'a' <= s[i] <= 'f'
      {
        assert s[i] == hex[i - 7] && hex[i - 7] in hex;
        HexDigits(s[i]);
      }
    }
  }

  lemma HexDigits(c: char)
    ensures c in "0123456789abcdef" <==> '0' <= c <= '9' || 'a' <= c <= 'f'
  {
    var d := "0123456789abcdef";
    assert d[0] == '0' && d[1] == '1' && d[2] == '2' && d[3] == '3' && d[4] == '4' && d[5] == '5' && d[6] == '6' && d[7] == '7';
    assert d[8] == '8' && d[9] == '9' && d[10] == 'a' && d[11] == 'b' && d[12] == 'c' && d[13] == 'd' && d[14] == 'e' && d[15] == 'f';
  }

  // ---------------------------------------------------------------- rows

  ghost predicate StateRow(x: string, st: SessionState) {
    st.session == x && IsText(x, 100) && IsText(st.epoch, 100) && IsDigest(st.digest)
  }

  ghost predicate EventRow(k: EventKey, e: Event) {
    && k == EventKey(e.session, e.epoch, e.sequence) && e.sequence > 0 && IsDigest(e.digest)
    && (e.causation.Some? ==> IsText(e.causation.value, 100))
  }

  ghost predicate SourceRow(k: SourceKey, a: Source) {
    && k == SourceKey(a.session, a.stableId) && a.sequence > 0 && IsText(a.stableId, 200) && IsText(a.runnerEpoch, 100)
    && IsDigest(a.digest)
  }

  ghost predicate ReceiptRow(k: ReceiptKey, r: Receipt) {
    && k == ReceiptKey(r.session, r.command) && IsText(r.session, 100) && IsText(r.command, 100) && IsDigest(r.digest)
    && 1 <= r.state <= 7
  }

  ghost predicate RowsAreSound(s: Store) {
    && (forall k | k in s.states :: StateRow(k, s.states[k]))
    && (forall k | k in s.events :: EventRow(k, s.events[k]))
    && (forall k | k in s.sources :: SourceRow(k, s.sources[k]))
    && (forall k | k in s.receipts :: ReceiptRow(k, s.receipts[k]))
  }

  lemma ReceiptIsRow(r: Receipt)
    ensures ValidReceipt(r) <==> ReceiptRow(KeyOfReceipt(r), r)
  {
    TextExactly(r.session, 100);
    TextExactly(r.command, 100);
    DigestExactly(r.digest);
    hide ValidText, IsText, ValidDigest, IsDigest;
  }

  lemma {:induction false} ReceiptsAreRows(receipts: Receipts, rs: seq<Receipt>)
    requires forall k | k in receipts :: ReceiptRow(k, receipts[k])
    requires forall i :: 0 <= i < |rs| ==> ValidReceipt(rs[i])
    ensures forall k | k in WithReceipts(receipts, rs) :: ReceiptRow(k, WithReceipts(receipts, rs)[k])
    decreases rs
  {
    if rs != [] {
      ReceiptIsRow(rs[0]);
      hide ReceiptRow, ValidReceipt;
      ReceiptsAreRows(receipts[KeyOfReceipt(rs[0]) := rs[0]], rs[1..]);
    }
  }

  lemma EventIsRow(q: Request, e: Event)
    requires ValidAppend(q) && e in q.events
    ensures EventRow(KeyOfEvent(e), e) && e.session == q.session
  {
    assert ValidEvents(q);
    hide ValidAppend, IsText, ValidText, IsDigest, ValidDigest;
    var i :| 0 <= i < |q.events| && q.events[i] == e;
    DigestExactly(e.digest);
    if e.causation.Some? { TextExactly(e.causation.value, 100); }
  }

  lemma SourceIsRow(q: Request, a: Source)
    requires ValidAppend(q) && a in q.sources
    ensures SourceRow(KeyOfSource(a), a) && a.session == q.session
  {
    assert ValidSources(q);
    hide ValidAppend, Clash, IsText, ValidText, IsDigest, ValidDigest;
    var i :| 0 <= i < |q.sources| && q.sources[i] == a;
    assert ValidSource(a, q.session);
    DigestExactly(a.digest);
    TextExactly(a.stableId, 200);
    TextExactly(a.runnerEpoch, 100);
  }

  lemma StateIsRow(q: Request)
    requires ValidAppend(q)
    ensures StateRow(q.session, q.projection)
    ensures forall i :: 0 <= i < |q.receipts| ==> ValidReceipt(q.receipts[i]) && q.receipts[i].session == q.session
  {
    TextExactly(q.session, 100);
    TextExactly(q.projection.epoch, 100);
    DigestExactly(q.projection.digest);
    hide ValidText, IsText, ValidDigest, IsDigest, ValidEvents, ValidSources, ValidFiles;
  }

  lemma InitialIsRow(initial: SessionState)
    ensures ValidInitial(initial) <==> StateRow(initial.session, initial) && initial.revision == 0 && initial.latest == 0
  {
    TextExactly(initial.session, 100);
    TextExactly(initial.epoch, 100);
    DigestExactly(initial.digest);
    hide ValidText, IsText, ValidDigest, IsDigest;
  }

  lemma AppendTables(ops: seq<Op>, q: Request)
    requires Applies(Final(ops), q)
    ensures var s := Final(ops);
      && ValidAppend(q) && Unique(s.sources) && InsertEvents(s.events, q.events).Ok? && InsertSources(s.sources, q.sources).Ok?
      && AfterAppend(s, q) == Store(s.states[q.session := q.projection], InsertEvents(s.events, q.events).value,
           InsertSources(s.sources, q.sources).value, WithReceipts(s.receipts, q.receipts), AfterAppend(s, q).files)
  {
    AppliesFacts(Final(ops), q);
    AppendWrites(ops, q);
    SourcesHold(ops, q.session);
    hide Final, Applied, AllSources, Records, Unique, AfterAppend, ValidAppend, CheckCurrent, InsertEvents, InsertSources, WithReceipts,
         InsertFiles, PutReceipts, Inspect;
  }

  lemma EventsAreRows(events: Events, q: Request)
    requires ValidAppend(q) && InsertEvents(events, q.events).Ok? && forall k | k in events :: EventRow(k, events[k])
    ensures var r := InsertEvents(events, q.events).value; forall k | k in r :: EventRow(k, r[k])
  {
    InsertedEvents(events, q.events);
    hide ValidAppend, InsertEvents, EventRow;
    var r := InsertEvents(events, q.events).value;
    forall k | k in r
      ensures EventRow(k, r[k])
    {
      if k !in events {
        var e :| e in q.events && KeyOfEvent(e) == k;
        EventIsRow(q, e);
      }
    }
  }

  lemma SourcesAreRows(sources: Sources, q: Request)
    requires ValidAppend(q) && Unique(sources) && InsertSources(sources, q.sources).Ok?
    requires forall k | k in sources :: SourceRow(k, sources[k])
    ensures var r := InsertSources(sources, q.sources).value; forall k | k in r :: SourceRow(k, r[k])
  {
    InsertedSources(sources, q.sources);
    hide ValidAppend, InsertSources, SourceRow, Clash;
    var r := InsertSources(sources, q.sources).value;
    forall k | k in r
      ensures SourceRow(k, r[k])
    {
      if k !in sources { SourceIsRow(q, r[k]); }
    }
  }

  lemma AppendKeepsRows(ops: seq<Op>, q: Request)
    requires RowsAreSound(Final(ops)) && Applies(Final(ops), q)
    ensures RowsAreSound(AfterAppend(Final(ops), q))
  {
    var s := Final(ops);
    AppendTables(ops, q);
    StateIsRow(q);
    hide Final, Applies, AfterAppend, ValidAppend, InsertEvents, InsertSources, WithReceipts, StateRow, EventRow, SourceRow, ReceiptRow,
         ValidReceipt, Unique;
    EventsAreRows(s.events, q);
    SourcesAreRows(s.sources, q);
    ReceiptsAreRows(s.receipts, q.receipts);
  }

  /** In every reachable state every row is stored under its own key, with the texts and digests the schema asks for. */
  lemma {:induction false} RowsStaySound(ops: seq<Op>)
    ensures RowsAreSound(Final(ops))
  {
    if ops != [] {
      var init, last := ops[..|ops| - 1], ops[|ops| - 1];
      RowsStaySound(init);
      hide StateRow, EventRow, SourceRow, ReceiptRow, ValidInitial, ValidReceipt;
      match last
      case AppendOp(q) =>
        if Applies(Final(init), q) { AppendKeepsRows(init, q); }
        hide RowsAreSound, Applies;
      case EnsureOp(initial) => if ValidInitial(initial) { InitialIsRow(initial); }
      case PutOp(r) => PutKeepsRows(init, r);
      case FilesOp(_) =>
    }
  }

  lemma PutKeepsRows(ops: seq<Op>, r: Receipt)
    requires RowsAreSound(Final(ops))
    ensures RowsAreSound(AfterPut(Final(ops), r))
  {
    PutStoresExactly(ops, r);
    if ValidReceipt(r) { ReceiptIsRow(r); }
    hide Final, StateRow, EventRow, SourceRow, ReceiptRow, ValidReceipt, PutReceipt, Edge;
  }

  // ---------------------------------------------------------------- other sessions

  ghost predicate SameEvents(a: Events, b: Events, x: string) {
    forall k: EventKey | k.session == x :: (k in a <==> k in b) && (k in a ==> a[k] == b[k])
  }

  ghost predicate SameSources(a: Sources, b: Sources, x: string) {
    forall k: SourceKey | k.session == x :: (k in a <==> k in b) && (k in a ==> a[k] == b[k])
  }

  ghost predicate SameReceipts(a: Receipts, b: Receipts, x: string) {
    forall k: ReceiptKey | k.session == x :: (k in a <==> k in b) && (k in a ==> a[k] == b[k])
  }

  /** The rows of a session are the same in both stores. */
  ghost predicate SameSession(s: Store, t: Store, x: string) {
    && (x in s.states <==> x in t.states) && (x in s.states ==> s.states[x] == t.states[x])
    && SameEvents(s.events, t.events, x) && SameSources(s.sources, t.sources, x) && SameReceipts(s.receipts, t.receipts, x)
  }

  lemma {:induction false} OtherReceipts(receipts: Receipts, rs: seq<Receipt>, x: string, k: ReceiptKey)
    requires (forall i :: 0 <= i < |rs| ==> rs[i].session == x) && k.session != x
    ensures k in WithReceipts(receipts, rs) <==> k in receipts
    ensures k in receipts ==> WithReceipts(receipts, rs)[k] == receipts[k]
    decreases rs
  {
    if rs != [] { OtherReceipts(receipts[KeyOfReceipt(rs[0]) := rs[0]], rs[1..], x, k); }
  }

  lemma LocalEvents(events: Events, es: seq<Event>, x: string)
    requires InsertEvents(events, es).Ok? && forall e | e in es :: e.session != x
    ensures SameEvents(events, InsertEvents(events, es).value, x)
  {
    InsertedEvents(events, es);
    hide InsertEvents;
  }

  lemma LocalSources(sources: Sources, qs: seq<Source>, x: string)
    requires Unique(sources) && InsertSources(sources, qs).Ok? && forall a | a in qs :: a.session != x
    ensures SameSources(sources, InsertSources(sources, qs).value, x)
  {
    InsertedSources(sources, qs);
    hide InsertSources, Clash;
  }

  lemma LocalReceipts(receipts: Receipts, rs: seq<Receipt>, y: string, x: string)
    requires x != y && forall i :: 0 <= i < |rs| ==> rs[i].session == y
    ensures SameReceipts(receipts, WithReceipts(receipts, rs), x)
  {
    forall k: ReceiptKey | k.session == x
      ensures k in receipts <==> k in WithReceipts(receipts, rs)
      ensures k in receipts ==> receipts[k] == WithReceipts(receipts, rs)[k]
    {
      OtherReceipts(receipts, rs, y, k);
    }
  }

  /** No append reads or writes beyond its session: every other session keeps its state, log, sources and receipts. */
  lemma AppendIsLocal(ops: seq<Op>, q: Request, x: string)
    requires x != q.session
    ensures SameSession(Final(ops), AfterAppend(Final(ops), q), x)
  {
    var s, next := Final(ops), AfterAppend(Final(ops), q);
    if Applies(s, q) {
      AppendTables(ops, q);
      StateIsRow(q);
      SourceFields(q);
      EventFields(q);
      hide Final, Applies, AfterAppend, ValidAppend, InsertEvents, InsertSources, WithReceipts, StateRow, ValidReceipt, Clash, Unique,
           SameEvents, SameSources, SameReceipts;
      LocalEvents(s.events, q.events, x);
      LocalSources(s.sources, q.sources, x);
      LocalReceipts(s.receipts, q.receipts, q.session, x);
    } else {
      hide Applies;
      assert next == s;
    }
  }

  // ---------------------------------------------------------------- files

  ghost predicate FileRow(f: ArtifactFile, session: string) {
    && f.session == session && IsText(f.id, 100) && IsText(f.filename, 255) && IsText(f.contentType, 100) && IsText(f.key, 500)
    && 0 <= f.bytes <= 128 * 1024 * 1024
    && (exists name :: f.key == "sessions/" + session + "/artifacts/" + name)
    && !(exists pre, post :: f.key == pre + ".." + post)
  }

  lemma PrefixExactly(s: string, m: string)
    ensures HasPrefix(s, m) <==> exists post :: s == m + post
  {
    if HasPrefix(s, m) { assert s == m + s[|m|..]; }
  }

  lemma {:induction false} ContainsAt(s: string, m: string) returns (pre: string, post: string)
    requires Contains(s, m)
    ensures s == pre + m + post
  {
    if HasPrefix(s, m) {
      pre, post := "", s[|m|..];
    } else {
      pre, post := ContainsAt(s[1..], m);
      pre := [s[0]] + pre;
    }
  }

  lemma ContainsExactly(s: string, m: string)
    ensures Contains(s, m) <==> exists pre, post :: s == pre + m + post
  {
    if Contains(s, m) { var pre, post := ContainsAt(s, m); }
    if exists pre, post :: s == pre + m + post {
      var pre, post :| s == pre + m + post;
      ContainsSelf(m);
      ContainsInContext(pre, m, post, m);
    }
  }

  lemma FileExactly(f: ArtifactFile, session: string)
    ensures ValidFile(f, session) <==> FileRow(f, session)
  {
    TextExactly(f.id, 100);
    TextExactly(f.filename, 255);
    TextExactly(f.contentType, 100);
    TextExactly(f.key, 500);
    PrefixExactly(f.key, "sessions/" + session + "/artifacts/");
    ContainsExactly(f.key, "..");
    hide ValidText, IsText, HasPrefix, Contains;
  }

  /** Every file row that an append adds is one the schema takes, stored under its own session's prefix. */
  lemma AddedFilesAreSound(ops: seq<Op>, q: Request, id: string)
    requires id in AfterAppend(Final(ops), q).files && id !in Final(ops).files
    ensures FileRow(AfterAppend(Final(ops), q).files[id], q.session)
  {
    AppendRecordsFiles(ops, q);
    var f := AfterAppend(Final(ops), q).files[id];
    AppliesFacts(Final(ops), q);
    hide Final, AfterAppend, Applies, CheckCurrent;
    assert ValidFiles(q) by { hide ValidText, ValidDigest, ValidEvents, ValidSources, ValidReceipt, ValidFiles; }
    hide ValidAppend;
    var i :| 0 <= i < |q.files| && q.files[i] == f;
    assert ValidFile(f, q.session);
    FileExactly(f, q.session);
  }

  // ---------------------------------------------------------------- requests

  /** The events continue one another from the first, in the session, epoch and revision of the projection. */
  ghost predicate EventsAreSound(q: Request) {
    && q.events != []
    && (forall i :: 0 <= i < |q.events| ==>
          && EventRow(KeyOfEvent(q.events[i]), q.events[i]) && q.events[i].session == q.session
          && q.events[i].epoch == q.projection.epoch && q.events[i].revision == q.projection.revision
          && q.events[i].sequence == q.events[0].sequence + i)
    && q.projection.latest == q.events[0].sequence + |q.events| - 1
  }

  ghost predicate SourcesAreSound(q: Request) {
    && (forall i :: 0 <= i < |q.sources| ==> SourceRow(KeyOfSource(q.sources[i]), q.sources[i]) && q.sources[i].session == q.session)
    && (forall i, j :: 0 <= i < j < |q.sources| ==>
          && q.sources[i].stableId != q.sources[j].stableId
          && (q.sources[i].runnerEpoch, q.sources[i].sequence) != (q.sources[j].runnerEpoch, q.sources[j].sequence))
  }

  ghost predicate FilesAreSound(q: Request) {
    && (forall i :: 0 <= i < |q.files| ==> FileRow(q.files[i], q.session))
    && (forall i, j :: 0 <= i < j < |q.files| ==> q.files[i].id != q.files[j].id && q.files[i].key != q.files[j].key)
  }

  ghost predicate RequestIsSound(q: Request) {
    && StateRow(q.session, q.projection) && q.expected < 0xFFFF_FFFF_FFFF_FFFF && q.projection.revision == q.expected + 1
    && EventsAreSound(q) && SourcesAreSound(q) && FilesAreSound(q)
    && forall i :: 0 <= i < |q.receipts| ==> ReceiptRow(KeyOfReceipt(q.receipts[i]), q.receipts[i]) && q.receipts[i].session == q.session
  }

  lemma EventExactly(e: Event)
    ensures EventRow(KeyOfEvent(e), e) <==>
      e.sequence != 0 && ValidDigest(e.digest) && (e.causation.Some? ==> ValidText(e.causation.value, 100))
  {
    DigestExactly(e.digest);
    if e.causation.Some? { TextExactly(e.causation.value, 100); }
    hide IsText, ValidText, IsDigest, ValidDigest;
  }

  lemma EventsExactly(q: Request)
    ensures ValidEvents(q) <==> EventsAreSound(q)
  {
    forall i | 0 <= i < |q.events|
      ensures EventRow(KeyOfEvent(q.events[i]), q.events[i]) <==>
        && q.events[i].sequence != 0 && ValidDigest(q.events[i].digest)
        && (q.events[i].causation.Some? ==> ValidText(q.events[i].causation.value, 100))
    {
      EventExactly(q.events[i]);
    }
    hide EventRow, ValidDigest, ValidText;
    if ValidEvents(q) {
      forall i | 0 <= i < |q.events|
        ensures q.events[i].sequence == q.events[0].sequence + i
      {
        SequencesRun(q, i);
      }
    }
  }

  lemma SourceExactly(a: Source, x: string)
    ensures ValidSource(a, x) <==> SourceRow(KeyOfSource(a), a) && a.session == x
  {
    DigestExactly(a.digest);
    TextExactly(a.stableId, 200);
    TextExactly(a.runnerEpoch, 100);
    hide IsText, ValidText, IsDigest, ValidDigest;
  }

  lemma SourcesExactly(q: Request)
    ensures ValidSources(q) <==> SourcesAreSound(q)
  {
    forall i | 0 <= i < |q.sources|
      ensures ValidSource(q.sources[i], q.session) <==>
        SourceRow(KeyOfSource(q.sources[i]), q.sources[i]) && q.sources[i].session == q.session
    {
      SourceExactly(q.sources[i], q.session);
    }
    hide SourceRow, ValidSource;
  }

  lemma FilesExactly(q: Request)
    ensures ValidFiles(q) <==> FilesAreSound(q)
  {
    forall i | 0 <= i < |q.files|
      ensures ValidFile(q.files[i], q.session) <==> FileRow(q.files[i], q.session)
    {
      FileExactly(q.files[i], q.session);
    }
    hide FileRow, ValidFile;
  }

  /** Which requests are valid, in terms of the rows they would store. */
  lemma ValidExactly(q: Request)
    ensures ValidAppend(q) <==> RequestIsSound(q)
  {
    TextExactly(q.session, 100);
    TextExactly(q.projection.epoch, 100);
    DigestExactly(q.projection.digest);
    EventsExactly(q);
    SourcesExactly(q);
    FilesExactly(q);
    forall i | 0 <= i < |q.receipts|
      ensures ValidReceipt(q.receipts[i]) <==> ReceiptRow(KeyOfReceipt(q.receipts[i]), q.receipts[i])
    {
      ReceiptIsRow(q.receipts[i]);
    }
    hide IsText, ValidText, IsDigest, ValidDigest, ValidEvents, ValidSources, ValidFiles, EventsAreSound, SourcesAreSound, FilesAreSound,
         ValidReceipt, ReceiptRow;
  }
}
