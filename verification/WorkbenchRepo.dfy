/** The repository as the program runs it: tables changed in place, each call one transaction. */
module WorkbenchRepo {
  import opened Text
  import opened Workbench

  method ValidateEvents(q: Request) returns (ok: bool)
    requires q.events != []
    ensures ok == ValidEvents(q)
  {
    hide ValidText, ValidDigest;
    for i := 0 to |q.events|
      invariant forall k :: 0 <= k < i ==>
        && q.events[k].session == q.session && q.events[k].epoch == q.projection.epoch
        && q.events[k].revision == q.projection.revision && q.events[k].sequence != 0
        && ValidDigest(q.events[k].digest)
        && (q.events[k].causation.Some? ==> ValidText(q.events[k].causation.value, 100))
      invariant forall k :: 0 < k < i ==> q.events[k].sequence == Succ(q.events[k - 1].sequence)
    {
      var e := q.events[i];
      if e.session != q.session || e.epoch != q.projection.epoch || e.revision != q.projection.revision || e.sequence == 0
         || !ValidDigest(e.digest) || (e.causation.Some? && !ValidText(e.causation.value, 100)) {
        return false;
      }
      if i > 0 && e.sequence != Succ(q.events[i - 1].sequence) { return false; }
    }
    ok := q.projection.latest == q.events[|q.events| - 1].sequence;
  }

  method ValidateSources(q: Request) returns (ok: bool)
    ensures ok == ValidSources(q)
  {
    hide ValidText, ValidDigest;
    var stableIds: set<string> := {};
    var sequences: set<(string, U64)> := {};
    for i := 0 to |q.sources|
      invariant forall k :: 0 <= k < i ==> ValidSource(q.sources[k], q.session)
      invariant forall j, k :: 0 <= j < k < i ==> !Clash(q.sources[j], q.sources[k])
      invariant stableIds == set k | 0 <= k < i :: q.sources[k].stableId
      invariant sequences == set k | 0 <= k < i :: (q.sources[k].runnerEpoch, q.sources[k].sequence)
    {
      var s := q.sources[i];
      if !ValidSource(s, q.session) { return false; }
      if s.stableId in stableIds {
        var k :| 0 <= k < i && q.sources[k].stableId == s.stableId;
        assert Clash(q.sources[k], q.sources[i]);
        return false;
      }
      if (s.runnerEpoch, s.sequence) in sequences {
        var k :| 0 <= k < i && (q.sources[k].runnerEpoch, q.sources[k].sequence) == (s.runnerEpoch, s.sequence);
        assert Clash(q.sources[k], q.sources[i]);
        return false;
      }
      stableIds := stableIds + {s.stableId};
      sequences := sequences + {(s.runnerEpoch, s.sequence)};
    }
    ok := true;
  }

  method ValidateArtifactFiles(q: Request) returns (ok: bool)
    ensures ok == ValidFiles(q)
  {
    hide ValidFile;
    var ids: set<string> := {};
    var keys: set<string> := {};
    for i := 0 to |q.files|
      invariant forall k :: 0 <= k < i ==> ValidFile(q.files[k], q.session)
      invariant forall j, k :: 0 <= j < k < i ==> q.files[j].id != q.files[k].id && q.files[j].key != q.files[k].key
      invariant ids == set k | 0 <= k < i :: q.files[k].id
      invariant keys == set k | 0 <= k < i :: q.files[k].key
    {
      var f := q.files[i];
      if !ValidFile(f, q.session) || f.id in ids || f.key in keys { return false; }
      ids := ids + {f.id};
      keys := keys + {f.key};
    }
    ok := true;
  }

  method ValidateAppend(q: Request) returns (ok: bool)
    ensures ok == ValidAppend(q)
  {
    hide ValidText, ValidDigest, ValidSources, ValidEvents, ValidFiles;
    if !ValidText(q.session, 100) || q.projection.session != q.session || !ValidText(q.projection.epoch, 100)
       || !ValidDigest(q.projection.digest) || |q.events| == 0 || q.expected == MAX_UINT64
       || q.projection.revision != Succ(q.expected) {
      return false;
    }
    ok := ValidateEvents(q);
    if !ok { return; }
    ok := ValidateSources(q);
    if !ok { return; }
    ok := ValidateArtifactFiles(q);
    if !ok { return; }
    for i := 0 to |q.receipts|
      invariant forall k :: 0 <= k < i ==> q.receipts[k].session == q.session && ValidReceipt(q.receipts[k])
    {
      if q.receipts[i].session != q.session || !ValidReceipt(q.receipts[i]) { return false; }
    }
    ok := true;
  }

  class Repository {
    var states: map<string, SessionState>
    var events: Events
    var sources: Sources
    var receipts: Receipts
    var files: Files

    /** The five tables together. */
    function Value(): Store
      reads this
    {
      Store(states, events, sources, receipts, files)
    }

    constructor ()
      ensures Value() == EMPTY
    {
      states, events, sources, receipts, files := map[], map[], map[], map[], map[];
    }

    method Rollback(to: Store)
      modifies this
      ensures Value() == to
    {
      states, events, sources, receipts, files := to.states, to.events, to.sources, to.receipts, to.files;
    }

    method InspectSources(qs: seq<Source>) returns (r: Inspection)
      ensures r == Inspect(sources, qs)
    {
      hide Clash;
      if qs == [] { return New; }
      var existing := 0;
      for i := 0 to |qs|
        invariant forall k :: 0 <= k < i ==> Seen(sources, qs[k]) || Fresh(sources, qs[k])
        invariant 0 <= existing <= i
        invariant existing == i <==> forall k :: 0 <= k < i ==> Seen(sources, qs[k])
        invariant existing == 0 <==> forall k :: 0 <= k < i ==> Fresh(sources, qs[k])
      {
        SeenIsNotFresh(sources, qs[i]);
        if Fresh(sources, qs[i]) { continue; }
        if !Seen(sources, qs[i]) {
          assert Inspect(sources, qs) == Conflict by {
            assert !Seen(sources, qs[i]) && !Fresh(sources, qs[i]);
          }
          return Conflict;
        }
        existing := existing + 1;
      }
      if existing == |qs| { return Replay; }
      if existing != 0 { return Conflict; }
      r := New;
    }

    method InsertArtifactFiles(fs: seq<ArtifactFile>) returns (result: Result<(), Error>)
      modifies this`files
      ensures var r := InsertFiles(old(files), fs);
        result == (if r.Ok? then Ok(()) else Err(r.error)) && (r.Ok? ==> files == r.value)
    {
      hide IsFileId, FileIsFree;
      assert fs[0..] == fs;
      for i := 0 to |fs|
        invariant InsertFiles(files, fs[i..]) == InsertFiles(old(files), fs)
      {
        assert fs[i..][1..] == fs[i + 1..];
        var f := fs[i];
        if !IsFileId(f.id) { return Err(FileRejected); }
        if FileIsFree(files, f) {
          files := files[f.id := f];
          continue;
        }
        if f.id !in files || files[f.id].session != f.session { return Err(FileMissing); }
        var existing := files[f.id];
        if existing.filename != f.filename || existing.bytes != f.bytes || existing.contentType != f.contentType {
          return Err(FileConflict);
        }
      }
      result := Ok(());
    }

    method InsertSourceRows(qs: seq<Source>) returns (ok: bool)
      modifies this`sources
      ensures var r := InsertSources(old(sources), qs);
        ok == r.Ok? && (ok ==> sources == r.value) && (r.Err? ==> r.error == SourceConflict)
    {
      hide Fresh;
      assert qs[0..] == qs;
      for i := 0 to |qs|
        invariant InsertSources(sources, qs[i..]) == InsertSources(old(sources), qs)
      {
        assert qs[i..][1..] == qs[i + 1..];
        if !Fresh(sources, qs[i]) { return false; }
        sources := sources[KeyOfSource(qs[i]) := qs[i]];
      }
      ok := true;
    }

    method InsertEventRows(es: seq<Event>) returns (ok: bool)
      modifies this`events
      ensures var r := InsertEvents(old(events), es);
        ok == r.Ok? && (ok ==> events == r.value) && (r.Err? ==> r.error == EventConflict)
    {
      assert es[0..] == es;
      for i := 0 to |es|
        invariant InsertEvents(events, es[i..]) == InsertEvents(old(events), es)
      {
        assert es[i..][1..] == es[i + 1..];
        if KeyOfEvent(es[i]) in events { return false; }
        events := events[KeyOfEvent(es[i]) := es[i]];
      }
      ok := true;
    }

    method PutReceiptRow(r: Receipt) returns (result: Result<Receipt, Error>)
      modifies this`receipts
      ensures var p := PutReceipt(old(receipts), r);
        if p.Err? then result == Err(p.error) && receipts == old(receipts)
        else result == Ok(p.value[KeyOfReceipt(r)]) && receipts == p.value
    {
      var k := KeyOfReceipt(r);
      if k !in receipts {
        receipts := receipts[k := r];
        return Ok(r);
      }
      var current := receipts[k];
      if current.digest != r.digest { return Err(CommandIdConflict); }
      if current.state == r.state {
        if current.body == r.body { return Ok(current); }
        if Terminal(r.state) { return Err(ReceiptConflict); }
      } else if !AllowedTransition(current.state, r.state) {
        return Err(ReceiptConflict);
      }
      current := current.(state := r.state, body := r.body);
      receipts := receipts[k := current];
      result := Ok(current);
    }

    method PutReceiptRows(rs: seq<Receipt>) returns (result: Result<bool, Error>)
      modifies this`receipts
      ensures var p := PutReceipts(old(receipts), rs);
        if p.Err? then result == Err(p.error) else result == Ok(true) && receipts == p.value
    {
      hide PutReceipt;
      assert rs[0..] == rs;
      for i := 0 to |rs|
        invariant PutReceipts(receipts, rs[i..]) == PutReceipts(old(receipts), rs)
      {
        assert rs[i..][1..] == rs[i + 1..];
        var r := PutReceiptRow(rs[i]);
        if r.Err? { return Err(r.error); }
      }
      result := Ok(true);
    }

    method ValidateCurrent(current: Option<SessionState>, q: Request) returns (refusal: Option<Error>)
      requires q.events != []
      ensures refusal == CheckCurrent(current, q)
    {
      if current.None? {
        if q.expected != 0 { return Some(RevisionConflict); }
        if q.events[0].sequence != 1 { return Some(EventConflict); }
        return None;
      }
      var st := current.value;
      if st.revision != q.expected { return Some(RevisionConflict); }
      if st.epoch != q.projection.epoch { return Some(StreamConflict); }
      if st.latest == MAX_UINT64 || q.events[0].sequence != Succ(st.latest) { return Some(EventConflict); }
      refusal := None;
    }

    /** Creates the row of a session, or replaces it when it still has the expected revision. */
    method PersistState(current: Option<SessionState>, q: Request) returns (ok: bool)
      requires current == StateOf(Value(), q.session)
      requires current.Some? ==> current.value.revision == q.expected
      modifies this`states
      ensures ok && states == old(states)[q.session := q.projection]
    {
      if current.Some? && states[q.session].revision != q.expected { return false; }
      states := states[q.session := q.projection];
      ok := true;
    }

    /** The body of the append transaction; its writes stay behind when it fails. */
    method AppendTx(q: Request) returns (result: Result<bool, Error>)
      requires ValidAppend(q)
      modifies this
      ensures result == AppendResult(old(Value()), q)
      ensures result.Ok? ==> Value() == AfterAppend(old(Value()), q)
    {
      hide ValidAppend, Inspect, CheckCurrent, InsertFiles, InsertSources, InsertEvents, PutReceipts;
      var inspection := InspectSources(q.sources);
      if inspection == Conflict { return Err(SourceConflict); }
      if inspection == Replay { return Ok(false); }
      var current := StateOf(Value(), q.session);
      assert q.events != [] by { HasEvents(q); }
      var refusal := ValidateCurrent(current, q);
      if refusal.Some? { return Err(refusal.value); }
      assert current.Some? ==> current.value.revision == q.expected by { CurrentIsExpected(current, q); }
      var recorded := InsertArtifactFiles(q.files);
      if recorded.Err? { return Err(recorded.error); }
      var put := PutReceiptRows(q.receipts);
      if put.Err? { return Err(put.error); }
      var inserted := InsertSourceRows(q.sources);
      if !inserted { return Err(SourceConflict); }
      inserted := InsertEventRows(q.events);
      if !inserted { return Err(EventConflict); }
      var persisted := PersistState(current, q);
      result := Ok(true);
    }

    /** One transaction: all of the writes, or none. */
    method Append(q: Request) returns (result: Result<bool, Error>)
      modifies this
      ensures result == AppendResult(old(Value()), q)
      ensures Value() == AfterAppend(old(Value()), q)
    {
      hide ValidAppend, Inspect, CheckCurrent, Write;
      var valid := ValidateAppend(q);
      if !valid { return Err(InvalidArgument); }
      var before := Value();
      result := AppendTx(q);
      if result.Err? { Rollback(before); }
    }

    method EnsureSnapshot(initial: SessionState) returns (result: Result<SessionState, Error>)
      modifies this
      ensures result == EnsureResult(old(Value()), initial)
      ensures Value() == AfterEnsure(old(Value()), initial)
    {
      hide ValidInitial;
      if !ValidInitial(initial) { return Err(InvalidArgument); }
      if initial.session in states { return Ok(states[initial.session]); }
      states := states[initial.session := initial];
      result := Ok(initial);
    }

    method PutCommandReceipt(r: Receipt) returns (result: Result<Receipt, Error>)
      modifies this
      ensures result == PutResult(old(Value()), r)
      ensures Value() == AfterPut(old(Value()), r)
    {
      hide ValidReceipt, PutReceipt;
      if !ValidReceipt(r) { return Err(InvalidArgument); }
      result := PutReceiptRow(r);
    }
  }

  lemma HasEvents(q: Request)
    requires ValidAppend(q)
    ensures q.events != []
  {
    hide ValidText, ValidDigest, ValidSources, ValidEvents, ValidFiles;
  }

  lemma CurrentIsExpected(current: Option<SessionState>, q: Request)
    requires q.events != [] && CheckCurrent(current, q).None?
    ensures current.Some? ==> current.value.revision == q.expected
  {}

  lemma SeenIsNotFresh(sources: Sources, s: Source)
    ensures !(Seen(sources, s) && Fresh(sources, s))
  {
    hide Matches;
    if Matches(sources, s) == {s} {
      assert s in Matches(sources, s);
    }
  }
}
