/** The agent workbench store: its tables, its requests, and what one transaction does to the tables. */
module Workbench {
  import opened Text

  const MAX_UINT64: nat := 0xFFFF_FFFF_FFFF_FFFF

  type U64 = n: nat | n <= MAX_UINT64

  /** Addition of one as the machine does it. */
  function Succ(n: U64): U64 { if n == MAX_UINT64 then 0 else n + 1 }

  type Bytes = seq<bv8>

  datatype SessionState = SessionState(
    session: string, epoch: string, revision: U64, latest: U64, projection: Bytes, digest: string)

  datatype Event = Event(
    session: string, epoch: string, revision: U64, sequence: U64, payload: Bytes, digest: string, causation: Option<string>)

  datatype Source = Source(session: string, stableId: string, runnerEpoch: string, sequence: U64, digest: string)

  datatype Receipt = Receipt(session: string, command: string, digest: string, state: int, body: Bytes)

  datatype ArtifactFile = ArtifactFile(
    id: string, session: string, filename: string, bytes: int, contentType: string, key: string)

  datatype Request = Request(
    session: string, expected: U64, files: seq<ArtifactFile>, sources: seq<Source>, receipts: seq<Receipt>, events: seq<Event>,
    projection: SessionState)

  const RECEIVED := 1
  const ACCEPTED := 2
  const RUNNING := 3
  const SUCCEEDED := 4
  const FAILED := 5
  const REJECTED := 6
  const CANCELLED := 7

  datatype Error =
    | InvalidArgument | RevisionConflict | StreamConflict | EventConflict
    | CommandIdConflict | ReceiptConflict | SourceConflict
    | FileRejected | FileMissing | FileConflict

  // ---------------------------------------------------------------- tables

  datatype EventKey = EventKey(session: string, epoch: string, sequence: U64)
  datatype SourceKey = SourceKey(session: string, stableId: string)
  datatype ReceiptKey = ReceiptKey(session: string, command: string)

  function KeyOfEvent(e: Event): EventKey { EventKey(e.session, e.epoch, e.sequence) }

  function KeyOfSource(s: Source): SourceKey { SourceKey(s.session, s.stableId) }

  function KeyOfReceipt(r: Receipt): ReceiptKey { ReceiptKey(r.session, r.command) }

  type Receipts = map<ReceiptKey, Receipt>
  type Sources = map<SourceKey, Source>
  type Events = map<EventKey, Event>

  /** Artifact files are found by their id. */
  type Files = map<string, ArtifactFile>

  datatype Store = Store(
    states: map<string, SessionState>, events: Events, sources: Sources, receipts: Receipts, files: Files)

  const EMPTY := Store(map[], map[], map[], map[], map[])

  // ---------------------------------------------------------------- request validation

  predicate ValidText(s: string, limit: nat) { s != "" && ByteLen(s) <= limit && s == TrimSpace(s) }

  predicate ValidDigest(s: string) {
    && |s| == 71 && s[..7] == "sha256:"
    && forall i :: 7 <= i < 71 ==> '0' <= s[i] <= '9' || 'a' <= s[i] <= 'f'
  }

  predicate ValidEvents(q: Request) {
    && (forall i :: 0 <= i < |q.events| ==>
          && q.events[i].session == q.session && q.events[i].epoch == q.projection.epoch
          && q.events[i].revision == q.projection.revision && q.events[i].sequence != 0
          && ValidDigest(q.events[i].digest)
          && (q.events[i].causation.Some? ==> ValidText(q.events[i].causation.value, 100)))
    && (forall i :: 0 < i < |q.events| ==> q.events[i].sequence == Succ(q.events[i - 1].sequence))
    && q.events != [] && q.projection.latest == q.events[|q.events| - 1].sequence
  }

  predicate ValidSource(s: Source, session: string) {
    && s.session == session && ValidText(s.stableId, 200) && ValidText(s.runnerEpoch, 100)
    && s.sequence != 0 && ValidDigest(s.digest)
  }

  /** Two sources that the tables cannot hold side by side. */
  predicate Clash(a: Source, b: Source) {
    a.session == b.session && (a.stableId == b.stableId || (a.runnerEpoch == b.runnerEpoch && a.sequence == b.sequence))
  }

  predicate ValidSources(q: Request) {
    && (forall i :: 0 <= i < |q.sources| ==> ValidSource(q.sources[i], q.session))
    && (forall i, j :: 0 <= i < j < |q.sources| ==> !Clash(q.sources[i], q.sources[j]))
  }

  const MAX_FILE_BYTES := 0x800_0000

  predicate ValidFile(f: ArtifactFile, session: string) {
    && f.session == session && ValidText(f.id, 100) && ValidText(f.filename, 255) && 0 <= f.bytes <= MAX_FILE_BYTES
    && ValidText(f.contentType, 100) && ValidText(f.key, 500)
    && HasPrefix(f.key, "sessions/" + session + "/artifacts/") && !Contains(f.key, "..")
  }

  predicate ValidFiles(q: Request) {
    && (forall i :: 0 <= i < |q.files| ==> ValidFile(q.files[i], q.session))
    && (forall i, j :: 0 <= i < j < |q.files| ==> q.files[i].id != q.files[j].id && q.files[i].key != q.files[j].key)
  }

  predicate ValidReceipt(r: Receipt) {
    && ValidText(r.session, 100) && ValidText(r.command, 100) && ValidDigest(r.digest)
    && RECEIVED <= r.state <= CANCELLED
  }

  predicate ValidAppend(q: Request) {
    && ValidText(q.session, 100) && q.projection.session == q.session && ValidText(q.projection.epoch, 100)
    && ValidDigest(q.projection.digest) && q.events != [] && q.expected != MAX_UINT64
    && q.projection.revision == Succ(q.expected)
    && ValidEvents(q) && ValidSources(q) && ValidFiles(q)
    && forall i :: 0 <= i < |q.receipts| ==> q.receipts[i].session == q.session && ValidReceipt(q.receipts[i])
  }

  predicate ValidInitial(st: SessionState) {
    ValidText(st.session, 100) && ValidText(st.epoch, 100) && st.revision == 0 && st.latest == 0 && ValidDigest(st.digest)
  }

  // ---------------------------------------------------------------- sources

  /** The rows that share an identity with a source. */
  function Matches(sources: Sources, s: Source): set<Source> {
    set k | k in sources && Clash(sources[k], s) :: sources[k]
  }

  predicate Seen(sources: Sources, s: Source) { Matches(sources, s) == {s} }

  predicate Fresh(sources: Sources, s: Source) { Matches(sources, s) == {} }

  datatype Inspection = Replay | New | Conflict

  function Inspect(sources: Sources, qs: seq<Source>): Inspection {
    if qs == [] then New
    else if forall i :: 0 <= i < |qs| ==> Seen(sources, qs[i]) then Replay
    else if forall i :: 0 <= i < |qs| ==> Fresh(sources, qs[i]) then New
    else Conflict
  }

  /** Inserting rows one after the other; a row that clashes with one already there fails the insert. */
  function InsertSources(sources: Sources, qs: seq<Source>): Result<Sources, Error>
    decreases qs
  {
    if qs == [] then Ok(sources)
    else if !Fresh(sources, qs[0]) then Err(SourceConflict)
    else InsertSources(sources[KeyOfSource(qs[0]) := qs[0]], qs[1..])
  }

  function InsertEvents(events: Events, es: seq<Event>): Result<Events, Error>
    decreases es
  {
    if es == [] then Ok(events)
    else if KeyOfEvent(es[0]) in events then Err(EventConflict)
    else InsertEvents(events[KeyOfEvent(es[0]) := es[0]], es[1..])
  }

  // ---------------------------------------------------------------- artifact files

  /** The schema's check on file ids. */
  predicate IsFileId(s: string) {
    && 8 <= |s| <= 100 && s[..5] == "file_"
    && forall i :: 5 <= i < |s| ==> 'a' <= s[i] <= 'z' || '0' <= s[i] <= '9'
  }

  /** No row has the id or the storage key of a file. */
  predicate FileIsFree(files: Files, f: ArtifactFile) {
    f.id !in files && forall k | k in files :: files[k].key != f.key
  }

  /** The file is there already, for its session and under the same description. */
  predicate FileIsRecorded(files: Files, f: ArtifactFile) {
    && f.id in files && files[f.id].session == f.session
    && files[f.id].filename == f.filename && files[f.id].bytes == f.bytes && files[f.id].contentType == f.contentType
  }

  /** `ON CONFLICT DO NOTHING`, and a look at the row in the way. */
  function InsertFile(files: Files, f: ArtifactFile): Result<Files, Error> {
    if !IsFileId(f.id) then Err(FileRejected)
    else if FileIsFree(files, f) then Ok(files[f.id := f])
    else if f.id !in files || files[f.id].session != f.session then Err(FileMissing)
    else if !FileIsRecorded(files, f) then Err(FileConflict)
    else Ok(files)
  }

  function InsertFiles(files: Files, fs: seq<ArtifactFile>): Result<Files, Error>
    decreases fs
  {
    if fs == [] then Ok(files)
    else
      var r := InsertFile(files, fs[0]);
      if r.Err? then r else InsertFiles(r.value, fs[1..])
  }

  // ---------------------------------------------------------------- receipts

  predicate Terminal(state: int) { state == SUCCEEDED || state == FAILED || state == REJECTED || state == CANCELLED }

  predicate AllowedTransition(from: int, to: int) {
    if from == RECEIVED then to == ACCEPTED || to == FAILED || to == REJECTED
    else if from == ACCEPTED then to == RUNNING || to == SUCCEEDED || to == FAILED || to == CANCELLED
    else if from == RUNNING then to == SUCCEEDED || to == FAILED || to == CANCELLED
    else false
  }

  function PutReceipt(receipts: Receipts, r: Receipt): (p: Result<Receipts, Error>)
    ensures p.Ok? ==> KeyOfReceipt(r) in p.value
  {
    var k := KeyOfReceipt(r);
    if k !in receipts then Ok(receipts[k := r])
    else
      var current := receipts[k];
      if current.digest != r.digest then Err(CommandIdConflict)
      else if current.state == r.state && current.body == r.body then Ok(receipts)
      else if current.state == r.state && Terminal(r.state) then Err(ReceiptConflict)
      else if current.state != r.state && !AllowedTransition(current.state, r.state) then Err(ReceiptConflict)
      else Ok(receipts[k := current.(state := r.state, body := r.body)])
  }

  function PutReceipts(receipts: Receipts, rs: seq<Receipt>): Result<Receipts, Error>
    decreases rs
  {
    if rs == [] then Ok(receipts)
    else
      var r := PutReceipt(receipts, rs[0]);
      if r.Err? then r else PutReceipts(r.value, rs[1..])
  }

  // ---------------------------------------------------------------- transactions

  function CheckCurrent(current: Option<SessionState>, q: Request): Option<Error>
    requires q.events != []
  {
    if current.None? then
      if q.expected != 0 then Some(RevisionConflict) else if q.events[0].sequence != 1 then Some(EventConflict) else None
    else
      var st := current.value;
      if st.revision != q.expected then Some(RevisionConflict)
      else if st.epoch != q.projection.epoch then Some(StreamConflict)
      else if st.latest == MAX_UINT64 || q.events[0].sequence != Succ(st.latest) then Some(EventConflict)
      else None
  }

  function StateOf(s: Store, session: string): Option<SessionState> {
    if session in s.states then Some(s.states[session]) else None
  }

  /** The writes of a new append, in their order: files, receipts, sources, events, state. */
  function Write(s: Store, q: Request): Result<Store, Error> {
    var files := InsertFiles(s.files, q.files);
    if files.Err? then Err(files.error)
    else
      var receipts := PutReceipts(s.receipts, q.receipts);
      if receipts.Err? then Err(receipts.error)
      else
        var sources := InsertSources(s.sources, q.sources);
        if sources.Err? then Err(sources.error)
        else
          var events := InsertEvents(s.events, q.events);
          if events.Err? then Err(events.error)
          else Ok(Store(s.states[q.session := q.projection], events.value, sources.value, receipts.value, files.value))
  }

  /** `Ok(true)` when the append was applied, `Ok(false)` when it was a replay. */
  function AppendResult(s: Store, q: Request): Result<bool, Error> {
    if !ValidAppend(q) then Err(InvalidArgument)
    else
      match Inspect(s.sources, q.sources)
      case Conflict => Err(SourceConflict)
      case Replay => Ok(false)
      case New =>
        var refusal := CheckCurrent(StateOf(s, q.session), q);
        if refusal.Some? then Err(refusal.value)
        else if Write(s, q).Err? then Err(Write(s, q).error)
        else Ok(true)
  }

  predicate Applies(s: Store, q: Request) { AppendResult(s, q) == Ok(true) }

  /** A transaction that fails or replays leaves every table as it was. */
  function AfterAppend(s: Store, q: Request): Store {
    if Applies(s, q) then Write(s, q).value else s
  }

  function EnsureResult(s: Store, initial: SessionState): Result<SessionState, Error> {
    if !ValidInitial(initial) then Err(InvalidArgument)
    else Ok(if initial.session in s.states then s.states[initial.session] else initial)
  }

  function AfterEnsure(s: Store, initial: SessionState): Store {
    if !ValidInitial(initial) || initial.session in s.states then s
    else s.(states := s.states[initial.session := initial])
  }

  function PutResult(s: Store, r: Receipt): Result<Receipt, Error> {
    if !ValidReceipt(r) then Err(InvalidArgument)
    else
      var p := PutReceipt(s.receipts, r);
      if p.Err? then Err(p.error) else Ok(p.value[KeyOfReceipt(r)])
  }

  function AfterPut(s: Store, r: Receipt): Store {
    if !ValidReceipt(r) || PutReceipt(s.receipts, r).Err? then s else s.(receipts := PutReceipt(s.receipts, r).value)
  }
}
