/** What an append does to the artifact files it names. */
module WorkbenchFiles {
  import opened Text
  import opened Workbench
  import opened WorkbenchRuns

  /** The row of a file's id is of its session and describes the same file. */
  predicate DescribesFile(row: ArtifactFile, f: ArtifactFile) {
    row.session == f.session && row.filename == f.filename && row.bytes == f.bytes && row.contentType == f.contentType
  }

  /** A file whose id and storage key are both new, or whose id is there already under the same description. */
  predicate FileIsAccepted(files: Files, f: ArtifactFile) {
    IsFileId(f.id) && if f.id in files then DescribesFile(files[f.id], f) else forall k | k in files :: files[k].key != f.key
  }

  ghost predicate FilesDiffer(fs: seq<ArtifactFile>) {
    forall i, j :: 0 <= i < j < |fs| ==> fs[i].id != fs[j].id && fs[i].key != fs[j].key
  }

  lemma OtherFile(files: Files, f: ArtifactFile, g: ArtifactFile)
    requires f.id !in files && f.id != g.id && f.key != g.key
    ensures FileIsAccepted(files[f.id := f], g) <==> FileIsAccepted(files, g)
  {
    hide IsFileId;
    var next := files[f.id := f];
    if FileIsFree(next, g) {
      forall k | k in files
        ensures files[k].key != g.key
      {
        assert next[k] == files[k];
      }
    }
  }

  /** The files of one request never stand in each other's way: they are stored exactly when each one is accepted. */
  lemma {:induction false} FilesInsertExactly(files: Files, fs: seq<ArtifactFile>)
    requires FilesDiffer(fs)
    ensures InsertFiles(files, fs).Ok? <==> forall i :: 0 <= i < |fs| ==> FileIsAccepted(files, fs[i])
    decreases fs
  {
    if fs != [] {
      FirstFile(files, fs[0]);
      var r := InsertFile(files, fs[0]);
      if r.Ok? {
        FilesInsertExactly(r.value, fs[1..]);
        forall i | 0 <= i < |fs| - 1
          ensures FileIsAccepted(r.value, fs[1..][i]) <==> FileIsAccepted(files, fs[i + 1])
        {
          if r.value != files { OtherFile(files, fs[0], fs[i + 1]); }
        }
        hide InsertFile, FileIsAccepted;
        assert forall i :: 0 < i < |fs| ==> fs[i] == fs[1..][i - 1];
      }
    }
  }

  lemma FirstFile(files: Files, f: ArtifactFile)
    ensures InsertFile(files, f).Ok? <==> FileIsAccepted(files, f)
    ensures var r := InsertFile(files, f); r.Ok? ==> r.value == files || (f.id !in files && r.value == files[f.id := f])
  {
    hide IsFileId;
  }

  lemma {:induction false} InsertedFiles(files: Files, fs: seq<ArtifactFile>)
    requires InsertFiles(files, fs).Ok?
    ensures var r := InsertFiles(files, fs).value;
      && (forall id | id in files :: id in r && r[id] == files[id])
      && (forall f | f in fs :: f.id in r && DescribesFile(r[f.id], f))
      && (forall id | id in r && id !in files :: r[id] in fs)
    decreases fs
  {
    if fs != [] {
      hide IsFileId;
      var next := InsertFile(files, fs[0]).value;
      assert fs[0].id in next && DescribesFile(next[fs[0].id], fs[0]);
      InsertedFiles(next, fs[1..]);
      var r := InsertFiles(files, fs).value;
      forall id | id in r && id !in files
        ensures r[id] in fs
      {
        if id in next {
          assert next[id] == fs[0] && r[id] == next[id];
        } else {
          assert r[id] in fs[1..];
        }
      }
    }
  }

  lemma FileFields(q: Request)
    requires ValidAppend(q)
    ensures FilesDiffer(q.files) && forall i :: 0 <= i < |q.files| ==> q.files[i].session == q.session
  {
    hide ValidText, ValidDigest, ValidReceipt, ValidEvents, ValidSources;
  }

  /** An append records every file it names, adds no other row and changes none; unless it is applied it adds nothing. */
  lemma AppendRecordsFiles(ops: seq<Op>, q: Request)
    ensures var s, next := Final(ops), AfterAppend(Final(ops), q);
      && (forall id | id in s.files :: id in next.files && next.files[id] == s.files[id])
      && (Applies(s, q) ==> forall f | f in q.files :: f.id in next.files && DescribesFile(next.files[f.id], f))
      && (forall id | id in next.files && id !in s.files :: Applies(s, q) && next.files[id] in q.files && next.files[id].session == q.session)
  {
    hide Final;
    var s := Final(ops);
    if Applies(s, q) {
      AppliesFacts(s, q);
      FileFields(q);
      InsertedFiles(s.files, q.files);
      hide Applies, AfterAppend, ValidAppend, CheckCurrent, DescribesFile;
      assert forall f | f in q.files :: f.session == q.session;
    } else {
      hide Applies;
      assert AfterAppend(s, q) == s;
    }
  }

  /** Ids are the keys of the rows, and no two rows share a storage key. */
  ghost predicate FilesAreKeyed(files: Files) {
    && (forall id | id in files :: files[id].id == id)
    && (forall id, other | id in files && other in files && id != other :: files[id].key != files[other].key)
  }

  lemma {:induction false} InsertsKeepKeys(files: Files, fs: seq<ArtifactFile>)
    requires FilesAreKeyed(files) && InsertFiles(files, fs).Ok?
    ensures FilesAreKeyed(InsertFiles(files, fs).value)
    decreases fs
  {
    if fs != [] {
      hide IsFileId;
      InsertsKeepKeys(InsertFile(files, fs[0]).value, fs[1..]);
    }
  }

  /** In every state that a run reaches, ids and storage keys stay keys of the file table if its other users keep them so. */
  lemma {:induction false} FilesStayKeyed(ops: seq<Op>)
    requires forall op | op in ops && op.FilesOp? :: FilesAreKeyed(op.files)
    ensures FilesAreKeyed(Final(ops).files)
  {
    if ops != [] {
      var init, last := ops[..|ops| - 1], ops[|ops| - 1];
      FilesStayKeyed(init);
      hide FilesAreKeyed;
      if last.AppendOp? && Applies(Final(init), last.q) {
        AppliesFacts(Final(init), last.q);
        InsertsKeepKeys(Final(init).files, last.q.files);
        hide Applies, AfterAppend, ValidAppend, CheckCurrent;
      } else {
        hide Applies, ValidInitial, ValidReceipt, PutReceipt;
      }
    }
  }

  /** What refuses a file: its id, a row of another session or of another id in the way, or another description. */
  lemma FileIsRefused(files: Files, f: ArtifactFile)
    requires FilesAreKeyed(files)
    ensures InsertFile(files, f).Ok? <==> FileIsAccepted(files, f)
    ensures InsertFile(files, f) == Err(FileRejected) <==> !IsFileId(f.id)
    ensures InsertFile(files, f) == Err(FileMissing) <==>
      && IsFileId(f.id)
      && if f.id in files then files[f.id].session != f.session else exists k | k in files :: files[k].key == f.key
    ensures InsertFile(files, f) == Err(FileConflict) <==>
      && IsFileId(f.id) && f.id in files && files[f.id].session == f.session
      && !(files[f.id].filename == f.filename && files[f.id].bytes == f.bytes && files[f.id].contentType == f.contentType)
  {
    hide IsFileId;
  }
}
