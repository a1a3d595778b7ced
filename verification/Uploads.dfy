/**
 The staged-upload transaction over files, vectors and the file index: commit
 the staged file, index it, and on any failure put everything back.
 */
module Uploads {
  import opened Wrappers

  // ----- The file index ---------------------------------------------------------------

  /** One stored record; `body` stands for everything but the file name. */
  datatype Entry = Entry(filename: string, body: string)

  function Others(entries: seq<Entry>, filename: string): seq<Entry> {
    if entries == [] then []
    else if entries[0].filename == filename then Others(entries[1..], filename)
    else [entries[0]] + Others(entries[1..], filename)
  }

  function Find(entries: seq<Entry>, filename: string): Option<Entry> {
    if entries == [] then None
    else if entries[0].filename == filename then Some(entries[0])
    else Find(entries[1..], filename)
  }

  function FindLast(entries: seq<Entry>, filename: string): Option<Entry> {
    if entries == [] then None
    else if entries[|entries| - 1].filename == filename then Some(entries[|entries| - 1])
    else FindLast(entries[..|entries| - 1], filename)
  }

  /** What restore_entry leaves: the entry, if any, in front of all the others. */
  function WithEntry(entries: seq<Entry>, filename: string, entry: Option<Entry>): seq<Entry> {
    (if entry.Some? then [entry.value] else []) + Others(entries, filename)
  }

  lemma {:induction false} OthersHaveNone(entries: seq<Entry>, filename: string)
    ensures Find(Others(entries, filename), filename) == None
    ensures Others(Others(entries, filename), filename) == Others(entries, filename)
    ensures forall name :: name != filename ==> Find(Others(entries, filename), name) == Find(entries, name)
  {
    if entries != [] {
      OthersHaveNone(entries[1..], filename);
    }
  }

  /** Exactly the one entry is set; every other keeps its content and its order. */
  lemma WithEntryIsExact(entries: seq<Entry>, filename: string, entry: Option<Entry>)
    requires entry.Some? ==> entry.value.filename == filename
    ensures var result := WithEntry(entries, filename, entry);
      && Find(result, filename) == entry
      && Others(result, filename) == Others(entries, filename)
      && forall name :: name != filename ==> Find(result, name) == Find(entries, name)
  {
    OthersHaveNone(entries, filename);
    if entry.None? {
      assert WithEntry(entries, filename, entry) == Others(entries, filename);
    } else {
      assert WithEntry(entries, filename, entry)[1..] == Others(entries, filename);
    }
  }

  lemma {:induction false} FoundName(entries: seq<Entry>, filename: string)
    ensures Find(entries, filename).Some? ==> Find(entries, filename).value.filename == filename
  {
    if entries != [] {
      FoundName(entries[1..], filename);
    }
  }

  lemma {:induction false} OthersOfPrefix(entries: seq<Entry>, i: nat, filename: string)
    requires i < |entries|
    ensures Others(entries[..i + 1], filename)
         == Others(entries[..i], filename) + if entries[i].filename == filename then [] else [entries[i]]
  {
    if i > 0 {
      assert entries[..i + 1][1..] == entries[1..][..i];
      assert entries[..i][1..] == entries[1..][..i - 1];
      OthersOfPrefix(entries[1..], i - 1, filename);
    } else {
      assert entries[..1][1..] == [] && entries[..0] == [];
    }
  }

  class FileIndex {
    var entries: seq<Entry>

    constructor ()
      ensures entries == []
    {
      entries := [];
    }

    /** Replaces every entry of the file name by a new first one. */
    method Record(filename: string, body: string)
      modifies this
      ensures entries == WithEntry(old(entries), filename, Some(Entry(filename, body)))
    {
      entries := [Entry(filename, body)] + Others(entries, filename);
    }

    /** Drops the entries of a file name and returns the last of them. */
    method Remove(filename: string) returns (removed: Option<Entry>)
      modifies this
      ensures entries == Others(old(entries), filename)
      ensures removed == FindLast(old(entries), filename)
      ensures removed.Some? <==> Find(old(entries), filename).Some?
    {
      var kept := [];
      removed := None;
      for i := 0 to |entries|
        invariant entries == old(entries)
        invariant kept == Others(entries[..i], filename)
        invariant removed == FindLast(entries[..i], filename)
        invariant removed.Some? <==> exists j :: 0 <= j < i && entries[j].filename == filename
      {
        OthersOfPrefix(entries, i, filename);
        assert entries[..i + 1][..i] == entries[..i];
        if entries[i].filename == filename {
          removed := Some(entries[i]);
        } else {
          kept := kept + [entries[i]];
        }
      }
      assert entries[..|entries|] == entries;
      FindIff(entries, filename);
      if removed.Some? {
        entries := kept;
      } else {
        NothingToDrop(entries, filename);
      }
    }

    method RestoreEntry(filename: string, entry: Option<Entry>)
      modifies this
      ensures entries == WithEntry(old(entries), filename, entry)
    {
      entries := Others(entries, filename);
      if entry.Some? {
        entries := [entry.value] + entries;
      }
    }
  }

  lemma {:induction false} FindIff(entries: seq<Entry>, filename: string)
    ensures Find(entries, filename).Some? <==> exists j :: 0 <= j < |entries| && entries[j].filename == filename
  {
    if entries != [] {
      FindIff(entries[1..], filename);
      if Find(entries, filename).Some? && entries[0].filename != filename {
        var j :| 0 <= j < |entries[1..]| && entries[1..][j].filename == filename;
        assert entries[j + 1].filename == filename;
      }
    }
  }

  lemma {:induction false} FoundIffListed(entries: seq<Entry>, filename: string)
    ensures Find(entries, filename).Some? <==> exists e :: e in entries && e.filename == filename
  {
    if entries != [] {
      FoundIffListed(entries[1..], filename);
      assert forall e :: e in entries <==> e == entries[0] || e in entries[1..];
    }
  }

  /** Filtering two lists one after the other filters the whole: the entries that stay keep their order. */
  lemma {:induction false} OthersJoins(a: seq<Entry>, b: seq<Entry>, filename: string)
    ensures Others(a + b, filename) == Others(a, filename) + Others(b, filename)
  {
    if a == [] {
      assert a + b == b;
    } else {
      assert (a + b)[1..] == a[1..] + b;
      OthersJoins(a[1..], b, filename);
    }
  }

  /** All entries of the file name go, however many there are, and no other entry does. */
  lemma {:induction false} OthersCount(entries: seq<Entry>, filename: string, e: Entry)
    ensures multiset(Others(entries, filename))[e] == if e.filename == filename then 0 else multiset(entries)[e]
  {
    if entries != [] {
      OthersCount(entries[1..], filename, e);
      assert entries == [entries[0]] + entries[1..];
    }
  }

  /** The entry a removal reports is the last one of the file name. */
  lemma {:induction false} FindLastIs(entries: seq<Entry>, filename: string, i: nat)
    requires i < |entries| && entries[i].filename == filename
    requires forall j :: i < j < |entries| ==> entries[j].filename != filename
    ensures FindLast(entries, filename) == Some(entries[i])
  {
    if i < |entries| - 1 {
      FindLastIs(entries[..|entries| - 1], filename, i);
    }
  }

  lemma {:induction false} NothingToDrop(entries: seq<Entry>, filename: string)
    requires forall j :: 0 <= j < |entries| ==> entries[j].filename != filename
    ensures Others(entries, filename) == entries
  {
    if entries != [] {
      NothingToDrop(entries[1..], filename);
    }
  }

  // ----- Files and vectors ---------------------------------------------------------------

  type Files = map<string, string>

  type Vectors = map<string, seq<string>>

  function Lookup(files: Files, path: string): Option<string> {
    if path in files then Some(files[path]) else None
  }

  function Chunks(vectors: Vectors, source: string): seq<string> {
    if source in vectors then vectors[source] else []
  }

  /** os.replace */
  function Moved(files: Files, from: string, to: string): Files
    requires from in files
  {
    (files - {from})[to := files[from]]
  }

  // ----- The transaction ---------------------------------------------------------------------

  /** The paths of one staged upload; fresh random names make the backups distinct from everything. */
  datatype Upload = Upload(
    filename: string,
    staged: string,
    final: string,
    audio: bool,
    backupFile: string,
    backupTranscript: string)

  function TranscriptPath(u: Upload): string {
    u.final + ".transcript.txt"
  }

  function OcrPath(u: Upload): string {
    u.final + ".ocr.txt"
  }

  /** Distinct paths inside the upload root, and backups that do not exist yet. */
  ghost predicate PathsOk(u: Upload, files: Files) {
    && u.staged != u.final && u.staged != TranscriptPath(u) && u.staged != OcrPath(u)
    && u.backupFile !in files && u.backupTranscript !in files && u.backupFile != u.backupTranscript
    && u.backupFile !in {u.staged, u.final, TranscriptPath(u), OcrPath(u)}
    && u.backupTranscript !in {u.staged, u.final, TranscriptPath(u), OcrPath(u)}
  }

  datatype RollbackState = RollbackState(
    hadFile: bool,
    hadTranscript: bool,
    entry: Option<Entry>,
    snapshot: Option<seq<string>>,
    fileBackedUp: bool,
    transcriptBackedUp: bool,
    replaced: bool)

  datatype UploadError = StagedFileMissing | MoveFailed

  /** What an indexing run writes, and whether it succeeds; None removes what is there. */
  datatype Indexing = Indexing(
    ok: bool,
    sidecar: Option<string>,
    transcript: Option<string>,
    chunks: Option<seq<string>>,
    body: Option<string>)

  /** The index entry an indexing run leaves of its file. */
  function RecordedEntry(u: Upload, indexing: Indexing): Option<Entry> {
    if indexing.body.Some? then Some(Entry(u.filename, indexing.body.value)) else None
  }

  /** The files the file system refuses to move or remove, and the indexing run. */
  datatype Faults = Faults(unmovable: set<string>, unremovable: set<string>, indexing: Indexing)

  /** Every move the commit makes is allowed. */
  predicate Movable(u: Upload, files: Files, faults: Faults) {
    && u.staged !in faults.unmovable
    && (u.final in files ==> u.final !in faults.unmovable)
    && (u.audio && TranscriptPath(u) in files ==> TranscriptPath(u) !in faults.unmovable)
  }

  /** Something of the upload was there before: a file, a transcript or an index entry. */
  predicate HadPreviousState(u: Upload, files: Files, entries: seq<Entry>) {
    u.final in files || (u.audio && TranscriptPath(u) in files) || Find(entries, u.filename).Some?
  }

  /** Every path but the staged file and the OCR sidecar holds what it held. */
  ghost predicate FilesRestored(u: Upload, before: Files, after: Files) {
    forall path :: path != u.staged && path != OcrPath(u) ==> Lookup(after, path) == Lookup(before, path)
  }

  predicate IndexRestored(u: Upload, before: seq<Entry>, after: seq<Entry>) {
    Find(after, u.filename) == Find(before, u.filename) && Others(after, u.filename) == Others(before, u.filename)
  }

  lemma PathsDiffer(u: Upload)
    ensures u.final != TranscriptPath(u) && u.final != OcrPath(u) && TranscriptPath(u) != OcrPath(u)
  {
    assert |TranscriptPath(u)| == |u.final| + 15 && |OcrPath(u)| == |u.final| + 8;
  }

  /** The files that indexing writes beside the upload. */
  ghost predicate OnlyDerived(u: Upload, before: Files, after: Files) {
    forall path :: path != OcrPath(u) && (path != TranscriptPath(u) || !u.audio) ==>
      Lookup(after, path) == Lookup(before, path)
  }

  // ----- File moves, one at a time -----------------------------------------------------------

  /** What the commit has done to the files so far, given the flags it has set. */
  ghost predicate Committed(u: Upload, before: Files, now: Files, state: RollbackState) {
    && (state.fileBackedUp ==> state.hadFile)
    && (state.transcriptBackedUp ==> state.hadTranscript)
    && (state.hadFile <==> u.final in before)
    && (state.hadTranscript <==> u.audio && TranscriptPath(u) in before)
    && (state.replaced ==> (state.hadFile ==> state.fileBackedUp) && (state.hadTranscript ==> state.transcriptBackedUp))
    && Lookup(now, u.backupFile) == (if state.fileBackedUp then Lookup(before, u.final) else None)
    && Lookup(now, u.backupTranscript) == (if state.transcriptBackedUp then Lookup(before, TranscriptPath(u)) else None)
    && (!state.replaced ==> Lookup(now, u.final) == (if state.fileBackedUp then None else Lookup(before, u.final)))
    && (!state.replaced || !u.audio ==>
          Lookup(now, TranscriptPath(u)) == if state.transcriptBackedUp then None else Lookup(before, TranscriptPath(u)))
    && (forall path :: path !in Touched(u) ==> Lookup(now, path) == Lookup(before, path))
  }

  function Touched(u: Upload): set<string> {
    {u.staged, u.final, TranscriptPath(u), OcrPath(u), u.backupFile, u.backupTranscript}
  }

  class UploadStores {
    var files: Files
    var vectors: Vectors
    const index: FileIndex

    constructor (files: Files, vectors: Vectors, index: FileIndex)
      ensures this.files == files && this.vectors == vectors && this.index == index
    {
      this.files, this.vectors, this.index := files, vectors, index;
    }

    /** A file move that the file system may refuse. */
    method Replace(from: string, to: string, faults: Faults) returns (moved: bool)
      requires from in files
      modifies this`files
      ensures moved <==> from !in faults.unmovable
      ensures files == if moved then Moved(old(files), from, to) else old(files)
    {
      moved := from !in faults.unmovable;
      if moved {
        files := Moved(files, from, to);
      }
    }

    /** Takes back what the flags say was done: the file, then the transcript. */
    method RestoreUploadFiles(u: Upload, state: RollbackState, ghost before: Files)
      requires PathsOk(u, before) && Committed(u, before, files, state)
      modifies this`files
      ensures FilesRestored(u, before, files)
      ensures Lookup(files, u.staged) == Lookup(old(files), u.staged)
      ensures Lookup(files, OcrPath(u)) == Lookup(old(files), OcrPath(u))
    {
      PathsDiffer(u);
      hide TranscriptPath, OcrPath;
      PutBack(u.final, u.backupFile, state.replaced, state.fileBackedUp);
      PutBack(TranscriptPath(u), u.backupTranscript, u.audio && state.replaced, state.transcriptBackedUp);
    }

    /** Removes the replacement, if it was put there, and moves the backup back, if one was made. */
    method PutBack(path: string, backup: string, replaced: bool, backedUp: bool)
      requires backedUp ==> backup in files
      requires backup != path
      modifies this`files
      ensures Lookup(files, path) == if backedUp then Lookup(old(files), backup)
                                     else if replaced then None else Lookup(old(files), path)
      ensures backedUp ==> Lookup(files, backup) == None
      ensures forall other :: other != path && (other != backup || !backedUp) ==>
                                Lookup(files, other) == Lookup(old(files), other)
    {
      if replaced && path in files {
        files := files - {path};
      }
      if backedUp {
        files := Moved(files, backup, path);
      }
    }

    /** The state to go back to, read before anything is moved. */
    method Observe(u: Upload) returns (state: RollbackState)
      ensures state.hadFile <==> u.final in files
      ensures state.hadTranscript <==> u.audio && TranscriptPath(u) in files
      ensures state.entry == Find(index.entries, u.filename)
      ensures state.snapshot == if HadPreviousState(u, files, index.entries) then Some(Chunks(vectors, u.final)) else None
      ensures !state.fileBackedUp && !state.transcriptBackedUp && !state.replaced
    {
      var hadFile, hadTranscript := u.final in files, u.audio && TranscriptPath(u) in files;
      var entry := Find(index.entries, u.filename);
      var snapshot := if hadFile || hadTranscript || entry.Some? then Some(Chunks(vectors, u.final)) else None;
      return RollbackState(hadFile, hadTranscript, entry, snapshot, false, false, false);
    }

    /**
     Backs up what is there and moves the staged file in.  When a move fails
     the files are put back at once and nothing else has been touched.
     */
    method CommitStagedUpload(u: Upload, faults: Faults) returns (r: Result<RollbackState, UploadError>)
      requires PathsOk(u, files)
      modifies this`files
      ensures r.Err? ==> files == old(files)
      ensures r.Ok? <==> u.staged in old(files) && Movable(u, old(files), faults)
      ensures r.Ok? ==>
                && Committed(u, old(files), files, r.value) && r.value.replaced
                && r.value.entry == Find(index.entries, u.filename)
                && r.value.snapshot == (if HadPreviousState(u, old(files), index.entries)
                                        then Some(Chunks(vectors, u.final)) else None)
                && Lookup(old(files), u.staged).Some? && Lookup(files, u.final) == Lookup(old(files), u.staged)
                && u.staged !in files
    {
      PathsDiffer(u);
      if u.staged !in files {
        return Err(StagedFileMissing);
      }
      var state := Observe(u);
      var moved := true;
      if state.hadFile {
        moved := Replace(u.final, u.backupFile, faults);
        state := state.(fileBackedUp := moved);
      }
      if moved && state.hadTranscript {
        moved := Replace(TranscriptPath(u), u.backupTranscript, faults);
        state := state.(transcriptBackedUp := moved);
      }
      assert Committed(u, old(files), files, state);
      if moved {
        moved := Replace(u.staged, u.final, faults);
        state := state.(replaced := moved);
      }
      assert Committed(u, old(files), files, state);
      if !moved {
        RestoreUploadFiles(u, state, old(files));
        SameLookups(u, old(files), files);
        return Err(MoveFailed);
      }
      return Ok(state);
    }

    /** Any indexing work: it may write the upload's transcript, sidecar, vectors and index entry. */
    method IndexUpload(u: Upload, indexing: Indexing)
      modifies this`files, this`vectors, index
      ensures OnlyDerived(u, old(files), files)
      ensures forall source :: source != u.final ==> Chunks(vectors, source) == Chunks(old(vectors), source)
      ensures Chunks(vectors, u.final) == if indexing.chunks.Some? then indexing.chunks.value else []
      ensures Others(index.entries, u.filename) == Others(old(index.entries), u.filename)
      ensures Find(index.entries, u.filename) == RecordedEntry(u, indexing)
    {
      if indexing.sidecar.Some? {
        files := files[OcrPath(u) := indexing.sidecar.value];
      }
      if u.audio && indexing.transcript.Some? {
        files := files[TranscriptPath(u) := indexing.transcript.value];
      }
      vectors := if indexing.chunks.Some? then vectors[u.final := indexing.chunks.value] else vectors - {u.final};
      OthersHaveNone(index.entries, u.filename);
      if indexing.body.Some? {
        WithEntryIsExact(index.entries, u.filename, Some(Entry(u.filename, indexing.body.value)));
        index.Record(u.filename, indexing.body.value);
      } else {
        var _ := index.Remove(u.filename);
      }
    }

    /** Files, then vectors, then the index entry. */
    method RollbackCommittedUpload(u: Upload, state: RollbackState, ghost before: Files)
      requires PathsOk(u, before) && Committed(u, before, files, state)
      requires state.entry.Some? ==> state.entry.value.filename == u.filename
      modifies this`files, this`vectors, index
      ensures FilesRestored(u, before, files)
      ensures Chunks(vectors, u.final) == if state.snapshot.Some? then state.snapshot.value else []
      ensures forall source :: source != u.final ==> Chunks(vectors, source) == Chunks(old(vectors), source)
      ensures Find(index.entries, u.filename) == state.entry
      ensures Others(index.entries, u.filename) == Others(old(index.entries), u.filename)
      ensures state.entry.Some? ==> index.entries != [] && index.entries[0] == state.entry.value
    {
      RestoreUploadFiles(u, state, before);
      if state.snapshot.None? {
        vectors := vectors - {u.final};
      } else {
        vectors := vectors[u.final := state.snapshot.value];
      }
      WithEntryIsExact(index.entries, u.filename, state.entry);
      index.RestoreEntry(u.filename, state.entry);
    }

    /** Both backups are removed, or reported when the file system refuses. */
    method FinalizeCommittedUpload(u: Upload, state: RollbackState, faults: Faults) returns (refused: set<string>)
      modifies this`files
      ensures refused <= faults.unremovable * ((if state.hadFile then {u.backupFile} else {})
                                               + (if state.hadTranscript then {u.backupTranscript} else {}))
      ensures state.hadFile && u.backupFile !in refused ==> Lookup(files, u.backupFile) == None
      ensures state.hadTranscript && u.backupTranscript !in refused ==> Lookup(files, u.backupTranscript) == None
      ensures forall path :: path !in {u.backupFile, u.backupTranscript} ==> Lookup(files, path) == Lookup(old(files), path)
      ensures !state.hadFile && u.backupFile != u.backupTranscript ==>
                Lookup(files, u.backupFile) == Lookup(old(files), u.backupFile)
      ensures !state.hadTranscript && u.backupFile != u.backupTranscript ==>
                Lookup(files, u.backupTranscript) == Lookup(old(files), u.backupTranscript)
    {
      refused := {};
      if state.hadFile && u.backupFile in files {
        if u.backupFile !in faults.unremovable {
          files := files - {u.backupFile};
        } else {
          refused := refused + {u.backupFile};
        }
      }
      if state.hadTranscript && u.backupTranscript in files {
        if u.backupTranscript !in faults.unremovable {
          files := files - {u.backupTranscript};
        } else {
          refused := refused + {u.backupTranscript};
        }
      }
    }

    /**
     The whole transaction.  On success the staged content is in place and only
     refused backups are left.  On failure everything is as before, except the
     staged file and the OCR sidecar; the vectors of the source are as before
     if and only if something of the upload existed before or it had none.
     */
    method IndexStagedUpload(u: Upload, faults: Faults)
      returns (ok: bool, ghost rolledBack: bool, ghost refused: set<string>)
      requires u.staged != "" && PathsOk(u, files)
      modifies this`files, this`vectors, index
      ensures forall source :: source != u.final ==> Chunks(vectors, source) == Chunks(old(vectors), source)
      ensures Others(index.entries, u.filename) == Others(old(index.entries), u.filename)
      ensures ok <==>
                && u.staged in old(files) && u.staged !in faults.unmovable
                && (u.final in old(files) ==> u.final !in faults.unmovable)
                && (u.audio && u.final + ".transcript.txt" in old(files) ==>
                      u.final + ".transcript.txt" !in faults.unmovable)
                && faults.indexing.ok
      ensures rolledBack <==> u.staged in old(files) && Movable(u, old(files), faults) && !faults.indexing.ok
      ensures ok ==> Find(index.entries, u.filename) == RecordedEntry(u, faults.indexing)
      ensures ok ==> Chunks(vectors, u.final) == if faults.indexing.chunks.Some? then faults.indexing.chunks.value else []
      ensures ok ==>
                && Lookup(old(files), u.staged).Some? && Lookup(files, u.staged) == None
                && Lookup(files, u.final) == Lookup(old(files), u.staged)
                && refused <= faults.unremovable * {u.backupFile, u.backupTranscript}
                && (forall backup :: backup in {u.backupFile, u.backupTranscript} - refused ==>
                      Lookup(files, backup) == None)
                && (forall path :: path !in Touched(u) ==> Lookup(files, path) == Lookup(old(files), path))
      ensures !ok ==> FilesRestored(u, old(files), files)
      ensures !ok ==> IndexRestored(u, old(index.entries), index.entries)
      ensures !ok && !rolledBack ==> files == old(files) && vectors == old(vectors)
      ensures rolledBack ==>
                Chunks(vectors, u.final) == if HadPreviousState(u, old(files), old(index.entries))
                                            then Chunks(old(vectors), u.final) else []
      ensures !ok && rolledBack ==>
                (Chunks(vectors, u.final) == Chunks(old(vectors), u.final) <==>
                   || u.final in old(files)
                   || (u.audio && u.final + ".transcript.txt" in old(files))
                   || (exists e :: e in old(index.entries) && e.filename == u.filename)
                   || Chunks(old(vectors), u.final) == [])
    {
      PathsDiffer(u);
      FoundName(index.entries, u.filename);
      FoundIffListed(index.entries, u.filename);
      refused, rolledBack := {}, false;
      var committed := CommitStagedUpload(u, faults);
      if committed.Err? {
        return false, false, {};
      }
      var state := committed.value;
      ghost var before := files;
      IndexUpload(u, faults.indexing);
      ok := faults.indexing.ok;
      StillCommitted(u, old(files), before, files, state);
      if !ok {
        RollbackCommittedUpload(u, state, old(files));
        return false, true, {};
      }
      var left := FinalizeCommittedUpload(u, state, faults);
      refused := left;
    }
  }

  lemma SameLookups(u: Upload, a: Files, b: Files)
    requires FilesRestored(u, a, b) && Lookup(a, u.staged) == Lookup(b, u.staged)
    requires Lookup(a, OcrPath(u)) == Lookup(b, OcrPath(u))
    ensures a == b
  {
    forall path
      ensures path in a <==> path in b
      ensures path in a ==> a[path] == b[path]
    {
      assert Lookup(a, path) == Lookup(b, path);
    }
  }

  /** Indexing leaves the backups and every unrelated file alone. */
  lemma StillCommitted(u: Upload, before: Files, mid: Files, now: Files, state: RollbackState)
    requires PathsOk(u, before) && Committed(u, before, mid, state) && state.replaced
    requires OnlyDerived(u, mid, now)
    ensures Committed(u, before, now, state)
  {
    PathsDiffer(u);
  }

  // ----- A failed upload that loses vectors ---------------------------------------------------

  const NEW_UPLOAD := Upload("f", "in", "kb/f", false, "b1", "b2")

  const INDEXING_FAILS := Faults({}, {}, Indexing(false, None, None, None, None))

  /**
   The source has vectors but neither a file nor an index entry, so no snapshot
   is taken: when indexing fails, the rollback leaves it without vectors.
   */
  method OrphanVectorsAreLost() returns (before: seq<string>, after: seq<string>)
    ensures before == ["chunk"] && after == []
  {
    var index := new FileIndex();
    var stores := new UploadStores(map["in" := "new"], map["kb/f" := ["chunk"]], index);
    PathsDiffer(NEW_UPLOAD);
    assert TranscriptPath(NEW_UPLOAD)[0] == 'k' && OcrPath(NEW_UPLOAD)[0] == 'k';
    before := Chunks(stores.vectors, NEW_UPLOAD.final);
    var _, _, _ := stores.IndexStagedUpload(NEW_UPLOAD, INDEXING_FAILS);
    after := Chunks(stores.vectors, NEW_UPLOAD.final);
  }
}
