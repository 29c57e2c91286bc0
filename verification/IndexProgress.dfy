/** What the index loop has established after each file, and the statistics it records. */
module IndexProgress {
  import opened Basics
  import opened Text
  import opened Tables
  import opened StoredParses
  import opened StoreFrames
  import opened StoreInvariant
  import opened Readiness
  import opened IndexRepository
  import opened BuildStage

  /** A source file; `text` is absent when its bytes are not strict UTF-8. */
  datatype ArchiveFile = ArchiveFile(path: string, text: Option<string>)

  datatype SourceSnapshot = SourceSnapshot(commit: string, files: seq<ArchiveFile>, excluded: nat)

  predicate ValidSnapshot(s: SourceSnapshot) {
    IsCommitSha(s.commit) && forall i, j :: 0 <= i < j < |s.files| ==> s.files[i].path != s.files[j].path
  }

  ghost predicate DistinctPaths(files: seq<ArchiveFile>) {
    forall i, j :: 0 <= i < j < |files| ==> files[i].path != files[j].path
  }

  // ---------------------------------------------------------------- counters of a file list

  function FileKey(run: Uuid, file: ArchiveFile): OccurrenceKey {
    OccurrenceKey(run, file.path)
  }

  ghost function FileKeys(files: seq<ArchiveFile>, n: nat, run: Uuid): set<OccurrenceKey>
    requires n <= |files|
  {
    set i | 0 <= i < n :: FileKey(run, files[i])
  }

  /** The distinct content digests of the first n files. */
  ghost function Digests(files: seq<ArchiveFile>, n: nat): set<ContentHash>
    requires n <= |files|
  {
    set i | 0 <= i < n && files[i].text.Some? :: Sha256OfText(files[i].text.value)
  }

  predicate BlankFile(file: ArchiveFile) {
    file.text.Some? && Blank(file.text.value)
  }

  ghost function BlankFiles(files: seq<ArchiveFile>, n: nat): set<nat>
    requires n <= |files|
  {
    set i: nat | i < n && BlankFile(files[i])
  }

  lemma CountersStep(files: seq<ArchiveFile>, n: nat, run: Uuid)
    requires n < |files| && files[n].text.Some?
    ensures FileKeys(files, n + 1, run) == FileKeys(files, n, run) + {FileKey(run, files[n])}
    ensures Digests(files, n + 1) == Digests(files, n) + {Sha256OfText(files[n].text.value)}
    ensures |BlankFiles(files, n + 1)| == |BlankFiles(files, n)| + (if Blank(files[n].text.value) then 1 else 0)
  {
    assert BlankFiles(files, n + 1) == if Blank(files[n].text.value) then BlankFiles(files, n) + {n} else BlankFiles(files, n);
  }

  // ---------------------------------------------------------------- progress

  /** The file's occurrence points at a stored row of exactly its text. */
  ghost predicate Recorded(db: Database, run: Uuid, file: ArchiveFile) {
    && file.text.Some? && FileKey(run, file) in db.occurrences
    && var c := db.occurrences[FileKey(run, file)].content;
       c in db.store.contents && db.store.contents[c] == Content(Sha256OfText(file.text.value), file.text.value)
  }

  ghost predicate Served(st: Store, snapshot: Snapshot, c: Uuid) {
    c in st.contents && (!Blank(st.contents[c].text) ==> ParseServed(st, snapshot, c))
  }

  ghost predicate Progress(start: Database, now: Database, run: Uuid, snapshot: Snapshot, files: seq<ArchiveFile>, n: nat) {
    match now
    case Database(_, _, _, _, store) =>
      && n <= |files| && BuildFrame(start, now, run)
      && (StoreSound(start.store) ==> StoreSound(store))
      && RunKeys(now, run) == FileKeys(files, n, run)
      && (forall i :: 0 <= i < n ==> Recorded(now, run, files[i]))
      && (forall i :: 0 <= i < n && Recorded(now, run, files[i]) ==> Served(store, snapshot, now.occurrences[FileKey(run, files[i])].content))
  }

  lemma ProgressStart(db: Database, run: Uuid, snapshot: Snapshot, files: seq<ArchiveFile>)
    requires RunKeys(db, run) == {}
    ensures Progress(db, db, run, snapshot, files, 0)
  {
    ExtendsSelf(db.store);
    hide Extends, StoreSound;
    assert FileKeys(files, 0, run) == {};
  }

  lemma ProgressFacts(start: Database, now: Database, run: Uuid, snapshot: Snapshot, files: seq<ArchiveFile>, n: nat)
    requires Progress(start, now, run, snapshot, files, n) && n < |files| && DistinctPaths(files)
    ensures BuildFrame(start, now, run) && Extends(start.store, now.store)
    ensures StoreSound(start.store) ==> StoreSound(now.store)
    ensures FileKey(run, files[n]) !in now.occurrences
  {
    hide Extends, StoreSound, Recorded, Served;
    assert FileKey(run, files[n]) !in FileKeys(files, n, run);
    assert FileKey(run, files[n]) in now.occurrences <==> FileKey(run, files[n]) in RunKeys(now, run);
  }

  /** One occurrence recorded, everything else kept. */
  ghost predicate OccurrenceAdded(a: Database, b: Database, run: Uuid, file: ArchiveFile) {
    match b
    case Database(_, _, _, _, store) =>
      && BuildFrame(a, b, run) && Grown(a.store, store)
      && FileKey(run, file) !in a.occurrences
      && FileKey(run, file) in b.occurrences
      && b.occurrences == a.occurrences[FileKey(run, file) := b.occurrences[FileKey(run, file)]]
      && Recorded(b, run, file)
  }

  lemma RecordedStays(a: Database, b: Database, run: Uuid, file: ArchiveFile)
    requires Recorded(a, run, file) && Extends(a.store, b.store)
    requires FileKey(run, file) in b.occurrences && b.occurrences[FileKey(run, file)] == a.occurrences[FileKey(run, file)]
    ensures Recorded(b, run, file)
  {
  }

  lemma ServedStaysIn(a: Store, b: Store, snapshot: Snapshot, c: Uuid)
    requires Served(a, snapshot, c) && Extends(a, b)
    ensures Served(b, snapshot, c)
  {
    if !Blank(a.contents[c].text) { ServedStays(a, b, snapshot, c); }
    hide ParseServed;
  }

  lemma ProgressStep(start: Database, a: Database, b: Database, run: Uuid, snapshot: Snapshot, files: seq<ArchiveFile>, n: nat)
    requires Progress(start, a, run, snapshot, files, n) && n < |files| && DistinctPaths(files)
    requires OccurrenceAdded(a, b, run, files[n])
    requires Served(b.store, snapshot, b.occurrences[FileKey(run, files[n])].content)
    ensures Progress(start, b, run, snapshot, files, n + 1)
  {
    hide Served, StoreSound, Extends;
    var key := FileKey(run, files[n]);
    BuildFrameTransitive(start, a, b, run);
    assert RunKeys(b, run) == RunKeys(a, run) + {key};
    CountersStep(files, n, run);
    assert Extends(a.store, b.store);
    forall i | 0 <= i < n
      ensures Recorded(b, run, files[i]) && Served(b.store, snapshot, b.occurrences[FileKey(run, files[i])].content)
    {
      assert Recorded(a, run, files[i]) && files[i].path != files[n].path;
      RecordedStays(a, b, run, files[i]);
      ServedStaysIn(a.store, b.store, snapshot, a.occurrences[FileKey(run, files[i])].content);
    }
  }

  // ---------------------------------------------------------------- what the counters mean

  lemma {:induction false} KeysCount(files: seq<ArchiveFile>, n: nat, run: Uuid)
    requires DistinctPaths(files) && n <= |files|
    ensures |FileKeys(files, n, run)| == n
  {
    if n == 0 {
      assert FileKeys(files, 0, run) == {};
    } else {
      KeysCount(files, n - 1, run);
      assert FileKeys(files, n, run) == FileKeys(files, n - 1, run) + {FileKey(run, files[n - 1])};
      assert FileKey(run, files[n - 1]) !in FileKeys(files, n - 1, run);
    }
  }

  lemma BlanksCount(db: Database, run: Uuid, files: seq<ArchiveFile>)
    requires DistinctPaths(files) && RunKeys(db, run) == FileKeys(files, |files|, run)
    requires forall i :: 0 <= i < |files| ==> Recorded(db, run, files[i])
    ensures |BlankKeys(db, run)| == |BlankFiles(files, |files|)|
  {
    var f := map i | i in BlankFiles(files, |files|) :: FileKey(run, files[i]);
    forall i | 0 <= i < |files|
      ensures FileKey(run, files[i]) in BlankKeys(db, run) <==> i in BlankFiles(files, |files|)
    {
      assert Recorded(db, run, files[i]);
      assert FileKey(run, files[i]) in RunKeys(db, run);
    }
    hide Recorded, BlankFiles, IsBlank;
    forall k | k in BlankKeys(db, run) ensures exists i :: i in f && f[i] == k {
      assert k in FileKeys(files, |files|, run);
      var i :| 0 <= i < |files| && FileKey(run, files[i]) == k;
      assert i in f;
    }
    SameCardinality(f, BlankKeys(db, run));
    assert f.Keys == BlankFiles(files, |files|);
  }

  lemma ContentHasDigest(db: Database, run: Uuid, files: seq<ArchiveFile>, c: Uuid)
    requires RunKeys(db, run) == FileKeys(files, |files|, run)
    requires forall i :: 0 <= i < |files| ==> Recorded(db, run, files[i])
    requires c in RunContents(db, run)
    ensures c in db.store.contents && db.store.contents[c].hash in Digests(files, |files|)
  {
    var k :| k in RunKeys(db, run) && db.occurrences[k].content == c;
    assert k in FileKeys(files, |files|, run);
    var i :| 0 <= i < |files| && FileKey(run, files[i]) == k;
    assert Recorded(db, run, files[i]);
  }

  lemma DigestHasContent(db: Database, run: Uuid, files: seq<ArchiveFile>, digest: ContentHash) returns (c: Uuid)
    requires RunKeys(db, run) == FileKeys(files, |files|, run)
    requires forall i :: 0 <= i < |files| ==> Recorded(db, run, files[i])
    requires digest in Digests(files, |files|)
    ensures c in RunContents(db, run) && c in db.store.contents && db.store.contents[c].hash == digest
  {
    var i :| 0 <= i < |files| && files[i].text.Some? && Sha256OfText(files[i].text.value) == digest;
    assert Recorded(db, run, files[i]);
    assert FileKey(run, files[i]) in RunKeys(db, run);
    c := db.occurrences[FileKey(run, files[i])].content;
  }

  lemma ContentsCount(db: Database, run: Uuid, files: seq<ArchiveFile>)
    requires RunKeys(db, run) == FileKeys(files, |files|, run)
    requires ContentsSchema(db.store.contents, db.store.parses)
    requires forall i :: 0 <= i < |files| ==> Recorded(db, run, files[i])
    ensures |RunContents(db, run)| == |Digests(files, |files|)|
  {
    hide Recorded, RunContents, Digests, RunKeys, FileKeys;
    var digests := Digests(files, |files|);
    forall c | c in RunContents(db, run) ensures c in db.store.contents && db.store.contents[c].hash in digests {
      ContentHasDigest(db, run, files, c);
    }
    var f := map c | c in RunContents(db, run) :: db.store.contents[c].hash;
    forall d | d in digests ensures exists c :: c in f && f[c] == d {
      var c := DigestHasContent(db, run, files, d);
      assert c in f && f[c] == d;
    }
    SameCardinality(f, digests);
    assert f.Keys == RunContents(db, run);
  }
}
