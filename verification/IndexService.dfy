/** IndexService.index: record every file, build missing artifacts, finish the run. */
module IndexService {
  import opened Basics
  import opened Text
  import opened Tables
  import opened StoreFrames
  import opened StoreInvariant
  import opened VectorStore
  import opened Readiness
  import opened IndexRepository
  import opened ParseStage
  import opened BuildStage
  import opened IndexProgress
  import opened Collaborators
  import opened Provenance

  datatype RecordStep = Recording | RecordFails(code: FailureCode) | RecordRaises(cause: Cause)

  function RecordEnding(step: RecordStep): Ending {
    if step.RecordFails? then Bad(step.code) else Good
  }

  /** Either a result was returned, after marking the run, or an error escaped. */
  datatype IndexOutcome = Returned(result: IndexResult) | Raised(cause: Cause)

  /** Content, metadata and occurrence of one decoded file. */
  method RecordFile(session: Session, adapters: Adapters, binding: Binding, run: Uuid, file: ArchiveFile) returns (step: RecordStep)
    requires session.Sound() && Owned(session.db, binding, run) && file.text.Some?
    requires FileKey(run, file) !in session.db.occurrences
    modifies session, adapters
    ensures Logged(old(adapters.log), adapters.log, binding.snapshot, RecordEnding(step), [])
    ensures session.Sound() && BuildFrame(old(session.db), session.db, run) && Grown(old(session.db.store), session.db.store)
    ensures step.Recording? ==> OccurrenceAdded(old(session.db), session.db, run, file)
    ensures step.RecordRaises? ==> step.cause == ContentCollision && !StoreSound(old(session.db.store))
    ensures step.RecordFails? ==> session.db.occurrences == old(session.db.occurrences)
    ensures step.Recording? ==> session.db.store.parses == old(session.db.store.parses)
    ensures step.Recording? ==> OccurrenceFrom(session.db, FileKey(run, file), Since(old(adapters.log), adapters.log))
  {
    hide Extends, StoreSound, Logged;
    ghost var a := session.db;
    NothingLogged(adapters.log, binding.snapshot);
    var id := UpsertContent(session, Sha256OfText(file.text.value), file.text.value, run);
    if id.None? {
      UnfaithfulIsUnsound(a.store);
      return RecordRaises(ContentCollision);
    }
    var metadata := adapters.ExtractMetadata(file.path, file.text.value);
    LoggedOne(old(adapters.log), MetadataAnswer(file.path, file.text.value, metadata), binding.snapshot);
    if metadata.None? { return RecordFails(InvariantFailure); }
    ghost var b := session.db;
    var ok := CreateOccurrence(session, binding, run, id.value, file.path, metadata.value);
    BuildFrameTransitive(a, b, session.db, run);
    assert Since(old(adapters.log), adapters.log) == [MetadataAnswer(file.path, file.text.value, metadata)];
    return Recording;
  }

  lemma UnfaithfulIsUnsound(st: Store)
    requires !ContentsFaithful(st.contents)
    ensures !StoreSound(st)
  {
    hide ParsesSound, VectorsCoherent, NoBlankParses;
  }

  /** A failing file says whether its occurrence had already been recorded and counted. */
  datatype FileStep = Indexed | FileFails(code: FailureCode, recorded: bool) | FileRaises(cause: Cause)

  function FileEnding(step: FileStep): Ending {
    if step.FileFails? then Bad(step.code)
    else if step == FileRaises(ParseRejected) then Refused
    else Good
  }

  /** One turn of the file loop for a decoded file. */
  method IndexFile(session: Session, adapters: Adapters, binding: Binding, run: Uuid, files: seq<ArchiveFile>, n: nat,
                   ghost start: Database, ghost base: seq<Answer>, ghost sent: seq<seq<Request>>)
    returns (step: FileStep, ghost sentAfter: seq<seq<Request>>)
    requires session.Sound() && Owned(start, binding, run) && n < |files| && files[n].text.Some? && DistinctPaths(files)
    requires Progress(start, session.db, run, binding.snapshot, files, n)
    requires SentSound(start.store, session.db.store, binding.snapshot.document, Hashes(sent))
    requires Logged(base, adapters.log, binding.snapshot, Good, sent)
    modifies session, adapters
    ensures Logged(base, adapters.log, binding.snapshot, FileEnding(step), sentAfter)
    ensures session.Sound() && BuildFrame(start, session.db, run) && (StoreSound(start.store) ==> StoreSound(session.db.store))
    ensures SentOnce(start.store, binding.snapshot.document, Hashes(sentAfter))
    ensures step.Indexed? ==> Progress(start, session.db, run, binding.snapshot, files, n + 1)
    ensures step.Indexed? ==> SentSound(start.store, session.db.store, binding.snapshot.document, Hashes(sentAfter))
    ensures step.FileRaises? && StoreSound(start.store) ==> Expected(step.cause, binding.snapshot)
    ensures step.Indexed? ==> FileStored(old(session.db), session.db, run, binding.snapshot, files[n], old(adapters.log), adapters.log)
    ensures step.FileFails? ==> RunKeys(session.db, run) == FileKeys(files, if step.recorded then n + 1 else n, run)
  {
    hide Extends, StoreSound, SentSound, SentOnce, Served, Progress, OccurrenceAdded, Recorded, Logged, Hashes, StoreFrom, OccurrenceFrom, FileStored,
         RunKeys, FileKeys, StoreStep, BuildFrame, Expected, Batches, Starts, DistinctPaths;
    var file, snapshot := files[n], binding.snapshot;
    ghost var a, before := session.db, adapters.log;
    ProgressFacts(start, a, run, snapshot, files, n);
    StillOwned(start, a, binding, run);
    SentNow(start.store, a.store, snapshot.document, Hashes(sent));
    var recorded := RecordFile(session, adapters, binding, run, file);
    LoggedSince(before, adapters.log, snapshot, RecordEnding(recorded), []);
    LoggedThen(base, before, adapters.log, snapshot, RecordEnding(recorded), sent, []);
    assert sent + [] == sent;
    ghost var b, middle := session.db, adapters.log;
    BuildFrameTransitive(start, a, session.db, run);
    if recorded.RecordFails? {
      KeysSoFar(start, a, session.db, run, snapshot, files, n);
      return FileFails(recorded.code, false), sent;
    }
    if recorded.RecordRaises? { return FileRaises(recorded.cause), sent; }
    step, sentAfter := BuildFile(session, adapters, snapshot, run, files, n, start, a, base, sent);
    KeysAdded(start, a, b, session.db, run, snapshot, files, n);
    if step.Indexed? { RecordedThenBuilt(a, b, session.db, run, snapshot, file, before, middle, adapters.log); }
  }

  lemma KeysSoFar(start: Database, a: Database, b: Database, run: Uuid, snapshot: Snapshot, files: seq<ArchiveFile>, n: nat)
    requires Progress(start, a, run, snapshot, files, n) && b.occurrences == a.occurrences
    ensures n <= |files| && RunKeys(b, run) == FileKeys(files, n, run)
  {
    hide BuildFrame, StoreSound, Recorded, Served;
  }

  lemma KeysAdded(start: Database, a: Database, b: Database, c: Database, run: Uuid, snapshot: Snapshot, files: seq<ArchiveFile>, n: nat)
    requires Progress(start, a, run, snapshot, files, n) && n < |files| && OccurrenceAdded(a, b, run, files[n]) && StoreStep(b, c)
    ensures RunKeys(c, run) == FileKeys(files, n + 1, run)
  {
    hide BuildFrame, StoreSound, Recorded, Served, Extends;
    KeysSoFar(start, a, a, run, snapshot, files, n);
    assert FileKeys(files, n + 1, run) == FileKeys(files, n, run) + {FileKey(run, files[n])};
    assert RunKeys(c, run) == RunKeys(a, run) + {FileKey(run, files[n])};
  }

  /** One file is recorded and, unless blank, built; what that stored is what was answered. */
  ghost predicate FileStored(a: Database, b: Database, run: Uuid, snapshot: Snapshot, file: ArchiveFile, before: seq<Answer>, after: seq<Answer>) {
    match snapshot
    case Snapshot(_, _, _, document, _, _) =>
      && before <= after && Starts(Since(before, after)) && OccurrenceAdded(a, b, run, file)
      && StoreFrom(a.store, b.store, document, Since(before, after)) && OccurrenceFrom(b, FileKey(run, file), Since(before, after))
  }

  lemma RecordedThenBuilt(a: Database, b: Database, c: Database, run: Uuid, snapshot: Snapshot, file: ArchiveFile,
                          before: seq<Answer>, middle: seq<Answer>, after: seq<Answer>)
    requires OccurrenceAdded(a, b, run, file) && StoreStep(b, c) && b.store.parses == a.store.parses
    requires before <= middle <= after && Batches(Since(before, middle)) == []
    requires Starts(Since(before, middle)) && Starts(Since(middle, after))
    requires OccurrenceFrom(b, FileKey(run, file), Since(before, middle))
    requires StoreFrom(b.store, c.store, snapshot.document, Since(middle, after))
    ensures FileStored(a, c, run, snapshot, file, before, after)
  {
    hide StoreFrom, OccurrenceFrom, Extends, StoreSound, Recorded, Batches, BuildFrame;
    var x, y := Since(before, middle), Since(middle, after);
    SinceThen(before, middle, after);
    AddedThenBuilt(a, b, c, run, file);
    AddedFacts(a, b, run, file);
    StoreStepExtends(b, c);
    RecordingFrom(a.store, b.store, snapshot.document, x);
    StoreFromThen(a.store, b.store, c.store, snapshot.document, x, y);
    OccurrenceFromThen(b, c, FileKey(run, file), x, y);
  }

  lemma StillOwned(start: Database, now: Database, binding: Binding, run: Uuid)
    requires BuildFrame(start, now, run) && Owned(start, binding, run)
    ensures Owned(now, binding, run)
  {
    hide Extends;
  }

  lemma SentNow(start: Store, now: Store, document: DocumentConfig, sent: seq<string>)
    requires SentSound(start, now, document, sent)
    ensures SentOnce(start, document, sent)
  {
  }

  lemma AddedFacts(a: Database, b: Database, run: Uuid, file: ArchiveFile)
    requires OccurrenceAdded(a, b, run, file)
    ensures Extends(a.store, b.store) && (StoreSound(a.store) ==> StoreSound(b.store)) && file.text.Some?
    ensures FileKey(run, file) in b.occurrences
    ensures var c := b.occurrences[FileKey(run, file)].content;
            c in b.store.contents && b.store.contents[c].text == file.text.value
  {
    hide Extends, StoreSound;
  }

  /** Building on after the occurrence is there. */
  lemma AddedThenBuilt(a: Database, b: Database, c: Database, run: Uuid, file: ArchiveFile)
    requires OccurrenceAdded(a, b, run, file) && StoreStep(b, c)
    ensures OccurrenceAdded(a, c, run, file)
    ensures c.occurrences[FileKey(run, file)] == b.occurrences[FileKey(run, file)]
  {
    hide StoreSound;
    GrownTransitive(a.store, b.store, c.store);
    RecordedStays(b, c, run, file);
    BuildFrameTransitive(a, b, c, run);
  }

  method BuildFile(session: Session, adapters: Adapters, snapshot: Snapshot, run: Uuid, files: seq<ArchiveFile>, n: nat,
                   ghost start: Database, ghost a: Database, ghost base: seq<Answer>, ghost sent: seq<seq<Request>>)
    returns (step: FileStep, ghost sentAfter: seq<seq<Request>>)
    requires session.Sound() && n < |files| && DistinctPaths(files)
    requires Progress(start, a, run, snapshot, files, n) && OccurrenceAdded(a, session.db, run, files[n])
    requires Extends(start.store, a.store) && SentSound(start.store, a.store, snapshot.document, Hashes(sent))
    requires BuildFrame(start, session.db, run) && (StoreSound(start.store) ==> StoreSound(session.db.store))
    requires Logged(base, adapters.log, snapshot, Good, sent)
    modifies session, adapters
    ensures Logged(base, adapters.log, snapshot, FileEnding(step), sentAfter)
    ensures session.Sound() && BuildFrame(start, session.db, run) && (StoreSound(start.store) ==> StoreSound(session.db.store))
    ensures SentOnce(start.store, snapshot.document, Hashes(sentAfter))
    ensures step.Indexed? ==> Progress(start, session.db, run, snapshot, files, n + 1)
    ensures step.Indexed? ==> SentSound(start.store, session.db.store, snapshot.document, Hashes(sentAfter))
    ensures step.FileRaises? && StoreSound(start.store) ==> Expected(step.cause, snapshot)
    ensures StoreStep(old(session.db), session.db) && (step.FileFails? ==> step.recorded)
    ensures step.Indexed? ==> old(adapters.log) <= adapters.log && Starts(Since(old(adapters.log), adapters.log))
    ensures step.Indexed? ==> StoreFrom(old(session.db.store), session.db.store, snapshot.document, Since(old(adapters.log), adapters.log))
  {
    hide Extends, StoreSound, SentSound, SentOnce, Served, Progress, OccurrenceAdded, Recorded, ParseServed, Logged, Hashes, Expected, StoreStep, BuildFrame,
         StoreFrom, Starts, Batches, Blank, DistinctPaths, Since;
    NoStep(session.db);
    NothingAskedFrom(session.db.store, snapshot.document, adapters.log);
    var file := files[n];
    ghost var b := session.db;
    AddedFacts(a, b, run, file);
    SentStays(start.store, a.store, b.store, snapshot.document, Hashes(sent));
    var content := session.db.occurrences[FileKey(run, file)].content;
    sentAfter := sent;
    if Blank(file.text.value) {
      BlankIsServed(b.store, snapshot, content);
      ProgressStep(start, a, b, run, snapshot, files, n);
      return Indexed, sentAfter;
    }
    ExtendsTransitive(start.store, a.store, b.store);
    var built: BuildStep;
    built, sentAfter := BuildArtifacts(session, adapters, snapshot, content, file.text.value, start.store, base, sent);
    StepIsFrame(start, b, session.db, run);
    match built {
      case BuildFails(code) => return FileFails(code, true), sentAfter;
      case BuildRaises(cause) => return FileRaises(cause), sentAfter;
      case Built =>
        FileBuilt(start, a, b, session.db, run, snapshot, files, n);
        return Indexed, sentAfter;
    }
  }

  lemma FileBuilt(start: Database, a: Database, b: Database, c: Database, run: Uuid, snapshot: Snapshot, files: seq<ArchiveFile>, n: nat)
    requires n < |files| && DistinctPaths(files) && Progress(start, a, run, snapshot, files, n)
    requires OccurrenceAdded(a, b, run, files[n]) && StoreStep(b, c) && FileKey(run, files[n]) in b.occurrences
    requires ParseServed(c.store, snapshot, b.occurrences[FileKey(run, files[n])].content)
    ensures Progress(start, c, run, snapshot, files, n + 1)
  {
    hide Extends, StoreSound, Served, Progress, OccurrenceAdded, Recorded, ParseServed, StoreStep, BuildFrame, DistinctPaths;
    AddedThenBuilt(a, b, c, run, files[n]);
    AddedFacts(a, c, run, files[n]);
    BuiltIsServed(c.store, snapshot, b.occurrences[FileKey(run, files[n])].content);
    ProgressStep(start, a, c, run, snapshot, files, n);
  }

  lemma BlankIsServed(st: Store, snapshot: Snapshot, c: Uuid)
    requires c in st.contents && Blank(st.contents[c].text)
    ensures Served(st, snapshot, c)
  {
  }

  lemma BuiltIsServed(st: Store, snapshot: Snapshot, c: Uuid)
    requires c in st.contents && ParseServed(st, snapshot, c)
    ensures Served(st, snapshot, c)
  {
    hide ParseServed;
  }

  lemma StepIsFrame(start: Database, b: Database, c: Database, run: Uuid)
    requires BuildFrame(start, b, run) && StoreStep(b, c)
    requires StoreSound(start.store) ==> StoreSound(b.store)
    ensures BuildFrame(start, c, run) && (StoreSound(start.store) ==> StoreSound(c.store))
  {
    StoreStepExtends(b, c);
    ExtendsTransitive(start.store, b.store, c.store);
    hide Extends, StoreSound;
  }

  // ---------------------------------------------------------------- the whole run

  /** Only the run's row, its occurrences and the store's growth differ. */
  ghost predicate IndexFrame(a: Database, b: Database, run: Uuid) {
    match b
    case Database(sources, configs, runs, occurrences, store) =>
      && run in a.runs && run in runs
      && BuildFrame(a, Database(sources, configs, a.runs, occurrences, store), run)
      && runs == a.runs[run := runs[run]]
      && (StoreSound(a.store) ==> StoreSound(store))
  }

  /** The statistics of a completed file list. */
  ghost predicate CountsFiles(stats: Stats, snapshot: SourceSnapshot) {
    && stats.occurrences == |snapshot.files|
    && stats.uniqueContents == |Digests(snapshot.files, |snapshot.files|)|
    && stats.empty == |BlankFiles(snapshot.files, |snapshot.files|)|
    && stats.excluded == snapshot.excluded
    && forall i :: 0 <= i < |snapshot.files| ==> snapshot.files[i].text.Some?
  }

  /** A finished file list makes the run's contents ready and its statistics exact. */
  lemma CompletedRun(start: Database, now: Database, run: Uuid, snapshot: Snapshot, files: seq<ArchiveFile>)
    requires Progress(start, now, run, snapshot, files, |files|) && DistinctPaths(files)
    requires Schema(now)
    ensures |RunKeys(now, run)| == |files| && |RunContents(now, run)| == |Digests(files, |files|)|
    ensures |BlankKeys(now, run)| == |BlankFiles(files, |files|)|
    ensures forall i :: 0 <= i < |files| ==> files[i].text.Some?
    ensures StoreSound(now.store) ==> ArtifactsReady(now, run, snapshot)
  {
    hide StoreSound, Served, BuildFrame;
    KeysCount(files, |files|, run);
    BlanksCount(now, run, files);
    ContentsCount(now, run, files);
    if StoreSound(now.store) {
      forall c | c in RunContents(now, run) ensures ContentReady(now.store, snapshot, c) {
        var k :| k in RunKeys(now, run) && now.occurrences[k].content == c;
        assert k in FileKeys(files, |files|, run);
        var i :| 0 <= i < |files| && FileKey(run, files[i]) == k;
        assert Recorded(now, run, files[i]);
        ServedIsReady(now.store, snapshot, c);
      }
    }
  }

  lemma ServedIsReady(st: Store, snapshot: Snapshot, c: Uuid)
    requires Served(st, snapshot, c) && StoreSound(st)
    ensures ContentReady(st, snapshot, c)
  {
    hide ParsesSound, VectorsCoherent, AllEmbedded;
  }

  /** Marking the run changes neither its occurrences nor the store. */
  lemma MarkedRun(a: Database, b: Database, run: Uuid, snapshot: Snapshot)
    requires b == a.(runs := b.runs)
    ensures RunKeys(b, run) == RunKeys(a, run) && RunContents(b, run) == RunContents(a, run)
    ensures BlankKeys(b, run) == BlankKeys(a, run)
    ensures ArtifactsReady(b, run, snapshot) == ArtifactsReady(a, run, snapshot)
  {
    hide ContentReady;
    assert RunContents(b, run) == RunContents(a, run);
  }

  /** _fail */
  method Fail(session: Session, binding: Binding, run: Uuid, stats: Stats, code: FailureCode, ghost start: Database)
    returns (outcome: IndexOutcome)
    requires session.Sound() && Owned(start, binding, run) && start.runs[run].status == Building
    requires BuildFrame(start, session.db, run) && (StoreSound(start.store) ==> StoreSound(session.db.store))
    modifies session
    ensures session.Sound() && IndexFrame(start, session.db, run)
    ensures outcome == Returned(IndexResult(run, Failed, stats.(failure := Some(code))))
    ensures session.db.runs[run] == Finished(start.runs[run], outcome.result)
    ensures session.db.occurrences == old(session.db.occurrences)
  {
    hide Extends, StoreSound;
    var result := IndexResult(run, Failed, stats.(failure := Some(code)));
    var ok := MarkFinished(session, binding, run, result);
    return Returned(result);
  }

  method Succeed(session: Session, binding: Binding, snapshot: SourceSnapshot, run: Uuid, stats: Stats, ghost start: Database)
    returns (outcome: IndexOutcome)
    requires session.Sound() && Owned(start, binding, run) && start.runs[run].status == Building
    requires Progress(start, session.db, run, binding.snapshot, snapshot.files, |snapshot.files|) && DistinctPaths(snapshot.files)
    requires stats.occurrences == |snapshot.files| && stats.uniqueContents == |Digests(snapshot.files, |snapshot.files|)|
    requires stats.empty == |BlankFiles(snapshot.files, |snapshot.files|)| && stats.excluded == snapshot.excluded && stats.failure.None?
    modifies session
    ensures session.Sound() && IndexFrame(start, session.db, run)
    ensures outcome == Returned(IndexResult(run, Ready, stats)) && CountsFiles(stats, snapshot)
    ensures session.db.runs[run] == Finished(start.runs[run], outcome.result)
    ensures StatsMatch(session.db, run, stats)
    ensures StoreSound(start.store) ==> ArtifactsReady(session.db, run, binding.snapshot)
    ensures session.db.occurrences == old(session.db.occurrences) && session.db.store == old(session.db.store)
  {
    hide Extends, StoreSound, Recorded, Served, ArtifactsReady, Digests, BlankFiles, RunKeys, RunContents, BlankKeys, FileKeys;
    ghost var a := session.db;
    CompletedRun(start, a, run, binding.snapshot, snapshot.files);
    var result := IndexResult(run, Ready, stats);
    var ok := MarkFinished(session, binding, run, result);
    MarkedRun(a, session.db, run, binding.snapshot);
    return Returned(result);
  }

  /** The loop's local counters. */
  datatype Counters = Counters(digests: set<ContentHash>, occurrences: int, empty: int)

  function StatsOf(counters: Counters, snapshot: SourceSnapshot): Stats {
    Stats(counters.occurrences, |counters.digests|, snapshot.excluded, counters.empty, None)
  }

  /** The state of the file loop after i files. */
  ghost predicate Turned(start: Database, now: Database, binding: Binding, run: Uuid, files: seq<ArchiveFile>, i: nat,
                         counters: Counters, sent: seq<seq<Request>>)
  {
    match counters
    case Counters(digests, occurrences, empty) =>
      && i <= |files| && Progress(start, now, run, binding.snapshot, files, i)
      && SentSound(start.store, now.store, binding.snapshot.document, Hashes(sent))
      && occurrences == i && digests == Digests(files, i) && empty == |BlankFiles(files, i)|
  }

  /** How the answers left a run; decoding asks no collaborator. */
  function OutcomeEnding(outcome: IndexOutcome): Ending {
    match outcome
    case Raised(cause) => if cause == ParseRejected then Refused else Good
    case Returned(result) => EndingOf(if result.stats.failure == Some(DecodeFailure) then None else result.stats.failure)
  }

  predicate AllDecode(files: seq<ArchiveFile>) {
    forall i :: 0 <= i < |files| ==> files[i].text.Some?
  }

  /** The first file that does not decode. */
  predicate FirstUndecodable(files: seq<ArchiveFile>, i: int) {
    0 <= i < |files| && files[i].text.None? && forall j :: 0 <= j < i ==> files[j].text.Some?
  }

  /** What a run that ends in the file loop reports. */
  ghost predicate EndsFailing(start: Database, now: Database, run: Uuid, snapshot: Snapshot, source: SourceSnapshot, outcome: IndexOutcome) {
    match outcome
    case Raised(cause) => now.runs == start.runs && (StoreSound(start.store) ==> Expected(cause, snapshot))
    case Returned(result) =>
      && result.run == run && result.status == Failed && result.stats.failure.Some?
      && run in start.runs && run in now.runs && now.runs[run] == Finished(start.runs[run], result)
      && (result.stats.failure == Some(DecodeFailure) ==> FirstUndecodable(source.files, result.stats.occurrences))
      && result.stats.occurrences == |RunKeys(now, run)| && exists i :: StopsAt(result.stats, source, i)
  }

  /** The statistics of a run that ended at file i: the files before it, its own digest if
      it decodes, and its occurrence if that was recorded. */
  ghost predicate StopsAt(stats: Stats, source: SourceSnapshot, i: nat) {
    && i < |source.files| && (forall j :: 0 <= j < i ==> source.files[j].text.Some?)
    && stats.excluded == source.excluded && stats.empty == |BlankFiles(source.files, i)|
    && (stats.failure == Some(DecodeFailure) <==> source.files[i].text.None?)
    && (if source.files[i].text.None? then stats.occurrences == i else i <= stats.occurrences <= i + 1)
    && stats.uniqueContents == |Digests(source.files, if source.files[i].text.Some? then i + 1 else i)|
  }

  lemma SameKeys(a: Database, b: Database, run: Uuid)
    requires b.occurrences == a.occurrences
    ensures RunKeys(b, run) == RunKeys(a, run)
  {
  }

  lemma TurnCounts(start: Database, now: Database, binding: Binding, run: Uuid, files: seq<ArchiveFile>, i: nat,
                   counters: Counters, sent: seq<seq<Request>>)
    requires Turned(start, now, binding, run, files, i, counters, sent) && DistinctPaths(files)
    ensures counters == Counters(Digests(files, i), i, |BlankFiles(files, i)|) && |RunKeys(now, run)| == i
  {
    hide Extends, StoreSound, Served, BuildFrame, SentSound, Recorded;
    KeysCount(files, i, run);
  }

  lemma TurnFacts(start: Database, now: Database, binding: Binding, run: Uuid, files: seq<ArchiveFile>, i: nat,
                  counters: Counters, sent: seq<seq<Request>>)
    requires Turned(start, now, binding, run, files, i, counters, sent)
    ensures i <= |files| && Progress(start, now, run, binding.snapshot, files, i)
    ensures SentSound(start.store, now.store, binding.snapshot.document, Hashes(sent))
    ensures SentOnce(start.store, binding.snapshot.document, Hashes(sent))
    ensures counters.occurrences == i && forall j :: 0 <= j < i ==> files[j].text.Some?
    ensures StoreSound(start.store) ==> StoreSound(now.store)
  {
    hide Extends, StoreSound, Served, Digests, BlankFiles, BuildFrame;
  }

  /** A file that does not decode ends the run before anything is asked. */
  method FailUndecoded(session: Session, binding: Binding, snapshot: SourceSnapshot, run: Uuid, i: nat, counters: Counters,
                       ghost start: Database, ghost sent: seq<seq<Request>>)
    returns (outcome: IndexOutcome)
    requires session.Sound() && Owned(start, binding, run) && start.runs[run].status == Building
    requires i < |snapshot.files| && snapshot.files[i].text.None? && DistinctPaths(snapshot.files)
    requires Turned(start, session.db, binding, run, snapshot.files, i, counters, sent)
    modifies session
    ensures session.Sound() && IndexFrame(start, session.db, run)
    ensures EndsFailing(start, session.db, run, binding.snapshot, snapshot, outcome) && OutcomeEnding(outcome) == Good && outcome.Returned?
    ensures SentOnce(start.store, binding.snapshot.document, Hashes(sent))
  {
    hide Extends, StoreSound, SentSound, SentOnce, Progress, Digests, BlankFiles, BuildFrame, Turned, Hashes, IndexFrame;
    TurnFacts(start, session.db, binding, run, snapshot.files, i, counters, sent);
    FrameOf(start, session.db, run, binding.snapshot, snapshot.files, i);
    TurnCounts(start, session.db, binding, run, snapshot.files, i, counters, sent);
    ghost var b := session.db;
    outcome := Fail(session, binding, run, StatsOf(counters, snapshot), DecodeFailure, start);
    assert outcome.result.stats.occurrences == i && FirstUndecodable(snapshot.files, i);
    assert StopsAt(outcome.result.stats, snapshot, i);
    SameKeys(b, session.db, run);
    RunInFrame(start, session.db, run);
  }

  /** A bad answer ends the run with its code. */
  method FailAnswered(session: Session, binding: Binding, snapshot: SourceSnapshot, run: Uuid, i: nat, counters: Counters, code: FailureCode,
                      ghost start: Database, ghost base: seq<Answer>, ghost log: seq<Answer>, ghost sent: seq<seq<Request>>)
    returns (outcome: IndexOutcome)
    requires i < |snapshot.files| && DistinctPaths(snapshot.files) && forall j :: 0 <= j <= i ==> snapshot.files[j].text.Some?
    requires counters.digests == Digests(snapshot.files, i + 1) && counters.empty == |BlankFiles(snapshot.files, i)|
    requires i <= counters.occurrences <= i + 1 && RunKeys(session.db, run) == FileKeys(snapshot.files, counters.occurrences, run)
    requires session.Sound() && Owned(start, binding, run) && start.runs[run].status == Building
    requires BuildFrame(start, session.db, run) && (StoreSound(start.store) ==> StoreSound(session.db.store))
    requires Logged(base, log, binding.snapshot, Bad(code), sent)
    modifies session
    ensures session.Sound() && IndexFrame(start, session.db, run)
    ensures EndsFailing(start, session.db, run, binding.snapshot, snapshot, outcome) && OutcomeEnding(outcome) == Bad(code)
  {
    hide Extends, StoreSound, BuildFrame, IndexFrame, Logged, RunKeys, FileKeys, Digests, BlankFiles, DistinctPaths;
    NeverDecode(base, log, binding.snapshot, code, sent);
    KeysCount(snapshot.files, counters.occurrences, run);
    ghost var b := session.db;
    outcome := Fail(session, binding, run, StatsOf(counters, snapshot), code, start);
    assert StopsAt(outcome.result.stats, snapshot, i);
    SameKeys(b, session.db, run);
    RunInFrame(start, session.db, run);
  }

  lemma RunInFrame(start: Database, now: Database, run: Uuid)
    requires IndexFrame(start, now, run)
    ensures run in start.runs && run in now.runs
  {
    hide BuildFrame, StoreSound;
  }

  /** One turn of the file loop: the next counters, or the outcome that ends it. */
  method IndexTurn(session: Session, adapters: Adapters, binding: Binding, snapshot: SourceSnapshot, run: Uuid, i: nat, counters: Counters,
                   ghost start: Database, ghost base: seq<Answer>, ghost sent: seq<seq<Request>>)
    returns (ended: Option<IndexOutcome>, next: Counters, ghost sentAfter: seq<seq<Request>>)
    requires session.Sound() && Owned(start, binding, run) && start.runs[run].status == Building
    requires i < |snapshot.files| && DistinctPaths(snapshot.files)
    requires Turned(start, session.db, binding, run, snapshot.files, i, counters, sent)
    requires Logged(base, adapters.log, binding.snapshot, Good, sent)
    requires Accounted(start.store, session.db, run, binding.snapshot.document, Since(base, adapters.log))
    modifies session, adapters
    ensures session.Sound() && IndexFrame(start, session.db, run)
    ensures ended.None? ==> Accounted(start.store, session.db, run, binding.snapshot.document, Since(base, adapters.log))
    ensures SentOnce(start.store, binding.snapshot.document, Hashes(sentAfter))
    ensures Logged(base, adapters.log, binding.snapshot, if ended.None? then Good else OutcomeEnding(ended.value), sentAfter)
    ensures ended.None? ==> Turned(start, session.db, binding, run, snapshot.files, i + 1, next, sentAfter)
    ensures ended.Some? ==> EndsFailing(start, session.db, run, binding.snapshot, snapshot, ended.value)
  {
    hide Extends, StoreSound, SentSound, SentOnce, Progress, Digests, BlankFiles, BuildFrame, Logged, Hashes, Expected,
         EndsFailing, StopsAt, FileStored, RunKeys, FileKeys, DistinctPaths, IndexFrame, Accounted, Turned, Starts, Batches, Blank;
    ghost var a, before := session.db, adapters.log;
    LoggedSince(base, before, binding.snapshot, Good, sent);
    var file := snapshot.files[i];
    next, sentAfter := counters, sent;
    if file.text.None? {
      var outcome := FailUndecoded(session, binding, snapshot, run, i, counters, start, sent);
      return Some(outcome), next, sentAfter;
    }
    next := next.(digests := next.digests + {Sha256OfText(file.text.value)});
    CountersStep(snapshot.files, i, run);
    TurnFacts(start, session.db, binding, run, snapshot.files, i, counters, sent);
    TurnCounts(start, session.db, binding, run, snapshot.files, i, counters, sent);
    var step;
    step, sentAfter := IndexFile(session, adapters, binding, run, snapshot.files, i, start, base, sent);
    match step {
      case FileFails(code, recorded) =>
        next := next.(occurrences := next.occurrences + if recorded then 1 else 0);
        var outcome := FailAnswered(session, binding, snapshot, run, i, next, code, start, base, adapters.log, sentAfter);
        return Some(outcome), next, sentAfter;
      case FileRaises(cause) =>
        RunUntouched(start, session.db, run);
        RaisedEnds(start, session.db, run, binding.snapshot, snapshot, cause);
        return Some(Raised(cause)), next, sentAfter;
      case Indexed =>
        RunUntouched(start, session.db, run);
        FileAccounted(start, a, session.db, run, binding.snapshot, file, base, before, adapters.log);
        next := next.(occurrences := next.occurrences + 1, empty := next.empty + if Blank(file.text.value) then 1 else 0);
        NowTurned(start, session.db, binding, run, snapshot.files, i + 1, next, sentAfter);
        return None, next, sentAfter;
    }
  }

  lemma NowTurned(start: Database, now: Database, binding: Binding, run: Uuid, files: seq<ArchiveFile>, i: nat,
                  counters: Counters, sent: seq<seq<Request>>)
    requires i <= |files| && Progress(start, now, run, binding.snapshot, files, i)
    requires SentSound(start.store, now.store, binding.snapshot.document, Hashes(sent))
    requires counters == Counters(Digests(files, i), i, |BlankFiles(files, i)|)
    ensures Turned(start, now, binding, run, files, i, counters, sent)
  {
    hide Progress, SentSound;
  }

  lemma FileAccounted(start: Database, a: Database, b: Database, run: Uuid, snapshot: Snapshot, file: ArchiveFile,
                      base: seq<Answer>, before: seq<Answer>, after: seq<Answer>)
    requires base <= before && Accounted(start.store, a, run, snapshot.document, Since(base, before))
    requires FileStored(a, b, run, snapshot, file, before, after)
    requires StoreSound(start.store) ==> StoreSound(a.store)
    ensures Accounted(start.store, b, run, snapshot.document, Since(base, after))
  {
    hide StoreFrom, OccurrenceFrom, Extends, StoreSound, Recorded, Starts;
    SinceThen(base, before, after);
    AddedFacts(a, b, run, file);
    StoreFromThen(start.store, a.store, b.store, snapshot.document, Since(base, before), Since(before, after));
    OccurrencesFromThen(a, b, run, FileKey(run, file), Since(base, before), Since(before, after));
  }

  lemma RaisedEnds(start: Database, now: Database, run: Uuid, snapshot: Snapshot, source: SourceSnapshot, cause: Cause)
    requires now.runs == start.runs && (StoreSound(start.store) ==> Expected(cause, snapshot))
    ensures EndsFailing(start, now, run, snapshot, source, Raised(cause))
  {
    hide StoreSound, Expected;
  }

  lemma NeverDecode(base: seq<Answer>, log: seq<Answer>, snapshot: Snapshot, code: FailureCode, sent: seq<seq<Request>>)
    requires Logged(base, log, snapshot, Bad(code), sent)
    ensures code != DecodeFailure
  {
    hide Batches, ValidBatch;
  }

  lemma RunUntouched(start: Database, now: Database, run: Uuid)
    requires BuildFrame(start, now, run) && run in start.runs && (StoreSound(start.store) ==> StoreSound(now.store))
    ensures IndexFrame(start, now, run) && now.runs == start.runs
  {
    hide Extends, StoreSound;
    assert start.runs[run := start.runs[run]] == start.runs;
  }

  /** What the collaborators were asked and answered during a run: every answer was good,
      except one that the failure is due to; no hash was sent twice, or although a vector
      was stored at the start. */
  ghost predicate Asked(start: Store, before: seq<Answer>, after: seq<Answer>, snapshot: Snapshot, outcome: IndexOutcome) {
    match snapshot
    case Snapshot(_, _, _, document, _, _) =>
      && before <= after && Answered(after[|before|..], snapshot, OutcomeEnding(outcome))
      && SentOnce(start, document, Sent(after[|before|..]))
  }

  lemma LoggedIsAsked(start: Store, before: seq<Answer>, after: seq<Answer>, snapshot: Snapshot, outcome: IndexOutcome, sent: seq<seq<Request>>)
    requires Logged(before, after, snapshot, OutcomeEnding(outcome), sent) && SentOnce(start, snapshot.document, Hashes(sent))
    ensures Asked(start, before, after, snapshot, outcome)
  {
    LoggedSent(before, after, snapshot, OutcomeEnding(outcome), sent);
    hide Logged, SentOnce, Answered, Batches, Hashes;
  }

  /** What a READY run has recorded. */
  ghost predicate EndsReady(start: Database, now: Database, run: Uuid, binding: Binding, snapshot: SourceSnapshot, result: IndexResult) {
    match result
    case IndexResult(id, status, stats) =>
      && id == run && status == Ready && stats.failure.None?
      && run in start.runs && run in now.runs && now.runs[run] == Finished(start.runs[run], result)
      && CountsFiles(stats, snapshot) && StatsMatch(now, run, stats)
      && (StoreSound(start.store) ==> ArtifactsReady(now, run, binding.snapshot))
  }

  predicate IsReady(outcome: IndexOutcome) {
    outcome.Returned? && outcome.result.status == Ready
  }

  /** The file loop: READY progress over every file, or the outcome that ended it. */
  method IndexFiles(session: Session, adapters: Adapters, binding: Binding, snapshot: SourceSnapshot, run: Uuid,
                    ghost start: Database, ghost base: seq<Answer>)
    returns (ended: Option<IndexOutcome>, counters: Counters, ghost sent: seq<seq<Request>>)
    requires session.Sound() && session.db == start && base == adapters.log
    requires Owned(start, binding, run) && start.runs[run].status == Building
    requires RunKeys(start, run) == {} && DistinctPaths(snapshot.files)
    modifies session, adapters
    ensures session.Sound() && SentOnce(start.store, binding.snapshot.document, Hashes(sent))
    ensures Logged(base, adapters.log, binding.snapshot, if ended.None? then Good else OutcomeEnding(ended.value), sent)
    ensures ended.None? ==> Turned(start, session.db, binding, run, snapshot.files, |snapshot.files|, counters, sent)
    ensures ended.Some? ==> IndexFrame(start, session.db, run) && EndsFailing(start, session.db, run, binding.snapshot, snapshot, ended.value)
    ensures ended.None? ==> Accounted(start.store, session.db, run, binding.snapshot.document, Since(base, adapters.log))
  {
    hide Extends, StoreSound, SentSound, SentOnce, Progress, RunKeys, Digests, BlankFiles, BuildFrame, IndexFrame, Turned, EndsFailing, Logged,
         OutcomeEnding, Hashes, Accounted;
    counters, sent := Counters({}, 0, 0), [];
    LoopStart(start, binding, run, snapshot.files);
    NothingLogged(base, binding.snapshot);
    NothingAccounted(start, run, binding.snapshot.document);
    assert Since(base, base) == [];
    for i := 0 to |snapshot.files|
      invariant Accounted(start.store, session.db, run, binding.snapshot.document, Since(base, adapters.log))
      invariant session.Sound() && Turned(start, session.db, binding, run, snapshot.files, i, counters, sent)
      invariant SentOnce(start.store, binding.snapshot.document, Hashes(sent)) && Logged(base, adapters.log, binding.snapshot, Good, sent)
    {
      ended, counters, sent := IndexTurn(session, adapters, binding, snapshot, run, i, counters, start, base, sent);
      if ended.Some? { return ended, counters, sent; }
    }
    return None, counters, sent;
  }

  lemma NothingAccounted(start: Database, run: Uuid, document: DocumentConfig)
    requires RunKeys(start, run) == {}
    ensures Accounted(start.store, start, run, document, [])
  {
    StoreFromStart(start.store, document);
    hide StoreFrom, OccurrenceFrom;
    assert forall key :: key in start.occurrences ==> (key.run == run <==> key in RunKeys(start, run));
  }

  /** Every file has its occurrence, pointing at a stored row of exactly its text, and the
      run has no other. */
  ghost predicate FilesRecorded(db: Database, run: Uuid, files: seq<ArchiveFile>) {
    RunKeys(db, run) == FileKeys(files, |files|, run) && forall i :: 0 <= i < |files| ==> Recorded(db, run, files[i])
  }

  lemma ProgressRecorded(start: Database, a: Database, b: Database, run: Uuid, snapshot: Snapshot, files: seq<ArchiveFile>)
    requires Progress(start, a, run, snapshot, files, |files|) && b.occurrences == a.occurrences && b.store == a.store
    ensures FilesRecorded(b, run, files)
  {
    hide Served, BuildFrame, StoreSound;
    SameKeys(a, b, run);
    forall i | 0 <= i < |files| ensures Recorded(b, run, files[i]) { assert Recorded(a, run, files[i]); }
  }

  /** IndexService.index over a fresh BUILDING run.

      READY means every file is recorded and counted, and, from a sound store, the run
      passes the rollback artifact check.  From a sound store a run is READY exactly when
      every file decodes, every collaborator's answer is good and every projection they
      add up to can be saved; a failure names the first undecodable file or the last
      answer.  What a READY run stored is what was answered about it: every new parse for
      its content's text, every occurrence's metadata for its path and text, every vector
      for its chunk hash.  Whatever happens each chunk hash is sent to the provider at most
      once, and never when a vector for it was stored before. */
  method Index(session: Session, adapters: Adapters, binding: Binding, snapshot: SourceSnapshot, run: Uuid) returns (outcome: IndexOutcome)
    requires session.Sound() && Owned(session.db, binding, run) && session.db.runs[run].status == Building
    requires RunKeys(session.db, run) == {} && DistinctPaths(snapshot.files)
    modifies session, adapters
    ensures session.Sound() && IndexFrame(old(session.db), session.db, run)
    ensures Asked(old(session.db.store), old(adapters.log), adapters.log, binding.snapshot, outcome)
    ensures EndsFailing(old(session.db), session.db, run, binding.snapshot, snapshot, outcome)
         || (outcome.Returned? && EndsReady(old(session.db), session.db, run, binding, snapshot, outcome.result))
    ensures IsReady(outcome) ==> FilesRecorded(session.db, run, snapshot.files)
    ensures IsReady(outcome) ==>
              Accounted(old(session.db.store), session.db, run, binding.snapshot.document, Since(old(adapters.log), adapters.log))
    ensures old(adapters.log) <= adapters.log
    ensures outcome.Returned? || (StoreSound(old(session.db.store)) && IsSha256(binding.snapshot.chunkConfigHash)) ==>
              (IsReady(outcome) <==> AllDecode(snapshot.files) && Welcome(adapters.log[|old(adapters.log)|..], binding.snapshot))
  {
    hide Extends, StoreSound, SentSound, SentOnce, Progress, ArtifactsReady, RunKeys, Digests, BlankFiles, BuildFrame, IndexFrame, Turned,
         StatsMatch, Logged, Asked, Welcome, Hashes, EndsFailing, EndsReady, OutcomeEnding, CountsFiles, Accounted, FilesRecorded;
    ghost var start, base := session.db, adapters.log;
    var ended, counters;
    ghost var sent;
    ended, counters, sent := IndexFiles(session, adapters, binding, snapshot, run, start, base);
    ghost var looped := session.db;
    if ended.Some? {
      outcome := ended.value;
      FailingIsNotReady(start, session.db, run, binding.snapshot, snapshot, outcome);
    } else {
      LoopEnd(start, session.db, binding, run, snapshot.files, counters, sent);
      outcome := Succeed(session, binding, snapshot, run, StatsOf(counters, snapshot), start);
      SucceedEndsReady(start, session.db, run, binding, snapshot, outcome);
      ProgressRecorded(start, looped, session.db, run, binding.snapshot, snapshot.files);
      AccountedStays(start.store, looped, session.db, run, binding.snapshot.document, Since(base, adapters.log));
    }
    LoggedIsAsked(start.store, base, adapters.log, binding.snapshot, outcome, sent);
    ReadyExactly(start, session.db, run, binding, snapshot, outcome, base, adapters.log, sent);
  }

  lemma FailingIsNotReady(start: Database, now: Database, run: Uuid, snapshot: Snapshot, source: SourceSnapshot, outcome: IndexOutcome)
    requires EndsFailing(start, now, run, snapshot, source, outcome)
    ensures !IsReady(outcome)
  {
    hide StoreSound, StopsAt;
  }

  lemma SucceedEndsReady(start: Database, now: Database, run: Uuid, binding: Binding, snapshot: SourceSnapshot, outcome: IndexOutcome)
    requires IndexFrame(start, now, run) && outcome.Returned? && outcome.result.run == run && outcome.result.status == Ready
    requires outcome.result.stats.failure.None? && CountsFiles(outcome.result.stats, snapshot) && StatsMatch(now, run, outcome.result.stats)
    requires now.runs[run] == Finished(start.runs[run], outcome.result)
    requires StoreSound(start.store) ==> ArtifactsReady(now, run, binding.snapshot)
    ensures EndsReady(start, now, run, binding, snapshot, outcome.result) && OutcomeEnding(outcome) == Good
  {
    hide StoreSound, ArtifactsReady, StatsMatch, CountsFiles, BuildFrame;
  }

  lemma ReadyExactly(start: Database, now: Database, run: Uuid, binding: Binding, snapshot: SourceSnapshot, outcome: IndexOutcome,
                     base: seq<Answer>, log: seq<Answer>, sent: seq<seq<Request>>)
    requires EndsFailing(start, now, run, binding.snapshot, snapshot, outcome)
          || (outcome.Returned? && EndsReady(start, now, run, binding, snapshot, outcome.result))
    requires Logged(base, log, binding.snapshot, OutcomeEnding(outcome), sent)
    ensures base <= log
    ensures outcome.Returned? || (StoreSound(start.store) && IsSha256(binding.snapshot.chunkConfigHash)) ==>
              (IsReady(outcome) <==> AllDecode(snapshot.files) && Welcome(log[|base|..], binding.snapshot))
  {
    hide StoreSound, ArtifactsReady, StatsMatch, Welcome, Logged, Digests, BlankFiles;
    LoggedSent(base, log, binding.snapshot, OutcomeEnding(outcome), sent);
    hide Answered;
  }

  lemma LoopStart(start: Database, binding: Binding, run: Uuid, files: seq<ArchiveFile>)
    requires RunKeys(start, run) == {}
    ensures Turned(start, start, binding, run, files, 0, Counters({}, 0, 0), [])
    ensures SentOnce(start.store, binding.snapshot.document, Hashes([]))
  {
    hide Progress;
    ProgressStart(start, run, binding.snapshot, files);
    NothingSent(start.store, binding.snapshot.document);
    NoFiles(files);
  }

  lemma LoopEnd(start: Database, now: Database, binding: Binding, run: Uuid, files: seq<ArchiveFile>, counters: Counters, sent: seq<seq<Request>>)
    requires Turned(start, now, binding, run, files, |files|, counters, sent)
    ensures Progress(start, now, run, binding.snapshot, files, |files|)
    ensures counters == Counters(Digests(files, |files|), |files|, |BlankFiles(files, |files|)|)
  {
  }

  lemma NothingSent(st: Store, document: DocumentConfig)
    ensures SentSound(st, st, document, []) && SentOnce(st, document, [])
  {
  }

  lemma NoFiles(files: seq<ArchiveFile>)
    ensures Digests(files, 0) == {} && |BlankFiles(files, 0)| == 0
  {
  }

  lemma FrameOf(start: Database, now: Database, run: Uuid, snapshot: Snapshot, files: seq<ArchiveFile>, n: nat)
    requires Progress(start, now, run, snapshot, files, n)
    ensures BuildFrame(start, now, run) && (StoreSound(start.store) ==> StoreSound(now.store))
    ensures run in start.runs ==> IndexFrame(start, now, run)
  {
    hide Extends, StoreSound, Recorded, Served;
    if run in start.runs { assert start.runs[run := start.runs[run]] == start.runs; }
  }
}
