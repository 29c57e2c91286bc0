/** TransactionalIndexPipeline.index: one outer transaction around a savepoint, so a
    failed build leaves nothing but its FAILED run. */
module Pipeline {
  import opened Basics
  import opened Text
  import opened Tables
  import opened StoreFrames
  import opened StoreInvariant
  import opened Readiness
  import opened IndexRepository
  import opened ParseStage
  import opened EmbeddingStage
  import opened BuildStage
  import opened IndexProgress
  import opened IndexService
  import opened Collaborators
  import opened Provenance

  /** An exception leaves the pipeline as Aborted; the outer transaction rolls back. */
  datatype PipelineOutcome = Completed(result: IndexResult) | Aborted

  /** What leaves the savepoint: a kept READY result, a FAILED one, or an exception. */
  datatype Judgement = Kept(result: IndexResult) | ExpectedFailure(result: IndexResult) | Escaped

  function Judge(outcome: IndexOutcome, run: Uuid): Judgement {
    match outcome
    case Raised(_) => Escaped
    case Returned(result) =>
      if result.run != run then Escaped
      else if result.status == Failed then ExpectedFailure(result)
      else if result.status != Ready then Escaped
      else Kept(result)
  }

  /** The result recorded for an exception out of the service. */
  function InvariantResult(run: Uuid, excluded: int): IndexResult {
    IndexResult(run, Failed, Stats(0, 0, excluded, 0, Some(InvariantFailure)))
  }

  function WithRun(db: Database, id: Uuid, run: Run): Database {
    db.(runs := db.runs[id := run])
  }

  /** The configuration row the repository is bound to is the one the service builds with. */
  predicate FaithfulBinding(db: Database, binding: Binding) {
    && binding.config in db.configs && db.configs[binding.config].snapshot == binding.snapshot
    && !Blank(binding.snapshot.parserVersion) && IsSha256(binding.snapshot.chunkConfigHash)
  }

  /** A completed build's database: a FAILED build adds exactly its run; a READY build
      adds its run, its occurrences and store rows. */
  ghost predicate Completes(a: Database, b: Database, binding: Binding, commit: string, result: IndexResult) {
    match result
    case IndexResult(run, status, stats) =>
      && run !in a.runs
      && (status == Failed || status == Ready)
      && (status == Failed ==> stats.failure.Some? && b == WithRun(a, run, Finished(NewRun(binding, commit), result)))
      && (status == Ready ==>
            && stats.failure.None? && StatsMatch(b, run, stats)
            && IndexFrame(WithRun(a, run, NewRun(binding, commit)), b, run)
            && b.runs[run] == Finished(NewRun(binding, commit), result))
  }

  lemma NoOccurrencesYet(db: Database, run: Uuid, row: Run)
    requires Schema(db) && run !in db.runs
    ensures RunKeys(WithRun(db, run, row), run) == {}
  {
  }

  /** A finished READY run passes the rollback artifact check. */
  lemma FinishedIsReady(a: Database, b: Database, binding: Binding, commit: string, result: IndexResult)
    requires Completes(a, b, binding, commit, result) && result.status == Ready
    requires FaithfulBinding(a, binding) && ArtifactsReady(b, result.run, binding.snapshot)
    ensures RunReady(b, result.run)
  {
    hide ArtifactsReady, StatsMatch, Extends, StoreSound;
    var run := result.run;
    assert b.configs == a.configs;
    assert b.runs[run].config == binding.config && b.runs[run].stats == Some(result.stats);
  }

  /** Why a build is FAILED: the first undecodable file after good answers, the last
      answer, or, as an exception, a projection that cannot be saved. */
  ghost predicate FailsBecause(stats: Stats, source: SourceSnapshot, answers: seq<Answer>, snapshot: Snapshot) {
    || (stats.failure == Some(DecodeFailure) && Welcome(answers, snapshot) && FirstUndecodable(source.files, stats.occurrences)
        && exists i :: StopsAt(stats, source, i))
    || (stats.failure.Some? && Answered(answers, snapshot, Bad(stats.failure.value)) && exists i :: StopsAt(stats, source, i))
    || (stats == Stats(0, 0, source.excluded, 0, Some(InvariantFailure)) && Answered(answers, snapshot, Refused))
  }

  /** The answers an attempt got explain the result recorded for it. */
  lemma AttemptExplained(start: Database, now: Database, run: Uuid, snapshot: Snapshot, source: SourceSnapshot,
                         before: seq<Answer>, after: seq<Answer>, outcome: IndexOutcome)
    requires EndsFailing(start, now, run, snapshot, source, outcome) && Asked(start.store, before, after, snapshot, outcome)
    requires StoreSound(start.store) && IsSha256(snapshot.chunkConfigHash)
    ensures before <= after && outcome.Raised? ==>
              FailsBecause(InvariantResult(run, source.excluded).stats, source, after[|before|..], snapshot)
    ensures before <= after && outcome.Returned? ==>
              FailsBecause(outcome.result.stats, source, after[|before|..], snapshot)
  {
    hide StoreSound, SentOnce, Sent, AllGood, AllPersistable, StopsAt, Answered;
    if outcome.Returned? && outcome.result.stats.failure == Some(DecodeFailure) { GoodIsWelcome(after[|before|..], snapshot); }
  }

  lemma GoodIsWelcome(answers: seq<Answer>, snapshot: Snapshot)
    requires Answered(answers, snapshot, Good)
    ensures Welcome(answers, snapshot)
  {
  }

  /** index.  The collaborators' log says what was asked: no hash twice, none that was
      stored; and from a sound store a completed build is READY exactly when every file
      decodes, every answer is good and every projection can be saved. */
  method Index(session: Session, adapters: Adapters, binding: Binding, commit: string, locked: bool, provided: Option<SourceSnapshot>)
    returns (outcome: PipelineOutcome)
    requires session.Sound()
    requires provided.Some? ==> ValidSnapshot(provided.value)
    modifies session, adapters
    ensures session.Sound()
    ensures outcome.Completed? <==>
              && locked && IsCommitSha(commit) && provided.Some? && provided.value.commit == commit
              && binding.source in old(session.db).sources && binding.config in old(session.db).configs
    ensures outcome.Aborted? ==> session.db == old(session.db) && adapters.log == old(adapters.log)
    ensures outcome.Completed? ==> Completes(old(session.db), session.db, binding, commit, outcome.result)
    ensures outcome.Completed? ==>
              && outcome.result.run in session.db.runs
              && var row := session.db.runs[outcome.result.run];
                 && row.source == binding.source && row.config == binding.config && row.commit == commit
                 && row.status == outcome.result.status && row.stats == Some(outcome.result.stats) && row.activatedAt.None?
    ensures outcome.Completed? && outcome.result.status == Ready ==> CountsFiles(outcome.result.stats, provided.value)
    ensures outcome.Completed? && outcome.result.status == Ready && StoreSound(old(session.db.store)) && FaithfulBinding(old(session.db), binding) ==>
              RunReady(session.db, outcome.result.run)
    ensures outcome.Completed? && outcome.result.status == Failed && StoreSound(old(session.db.store)) && FaithfulBinding(old(session.db), binding) ==>
              FailsBecause(outcome.result.stats, provided.value, Since(old(adapters.log), adapters.log), binding.snapshot)
    ensures outcome.Completed? && outcome.result.status == Ready ==>
              && FilesRecorded(session.db, outcome.result.run, provided.value.files)
              && Accounted(old(session.db.store), session.db, outcome.result.run, binding.snapshot.document, Since(old(adapters.log), adapters.log))
    ensures old(adapters.log) <= adapters.log
    ensures SentOnce(old(session.db.store), binding.snapshot.document, Sent(adapters.log[|old(adapters.log)|..]))
    ensures outcome.Completed? && outcome.result.status == Ready ==>
              AllDecode(provided.value.files) && Welcome(adapters.log[|old(adapters.log)|..], binding.snapshot)
    ensures outcome.Completed? && StoreSound(old(session.db.store)) && FaithfulBinding(old(session.db), binding) ==>
              (outcome.result.status == Ready <==>
                 AllDecode(provided.value.files) && Welcome(adapters.log[|old(adapters.log)|..], binding.snapshot))
  {
    hide StoreSound, IndexFrame, SentOnce, ArtifactsReady, StatsMatch, CountsFiles, Schema, RunReady, Welcome, Asked, Sent,
         FilesRecorded, Accounted, FailsBecause, StopsAt;
    ghost var start, before := session.db, adapters.log;
    NothingAsked(start.store, before, binding.snapshot);
    if !locked { return Aborted; }
    var begun := session.db;
    var created := CreateBuildingRun(session, binding, commit);
    if created.None? { return Aborted; }
    var run := created.value;
    if provided.None? || provided.value.commit != commit {
      session.db := begun;
      return Aborted;
    }
    var snapshot := provided.value;
    NoOccurrencesYet(start, run, NewRun(binding, commit));
    var savepoint := session.db;
    var attempt := IndexService.Index(session, adapters, binding, snapshot, run);
    AskedFacts(start.store, before, adapters.log, binding.snapshot, attempt);
    if StoreSound(start.store) && FaithfulBinding(start, binding) && !IsReady(attempt) {
      AttemptExplained(savepoint, session.db, run, binding.snapshot, snapshot, before, adapters.log, attempt);
    }
    match Judge(attempt, run) {
      case Kept(result) =>
        if StoreSound(start.store) && FaithfulBinding(start, binding) { FinishedIsReady(start, session.db, binding, commit, result); }
        return Completed(result);
      case ExpectedFailure(result) =>
        session.db := savepoint;
        var ok := MarkFinished(session, binding, run, result);
        return Completed(result);
      case Escaped =>
        session.db := savepoint;
        var result := InvariantResult(run, snapshot.excluded);
        var ok := MarkFinished(session, binding, run, result);
        return Completed(result);
    }
  }

  lemma NothingAsked(st: Store, log: seq<Answer>, snapshot: Snapshot)
    ensures SentOnce(st, snapshot.document, Sent(log[|log|..]))
  {
  }

  lemma AskedFacts(st: Store, before: seq<Answer>, after: seq<Answer>, snapshot: Snapshot, outcome: IndexOutcome)
    requires Asked(st, before, after, snapshot, outcome)
    ensures before <= after && SentOnce(st, snapshot.document, Sent(after[|before|..]))
  {
    hide SentOnce, Sent, Answered;
  }
}
