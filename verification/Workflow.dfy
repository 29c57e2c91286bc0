/** FixedCommitIndexWorkflow: build one pinned commit, then activate it if it is READY. */
module Workflow {
  import opened Basics
  import opened Text
  import opened Tables
  import opened StoreInvariant
  import opened Readiness
  import opened IndexRepository
  import opened IndexProgress
  import opened IndexService
  import opened Collaborators
  import opened Transitions
  import opened Activation
  import opened Lifecycle
  import opened Histories
  import Pipeline
  import ActivationService

  /** What an operator gets: the build aborted, or its result and, for a READY run, what
      became of the activation. */
  datatype WorkflowOutcome =
    | BuildAborted
    | BuildFailed(result: IndexResult)
    | BuildReady(result: IndexResult, activation: ActivationService.ServiceOutcome)

  /** A READY build of a consistent system can always be activated. */
  lemma ReadyMayActivate(a: Database, b: Database, binding: Binding, commit: string, result: IndexResult)
    requires Invariant(b) && Pipeline.Completes(a, b, binding, commit, result) && result.status == Ready && binding.source in a.sources
    ensures MayActivate(b, binding.source, result.run)
  {
    BuiltRuns(a, b, binding, commit, result);
    InvariantSchema(b);
    hide Schema, Invariant, Pipeline.Completes, StoreSound, KeptRunsReady;
    SlotsAgree(b, binding.source);
    assert Holds(b, binding.source, result.run, Ready);
  }

  /** index: the two transactions keep the invariant.  A failed or aborted build leaves
      the running generation alone; a READY one becomes ACTIVE whenever the activation
      gets its lock under the source's own key.  `built` is the database between the two
      transactions, in which a refused activation leaves it. */
  method Index(session: Session, adapters: Adapters, binding: Binding, commit: string, indexLocked: bool, provided: Option<SourceSnapshot>,
               key: string, actor: string, now: Time, activationLocked: bool, auditWorks: bool)
    returns (outcome: WorkflowOutcome, ghost built: Database)
    requires session.Sound() && Invariant(session.db) && Pipeline.FaithfulBinding(session.db, binding)
    requires provided.Some? ==> ValidSnapshot(provided.value)
    modifies session, adapters
    ensures session.Sound() && Invariant(session.db)
    ensures outcome.BuildAborted? ==> session.db == old(session.db)
    ensures outcome.BuildAborted? <==>
              !(indexLocked && IsCommitSha(commit) && provided.Some? && provided.value.commit == commit && binding.source in old(session.db).sources)
    ensures outcome.BuildReady? <==>
              && !outcome.BuildAborted? && AllDecode(provided.value.files)
              && Welcome(Since(old(adapters.log), adapters.log), binding.snapshot)
    ensures outcome.BuildReady? ==> Pipeline.Completes(old(session.db), built, binding, commit, outcome.result) && outcome.result.status == Ready
    ensures outcome.BuildReady? && outcome.activation.Refused? ==> session.db == built
    ensures outcome.BuildReady? && outcome.activation.Committed? ==>
              exists source :: IsSource(built, key, source) && MayActivate(built, source, outcome.result.run)
                               && session.db == Activated(built, source, outcome.result.run, now)
    ensures outcome.BuildFailed? ==> session.db == Pipeline.WithRun(old(session.db), outcome.result.run, Finished(NewRun(binding, commit), outcome.result))
    ensures outcome.BuildReady? && IsSource(old(session.db), key, binding.source) && activationLocked
            && ActivationService.SafeIdentifier(key) && ActivationService.SafeIdentifier(actor) ==>
              && outcome.activation.Committed?
              && SlotOf(session.db, binding.source, Active) == Some(outcome.result.run)
              && binding.source in session.db.sources
              && session.db.sources[binding.source].active == Some(outcome.result.run)
              && RunReady(session.db, outcome.result.run)
  {
    hide Schema, Invariant, Pipeline.Completes, RunReady, StoreSound, KeptRunsReady, Consistent, Activated, Welcome;
    ghost var a := session.db;
    built := a;
    InvariantSchema(a);
    var indexed := Pipeline.Index(session, adapters, binding, commit, indexLocked, provided);
    if indexed.Aborted? { return BuildAborted, built; }
    var result := indexed.result;
    ghost var b := session.db;
    built := b;
    BuildKeepsInvariant(a, b, binding, commit, result);
    BuiltRuns(a, b, binding, commit, result);
    if result.status == Failed {
      FailedAddsRun(a, b, binding, commit, result);
      return BuildFailed(result), built;
    }
    ReadyMayActivate(a, b, binding, commit, result);
    var activation;
    ghost var source;
    activation, source := ActivationService.Activate(session, key, result.run, actor, now, activationLocked, auditWorks);
    if activation.Committed? {
      ActivationKeepsInvariant(b, source, result.run, now);
      NowActive(b, source, result.run, now);
    }
    return BuildReady(result, activation), built;
  }

  lemma FailedAddsRun(a: Database, b: Database, binding: Binding, commit: string, result: IndexResult)
    requires Pipeline.Completes(a, b, binding, commit, result) && result.status == Failed
    ensures b == Pipeline.WithRun(a, result.run, Finished(NewRun(binding, commit), result))
  {
  }

  lemma NowActive(db: Database, source: Uuid, run: Uuid, now: Time)
    requires Invariant(db) && MayActivate(db, source, run)
    ensures var b := Activated(db, source, run, now);
            && source in b.sources && b.sources[source].active == Some(run)
            && SlotOf(b, source, Active) == Some(run) && RunReady(b, run)
  {
    hide Schema, Invariant, KeptRunsReady, StoreSound, Consistent, Activated;
    ActivationKeepsInvariant(db, source, run, now);
    InvariantSchema(db);
    var b := Activated(db, source, run, now);
    InvariantSchema(b);
    ActivatedRuns(db, source, run, now);
    SlotIsUnique(b, source, run, Active);
    KeptIsReady(b, run);
  }

  lemma KeptIsReady(db: Database, run: Uuid)
    requires KeptRunsReady(db) && run in db.runs && Kept(db.runs[run].status)
    ensures RunReady(db, run)
  {
  }
}
