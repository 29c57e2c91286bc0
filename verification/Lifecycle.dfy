/** The lifecycle over whole histories: builds, activations and rollbacks in any order
    keep every generation consistent and every kept run fit to be served. */
module Lifecycle {
  import opened Basics
  import opened Text
  import opened Tables
  import opened StoredParses
  import opened StoreFrames
  import opened VectorStore
  import opened StoreInvariant
  import opened Readiness
  import opened IndexRepository
  import opened IndexService
  import opened Pipeline
  import opened Transitions

  // ---------------------------------------------------------------- invariant

  /** The pointer of each source is its ACTIVE run, and a PREVIOUS run implies one. */
  ghost predicate Consistent(sources: map<Uuid, Source>, runs: map<Uuid, Run>) {
    && (forall id :: id in runs && runs[id].status == Active ==> runs[id].source in sources && sources[runs[id].source].active == Some(id))
    && (forall s :: s in sources && sources[s].active.Some? ==>
          sources[s].active.value in runs && runs[sources[s].active.value].status == Active && runs[sources[s].active.value].source == s)
    && (forall id :: id in runs && runs[id].status == Previous ==> runs[id].source in sources && sources[runs[id].source].active.Some?)
  }

  /** Statuses whose artifacts must stay complete. */
  predicate Kept(status: Status) {
    status.Ready? || status.Active? || status.Previous?
  }

  ghost predicate KeptRunsReady(db: Database) {
    match db
    case Database(_, _, runs, _, _) => forall id :: id in runs && Kept(runs[id].status) ==> RunReady(db, id)
  }

  ghost predicate Invariant(db: Database) {
    match db
    case Database(sources, _, runs, _, store) =>
      Schema(db) && Consistent(sources, runs) && StoreSound(store) && KeptRunsReady(db)
  }

  /** Under the invariant the slots are what the pointers say. */
  lemma SlotsAgree(db: Database, source: Uuid)
    requires Schema(db) && Consistent(db.sources, db.runs) && source in db.sources
    ensures db.sources[source].active == SlotOf(db, source, Active)
    ensures SlotOf(db, source, Active).None? ==> SlotOf(db, source, Previous).None?
  {
    hide Schema;
    var pointed := db.sources[source].active;
    if pointed.Some? {
      assert Holds(db, source, pointed.value, Active);
      SlotIsUnique(db, source, pointed.value, Active);
    }
  }

  // ---------------------------------------------------------------- activation

  lemma DropThenDelete(db: Database, run: Uuid)
    requires Schema(db)
    ensures Schema(Pruned(db, run))
  {
    DropSchema(db, run);
    hide Schema;
    DeleteSchema(DropOccurrences(db, run), Orphans(db, run));
  }

  lemma ActivatedSchema(db: Database, source: Uuid, run: Uuid, now: Time)
    requires Schema(db) && MayActivate(db, source, run)
    ensures Schema(Activated(db, source, run, now))
  {
    hide Schema;
    SwapSchema(db, source, run, now);
    if SlotOf(db, source, Previous).Some? { DropThenDelete(Swapped(db, source, run, now), SlotOf(db, source, Previous).value); }
  }

  /** Which run has which status afterwards. */
  function StatusAfterActivation(db: Database, source: Uuid, run: Uuid, id: Uuid): Status
    requires id in db.runs
  {
    var row := db.runs[id];
    if id == run then Active
    else if row.source == source && row.status == Previous then Archived
    else if row.source == source && row.status == Active then Previous
    else row.status
  }

  lemma ActivatedTables(db: Database, source: Uuid, run: Uuid, now: Time)
    requires MayActivate(db, source, run)
    ensures var b, swapped := Activated(db, source, run, now), Swapped(db, source, run, now);
            && b.runs == swapped.runs && b.configs == db.configs && b.runs.Keys == db.runs.Keys
            && b.sources == db.sources[source := db.sources[source].(active := Some(run))]
  {
    hide DeleteContents, Orphans;
  }

  lemma SwappedRun(db: Database, source: Uuid, run: Uuid, now: Time, id: Uuid)
    requires Schema(db) && MayActivate(db, source, run) && id in db.runs
    ensures Swapped(db, source, run, now).runs[id]
         == db.runs[id].(status := StatusAfterActivation(db, source, run, id),
                         activatedAt := if id == run then Some(now) else db.runs[id].activatedAt)
  {
    hide Schema;
    if Holds(db, source, id, Previous) { SlotIsUnique(db, source, id, Previous); }
    if Holds(db, source, id, Active) { SlotIsUnique(db, source, id, Active); }
  }

  lemma ActivatedRuns(db: Database, source: Uuid, run: Uuid, now: Time)
    requires Schema(db) && MayActivate(db, source, run)
    ensures var b := Activated(db, source, run, now);
            && b.runs.Keys == db.runs.Keys && b.configs == db.configs
            && b.sources == db.sources[source := db.sources[source].(active := Some(run))]
            && forall id :: id in db.runs ==>
                 b.runs[id] == db.runs[id].(status := StatusAfterActivation(db, source, run, id),
                                            activatedAt := if id == run then Some(now) else db.runs[id].activatedAt)
  {
    hide Schema, Activated, Swapped, StatusAfterActivation;
    var b := Activated(db, source, run, now);
    ActivatedTables(db, source, run, now);
    forall id | id in db.runs
      ensures b.runs[id] == db.runs[id].(status := StatusAfterActivation(db, source, run, id),
                                         activatedAt := if id == run then Some(now) else db.runs[id].activatedAt)
    {
      SwappedRun(db, source, run, now, id);
    }
  }

  lemma ActivatedConsistent(db: Database, source: Uuid, run: Uuid, now: Time)
    requires Schema(db) && Consistent(db.sources, db.runs) && MayActivate(db, source, run)
    ensures var b := Activated(db, source, run, now); Consistent(b.sources, b.runs)
  {
    ActivatedRuns(db, source, run, now);
    hide Schema, Activated, MayActivate;
    var b := Activated(db, source, run, now);
    assert Holds(db, source, run, Ready) && source in db.sources by { MayActivateFacts(db, source, run); }
    hide Holds;
    PromotedConsistent(db, b.sources, b.runs, source, run);
  }

  lemma MayActivateFacts(db: Database, source: Uuid, run: Uuid)
    requires MayActivate(db, source, run)
    ensures Holds(db, source, run, Ready) && source in db.sources
  {
  }

  lemma PromotedConsistent(db: Database, sources: map<Uuid, Source>, runs: map<Uuid, Run>, source: Uuid, run: Uuid)
    requires Consistent(db.sources, db.runs) && source in db.sources && run in db.runs && db.runs[run].source == source
    requires runs.Keys == db.runs.Keys && sources == db.sources[source := db.sources[source].(active := Some(run))]
    requires forall id :: id in db.runs ==>
               runs[id].source == db.runs[id].source && runs[id].status == StatusAfterActivation(db, source, run, id)
    ensures Consistent(sources, runs)
  {
    forall id | id in runs && runs[id].status == Active
      ensures runs[id].source in sources && sources[runs[id].source].active == Some(id)
    {
      assert id != run ==> db.runs[id].status == Active && db.runs[id].source != source;
    }
    forall s | s in sources && sources[s].active.Some?
      ensures sources[s].active.value in runs && runs[sources[s].active.value].status == Active && runs[sources[s].active.value].source == s
    {
      assert s != source ==> sources[s].active == db.sources[s].active;
    }
  }

  lemma PrunedKeepsReady(db: Database, run: Uuid, other: Uuid)
    requires RunReady(db, other) && other != run
    ensures RunReady(Pruned(db, run), other)
  {
    var b := Pruned(db, run);
    hide ContentReady, StatsMatch, Blank, IsSha256, DeadParses, DeadSections, DeadChunks, DeadEmbeddings;
    var snapshot := db.configs[db.runs[other].config].snapshot;
    assert RunKeys(b, other) == RunKeys(db, other);
    forall c | c in RunContents(db, other)
      ensures c in b.store.contents && b.store.contents[c] == db.store.contents[c] && ContentReady(b.store, snapshot, c)
    {
      var key :| key in RunKeys(db, other) && db.occurrences[key].content == c;
      assert key in DropOccurrences(db, run).occurrences;
      assert c !in Orphans(db, run);
      ReadyIsStored(db.store, snapshot, c);
      DeleteKeepsReady(db.store, Orphans(db, run), snapshot, c);
    }
    RunStaysReady(db, b, other);
  }

  /** Readiness does not read statuses, activation times or pointers. */
  lemma StatusFree(a: Database, b: Database, run: Uuid)
    requires RunReady(a, run) && run in b.runs
    requires b.runs[run].config == a.runs[run].config && b.runs[run].stats == a.runs[run].stats
    requires b.configs == a.configs && b.occurrences == a.occurrences && b.store == a.store
    ensures RunReady(b, run)
  {
    hide ContentReady, StatsMatch, Blank, IsSha256;
    forall c | c in RunContents(a, run)
      ensures c in a.store.contents && ContentReady(a.store, a.configs[a.runs[run].config].snapshot, c)
    {
      ReadyIsStored(a.store, a.configs[a.runs[run].config].snapshot, c);
    }
    RunStaysReady(a, b, run);
  }

  lemma SwappedKeepsReady(db: Database, source: Uuid, run: Uuid, now: Time, id: Uuid)
    requires RunReady(db, id) && run in db.runs && source in db.sources
    ensures RunReady(Swapped(db, source, run, now), id)
  {
    hide RunReady;
    RunReadyExists(db, id);
    StatusFree(db, Swapped(db, source, run, now), id);
  }

  lemma RunReadyExists(db: Database, id: Uuid)
    requires RunReady(db, id)
    ensures id in db.runs
  {
  }

  /** A run still kept after an activation was kept before, and is not the archived one. */
  lemma KeptAfterActivation(db: Database, source: Uuid, run: Uuid, id: Uuid)
    requires Schema(db) && MayActivate(db, source, run) && id in db.runs && Kept(StatusAfterActivation(db, source, run, id))
    ensures Kept(db.runs[id].status) && SlotOf(db, source, Previous) != Some(id)
  {
    hide Schema;
  }

  lemma ActivatedKeepsReady(db: Database, source: Uuid, run: Uuid, now: Time)
    requires Schema(db) && KeptRunsReady(db) && MayActivate(db, source, run)
    ensures KeptRunsReady(Activated(db, source, run, now))
  {
    hide Schema, RunReady, Swapped, Pruned, StatusAfterActivation, Kept;
    ActivatedRuns(db, source, run, now);
    var b := Activated(db, source, run, now);
    forall id | id in b.runs && Kept(b.runs[id].status) ensures RunReady(b, id) {
      KeptAfterActivation(db, source, run, id);
      SwappedKeepsReady(db, source, run, now, id);
      if SlotOf(db, source, Previous).Some? { PrunedKeepsReady(Swapped(db, source, run, now), SlotOf(db, source, Previous).value, id); }
    }
  }

  lemma ActivatedSound(db: Database, source: Uuid, run: Uuid, now: Time)
    requires Schema(db) && StoreSound(db.store) && MayActivate(db, source, run)
    ensures StoreSound(Activated(db, source, run, now).store)
  {
    hide StoreSound, StoreSchema, DeleteContents;
    if SlotOf(db, source, Previous).Some? {
      DeleteKeepsSound(db.store, Orphans(Swapped(db, source, run, now), SlotOf(db, source, Previous).value));
    }
  }

  lemma ActivationKeepsInvariant(db: Database, source: Uuid, run: Uuid, now: Time)
    requires Invariant(db) && MayActivate(db, source, run)
    ensures Invariant(Activated(db, source, run, now))
  {
    hide Schema, StoreSound, KeptRunsReady, Consistent, Activated, MayActivate;
    ActivatedSchema(db, source, run, now);
    ActivatedConsistent(db, source, run, now);
    ActivatedSound(db, source, run, now);
    ActivatedKeepsReady(db, source, run, now);
  }

  // ---------------------------------------------------------------- rollback

  lemma RolledBackRuns(db: Database, source: Uuid, active: Uuid, target: Uuid, now: Time)
    requires MayRollBack(db, source, active, target)
    ensures RolledBack(db, source, active, target, now) ==
            db.(sources := db.sources[source := db.sources[source].(active := Some(target))],
                runs := db.runs[active := db.runs[active].(status := Previous)]
                               [target := db.runs[target].(status := Active, activatedAt := Some(now))])
  {
    var b := RolledBack(db, source, active, target, now);
    assert b.runs == db.runs[active := db.runs[active].(status := Previous)][target := db.runs[target].(status := Active, activatedAt := Some(now))];
  }

  lemma RollbackConsistent(db: Database, source: Uuid, active: Uuid, target: Uuid, now: Time)
    requires Schema(db) && Consistent(db.sources, db.runs) && MayRollBack(db, source, active, target)
    ensures var b := RolledBack(db, source, active, target, now); Consistent(b.sources, b.runs)
  {
    RolledBackRuns(db, source, active, target, now);
    hide Schema, RolledBack;
    var b := RolledBack(db, source, active, target, now);
    forall id | id in b.runs && b.runs[id].status == Active
      ensures b.runs[id].source in b.sources && b.sources[b.runs[id].source].active == Some(id)
    {
      if id != target {
        assert db.runs[id].status == Active;
        if db.runs[id].source == source { SlotIsUnique(db, source, id, Active); SlotIsUnique(db, source, active, Active); }
      }
    }
  }

  lemma RollbackKeepsReady(db: Database, source: Uuid, active: Uuid, target: Uuid, now: Time)
    requires KeptRunsReady(db) && MayRollBack(db, source, active, target)
    ensures KeptRunsReady(RolledBack(db, source, active, target, now))
  {
    RolledBackRuns(db, source, active, target, now);
    hide RolledBack, RunReady;
    var b := RolledBack(db, source, active, target, now);
    forall id | id in b.runs && Kept(b.runs[id].status) ensures RunReady(b, id) {
      assert Kept(db.runs[id].status);
      StatusFree(db, b, id);
    }
  }

  lemma RollbackKeepsInvariant(db: Database, source: Uuid, active: Uuid, target: Uuid, now: Time)
    requires Invariant(db) && MayRollBack(db, source, active, target)
    ensures Invariant(RolledBack(db, source, active, target, now))
  {
    RolledBackRuns(db, source, active, target, now);
    RollbackSchema(db, source, active, target, now);
    hide Schema, StoreSound, KeptRunsReady, Consistent, RollbackStages;
    RollbackConsistent(db, source, active, target, now);
    RollbackKeepsReady(db, source, active, target, now);
  }

  // ---------------------------------------------------------------- builds

  /** A completed build as Pipeline.Index reports it. */
  ghost predicate Built(a: Database, b: Database, binding: Binding, commit: string, result: IndexResult) {
    && binding.source in a.sources && FaithfulBinding(a, binding)
    && Completes(a, b, binding, commit, result) && Schema(b)
    && (result.status == Ready ==> RunReady(b, result.run))
  }

  /** A build adds one READY or FAILED run and touches no other run, source or configuration. */
  lemma BuiltRuns(a: Database, b: Database, binding: Binding, commit: string, result: IndexResult)
    requires Completes(a, b, binding, commit, result)
    ensures b.sources == a.sources && b.configs == a.configs
    ensures result.run !in a.runs && b.runs == a.runs[result.run := Finished(NewRun(binding, commit), result)]
    ensures result.status == Ready || result.status == Failed
  {
    hide StoreSound, Extends, StatsMatch;
    if result.status == Ready {
      assert b.runs == WithRun(a, result.run, NewRun(binding, commit)).runs[result.run := Finished(NewRun(binding, commit), result)];
    }
  }

  lemma BuiltKeepsRun(a: Database, b: Database, binding: Binding, commit: string, result: IndexResult, id: Uuid)
    requires Schema(a) && StoreSound(a.store) && Built(a, b, binding, commit, result)
    requires id in a.runs && RunReady(a, id)
    ensures RunReady(b, id)
  {
    BuiltRuns(a, b, binding, commit, result);
    hide Schema, StoreSound, StatsMatch, RunReady;
    if result.status == Failed {
      StatusFree(a, b, id);
    } else {
      GrownKeepsReady(WithRun(a, result.run, NewRun(binding, commit)), b, result.run, id) by {
        StatusFree(a, WithRun(a, result.run, NewRun(binding, commit)), id);
      }
    }
  }

  lemma GrownKeepsReady(a: Database, b: Database, run: Uuid, id: Uuid)
    requires IndexFrame(a, b, run) && StoreSound(a.store) && id != run && RunReady(a, id)
    ensures RunReady(b, id)
  {
    hide StatsMatch, ContentReady, Extends, Blank, IsSha256, StoreSound;
    var snapshot := a.configs[a.runs[id].config].snapshot;
    assert RunKeys(b, id) == RunKeys(a, id);
    forall c | c in RunContents(a, id)
      ensures c in a.store.contents && c in b.store.contents
      ensures b.store.contents[c] == a.store.contents[c] && ContentReady(b.store, snapshot, c)
    {
      ReadyIsStored(a.store, snapshot, c);
      GrownKeepsContent(a.store, b.store, snapshot, c);
    }
    RunStaysReady(a, b, id);
  }

  lemma GrownKeepsContent(a: Store, b: Store, snapshot: Snapshot, c: Uuid)
    requires Extends(a, b) && StoreSound(b) && ContentReady(a, snapshot, c)
    ensures c in b.contents && b.contents[c] == a.contents[c] && ContentReady(b, snapshot, c)
  {
    hide ParsesSound, VectorsCoherent, ContentsFaithful, ParseSound, AllEmbedded;
    assert c in a.contents;
    ExtendsKeepsReady(a, b, snapshot, c);
  }

  lemma BuildKeepsSound(a: Database, b: Database, binding: Binding, commit: string, result: IndexResult)
    requires StoreSound(a.store) && Completes(a, b, binding, commit, result)
    ensures StoreSound(b.store)
  {
    hide StoreSound, StatsMatch, BuildFrame;
  }

  lemma BuildKeepsConsistent(a: Database, b: Database, binding: Binding, commit: string, result: IndexResult)
    requires Consistent(a.sources, a.runs) && Completes(a, b, binding, commit, result)
    ensures Consistent(b.sources, b.runs)
  {
    BuiltRuns(a, b, binding, commit, result);
    hide Completes;
  }

  lemma BuildKeepsReady(a: Database, b: Database, binding: Binding, commit: string, result: IndexResult)
    requires Schema(a) && StoreSound(a.store) && KeptRunsReady(a) && Built(a, b, binding, commit, result)
    ensures KeptRunsReady(b)
  {
    BuiltRuns(a, b, binding, commit, result);
    hide Schema, StoreSound, RunReady, Completes;
    forall id | id in b.runs && Kept(b.runs[id].status) ensures RunReady(b, id) {
      if id != result.run { BuiltKeepsRun(a, b, binding, commit, result, id); }
    }
  }

  lemma BuildKeepsInvariant(a: Database, b: Database, binding: Binding, commit: string, result: IndexResult)
    requires Invariant(a) && Built(a, b, binding, commit, result)
    ensures Invariant(b)
  {
    hide Schema, StoreSound, KeptRunsReady, Consistent, Completes;
    BuildKeepsSound(a, b, binding, commit, result);
    BuildKeepsConsistent(a, b, binding, commit, result);
    BuildKeepsReady(a, b, binding, commit, result);
  }
}
