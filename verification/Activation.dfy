/** PostgresActivationRepository and ActivationService: activate, prepare and perform a
    rollback, prune in batches. */
module Activation {
  import opened Basics
  import opened Text
  import opened Tables
  import opened StoreFrames
  import opened Readiness
  import opened RollbackCheck
  import opened Transitions

  const GC_BATCH_SIZE: nat := 1000

  datatype ActivationError =
    | BlankKey | NoSource | InProgress | NotReady | PointerDisagrees | Inconsistent
    | NoPair | Incomplete | NotPrepared | CandidateChanged | NotServable

  datatype Action = Activate | Rollback

  datatype Transition = Transition(
    action: Action, occurredAt: Time, sourceKey: string, from: Option<Uuid>, to: Uuid,
    fromConfig: Option<ConfigHash>, toConfig: ConfigHash)

  /** Identities locked and validated by prepare_rollback; compared by reference. */
  class RollbackCandidate {
    const sourceKey: string
    const active: Uuid
    const activeConfig: ConfigHash
    const target: Uuid
    const targetConfig: ConfigHash
    const snapshot: Snapshot

    constructor (sourceKey: string, active: Uuid, activeConfig: ConfigHash, target: Uuid, targetConfig: ConfigHash, snapshot: Snapshot)
      ensures this.sourceKey == sourceKey && this.active == active && this.activeConfig == activeConfig
      ensures this.target == target && this.targetConfig == targetConfig && this.snapshot == snapshot
    {
      this.sourceKey, this.active, this.activeConfig := sourceKey, active, activeConfig;
      this.target, this.targetConfig, this.snapshot := target, targetConfig, snapshot;
    }
  }

  predicate IsSource(db: Database, key: string, source: Uuid) {
    source in db.sources && db.sources[source].key == key
  }

  function ConfigOf(db: Database, run: Uuid): ConfigHash
    requires run in db.runs && db.runs[run].config in db.configs
  {
    db.configs[db.runs[run].config].hash
  }

  lemma ConfigsExist(db: Database)
    requires Schema(db)
    ensures forall id :: id in db.runs ==> db.runs[id].config in db.configs && db.runs[id].source in db.sources
  {
    assert RunsSchema(db.sources, db.configs, db.runs);
    hide StoreSchema, SourcesSchema, OccurrencesSchema, OneSlot;
  }

  /** What the batched deletes leave after the first n candidates. */
  ghost function PrunedUpTo(db: Database, candidates: seq<Uuid>, n: nat): Database
    requires n <= |candidates|
  {
    db.(store := DeleteContents(db.store, Elements(candidates[..n]) - Referenced(db.occurrences)))
  }

  lemma NothingPruned(db: Database, candidates: seq<Uuid>)
    ensures PrunedUpTo(db, candidates, 0) == db
  {
    assert Elements(candidates[..0]) - Referenced(db.occurrences) == {};
    assert DeleteContents(db.store, {}) == db.store;
  }

  lemma NextBatch(db: Database, candidates: seq<Uuid>, n: nat, m: nat)
    requires Schema(db) && n <= m <= |candidates|
    ensures var dead := Elements(candidates[n..m]) - Referenced(db.occurrences);
            PrunedUpTo(db, candidates, m) == PrunedUpTo(db, candidates, n).(store := DeleteContents(PrunedUpTo(db, candidates, n).store, dead))
    ensures Schema(PrunedUpTo(db, candidates, m))
  {
    var kept := Referenced(db.occurrences);
    hide Schema;
    DeleteSchema(db, Elements(candidates[..m]) - kept);
    assert StoreSchema(db.store) by { SchemaOfStore(db); }
    hide StoreSchema, DeleteContents;
    DeleteTwice(db.store, Elements(candidates[..n]) - kept, Elements(candidates[n..m]) - kept);
    assert candidates[..m] == candidates[..n] + candidates[n..m];
    assert Elements(candidates[..m]) == Elements(candidates[..n]) + Elements(candidates[n..m]);
    assert (Elements(candidates[..n]) - kept) + (Elements(candidates[n..m]) - kept) == Elements(candidates[..m]) - kept;
  }

  lemma SchemaOfStore(db: Database)
    requires Schema(db)
    ensures StoreSchema(db.store)
  {
  }

  class Repository {
    const session: Session
    var prepared: RollbackCandidate?

    constructor (session: Session)
      ensures this.session == session && prepared == null
    {
      this.session, prepared := session, null;
    }

    /** _unique_status_run; the unique slot admits no second row. */
    method UniqueStatusRun(source: Uuid, status: Status) returns (run: Option<Uuid>)
      requires Schema(session.db) && UniqueSlot(status)
      ensures run == SlotOf(session.db, source, status)
    {
      hide Schema;
      if id: Uuid :| id in session.db.runs && Holds(session.db, source, id, status) {
        SlotIsUnique(session.db, source, id, status);
        return Some(id);
      }
      return None;
    }

    /** SELECT DISTINCT content_id, in whatever order the database answers. */
    method DistinctContents(run: Uuid) returns (ids: seq<Uuid>)
      ensures Elements(ids) == RunContents(session.db, run)
    {
      ids := [];
      var rest := RunContents(session.db, run);
      while rest != {}
        invariant Elements(ids) + rest == RunContents(session.db, run)
        decreases |rest|
      {
        var c :| c in rest;
        assert Elements(ids + [c]) == Elements(ids) + {c};
        ids, rest := ids + [c], rest - {c};
      }
    }

    /** _prune_archived_run: for every batch size, the batches together remove exactly
        the archived run's occurrences and the contents no other run uses. */
    method PruneArchivedRun(run: Uuid, candidates: seq<Uuid>, batchSize: nat)
      requires session.Sound() && batchSize > 0 && Elements(candidates) == RunContents(session.db, run)
      modifies session
      ensures session.Sound() && session.db == Pruned(old(session.db), run)
      ensures old(session.flushed) <= session.flushed
    {
      hide Schema, DeleteContents, PrunedUpTo, RunContents;
      ghost var start := session.db;
      DropSchema(session.db, run);
      session.db := DropOccurrences(session.db, run);
      session.Flush();
      ghost var dropped := session.db;
      NothingPruned(dropped, candidates);
      var i := 0;
      while i < |candidates|
        invariant i <= |candidates| && session.Sound() && session.db == PrunedUpTo(dropped, candidates, i)
        invariant session.db.occurrences == dropped.occurrences
        invariant old(session.flushed) <= session.flushed
      {
        var end := if i + batchSize <= |candidates| then i + batchSize else |candidates|;
        var batch := candidates[i..end];
        var dead := (set c | c in batch) - Referenced(session.db.occurrences);
        NextBatch(dropped, candidates, i, end);
        session.db := session.db.(store := DeleteContents(session.db.store, dead));
        SameOccurrences(dropped, candidates, end);
        session.Flush();
        i := end;
      }
      PrunedAll(start, run, candidates);
    }

    /** activate */
    method Activate(key: string, run: Uuid, now: Time, locked: bool) returns (outcome: Result<Transition, ActivationError>, ghost source: Uuid)
      requires session.Sound()
      modifies session
      ensures session.Sound()
      ensures outcome.Err? ==> session.db == old(session.db)
      ensures outcome.Err? && !Blank(key) && locked ==> forall s :: IsSource(old(session.db), key, s) ==> !MayActivate(old(session.db), s, run)
      ensures outcome.Ok? ==> !Blank(key) && locked && IsSource(old(session.db), key, source) && MayActivate(old(session.db), source, run)
      ensures outcome.Ok? ==> session.db == Activated(old(session.db), source, run, now)
      ensures outcome.Ok? ==> ActivationStages(old(session.db), source, run, now, old(session.flushed)) <= session.flushed
      ensures outcome.Ok? ==> run in old(session.db.runs) && old(session.db.runs)[run].config in old(session.db.configs)
      ensures outcome.Ok? ==> ReportsActivation(old(session.db), source, run, now, key, outcome.value)
    {
      hide Schema, Swapped, Pruned;
      ghost var start := session.db;
      source := Uuid(0);
      if Blank(key) { return Err(BlankKey), source; }
      if !(exists s :: s in session.db.sources && session.db.sources[s].key == key) { return Err(NoSource), source; }
      var s: Uuid :| s in session.db.sources && session.db.sources[s].key == key;
      source := s;
      SoleSource(session.db, key, s);
      if !locked { return Err(InProgress), source; }
      if run !in session.db.runs || session.db.runs[run].source != s || session.db.runs[run].status != Ready { return Err(NotReady), source; }
      var active := UniqueStatusRun(s, Active);
      var previous := UniqueStatusRun(s, Previous);
      if session.db.sources[s].active != active { return Err(PointerDisagrees), source; }
      if active.None? && previous.Some? { return Err(Inconsistent), source; }
      ConfigsExist(session.db);
      var fromConfig := if active.Some? then Some(ConfigOf(session.db, active.value)) else None;
      var report := Transition(Action.Activate, now, key, active, run, fromConfig, ConfigOf(session.db, run));
      Swap(s, run, now, active, previous);
      if previous.Some? {
        SwapKeepsRows(start, s, run, now);
        var contents := DistinctContents(previous.value);
        PruneArchivedRun(previous.value, contents, GC_BATCH_SIZE);
      }
      return Ok(report), source;
    }

    /** The three flushed status changes of an activation. */
    method Swap(source: Uuid, run: Uuid, now: Time, active: Option<Uuid>, previous: Option<Uuid>)
      requires session.Sound() && MayActivate(session.db, source, run)
      requires active == SlotOf(session.db, source, Active) && previous == SlotOf(session.db, source, Previous)
      modifies session
      ensures session.Sound() && session.db == Swapped(old(session.db), source, run, now)
      ensures session.flushed == ActivationStages(old(session.db), source, run, now, old(session.flushed))
    {
      hide Schema;
      SwapSchema(session.db, source, run, now);
      if previous.Some? {
        session.db := SetStatus(session.db, previous.value, Archived);
        session.Flush();
      }
      if active.Some? {
        session.db := SetStatus(session.db, active.value, Previous);
        session.Flush();
      }
      session.db := Promote(session.db, source, run, now);
      session.Flush();
    }

    /** prepare_rollback: locks and validates the pair; nothing is changed. */
    method PrepareRollback(key: string, locked: bool) returns (candidate: Result<RollbackCandidate, ActivationError>, ghost source: Uuid)
      requires session.Sound()
      modifies this`prepared
      ensures candidate.Ok? ==> prepared == candidate.value && fresh(candidate.value)
      ensures candidate.Err? ==> prepared == old(prepared)
      ensures candidate.Err? && !Blank(key) && locked ==> forall s :: IsSource(session.db, key, s) ==> !Preparable(session.db, s)
      ensures candidate.Ok? ==> !Blank(key) && locked && IsSource(session.db, key, source) && Preparable(session.db, source)
      ensures candidate.Ok? ==> Describes(session.db, source, key, candidate.value)
    {
      hide Schema, RunReady;
      source := Uuid(0);
      var db := session.db;
      if Blank(key) { return Err(BlankKey), source; }
      if !(exists s :: s in db.sources && db.sources[s].key == key) { return Err(NoSource), source; }
      var s: Uuid :| s in db.sources && db.sources[s].key == key;
      source := s;
      SoleSource(db, key, s);
      if !locked { return Err(InProgress), source; }
      var active := UniqueStatusRun(s, Active);
      var previous := UniqueStatusRun(s, Previous);
      if db.sources[s].active != active { return Err(PointerDisagrees), source; }
      if active.None? || previous.None? { return Err(NoPair), source; }
      ConfigsExist(db);
      var complete := AssertTargetArtifacts(db, previous.value);
      if !complete { return Err(Incomplete), source; }
      var found := new RollbackCandidate(key, active.value, ConfigOf(db, active.value), previous.value, ConfigOf(db, previous.value),
                                         db.configs[db.runs[previous.value].config].snapshot);
      prepared := found;
      return Ok(found), source;
    }

    /** rollback: only the very candidate prepared here, and only if nothing moved. */
    method Rollback(candidate: RollbackCandidate, now: Time) returns (outcome: Result<Transition, ActivationError>, ghost source: Uuid)
      requires session.Sound()
      modifies this`prepared, session
      ensures session.Sound()
      ensures outcome.Err? ==> session.db == old(session.db) && session.flushed == old(session.flushed) && prepared == old(prepared)
      ensures outcome.Err? <==> candidate != old(prepared) || !exists s :: Current(old(session.db), s, candidate)
      ensures outcome.Ok? ==> prepared == null && Current(old(session.db), source, candidate)
      ensures outcome.Ok? ==> session.db == RolledBack(old(session.db), source, candidate.active, candidate.target, now)
      ensures outcome.Ok? ==> var s := RollbackStages(old(session.db), source, candidate.active, candidate.target, now);
                              session.flushed == old(session.flushed) + [s.0, s.1, s.2]
      ensures outcome.Ok? ==> outcome.value == Transition(Action.Rollback, now, candidate.sourceKey, Some(candidate.active), candidate.target,
                                                         Some(candidate.activeConfig), candidate.targetConfig)
    {
      hide Schema;
      source := Uuid(0);
      if candidate != prepared { return Err(NotPrepared), source; }
      var db := session.db;
      var key, active, target := candidate.sourceKey, candidate.active, candidate.target;
      if !(exists s :: s in db.sources && db.sources[s].key == key) { return Err(CandidateChanged), source; }
      var s: Uuid :| s in db.sources && db.sources[s].key == key;
      source := s;
      SoleSource(db, key, s);
      ConfigsExist(db);
      if active !in db.runs || target !in db.runs || db.sources[s].active != Some(active) { return Err(CandidateChanged), source; }
      if db.runs[active].source != s || db.runs[target].source != s { return Err(CandidateChanged), source; }
      if db.runs[active].status != Active || db.runs[target].status != Previous { return Err(CandidateChanged), source; }
      if ConfigOf(db, active) != candidate.activeConfig || ConfigOf(db, target) != candidate.targetConfig { return Err(CandidateChanged), source; }
      assert Current(db, s, candidate);
      RollbackSchema(db, s, active, target, now);
      session.db := SetStatus(session.db, target, Archived);
      session.Flush();
      session.db := SetStatus(session.db, active, Previous);
      session.Flush();
      session.db := Promote(session.db, s, target, now);
      session.Flush();
      prepared := null;
      return Ok(Transition(Action.Rollback, now, key, Some(active), target, Some(candidate.activeConfig), candidate.targetConfig)), source;
    }
  }

  lemma SoleSource(db: Database, key: string, source: Uuid)
    requires Schema(db) && IsSource(db, key, source)
    ensures forall s :: IsSource(db, key, s) ==> s == source
  {
    assert SourcesSchema(db.sources, db.runs);
    hide StoreSchema, RunsSchema, OccurrencesSchema;
  }

  lemma SameOccurrences(db: Database, candidates: seq<Uuid>, n: nat)
    requires n <= |candidates|
    ensures PrunedUpTo(db, candidates, n).occurrences == db.occurrences
  {
  }

  lemma PrunedAll(start: Database, run: Uuid, candidates: seq<Uuid>)
    requires Elements(candidates) == RunContents(start, run)
    ensures PrunedUpTo(DropOccurrences(start, run), candidates, |candidates|) == Pruned(start, run)
  {
    assert candidates[..|candidates|] == candidates;
  }

  /** The flushed states of an activation up to its pointer change. */
  ghost function ActivationStages(db: Database, source: Uuid, run: Uuid, now: Time, before: seq<Database>): seq<Database>
    requires run in db.runs && source in db.sources
  {
    var previous, active := SlotOf(db, source, Previous), SlotOf(db, source, Active);
    var archived := SetSlot(db, previous, Archived);
    var demoted := SetSlot(archived, active, Previous);
    before + (if previous.Some? then [archived] else []) + (if active.Some? then [demoted] else []) + [Promote(demoted, source, run, now)]
  }

  ghost predicate ReportsActivation(db: Database, source: Uuid, run: Uuid, now: Time, key: string, report: Transition)
    requires run in db.runs && db.runs[run].config in db.configs
  {
    match report
    case Transition(action, occurredAt, sourceKey, from, to, fromConfig, toConfig) =>
      && action == Action.Activate && occurredAt == now && sourceKey == key
      && from == SlotOf(db, source, Active) && to == run && toConfig == ConfigOf(db, run)
      && (from.None? <==> fromConfig.None?)
      && (from.Some? && db.runs[from.value].config in db.configs ==> fromConfig == Some(ConfigOf(db, from.value)))
  }

  lemma SwapKeepsRows(db: Database, source: Uuid, run: Uuid, now: Time)
    requires run in db.runs && source in db.sources
    ensures var b := Swapped(db, source, run, now); b.occurrences == db.occurrences && b.store == db.store && b.configs == db.configs
  {
  }

  /** What prepare_rollback demands. */
  ghost predicate Preparable(db: Database, source: Uuid) {
    && source in db.sources
    && SlotOf(db, source, Active).Some? && SlotOf(db, source, Previous).Some?
    && db.sources[source].active == SlotOf(db, source, Active)
    && RunReady(db, SlotOf(db, source, Previous).value)
  }

  ghost predicate Describes(db: Database, source: Uuid, key: string, candidate: RollbackCandidate) {
    && SlotOf(db, source, Active) == Some(candidate.active) && SlotOf(db, source, Previous) == Some(candidate.target)
    && candidate.sourceKey == key && IsSource(db, key, source)
    && db.runs[candidate.active].config in db.configs && db.runs[candidate.target].config in db.configs
    && candidate.activeConfig == ConfigOf(db, candidate.active) && candidate.targetConfig == ConfigOf(db, candidate.target)
    && candidate.snapshot == db.configs[db.runs[candidate.target].config].snapshot
  }

  /** The candidate's identities still are the source's two generations. */
  ghost predicate Current(db: Database, source: Uuid, candidate: RollbackCandidate) {
    && IsSource(db, candidate.sourceKey, source) && MayRollBack(db, source, candidate.active, candidate.target)
    && db.runs[candidate.active].config in db.configs && db.runs[candidate.target].config in db.configs
    && candidate.activeConfig == ConfigOf(db, candidate.active) && candidate.targetConfig == ConfigOf(db, candidate.target)
  }
}
