/** The generation lifecycle as table updates: which states each transition passes
    through, and the constraints every one of them keeps. */
module Transitions {
  import opened Basics
  import opened Tables
  import opened StoredParses
  import opened StoreFrames
  import opened Readiness

  predicate Holds(db: Database, source: Uuid, run: Uuid, status: Status) {
    run in db.runs && db.runs[run].source == source && db.runs[run].status == status
  }

  /** The run of a source in a unique slot, if any. */
  ghost function SlotOf(db: Database, source: Uuid, status: Status): (run: Option<Uuid>)
    ensures run.Some? ==> Holds(db, source, run.value, status)
    ensures run.None? ==> forall id :: !Holds(db, source, id, status)
  {
    if exists id :: Holds(db, source, id, status) then
      var id :| Holds(db, source, id, status);
      Some(id)
    else None
  }

  predicate UniqueSlot(status: Status) {
    status.Active? || status.Previous?
  }

  lemma SlotIsUnique(db: Database, source: Uuid, run: Uuid, status: Status)
    requires Schema(db) && UniqueSlot(status) && Holds(db, source, run, status)
    ensures SlotOf(db, source, status) == Some(run)
  {
    hide SourcesSchema, OccurrencesSchema, StoreSchema;
    assert RunsSchema(db.sources, db.configs, db.runs);
    var other := SlotOf(db, source, status).value;
    assert SameSlot(db.runs[other], db.runs[run], status);
  }

  // ---------------------------------------------------------------- single updates

  function SetStatus(db: Database, run: Uuid, status: Status): Database
    requires run in db.runs
  {
    db.(runs := db.runs[run := db.runs[run].(status := status)])
  }

  /** The run becomes ACTIVE now, and its source points at it. */
  function Promote(db: Database, source: Uuid, run: Uuid, now: Time): Database
    requires run in db.runs && source in db.sources
  {
    db.(runs := db.runs[run := db.runs[run].(status := Active, activatedAt := Some(now))],
        sources := db.sources[source := db.sources[source].(active := Some(run))])
  }

  lemma PutKeepsSlot(runs: map<Uuid, Run>, id: Uuid, row: Run, status: Status)
    requires OneSlot(runs, status)
    requires row.status == status ==> forall i :: i in runs && i != id && runs[i].source == row.source ==> runs[i].status != status
    ensures OneSlot(runs[id := row], status)
  {
    var put := runs[id := row];
    forall i, j | i in put && j in put && SameSlot(put[i], put[j], status) ensures i == j {
      if i != id && j != id { assert SameSlot(runs[i], runs[j], status); }
    }
  }

  lemma NotHeld(db: Database, source: Uuid, run: Uuid, status: Status)
    requires forall id :: id != run ==> !Holds(db, source, id, status)
    ensures forall i :: i in db.runs && i != run && db.runs[i].source == source ==> db.runs[i].status != status
  {
    forall i | i in db.runs && i != run && db.runs[i].source == source ensures db.runs[i].status != status {
      assert !Holds(db, source, i, status);
    }
  }

  lemma SetStatusSchema(db: Database, run: Uuid, status: Status)
    requires Schema(db) && run in db.runs
    requires NeedsActivation(status) ==> db.runs[run].activatedAt.Some?
    requires UniqueSlot(status) ==> forall id :: id != run ==> !Holds(db, db.runs[run].source, id, status)
    ensures Schema(SetStatus(db, run, status))
  {
    hide StoreSchema;
    var b := SetStatus(db, run, status);
    assert RunsSchema(db.sources, db.configs, db.runs) && SourcesSchema(db.sources, db.runs);
    assert OccurrencesSchema(b.runs, b.occurrences, b.store.contents);
    if UniqueSlot(status) { NotHeld(db, db.runs[run].source, run, status); }
    PutKeepsSlot(db.runs, run, b.runs[run], Active);
    PutKeepsSlot(db.runs, run, b.runs[run], Previous);
    hide OneSlot;
    assert RunsSchema(b.sources, b.configs, b.runs);
    assert SourcesSchema(b.sources, b.runs);
  }

  lemma PromoteSchema(db: Database, source: Uuid, run: Uuid, now: Time)
    requires Schema(db) && run in db.runs && source in db.sources && db.runs[run].source == source
    requires forall id :: !Holds(db, source, id, Active)
    ensures Schema(Promote(db, source, run, now))
  {
    hide StoreSchema;
    var b := Promote(db, source, run, now);
    assert RunsSchema(db.sources, db.configs, db.runs) && SourcesSchema(db.sources, db.runs);
    assert OccurrencesSchema(b.runs, b.occurrences, b.store.contents);
    NotHeld(db, source, run, Active);
    PutKeepsSlot(db.runs, run, b.runs[run], Active);
    PutKeepsSlot(db.runs, run, b.runs[run], Previous);
    hide OneSlot;
    assert RunsSchema(b.sources, b.configs, b.runs);
    assert SourcesSchema(b.sources, b.runs);
  }

  lemma HasActivation(db: Database, run: Uuid)
    requires Schema(db) && run in db.runs && NeedsActivation(db.runs[run].status)
    ensures db.runs[run].activatedAt.Some?
  {
    assert RunsSchema(db.sources, db.configs, db.runs);
    hide StoreSchema, SourcesSchema, OccurrencesSchema;
  }

  // ---------------------------------------------------------------- activation

  function SetSlot(db: Database, run: Option<Uuid>, status: Status): Database
    requires run.Some? ==> run.value in db.runs
  {
    if run.None? then db else SetStatus(db, run.value, status)
  }

  /** The generations after activation, before pruning. */
  ghost function Swapped(db: Database, source: Uuid, run: Uuid, now: Time): Database
    requires run in db.runs && source in db.sources
  {
    var archived := SetSlot(db, SlotOf(db, source, Previous), Archived);
    var demoted := SetSlot(archived, SlotOf(db, source, Active), Previous);
    Promote(demoted, source, run, now)
  }

  function Referenced(occurrences: map<OccurrenceKey, Occurrence>): set<Uuid> {
    set key | key in occurrences :: occurrences[key].content
  }

  function DropOccurrences(db: Database, run: Uuid): Database {
    db.(occurrences := db.occurrences - RunKeys(db, run))
  }

  /** The contents the run used and no other run does. */
  function Orphans(db: Database, run: Uuid): set<Uuid> {
    RunContents(db, run) - Referenced(DropOccurrences(db, run).occurrences)
  }

  /** The run's occurrences are gone, and with them what only it used. */
  function Pruned(db: Database, run: Uuid): Database {
    DropOccurrences(db, run).(store := DeleteContents(db.store, Orphans(db, run)))
  }

  ghost function Activated(db: Database, source: Uuid, run: Uuid, now: Time): Database
    requires run in db.runs && source in db.sources
  {
    var swapped := Swapped(db, source, run, now);
    if SlotOf(db, source, Previous).Some? then Pruned(swapped, SlotOf(db, source, Previous).value) else swapped
  }

  ghost predicate MayActivate(db: Database, source: Uuid, run: Uuid) {
    && source in db.sources && Holds(db, source, run, Ready)
    && db.sources[source].active == SlotOf(db, source, Active)
    && (SlotOf(db, source, Active).None? ==> SlotOf(db, source, Previous).None?)
  }

  lemma DropSchema(db: Database, run: Uuid)
    requires Schema(db)
    ensures Schema(DropOccurrences(db, run))
  {
    hide StoreSchema, SourcesSchema, RunsSchema;
  }

  lemma DeleteSchema(db: Database, dead: set<Uuid>)
    requires Schema(db) && dead !! Referenced(db.occurrences)
    ensures Schema(db.(store := DeleteContents(db.store, dead)))
  {
    DeleteKeepsSchema(db.store, dead);
    var contents := DeleteContents(db.store, dead).contents;
    assert OccurrencesSchema(db.runs, db.occurrences, contents) by {
      hide StoreSchema, SourcesSchema, RunsSchema, DeadParses, DeadSections, DeadChunks, DeadEmbeddings;
      forall key | key in db.occurrences ensures db.occurrences[key].content in contents {
        assert db.occurrences[key].content in Referenced(db.occurrences);
      }
    }
    hide StoreSchema, SourcesSchema, RunsSchema, OccurrencesSchema, DeleteContents;
  }

  /** Each flushed state of an activation satisfies the constraints. */
  lemma SwapSchema(db: Database, source: Uuid, run: Uuid, now: Time)
    requires Schema(db) && MayActivate(db, source, run)
    ensures var archived := SetSlot(db, SlotOf(db, source, Previous), Archived);
            var demoted := SetSlot(archived, SlotOf(db, source, Active), Previous);
            Schema(archived) && Schema(demoted) && Schema(Swapped(db, source, run, now))
  {
    hide Schema;
    var previous, active := SlotOf(db, source, Previous), SlotOf(db, source, Active);
    var archived := SetSlot(db, previous, Archived);
    if previous.Some? {
      HasActivation(db, previous.value);
      SetStatusSchema(db, previous.value, Archived);
    }
    forall id ensures !Holds(archived, source, id, Previous) {
      if Holds(archived, source, id, Previous) { SlotIsUnique(db, source, id, Previous); }
    }
    var demoted := SetSlot(archived, active, Previous);
    if active.Some? {
      HasActivation(archived, active.value);
      SetStatusSchema(archived, active.value, Previous);
    }
    forall id ensures !Holds(demoted, source, id, Active) {
      if Holds(demoted, source, id, Active) { SlotIsUnique(db, source, id, Active); }
    }
    PromoteSchema(demoted, source, run, now);
  }

  // ---------------------------------------------------------------- rollback

  /** The two generations change places; the target is ARCHIVED in passing, which frees
      the unique PREVIOUS slot. */
  function RollbackStages(db: Database, source: Uuid, active: Uuid, target: Uuid, now: Time): (Database, Database, Database)
    requires active in db.runs && target in db.runs && source in db.sources
  {
    var parked := SetStatus(db, target, Archived);
    var demoted := SetStatus(parked, active, Previous);
    (parked, demoted, Promote(demoted, source, target, now))
  }

  function RolledBack(db: Database, source: Uuid, active: Uuid, target: Uuid, now: Time): Database
    requires active in db.runs && target in db.runs && source in db.sources
  {
    RollbackStages(db, source, active, target, now).2
  }

  ghost predicate MayRollBack(db: Database, source: Uuid, active: Uuid, target: Uuid) {
    && source in db.sources
    && Holds(db, source, active, Active) && Holds(db, source, target, Previous)
    && db.sources[source].active == Some(active)
  }

  lemma RollbackSchema(db: Database, source: Uuid, active: Uuid, target: Uuid, now: Time)
    requires Schema(db) && MayRollBack(db, source, active, target)
    ensures var s := RollbackStages(db, source, active, target, now); Schema(s.0) && Schema(s.1) && Schema(s.2)
  {
    hide Schema;
    HasActivation(db, target);
    HasActivation(db, active);
    var parked := SetStatus(db, target, Archived);
    SetStatusSchema(db, target, Archived);
    forall id ensures !Holds(parked, source, id, Previous) {
      if Holds(parked, source, id, Previous) {
        SlotIsUnique(db, source, id, Previous);
        SlotIsUnique(db, source, target, Previous);
      }
    }
    var demoted := SetStatus(parked, active, Previous);
    SetStatusSchema(parked, active, Previous);
    forall id ensures !Holds(demoted, source, id, Active) {
      if Holds(demoted, source, id, Active) {
        SlotIsUnique(db, source, id, Active);
        SlotIsUnique(db, source, active, Active);
      }
    }
    PromoteSchema(demoted, source, target, now);
  }
}
