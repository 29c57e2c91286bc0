/** Theorems about every history of builds, activations and rollbacks. */
module Histories {
  import opened Basics
  import opened Text
  import opened Tables
  import opened StoredParses
  import opened StoreFrames
  import opened StoreInvariant
  import opened VectorStore
  import opened Readiness
  import opened IndexRepository
  import opened Transitions
  import opened Lifecycle

  datatype Event =
    | Activation(source: Uuid, run: Uuid, now: Time)
    | Rollback(source: Uuid, active: Uuid, target: Uuid, now: Time)
    | Build(binding: Binding, commit: string, result: IndexResult)
    | RegisterSource(id: Uuid, key: string)
    | RegisterConfig(id: Uuid, config: Config)
    | Refusal

  /** One committed transaction: a transition, a completed build, a newly registered source
      or configuration, or a refused request. */
  ghost predicate Step(a: Database, event: Event, b: Database) {
    match event
    case Activation(source, run, now) => MayActivate(a, source, run) && b == Activated(a, source, run, now)
    case Rollback(source, active, target, now) =>
      MayRollBack(a, source, active, target) && b == RolledBack(a, source, active, target, now)
    case Build(binding, commit, result) => Built(a, b, binding, commit, result)
    case RegisterSource(id, key) =>
      id !in a.sources && (forall s :: s in a.sources ==> a.sources[s].key != key) && b == a.(sources := a.sources[id := Source(key, None)])
    case RegisterConfig(id, config) => id !in a.configs && b == a.(configs := a.configs[id := config])
    case Refusal => b == a
  }

  ghost predicate History(states: seq<Database>, events: seq<Event>) {
    && |states| == |events| + 1
    && forall i :: 0 <= i < |events| ==> Step(states[i], events[i], states[i + 1])
  }

  lemma StepKeepsInvariant(a: Database, event: Event, b: Database)
    requires Invariant(a) && Step(a, event, b)
    ensures Invariant(b)
  {
    hide Invariant, Activated, RolledBack, Built, MayActivate, MayRollBack;
    match event {
      case Activation(source, run, now) => ActivationKeepsInvariant(a, source, run, now);
      case Rollback(source, active, target, now) => RollbackKeepsInvariant(a, source, active, target, now);
      case Build(binding, commit, result) => BuildKeepsInvariant(a, b, binding, commit, result);
      case RegisterSource(id, key) => SourceKeepsInvariant(a, id, key);
      case RegisterConfig(id, config) => ConfigKeepsInvariant(a, id, config);
      case Refusal =>
    }
  }

  lemma SourceKeepsInvariant(db: Database, id: Uuid, key: string)
    requires Invariant(db) && id !in db.sources && forall s :: s in db.sources ==> db.sources[s].key != key
    ensures Invariant(db.(sources := db.sources[id := Source(key, None)]))
  {
    hide StoreSound, StoreSchema, RunReady, OneSlot;
    var b := db.(sources := db.sources[id := Source(key, None)]);
    assert SourcesSchema(b.sources, b.runs) && RunsSchema(b.sources, b.configs, b.runs);
    assert Consistent(b.sources, b.runs);
    KeptRunsStay(db, b);
  }

  lemma ConfigKeepsInvariant(db: Database, id: Uuid, config: Config)
    requires Invariant(db) && id !in db.configs
    ensures Invariant(db.(configs := db.configs[id := config]))
  {
    hide StoreSound, StoreSchema, RunReady, OneSlot;
    var b := db.(configs := db.configs[id := config]);
    assert RunsSchema(b.sources, b.configs, b.runs);
    KeptRunsStay(db, b);
  }

  /** Readiness only reads the run's own configuration. */
  lemma KeptRunsStay(a: Database, b: Database)
    requires KeptRunsReady(a) && b == Database(b.sources, b.configs, a.runs, a.occurrences, a.store) && SubTable(a.configs, b.configs)
    ensures KeptRunsReady(b)
  {
    hide ArtifactsReady, StatsMatch;
    forall id | id in b.runs && Kept(b.runs[id].status) ensures RunReady(b, id) {
      assert RunReady(a, id);
      SameRows(a, b, id, a.configs[a.runs[id].config].snapshot);
    }
  }

  lemma SameRows(a: Database, b: Database, run: Uuid, snapshot: Snapshot)
    requires b.occurrences == a.occurrences && b.store == a.store
    ensures ArtifactsReady(b, run, snapshot) == ArtifactsReady(a, run, snapshot)
    ensures a.runs == b.runs && run in a.runs && a.runs[run].stats.Some? ==>
              StatsMatch(b, run, a.runs[run].stats.value) == StatsMatch(a, run, a.runs[run].stats.value)
  {
    hide ContentReady;
    assert RunKeys(b, run) == RunKeys(a, run) && RunContents(b, run) == RunContents(a, run) && BlankKeys(b, run) == BlankKeys(a, run);
  }

  /** Nothing has been built yet. */
  predicate Initial(db: Database) {
    && db.runs == map[] && db.occurrences == map[]
    && db.store == Store(map[], map[], map[], map[], map[])
    && (forall s :: s in db.sources ==> db.sources[s].active.None?)
    && (forall s, t :: s in db.sources && t in db.sources && db.sources[s].key == db.sources[t].key ==> s == t)
  }

  lemma InitialInvariant(db: Database)
    requires Initial(db)
    ensures Invariant(db)
  {
    hide ParseSound, RunReady, FindParse;
  }

  /** The invariant holds in every state of every history. */
  lemma {:induction false} InvariantThroughout(states: seq<Database>, events: seq<Event>, i: nat)
    requires History(states, events) && Invariant(states[0]) && i < |states|
    ensures Invariant(states[i])
    decreases i
  {
    hide Invariant, Step;
    if i > 0 {
      InvariantThroughout(states, events, i - 1);
      assert Step(states[i - 1], events[i - 1], states[i]);
      StepKeepsInvariant(states[i - 1], events[i - 1], states[i]);
    }
  }

  // ---------------------------------------------------------------- allowed moves

  /** How the status of an existing run may change in one committed transaction. */
  predicate Move(from: Status, to: Status) {
    || from == to
    || (from.Ready? && to.Active?)
    || (from.Active? && to.Previous?)
    || (from.Previous? && (to.Active? || to.Archived?))
  }

  /** A run is never forgotten, keeps its identity, and makes an allowed move. */
  ghost predicate RunMoves(a: Database, b: Database, id: Uuid) {
    && id in a.runs && id in b.runs
    && b.runs[id].source == a.runs[id].source && b.runs[id].config == a.runs[id].config
    && b.runs[id].commit == a.runs[id].commit && b.runs[id].stats == a.runs[id].stats
    && Move(a.runs[id].status, b.runs[id].status)
  }

  lemma StepMoves(a: Database, event: Event, b: Database, id: Uuid)
    requires Schema(a) && Step(a, event, b) && id in a.runs
    ensures RunMoves(a, b, id)
  {
    hide Schema, Activated, RolledBack;
    match event {
      case Activation(source, run, now) => ActivatedRuns(a, source, run, now);
      case Rollback(source, active, target, now) => RolledBackRuns(a, source, active, target, now);
      case Build(binding, commit, result) => BuiltRuns(a, b, binding, commit, result);
      case RegisterSource(_, _) =>
      case RegisterConfig(_, _) =>
      case Refusal =>
    }
  }

  /** Reachability of statuses by allowed moves: FAILED and ARCHIVED are terminal, READY
      is never entered again, and ACTIVE and PREVIOUS form the only cycle. */
  predicate Reaches(from: Status, to: Status) {
    match from
    case Building => to.Building?
    case Ready => to.Ready? || to.Active? || to.Previous? || to.Archived?
    case Active => to.Active? || to.Previous? || to.Archived?
    case Previous => to.Active? || to.Previous? || to.Archived?
    case Archived => to.Archived?
    case Failed => to.Failed?
  }

  /** Statuses along a history follow `Reaches`; in particular a terminal run never moves. */
  lemma {:induction false} StatusReaches(states: seq<Database>, events: seq<Event>, i: nat, j: nat, id: Uuid)
    requires History(states, events) && Invariant(states[0]) && i <= j < |states| && id in states[i].runs
    ensures id in states[j].runs && states[j].runs[id].config == states[i].runs[id].config
    ensures Reaches(states[i].runs[id].status, states[j].runs[id].status)
    decreases j - i
  {
    hide Invariant, Step, Schema, StoreSound, KeptRunsReady, Consistent;
    if i < j {
      StatusReaches(states, events, i, j - 1, id);
      InvariantThroughout(states, events, j - 1);
      InvariantSchema(states[j - 1]);
      assert Step(states[j - 1], events[j - 1], states[j]);
      StepMoves(states[j - 1], events[j - 1], states[j], id);
    }
  }

  lemma InvariantSchema(db: Database)
    requires Invariant(db)
    ensures Schema(db) && Consistent(db.sources, db.runs) && StoreSound(db.store) && KeptRunsReady(db)
  {
  }

  /** A run once READY passes the rollback artifact check in every later state in which
      it is READY, ACTIVE or PREVIOUS, whatever was built, activated, rolled back or
      pruned meanwhile. */
  lemma ReadyForever(states: seq<Database>, events: seq<Event>, i: nat, j: nat, id: Uuid)
    requires History(states, events) && Invariant(states[0]) && i <= j < |states|
    requires id in states[i].runs && states[i].runs[id].status == Ready
    ensures id in states[j].runs
    ensures states[j].runs[id].status == Archived || RunReady(states[j], id)
  {
    StatusReaches(states, events, i, j, id);
    InvariantThroughout(states, events, j);
    hide Step, RunReady;
    InvariantSchema(states[j]);
    hide Schema, StoreSound, Consistent, Invariant, History;
  }

  /** Every source has at most one ACTIVE and one PREVIOUS run, its pointer is the ACTIVE
      run or empty, PREVIOUS implies ACTIVE, and activation times are set. */
  lemma SlotsThroughout(states: seq<Database>, events: seq<Event>, i: nat, source: Uuid)
    requires History(states, events) && Invariant(states[0]) && i < |states| && source in states[i].sources
    ensures states[i].sources[source].active == SlotOf(states[i], source, Active)
    ensures forall x, y :: Holds(states[i], source, x, Active) && Holds(states[i], source, y, Active) ==> x == y
    ensures forall x, y :: Holds(states[i], source, x, Previous) && Holds(states[i], source, y, Previous) ==> x == y
    ensures SlotOf(states[i], source, Previous).Some? ==> SlotOf(states[i], source, Active).Some?
    ensures forall id :: id in states[i].runs && NeedsActivation(states[i].runs[id].status) ==> states[i].runs[id].activatedAt.Some?
  {
    var db := states[i];
    InvariantThroughout(states, events, i);
    InvariantSchema(db);
    hide Schema, Invariant, History, Step;
    SlotsAgree(db, source);
    forall x, y | Holds(db, source, x, Active) && Holds(db, source, y, Active) ensures x == y {
      SlotIsUnique(db, source, x, Active);
      SlotIsUnique(db, source, y, Active);
    }
    forall x, y | Holds(db, source, x, Previous) && Holds(db, source, y, Previous) ensures x == y {
      SlotIsUnique(db, source, x, Previous);
      SlotIsUnique(db, source, y, Previous);
    }
    forall id | id in db.runs && NeedsActivation(db.runs[id].status) ensures db.runs[id].activatedAt.Some? {
      HasActivation(db, id);
    }
  }

  // ---------------------------------------------------------------- rollback laws

  /** Rolling back twice restores every status and pointer; only the two activation
      times differ. */
  lemma RollbackTwice(db: Database, source: Uuid, active: Uuid, target: Uuid, first: Time, second: Time)
    requires MayRollBack(db, source, active, target)
    ensures MayRollBack(RolledBack(db, source, active, target, first), source, target, active)
    ensures RolledBack(RolledBack(db, source, active, target, first), source, target, active, second)
         == db.(runs := db.runs[active := db.runs[active].(activatedAt := Some(second))][target := db.runs[target].(activatedAt := Some(first))])
  {
    RolledBackRuns(db, source, active, target, first);
    var b := RolledBack(db, source, active, target, first);
    RolledBackRuns(b, source, target, active, second);
    hide RolledBack;
    var c := RolledBack(b, source, target, active, second);
    assert c.sources == db.sources;
    assert c.runs == db.runs[active := db.runs[active].(activatedAt := Some(second))][target := db.runs[target].(activatedAt := Some(first))];
  }

  lemma ActivatedSlots(db: Database, source: Uuid, run: Uuid, former: Uuid, now: Time)
    requires Schema(db) && MayActivate(db, source, run) && SlotOf(db, source, Active) == Some(former)
    requires Schema(Activated(db, source, run, now))
    ensures var b := Activated(db, source, run, now);
            && MayRollBack(b, source, run, former)
            && SlotOf(b, source, Active) == Some(run) && SlotOf(b, source, Previous) == Some(former)
  {
    hide Schema, Activated;
    ActivatedRuns(db, source, run, now);
    var b := Activated(db, source, run, now);
    SlotIsUnique(b, source, run, Active);
    SlotIsUnique(b, source, former, Previous);
  }

  lemma FormerIsReady(db: Database, source: Uuid, run: Uuid, former: Uuid)
    requires Invariant(db) && Holds(db, source, former, Previous)
    ensures RunReady(db, former)
  {
    InvariantSchema(db);
    hide Schema, StoreSound, Consistent, Invariant, RunReady;
  }

  lemma BackToFormer(a: Database, b: Database, source: Uuid, run: Uuid, former: Uuid, later: Time)
    requires source in a.sources && a.sources[source].active == Some(former)
    requires b.sources == a.sources[source := a.sources[source].(active := Some(run))]
    requires MayRollBack(b, source, run, former)
    ensures var c := RolledBack(b, source, run, former, later);
            && c.sources == a.sources
            && c.runs[former] == b.runs[former].(status := Active, activatedAt := Some(later))
            && c.runs[run] == b.runs[run].(status := Previous)
  {
    RolledBackRuns(b, source, run, former, later);
    hide RolledBack;
    assert RolledBack(b, source, run, former, later).sources == a.sources;
  }

  /** The two statuses and the pointer are swapped back, and the former run's row differs
      from before only in its activation time. */
  lemma SwappedBack(db: Database, source: Uuid, run: Uuid, former: Uuid, now: Time, later: Time)
    requires Schema(db) && Consistent(db.sources, db.runs) && MayActivate(db, source, run) && SlotOf(db, source, Active) == Some(former)
    requires MayRollBack(Activated(db, source, run, now), source, run, former)
    ensures var c := RolledBack(Activated(db, source, run, now), source, run, former, later);
            && c.sources == db.sources
            && c.runs[former] == db.runs[former].(activatedAt := Some(later))
            && c.runs[run] == db.runs[run].(status := Previous, activatedAt := Some(now))
  {
    hide Schema, Activated, RolledBack, Consistent;
    ActivatedRuns(db, source, run, now);
    BackToFormer(db, Activated(db, source, run, now), source, run, former, later);
  }

  /** After an activation that replaced an active run, a rollback is possible at once: its
      target passes the artifact check, and it makes the former run active again. */
  lemma ActivateThenRollback(db: Database, source: Uuid, run: Uuid, former: Uuid, now: Time, later: Time)
    requires Invariant(db) && MayActivate(db, source, run) && SlotOf(db, source, Active) == Some(former)
    ensures var b := Activated(db, source, run, now);
            && MayRollBack(b, source, run, former) && RunReady(b, former)
            && SlotOf(b, source, Active) == Some(run) && SlotOf(b, source, Previous) == Some(former)
            && RolledBack(b, source, run, former, later).sources == db.sources
            && RolledBack(b, source, run, former, later).runs[former] == db.runs[former].(activatedAt := Some(later))
            && RolledBack(b, source, run, former, later).runs[run] == db.runs[run].(status := Previous, activatedAt := Some(now))
  {
    hide Schema, Invariant, Activated, StoreSound, RunReady, Consistent, RolledBack, KeptRunsReady, MayRollBack;
    ActivationKeepsInvariant(db, source, run, now);
    InvariantSchema(db);
    InvariantSchema(Activated(db, source, run, now));
    ActivatedSlots(db, source, run, former, now);
    FormerIsReady(Activated(db, source, run, now), source, run, former);
    SwappedBack(db, source, run, former, now, later);
  }

  // ---------------------------------------------------------------- pruning is exact

  /** The run uses the content. */
  ghost predicate Uses(occurrences: map<OccurrenceKey, Occurrence>, run: Uuid, content: Uuid) {
    exists path :: OccurrenceKey(run, path) in occurrences && occurrences[OccurrenceKey(run, path)].content == content
  }

  ghost predicate OnlyUser(occurrences: map<OccurrenceKey, Occurrence>, run: Uuid, content: Uuid) {
    Uses(occurrences, run, content) && forall r :: Uses(occurrences, r, content) ==> r == run
  }

  /** A row derived from a content survives exactly when what it derives from does. */
  ghost predicate DerivedWithContents(a: Store, b: Store) {
    match b
    case Store(contents, parses, sections, chunks, embeddings) =>
      && SubTable(contents, a.contents)
      && SubTable(parses, a.parses)
      && (forall key :: key in a.parses ==> (key in parses <==> key.content in contents))
      && SubTable(sections, a.sections)
      && (forall id :: id in a.sections ==> (id in sections <==> a.sections[id].parse in parses))
      && SubTable(chunks, a.chunks)
      && (forall id :: id in a.chunks ==> (id in chunks <==> a.chunks[id].section in sections))
      && SubTable(embeddings, a.embeddings)
      && (forall key :: key in a.embeddings ==> (key in embeddings <==> key.chunk in chunks))
  }

  /** What an activation that archives `gone` removes: its occurrences, the contents it
      alone used, and what derives from those contents - nothing else. */
  ghost predicate PrunedExactly(a: Database, b: Database, gone: Uuid) {
    && (forall key :: key in b.occurrences <==> key in a.occurrences && key.run != gone)
    && SubTable(b.occurrences, a.occurrences)
    && (forall c :: c in b.store.contents <==> c in a.store.contents && !OnlyUser(a.occurrences, gone, c))
    && DerivedWithContents(a.store, b.store)
  }

  lemma UsesContents(db: Database, run: Uuid, c: Uuid)
    ensures Uses(db.occurrences, run, c) <==> c in RunContents(db, run)
  {
    if c in RunContents(db, run) {
      var key :| key in RunKeys(db, run) && db.occurrences[key].content == c;
      assert key == OccurrenceKey(run, key.path);
    }
    if Uses(db.occurrences, run, c) {
      var path :| OccurrenceKey(run, path) in db.occurrences && db.occurrences[OccurrenceKey(run, path)].content == c;
      assert OccurrenceKey(run, path) in RunKeys(db, run);
    }
  }

  lemma OrphansMean(db: Database, gone: Uuid, c: Uuid)
    ensures c in Orphans(db, gone) <==> OnlyUser(db.occurrences, gone, c)
  {
    UsesContents(db, gone, c);
    var rest := DropOccurrences(db, gone).occurrences;
    if r: Uuid :| Uses(db.occurrences, r, c) && r != gone {
      var path :| OccurrenceKey(r, path) in db.occurrences && db.occurrences[OccurrenceKey(r, path)].content == c;
      assert OccurrenceKey(r, path) in rest;
      assert c in Referenced(rest);
    } else if c in Referenced(rest) {
      var key :| key in rest && rest[key].content == c;
      assert key == OccurrenceKey(key.run, key.path);
      assert Uses(db.occurrences, key.run, c);
    }
  }

  lemma DeletedTables(st: Store, dead: set<Uuid>)
    requires StoreSchema(st)
    ensures DerivedWithContents(st, DeleteContents(st, dead))
  {
    var b := DeleteContents(st, dead);
    DeletedParses(st, dead);
    DeletedSections(st, dead);
    DeletedChunks(st, dead);
    hide DeleteContents, ContentsSchema, SectionsSchema, ChunksSchema, EmbeddingsSchema;
  }

  lemma DeletedParses(st: Store, dead: set<Uuid>)
    requires StoreSchema(st)
    ensures var b := DeleteContents(st, dead);
            && SubTable(b.contents, st.contents) && SubTable(b.parses, st.parses)
            && (forall key :: key in st.parses ==> (key in b.parses <==> key.content in b.contents))
  {
    hide SectionsSchema, ChunksSchema, EmbeddingsSchema, DeadSections, DeadChunks, DeadEmbeddings;
  }

  lemma DeletedSections(st: Store, dead: set<Uuid>)
    requires StoreSchema(st)
    ensures var b := DeleteContents(st, dead);
            && SubTable(b.sections, st.sections)
            && (forall id :: id in st.sections ==> (id in b.sections <==> st.sections[id].parse in b.parses))
  {
    hide ContentsSchema, ChunksSchema, EmbeddingsSchema, DeadChunks, DeadEmbeddings, SectionChecks, SameOrdinal;
  }

  lemma DeletedChunks(st: Store, dead: set<Uuid>)
    requires StoreSchema(st)
    ensures var b := DeleteContents(st, dead);
            && SubTable(b.chunks, st.chunks)
            && (forall id :: id in st.chunks ==> (id in b.chunks <==> st.chunks[id].section in b.sections))
            && SubTable(b.embeddings, st.embeddings)
            && (forall key :: key in st.embeddings ==> (key in b.embeddings <==> key.chunk in b.chunks))
  {
    hide ContentsSchema, SectionsSchema, DeadParses, DeadSections;
  }

  lemma PrunedTables(db: Database, gone: Uuid)
    requires Schema(db)
    ensures PrunedExactly(db, Pruned(db, gone), gone)
  {
    hide OnlyUser, SourcesSchema, RunsSchema, DerivedWithContents, Orphans, StoreSchema, DeadParses, DeadSections, DeadChunks, DeadEmbeddings;
    var b := Pruned(db, gone);
    forall c ensures c in b.store.contents <==> c in db.store.contents && !OnlyUser(db.occurrences, gone, c) {
      OrphansMean(db, gone, c);
    }
    DeletedTables(db.store, Orphans(db, gone));
    hide DeleteContents;
    assert forall key :: key in b.occurrences <==> key in db.occurrences && key.run != gone;
  }

  /** An activation that archives a PREVIOUS run prunes exactly, and nothing dangles. */
  lemma ActivationPrunesExactly(db: Database, source: Uuid, run: Uuid, gone: Uuid, now: Time)
    requires Schema(db) && MayActivate(db, source, run) && SlotOf(db, source, Previous) == Some(gone)
    ensures PrunedExactly(db, Activated(db, source, run, now), gone)
    ensures Schema(Activated(db, source, run, now))
  {
    hide Schema, Pruned, PrunedExactly, Swapped;
    ActivatedSchema(db, source, run, now);
    SwapSchema(db, source, run, now);
    var swapped := Swapped(db, source, run, now);
    PrunedTables(swapped, gone);
    SameTables(db, swapped, Pruned(swapped, gone), source, run, now, gone);
  }

  lemma SameTables(db: Database, swapped: Database, b: Database, source: Uuid, run: Uuid, now: Time, gone: Uuid)
    requires source in db.sources && run in db.runs && swapped == Swapped(db, source, run, now)
    requires PrunedExactly(swapped, b, gone)
    ensures PrunedExactly(db, b, gone)
  {
    assert swapped.occurrences == db.occurrences && swapped.store == db.store;
    hide Swapped, OnlyUser, DerivedWithContents;
  }

  /** Without a PREVIOUS run an activation removes nothing. */
  lemma FirstActivationsPruneNothing(db: Database, source: Uuid, run: Uuid, now: Time)
    requires MayActivate(db, source, run) && SlotOf(db, source, Previous).None?
    ensures var b := Activated(db, source, run, now); b.occurrences == db.occurrences && b.store == db.store
  {
  }

  /** The stored artifacts of every content another run uses are untouched by pruning. */
  lemma OthersArtifactsKept(db: Database, gone: Uuid, other: Uuid, key: ParseKey)
    requires other != gone && key.content in RunContents(db, other)
    ensures SameParse(db.store, Pruned(db, gone).store, key)
    ensures forall id, h :: id in ChunksOf(db.store, key) && EmbeddingKey(id, h) in db.store.embeddings ==>
              EmbeddingKey(id, h) in Pruned(db, gone).store.embeddings
              && Pruned(db, gone).store.embeddings[EmbeddingKey(id, h)] == db.store.embeddings[EmbeddingKey(id, h)]
  {
    UsesContents(db, other, key.content);
    OrphansMean(db, gone, key.content);
    hide Orphans, DeadParses, DeadSections, DeadChunks, DeadEmbeddings, SameParse, ChunksOf, Uses;
    DeleteKeepsParse(db.store, Orphans(db, gone), key);
  }
}
