/** The rollback artifact check, declaratively: everything a run needs to be served. */
module Readiness {
  import opened Basics
  import opened Text
  import opened Documents
  import opened ArtifactIdentity
  import opened Tables
  import opened StoredParses
  import opened StoreFrames
  import opened VectorStore

  function ParseKeyOf(snapshot: Snapshot, content: Uuid): ParseKey {
    ParseKey(content, snapshot.parserVersion, snapshot.chunkConfigHash)
  }

  /** Exactly one ready embedding under the configuration: its key is unique, so it
      must exist and name the configured model. */
  predicate Embedded(st: Store, document: DocumentConfig, chunk: Uuid) {
    KeyOf(chunk, document) in st.embeddings && st.embeddings[KeyOf(chunk, document)].descriptor == document.descriptor
  }

  predicate AllEmbedded(st: Store, document: DocumentConfig, key: ParseKey) {
    forall id :: id in ChunksOf(st, key) ==> Embedded(st, document, id)
  }

  /** A document with text has a sound parse whose chunks are all embedded; a blank
      document has no parse at all. */
  predicate ContentReady(st: Store, snapshot: Snapshot, content: Uuid) {
    match snapshot
    case Snapshot(_, _, _, document, _, _) =>
      var key := ParseKeyOf(snapshot, content);
      && content in st.contents
      && if Blank(st.contents[content].text) then key !in st.parses
         else ParseSound(st, key) && AllEmbedded(st, document, key)
  }

  function RunKeys(db: Database, run: Uuid): set<OccurrenceKey> {
    set key | key in db.occurrences && key.run == run
  }

  function RunContents(db: Database, run: Uuid): set<Uuid> {
    set key | key in RunKeys(db, run) :: db.occurrences[key].content
  }

  predicate IsBlank(db: Database, content: Uuid) {
    content in db.store.contents && Blank(db.store.contents[content].text)
  }

  function BlankKeys(db: Database, run: Uuid): set<OccurrenceKey> {
    set key | key in RunKeys(db, run) && IsBlank(db, db.occurrences[key].content)
  }

  /** The recorded statistics are those of the run's own occurrences. */
  predicate StatsMatch(db: Database, run: Uuid, stats: Stats) {
    && stats.occurrences == |RunKeys(db, run)|
    && stats.uniqueContents == |RunContents(db, run)|
    && stats.empty == |BlankKeys(db, run)|
  }

  predicate ArtifactsReady(db: Database, run: Uuid, snapshot: Snapshot) {
    forall c :: c in RunContents(db, run) ==> ContentReady(db.store, snapshot, c)
  }

  /** What prepare_rollback demands of its target's artifacts. */
  predicate RunReady(db: Database, run: Uuid) {
    match db
    case Database(_, configs, runs, _, _) =>
      && run in runs && runs[run].config in configs
      && runs[run].stats.Some? && StatsMatch(db, run, runs[run].stats.value)
      && var snapshot := configs[runs[run].config].snapshot;
         !Blank(snapshot.parserVersion) && IsSha256(snapshot.chunkConfigHash) && ArtifactsReady(db, run, snapshot)
  }

  // ---------------------------------------------------------------- what keeps content ready

  /** Growing the store keeps parsed content ready; blank content stays ready as long
      as nothing is parsed for it. */
  lemma ExtendsKeepsReady(a: Store, b: Store, snapshot: Snapshot, content: Uuid)
    requires Extends(a, b) && ContentReady(a, snapshot, content)
    requires Blank(a.contents[content].text) ==> ParseKeyOf(snapshot, content) !in b.parses
    ensures ContentReady(b, snapshot, content)
  {
    if !Blank(a.contents[content].text) {
      var key := ParseKeyOf(snapshot, content);
      assert key in a.parses;
      ExtendsKeepsParse(a, b, key);
      SameParseFind(a, b, key);
      hide ParseSound;
    }
  }

  lemma DeleteKeepsReady(st: Store, dead: set<Uuid>, snapshot: Snapshot, content: Uuid)
    requires ContentReady(st, snapshot, content) && content !in dead
    ensures ContentReady(DeleteContents(st, dead), snapshot, content)
  {
    var key, b := ParseKeyOf(snapshot, content), DeleteContents(st, dead);
    DeleteKeepsParse(st, dead, key);
    SameParseFind(st, b, key);
    hide ParseSound, DeadSections, DeadChunks, DeadEmbeddings;
    if !Blank(st.contents[content].text) {
      forall id | id in ChunksOf(b, key) ensures Embedded(b, snapshot.document, id) {
        assert Embedded(st, snapshot.document, id);
        assert EmbeddingKey(id, Sha256OfDocumentConfig(snapshot.document)) in st.embeddings;
      }
    }
  }

  // ---------------------------------------------------------------- what keeps a run ready

  /** A run stays ready when its row, occurrences and configuration are kept, and the
      contents it uses stay ready with the same text. */
  lemma RunStaysReady(a: Database, b: Database, run: Uuid)
    requires RunReady(a, run)
    requires run in b.runs && b.runs[run].config == a.runs[run].config && b.runs[run].stats == a.runs[run].stats
    requires a.runs[run].config in b.configs && b.configs[a.runs[run].config] == a.configs[a.runs[run].config]
    requires forall key :: key in RunKeys(a, run) ==> key in b.occurrences && b.occurrences[key] == a.occurrences[key]
    requires RunKeys(b, run) <= RunKeys(a, run)
    requires forall c :: c in RunContents(a, run) ==>
               && c in b.store.contents && b.store.contents[c] == a.store.contents[c]
               && ContentReady(b.store, a.configs[a.runs[run].config].snapshot, c)
    ensures RunReady(b, run)
  {
    hide ContentReady;
    assert RunKeys(a, run) == RunKeys(b, run);
    assert RunContents(a, run) == RunContents(b, run);
    forall key | key in RunKeys(a, run)
      ensures IsBlank(a, a.occurrences[key].content) == IsBlank(b, b.occurrences[key].content)
    {
      assert a.occurrences[key].content in RunContents(a, run);
      assert ContentReady(a.store, a.configs[a.runs[run].config].snapshot, a.occurrences[key].content);
      ReadyIsStored(a.store, a.configs[a.runs[run].config].snapshot, a.occurrences[key].content);
    }
    assert BlankKeys(a, run) == BlankKeys(b, run);
  }

  lemma ReadyIsStored(st: Store, snapshot: Snapshot, content: Uuid)
    requires ContentReady(st, snapshot, content)
    ensures content in st.contents
  {
  }
}
