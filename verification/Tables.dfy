/** The persisted tables and the constraints the database itself enforces.

    A table with a unique natural key is a map from that key; the other tables are
    maps from row identities.  Hashes are injective constructors over what they hash. */
module Tables {
  import opened Basics
  import opened Text
  import opened Documents
  import opened ArtifactIdentity

  type Time = int

  // ---------------------------------------------------------------- hashed values

  /** SHA-256 of the document bytes; strict UTF-8 decoding is injective. */
  datatype ContentHash = Sha256OfText(text: string)

  datatype Descriptor = Descriptor(modelName: string, revision: string, dimension: nat)

  /** The document half of an embedding configuration. */
  datatype DocumentConfig = DocumentConfig(descriptor: Descriptor, adapter: string)

  datatype EmbeddingHash = Sha256OfDocumentConfig(document: DocumentConfig)

  datatype Snapshot = Snapshot(
    parserVersion: string, chunkConfigHash: string, tokenizer: string,
    document: DocumentConfig, queryInstruction: string, rrf: string)

  datatype ConfigHash = Sha256OfSnapshot(snapshot: Snapshot)

  // ---------------------------------------------------------------- rows

  datatype Status = Building | Ready | Active | Previous | Archived | Failed

  datatype FailureCode = DecodeFailure | ParseFailure | EmbeddingFailure | InvariantFailure

  datatype Stats = Stats(occurrences: int, uniqueContents: int, excluded: int, empty: int, failure: Option<FailureCode>)

  datatype Source = Source(key: string, active: Option<Uuid>)

  datatype Config = Config(hash: ConfigHash, snapshot: Snapshot)

  datatype Run = Run(
    source: Uuid, config: Uuid, commit: string, status: Status,
    activatedAt: Option<Time>, stats: Option<Stats>)

  datatype Content = Content(hash: ContentHash, text: string)

  datatype OccurrenceKey = OccurrenceKey(run: Uuid, path: string)

  datatype Metadata = Metadata(fields: seq<string>)

  datatype Occurrence = Occurrence(content: Uuid, metadata: Metadata)

  datatype ParseKey = ParseKey(content: Uuid, parserVersion: string, chunkConfigHash: string)

  datatype SectionRow = SectionRow(
    parse: ParseKey, parent: Option<Uuid>, ordinal: int, level: int, heading: Option<string>,
    headingPath: seq<string>, body: string, lineStart: int, lineEnd: int)

  datatype ChunkRow = ChunkRow(section: Uuid, draft: ChunkDraft)

  /** A vector coordinate: not storable, or a float64 split into its float32 rounding
      and the residue that rounding drops. */
  datatype Coordinate = NotFinite | Overflow | Finite(float32: int, residue: int)

  type Vector = seq<Coordinate>

  datatype EmbeddingKey = EmbeddingKey(chunk: Uuid, config: EmbeddingHash)

  datatype EmbeddingRow = EmbeddingRow(descriptor: Descriptor, vector: Vector)

  /** Shared content and everything derived from it. */
  datatype Store = Store(
    contents: map<Uuid, Content>,
    parses: map<ParseKey, Manifest>,
    sections: map<Uuid, SectionRow>,
    chunks: map<Uuid, ChunkRow>,
    embeddings: map<EmbeddingKey, EmbeddingRow>)

  datatype Database = Database(
    sources: map<Uuid, Source>,
    configs: map<Uuid, Config>,
    runs: map<Uuid, Run>,
    occurrences: map<OccurrenceKey, Occurrence>,
    store: Store)

  // ---------------------------------------------------------------- constraints

  ghost predicate ContentsSchema(contents: map<Uuid, Content>, parses: map<ParseKey, Manifest>) {
    && (forall i, j :: i in contents && j in contents && contents[i].hash == contents[j].hash ==> i == j)
    && (forall key :: key in parses ==> key.content in contents && 0 < parses[key].sectionCount)
  }

  predicate SectionChecks(row: SectionRow) {
    0 <= row.ordinal && 0 <= row.level <= 6 && LineRange(row.lineStart, row.lineEnd)
  }

  predicate SameOrdinal(a: SectionRow, b: SectionRow) {
    a.parse == b.parse && a.ordinal == b.ordinal
  }

  ghost predicate SectionsSchema(parses: map<ParseKey, Manifest>, sections: map<Uuid, SectionRow>) {
    && (forall id :: id in sections ==> sections[id].parse in parses && SectionChecks(sections[id]))
    && (forall id :: id in sections && sections[id].parent.Some? ==>
          sections[id].parent.value in sections && sections[sections[id].parent.value].parse == sections[id].parse)
    && (forall i, j :: i in sections && j in sections && SameOrdinal(sections[i], sections[j]) ==> i == j)
  }

  predicate ChunkChecks(row: ChunkRow) {
    && 0 <= row.draft.ordinal && 0 <= row.draft.tokenCount
    && LineRange(row.draft.lineStart, row.draft.lineEnd) && IsSha256(row.draft.chunkHash)
  }

  predicate SameChunkOrdinal(a: ChunkRow, b: ChunkRow) {
    a.section == b.section && a.draft.ordinal == b.draft.ordinal
  }

  ghost predicate ChunksSchema(sections: map<Uuid, SectionRow>, chunks: map<Uuid, ChunkRow>) {
    && (forall id :: id in chunks ==> chunks[id].section in sections && ChunkChecks(chunks[id]))
    && (forall i, j :: i in chunks && j in chunks && SameChunkOrdinal(chunks[i], chunks[j]) ==> i == j)
  }

  ghost predicate EmbeddingsSchema(chunks: map<Uuid, ChunkRow>, embeddings: map<EmbeddingKey, EmbeddingRow>) {
    forall key :: key in embeddings ==>
      key.chunk in chunks && |embeddings[key].vector| == embeddings[key].descriptor.dimension
  }

  ghost predicate StoreSchema(st: Store) {
    match st
    case Store(contents, parses, sections, chunks, embeddings) =>
      && ContentsSchema(contents, parses) && SectionsSchema(parses, sections)
      && ChunksSchema(sections, chunks) && EmbeddingsSchema(chunks, embeddings)
  }

  predicate SameSlot(a: Run, b: Run, status: Status) {
    a.source == b.source && a.status == status && b.status == status
  }

  /** At most one run of each source holds the given status. */
  ghost predicate OneSlot(runs: map<Uuid, Run>, status: Status) {
    forall i, j :: i in runs && j in runs && SameSlot(runs[i], runs[j], status) ==> i == j
  }

  predicate NeedsActivation(status: Status) {
    status.Active? || status.Previous? || status.Archived?
  }

  ghost predicate SourcesSchema(sources: map<Uuid, Source>, runs: map<Uuid, Run>) {
    && (forall s :: s in sources && sources[s].active.Some? ==>
          sources[s].active.value in runs && runs[sources[s].active.value].source == s)
    && (forall s, t :: s in sources && t in sources && sources[s].key == sources[t].key ==> s == t)
  }

  ghost predicate RunsSchema(sources: map<Uuid, Source>, configs: map<Uuid, Config>, runs: map<Uuid, Run>) {
    && (forall id :: id in runs ==> runs[id].source in sources && runs[id].config in configs)
    && (forall id :: id in runs && NeedsActivation(runs[id].status) ==> runs[id].activatedAt.Some?)
    && OneSlot(runs, Active) && OneSlot(runs, Previous)
  }

  ghost predicate OccurrencesSchema(runs: map<Uuid, Run>, occurrences: map<OccurrenceKey, Occurrence>, contents: map<Uuid, Content>) {
    forall key :: key in occurrences ==> key.run in runs && occurrences[key].content in contents
  }

  /** Everything the database checks at every flush. */
  ghost predicate Schema(db: Database) {
    match db
    case Database(sources, configs, runs, occurrences, store) =>
      && SourcesSchema(sources, runs) && RunsSchema(sources, configs, runs)
      && OccurrencesSchema(runs, occurrences, store.contents) && StoreSchema(store)
  }

  /** The unit of work: pending row changes live in `db`; `flushed` records every state
      sent to the database, and a flush demands the constraints. */
  class Session {
    var db: Database
    ghost var flushed: seq<Database>

    constructor (db: Database)
      ensures this.db == db && flushed == []
    {
      this.db, flushed := db, [];
    }

    ghost predicate Consistent()
      reads this
    {
      forall i :: 0 <= i < |flushed| ==> Schema(flushed[i])
    }

    /** Every flushed state and the pending one satisfy the constraints. */
    ghost predicate Sound()
      reads this
    {
      Consistent() && Schema(db)
    }

    method Flush()
      requires Schema(db) && Consistent()
      modifies this`flushed
      ensures flushed == old(flushed) + [db] && Consistent()
    {
      flushed := flushed + [db];
    }
  }
}
