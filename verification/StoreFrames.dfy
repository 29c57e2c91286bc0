/** How the shared store may change: builders only add rows, pruning only removes
    contents with everything derived from them. */
module StoreFrames {
  import opened Basics
  import opened Tables
  import opened StoredParses

  // ---------------------------------------------------------------- growth

  /** Rows are only added, and never to a parse that already exists. */
  ghost predicate Extends(a: Store, b: Store) {
    && SubTable(a.contents, b.contents)
    && SubTable(a.parses, b.parses)
    && SubTable(a.sections, b.sections)
    && SubTable(a.chunks, b.chunks)
    && SubTable(a.embeddings, b.embeddings)
    && (forall id :: id in b.sections && id !in a.sections ==> b.sections[id].parse !in a.parses)
    && (forall id :: id in b.chunks && id !in a.chunks ==> b.chunks[id].section !in a.sections)
  }

  lemma ExtendsTransitive(a: Store, b: Store, c: Store)
    requires Extends(a, b) && Extends(b, c)
    ensures Extends(a, c)
  {
  }

  lemma ExtendsKeepsParse(a: Store, b: Store, key: ParseKey)
    requires Extends(a, b) && key in a.parses
    ensures SameParse(a, b, key)
  {
    assert SectionsOf(a, key) == SectionsOf(b, key);
    forall id ensures id in ChunksOf(a, key) <==> id in ChunksOf(b, key) {
    }
    assert ChunksOf(a, key) == ChunksOf(b, key);
  }

  // ---------------------------------------------------------------- pruning

  function DeadParses(st: Store, dead: set<Uuid>): set<ParseKey> {
    set key | key in st.parses && key.content in dead
  }

  function DeadSections(st: Store, dead: set<Uuid>): set<Uuid> {
    set id | id in st.sections && st.sections[id].parse.content in dead
  }

  function DeadChunks(st: Store, dead: set<Uuid>): set<Uuid> {
    var gone := DeadSections(st, dead);
    set id | id in st.chunks && st.chunks[id].section in gone
  }

  function DeadEmbeddings(st: Store, dead: set<Uuid>): set<EmbeddingKey> {
    var gone := DeadChunks(st, dead);
    set key | key in st.embeddings && key.chunk in gone
  }

  /** DELETE FROM document_contents with its cascades: parses of the deleted contents,
      their sections, the chunks of those sections, and those chunks' embeddings. */
  function DeleteContents(st: Store, dead: set<Uuid>): Store {
    Store(st.contents - dead, st.parses - DeadParses(st, dead), st.sections - DeadSections(st, dead),
          st.chunks - DeadChunks(st, dead), st.embeddings - DeadEmbeddings(st, dead))
  }

  lemma DeleteKeepsParse(st: Store, dead: set<Uuid>, key: ParseKey)
    requires key.content !in dead
    ensures SameParse(st, DeleteContents(st, dead), key)
    ensures forall id, h :: id in ChunksOf(st, key) && EmbeddingKey(id, h) in st.embeddings ==>
              EmbeddingKey(id, h) in DeleteContents(st, dead).embeddings
              && DeleteContents(st, dead).embeddings[EmbeddingKey(id, h)] == st.embeddings[EmbeddingKey(id, h)]
  {
    var b := DeleteContents(st, dead);
    assert SectionsOf(st, key) == SectionsOf(b, key);
    forall id ensures id in ChunksOf(st, key) <==> id in ChunksOf(b, key) {
    }
    assert ChunksOf(st, key) == ChunksOf(b, key);
  }

  lemma DeleteKeepsContents(st: Store, dead: set<Uuid>)
    requires ContentsSchema(st.contents, st.parses)
    ensures var b := DeleteContents(st, dead); ContentsSchema(b.contents, b.parses)
  {
    hide DeadSections, DeadChunks, DeadEmbeddings;
  }

  lemma DeleteKeepsSections(st: Store, dead: set<Uuid>)
    requires SectionsSchema(st.parses, st.sections)
    ensures var b := DeleteContents(st, dead); SectionsSchema(b.parses, b.sections)
  {
    hide DeadChunks, DeadEmbeddings;
  }

  lemma DeleteKeepsChunks(st: Store, dead: set<Uuid>)
    requires ChunksSchema(st.sections, st.chunks)
    ensures var b := DeleteContents(st, dead); ChunksSchema(b.sections, b.chunks)
  {
  }

  lemma DeleteKeepsEmbeddings(st: Store, dead: set<Uuid>)
    requires EmbeddingsSchema(st.chunks, st.embeddings)
    ensures var b := DeleteContents(st, dead); EmbeddingsSchema(b.chunks, b.embeddings)
  {
    hide DeadChunks;
  }

  lemma DeleteKeepsSchema(st: Store, dead: set<Uuid>)
    requires StoreSchema(st)
    ensures StoreSchema(DeleteContents(st, dead))
  {
    DeleteKeepsContents(st, dead);
    DeleteKeepsSections(st, dead);
    DeleteKeepsChunks(st, dead);
    DeleteKeepsEmbeddings(st, dead);
    hide DeleteContents, ContentsSchema, SectionsSchema, ChunksSchema, EmbeddingsSchema;
  }

  lemma DeadInTwoSteps(st: Store, first: set<Uuid>, second: set<Uuid>)
    requires StoreSchema(st)
    ensures var a := DeleteContents(st, first);
            && DeadParses(st, first + second) == DeadParses(st, first) + DeadParses(a, second)
            && DeadSections(st, first + second) == DeadSections(st, first) + DeadSections(a, second)
            && DeadChunks(st, first + second) == DeadChunks(st, first) + DeadChunks(a, second)
            && DeadEmbeddings(st, first + second) == DeadEmbeddings(st, first) + DeadEmbeddings(a, second)
  {
    hide ContentsSchema, SectionsSchema;
    var a := DeleteContents(st, first);
    assert DeadSections(st, first + second) == DeadSections(st, first) + DeadSections(a, second);
    assert DeadChunks(st, first + second) == DeadChunks(st, first) + DeadChunks(a, second);
    hide DeadSections, DeadChunks;
    assert DeadEmbeddings(st, first + second) == DeadEmbeddings(st, first) + DeadEmbeddings(a, second);
  }

  lemma RemoveTwice<K, V>(m: map<K, V>, first: set<K>, second: set<K>)
    ensures m - first - second == m - (first + second)
  {
  }

  /** Deleting in two steps is deleting once. */
  lemma DeleteTwice(st: Store, first: set<Uuid>, second: set<Uuid>)
    requires StoreSchema(st)
    ensures DeleteContents(DeleteContents(st, first), second) == DeleteContents(st, first + second)
  {
    var a := DeleteContents(st, first);
    DeadInTwoSteps(st, first, second);
    RemoveTwice(st.contents, first, second);
    RemoveTwice(st.parses, DeadParses(st, first), DeadParses(a, second));
    RemoveTwice(st.sections, DeadSections(st, first), DeadSections(a, second));
    RemoveTwice(st.chunks, DeadChunks(st, first), DeadChunks(a, second));
    RemoveTwice(st.embeddings, DeadEmbeddings(st, first), DeadEmbeddings(a, second));
  }
}
