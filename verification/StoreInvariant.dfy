/** What every reachable store satisfies beyond the database's own constraints. */
module StoreInvariant {
  import opened Basics
  import opened Text
  import opened Documents
  import opened ArtifactIdentity
  import opened Tables
  import opened StoredParses
  import opened StoreFrames
  import opened VectorStore
  import opened ParseStore

  /** A content row's hash is the hash of its text. */
  ghost predicate ContentsFaithful(contents: map<Uuid, Content>) {
    forall id :: id in contents ==> contents[id].hash == Sha256OfText(contents[id].text)
  }

  /** Only documents with text are ever parsed. */
  ghost predicate NoBlankParses(contents: map<Uuid, Content>, parses: map<ParseKey, Manifest>) {
    forall key :: key in parses && key.content in contents ==> !Blank(contents[key.content].text)
  }

  /** A parse is kept under a parser version and the hash of a chunk configuration. */
  predicate KeySound(key: ParseKey) {
    key.parserVersion != "" && IsSha256(key.chunkConfigHash)
  }

  /** Every stored parse rebuilds into values that match its manifest. */
  ghost predicate ParsesSound(st: Store) {
    forall key :: key in st.parses ==> ParseSound(st, key) && KeySound(key)
  }

  ghost predicate StoreSound(st: Store) {
    match st
    case Store(contents, parses, _, chunks, embeddings) =>
      && ContentsFaithful(contents) && NoBlankParses(contents, parses)
      && ParsesSound(st) && VectorsCoherent(chunks, embeddings)
  }

  /** The store only grew, and stayed sound if it was. */
  ghost predicate Grown(a: Store, b: Store) {
    Extends(a, b) && (StoreSound(a) ==> StoreSound(b))
  }

  lemma GrownTransitive(a: Store, b: Store, c: Store)
    requires Grown(a, b) && Grown(b, c)
    ensures Grown(a, c)
  {
    ExtendsTransitive(a, b, c);
    hide Extends;
  }

  // ---------------------------------------------------------------- each way of growing

  lemma ParsesStaySound(a: Store, b: Store)
    requires Extends(a, b) && ParsesSound(a)
    requires forall key :: key in b.parses && key !in a.parses ==> ParseSound(b, key) && KeySound(key)
    ensures ParsesSound(b)
  {
    forall key | key in a.parses ensures ParseSound(b, key) && KeySound(key) {
      assert ParseSound(a, key);
      ExtendsKeepsParse(a, b, key);
      SameParseFind(a, b, key);
    }
    hide ParseSound, Extends;
  }

  lemma ContentAddedGrows(a: Store, id: Uuid, text: string)
    requires StoreSchema(a) && id !in a.contents
    ensures Grown(a, a.(contents := a.contents[id := Content(Sha256OfText(text), text)]))
  {
    var b := a.(contents := a.contents[id := Content(Sha256OfText(text), text)]);
    assert Extends(a, b);
    if StoreSound(a) {
      ParsesStaySound(a, b);
      assert NoBlankParses(b.contents, b.parses) by {
        assert ContentsSchema(a.contents, a.parses);
      }
      assert ContentsFaithful(b.contents);
      hide ParsesSound, StoreSchema, VectorsCoherent, NoBlankParses, ContentsFaithful, Extends;
    }
  }

  lemma NewChunksKeepVectors(a: Store, b: Store)
    requires StoreSchema(a) && VectorsCoherent(a.chunks, a.embeddings) && SubTable(a.chunks, b.chunks)
    ensures VectorsCoherent(b.chunks, a.embeddings)
  {
    hide RowSound;
    assert forall key :: key in a.embeddings ==> key.chunk in a.chunks && b.chunks[key.chunk] == a.chunks[key.chunk] by {
      assert EmbeddingsSchema(a.chunks, a.embeddings);
    }
    hide StoreSchema;
    forall x, y | x in a.embeddings && y in a.embeddings && SameCalculation(b.chunks, x, y)
      ensures a.embeddings[x].vector == a.embeddings[y].vector
    {
      assert SameCalculation(a.chunks, x, y);
    }
  }

  lemma ParseCreatedGrows(a: Database, b: Database, key: ParseKey, manifest: Manifest)
    requires Schema(a) && ParseCreated(a, b, key, manifest)
    requires FindParse(b.store, key).Found?
    requires key.content in a.store.contents && !Blank(a.store.contents[key.content].text)
    ensures Grown(a.store, b.store)
  {
    if StoreSound(a.store) {
      assert ParseSound(b.store, key) && KeySound(key);
      ParsesStaySound(a.store, b.store);
      NewChunksKeepVectors(a.store, b.store);
      hide ParsesSound, VectorsCoherent, Extends;
    }
  }

  lemma VectorSavedGrows(a: Store, document: DocumentConfig, chunk: Uuid, vector: Vector)
    requires StoreSchema(a) && SaveVector(a, document, chunk, vector).Some?
    ensures Grown(a, SaveVector(a, document, chunk, vector).value)
  {
    var b := SaveVector(a, document, chunk, vector).value;
    SaveVectorStructure(a, document, chunk, vector);
    hide SaveVector;
    if StoreSound(a) {
      SaveVectorCoherent(a, document, chunk, vector);
      ParsesStaySound(a, b);
      hide ParsesSound, VectorsCoherent, Extends, NoBlankParses, ContentsFaithful;
    }
  }

  // ---------------------------------------------------------------- pruning

  lemma DeleteKeepsParses(st: Store, dead: set<Uuid>)
    requires ParsesSound(st)
    ensures ParsesSound(DeleteContents(st, dead))
  {
    var b := DeleteContents(st, dead);
    hide ParseSound, DeadSections, DeadChunks, DeadEmbeddings;
    forall key | key in b.parses ensures ParseSound(b, key) && KeySound(key) {
      assert key in st.parses && key.content !in dead;
      assert ParseSound(st, key);
      DeleteKeepsParse(st, dead, key);
      SameParseFind(st, b, key);
    }
  }

  lemma DeleteKeepsSound(st: Store, dead: set<Uuid>)
    requires StoreSchema(st) && StoreSound(st)
    ensures StoreSound(DeleteContents(st, dead))
  {
    var b := DeleteContents(st, dead);
    DeleteKeepsParses(st, dead);
    DeleteKeepsVectors(st, dead);
    assert ContentsFaithful(b.contents) && NoBlankParses(b.contents, b.parses) by { hide DeadSections, DeadChunks, DeadEmbeddings, ParsesSound; }
    hide DeleteContents, VectorsCoherent, ContentsFaithful, NoBlankParses, ParsesSound;
  }

  lemma DeleteKeepsVectors(st: Store, dead: set<Uuid>)
    requires VectorsCoherent(st.chunks, st.embeddings)
    ensures var b := DeleteContents(st, dead); VectorsCoherent(b.chunks, b.embeddings)
  {
    hide RowSound, DeadChunks, DeadSections, DeadEmbeddings;
    var b := DeleteContents(st, dead);
    forall x, y | x in b.embeddings && y in b.embeddings && SameCalculation(b.chunks, x, y)
      ensures b.embeddings[x].vector == b.embeddings[y].vector
    {
      assert SameCalculation(st.chunks, x, y);
    }
  }
}
