/** Document vectors: one calculation per chunk hash and configuration, linked to every
    chunk that carries the hash. */
module VectorStore {
  import opened Basics
  import opened Documents
  import opened Tables
  import opened StoredParses
  import opened StoreFrames
  import opened ArtifactInserts

  /** Outcome of a vector lookup; `Conflict` is the error raised for stored rows that
      disagree with the bound configuration or with each other. */
  datatype VectorLookup = NoVector | Conflict | Stored(vector: Vector)

  // ---------------------------------------------------------------- normalisation

  predicate Storable(c: Coordinate) { c.Finite? }

  function Rounded(c: Coordinate): Coordinate
    requires Storable(c)
  {
    Finite(c.float32, 0)
  }

  /** _normalize_vector: float32 rounding of a finite vector of the bound dimension. */
  function NormalizeVector(vector: Vector, dimension: nat): Option<Vector> {
    if |vector| == dimension && (forall i :: 0 <= i < |vector| ==> Storable(vector[i]))
    then Some(seq(|vector|, i requires 0 <= i < |vector| => Rounded(vector[i])))
    else None
  }

  /** Equal as float32 vectors. */
  predicate SameFloats(vector: Vector, stored: Vector) {
    |stored| == |vector| && forall i :: 0 <= i < |vector| ==> vector[i].Finite? && stored[i].Finite? && stored[i].float32 == vector[i].float32
  }

  /** `stored` keeps the float32 value of every coordinate and nothing else of it. */
  predicate Rounds(vector: Vector, stored: Vector) {
    |stored| == |vector| && forall i :: 0 <= i < |vector| ==> vector[i].Finite? && stored[i] == Finite(vector[i].float32, 0)
  }

  /** A vector is normalised exactly when it has the dimension and is finite, and then
      coordinate by coordinate. */
  lemma NormalizeRounds(vector: Vector, dimension: nat, stored: Vector)
    ensures NormalizeVector(vector, dimension).Some? <==> |vector| == dimension && forall i :: 0 <= i < |vector| ==> vector[i].Finite?
    ensures NormalizeVector(vector, dimension) == Some(stored) <==> |vector| == dimension && Rounds(vector, stored)
  {
    if |vector| == dimension && Rounds(vector, stored) {
      assert NormalizeVector(vector, dimension).value == stored;
    }
  }

  lemma NormalizeIdempotent(vector: Vector, dimension: nat)
    requires NormalizeVector(vector, dimension).Some?
    ensures NormalizeVector(NormalizeVector(vector, dimension).value, dimension) == NormalizeVector(vector, dimension)
  {
    var once := NormalizeVector(vector, dimension).value;
    var twice := NormalizeVector(once, dimension).value;
    assert forall i :: 0 <= i < |once| ==> twice[i] == once[i];
    assert twice == once;
  }

  // ---------------------------------------------------------------- lookups

  /** _validated_stored_vector */
  function Validated(row: EmbeddingRow, document: DocumentConfig): Option<Vector> {
    if row.descriptor != document.descriptor then None
    else NormalizeVector(row.vector, document.descriptor.dimension)
  }

  function KeyOf(chunk: Uuid, document: DocumentConfig): EmbeddingKey {
    EmbeddingKey(chunk, Sha256OfDocumentConfig(document))
  }

  /** find_embedding */
  function FindEmbedding(st: Store, document: DocumentConfig, chunk: Uuid): VectorLookup {
    var key := KeyOf(chunk, document);
    if key !in st.embeddings then NoVector
    else match Validated(st.embeddings[key], document)
      case None => Conflict
      case Some(vector) => Stored(vector)
  }

  /** The stored vectors of every chunk that carries the hash. */
  function ReusableKeys(st: Store, document: DocumentConfig, chunkHash: string): set<EmbeddingKey> {
    set key | key in st.embeddings && key.config == Sha256OfDocumentConfig(document)
      && key.chunk in st.chunks && st.chunks[key.chunk].draft.chunkHash == chunkHash
  }

  lemma SoleElement<T>(s: set<T>, x: T, y: T)
    requires |s| == 1 && x in s && y in s
    ensures x == y
  {
    assert |s - {x}| == 0;
    assert y !in s - {x};
  }

  function Only<T>(s: set<T>): (x: T)
    requires |s| == 1
    ensures x in s
  {
    assert s != {};
    forall x, y | x in s && y in s ensures x == y { SoleElement(s, x, y); }
    var x :| x in s;
    x
  }

  /** find_reusable_embedding */
  function FindReusable(st: Store, document: DocumentConfig, chunkHash: string): VectorLookup {
    var keys := ReusableKeys(st, document, chunkHash);
    if keys == {} then NoVector
    else
      var vectors := set key | key in keys :: Validated(st.embeddings[key], document);
      if |vectors| != 1 then Conflict
      else match Only(vectors)
        case None => Conflict
        case Some(vector) => Stored(vector)
  }

  // ---------------------------------------------------------------- the invariant

  predicate RowSound(key: EmbeddingKey, row: EmbeddingRow) {
    Validated(row, key.config.document) == Some(row.vector)
  }

  predicate SameCalculation(chunks: map<Uuid, ChunkRow>, a: EmbeddingKey, b: EmbeddingKey) {
    && a.config == b.config && a.chunk in chunks && b.chunk in chunks
    && chunks[a.chunk].draft.chunkHash == chunks[b.chunk].draft.chunkHash
  }

  /** Stored vectors are normalised under their own configuration, and equal chunk hash
      and configuration imply equal vector. */
  ghost predicate VectorsCoherent(chunks: map<Uuid, ChunkRow>, embeddings: map<EmbeddingKey, EmbeddingRow>) {
    && (forall key :: key in embeddings ==> RowSound(key, embeddings[key]))
    && (forall a, b :: a in embeddings && b in embeddings && SameCalculation(chunks, a, b) ==>
          embeddings[a].vector == embeddings[b].vector)
  }

  lemma CoherentLookups(st: Store, document: DocumentConfig, chunkHash: string)
    requires VectorsCoherent(st.chunks, st.embeddings)
    ensures var keys := ReusableKeys(st, document, chunkHash);
            && (keys == {} ==> FindReusable(st, document, chunkHash) == NoVector)
            && forall key :: key in keys ==> FindReusable(st, document, chunkHash) == Stored(st.embeddings[key].vector)
  {
    var keys := ReusableKeys(st, document, chunkHash);
    var vectors := set key | key in keys :: Validated(st.embeddings[key], document);
    hide NormalizeVector;
    forall key | key in keys ensures FindReusable(st, document, chunkHash) == Stored(st.embeddings[key].vector) {
      var v := Some(st.embeddings[key].vector);
      assert RowSound(key, st.embeddings[key]);
      assert vectors == {v} by {
        assert v in vectors;
        forall w | w in vectors ensures w == v {
          var k :| k in keys && Validated(st.embeddings[k], document) == w;
          assert RowSound(k, st.embeddings[k]) && SameCalculation(st.chunks, k, key);
        }
      }
    }
  }

  /** Under the invariant a stored vector is found as it is. */
  lemma CoherentFind(st: Store, document: DocumentConfig, chunk: Uuid)
    requires VectorsCoherent(st.chunks, st.embeddings)
    ensures !FindEmbedding(st, document, chunk).Conflict?
  {
    var key := KeyOf(chunk, document);
    if key in st.embeddings { assert RowSound(key, st.embeddings[key]); }
  }

  // ---------------------------------------------------------------- save_embedding

  function LinkVector(st: Store, document: DocumentConfig, chunk: Uuid, vector: Vector): Store {
    st.(embeddings := st.embeddings[KeyOf(chunk, document) := EmbeddingRow(document.descriptor, vector)])
  }

  /** What save_embedding does: None is a raised error. */
  function SaveVector(st: Store, document: DocumentConfig, chunk: Uuid, vector: Vector): Option<Store> {
    var normalized := NormalizeVector(vector, document.descriptor.dimension);
    if normalized.None? then None
    else match FindEmbedding(st, document, chunk)
      case Conflict => None
      case Stored(existing) => if existing == normalized.value then Some(st) else None
      case NoVector =>
        if chunk !in st.chunks then None
        else match FindReusable(st, document, st.chunks[chunk].draft.chunkHash)
          case Conflict => None
          case Stored(shared) => if shared == normalized.value then Some(LinkVector(st, document, chunk, shared)) else None
          case NoVector => Some(LinkVector(st, document, chunk, normalized.value))
  }

  /** A vector may be saved exactly when it is well shaped and agrees with every stored
      vector of the same chunk hash; the chunk then carries it and the invariant stays. */
  lemma SaveVectorExact(st: Store, document: DocumentConfig, chunk: Uuid, vector: Vector)
    requires VectorsCoherent(st.chunks, st.embeddings) && StoreSchema(st)
    ensures SaveVector(st, document, chunk, vector).Some? <==>
              && |vector| == document.descriptor.dimension && (forall i :: 0 <= i < |vector| ==> vector[i].Finite?) && chunk in st.chunks
              && forall key :: key in ReusableKeys(st, document, st.chunks[chunk].draft.chunkHash) ==>
                   Rounds(vector, st.embeddings[key].vector)
  {
    SaveVectorAgrees(st, document, chunk, vector);
    NormalizeRounds(vector, document.descriptor.dimension, []);
    hide NormalizeVector, SaveVector, ReusableKeys, Rounds, VectorsCoherent, StoreSchema;
    if chunk in st.chunks {
      forall key | key in ReusableKeys(st, document, st.chunks[chunk].draft.chunkHash)
        ensures NormalizeVector(vector, document.descriptor.dimension) == Some(st.embeddings[key].vector)
           <==> |vector| == document.descriptor.dimension && Rounds(vector, st.embeddings[key].vector)
      {
        NormalizeRounds(vector, document.descriptor.dimension, st.embeddings[key].vector);
      }
    }
  }

  lemma SaveVectorAgrees(st: Store, document: DocumentConfig, chunk: Uuid, vector: Vector)
    requires VectorsCoherent(st.chunks, st.embeddings) && StoreSchema(st)
    ensures var normalized := NormalizeVector(vector, document.descriptor.dimension);
            SaveVector(st, document, chunk, vector).Some? <==>
              && normalized.Some? && chunk in st.chunks
              && forall key :: key in ReusableKeys(st, document, st.chunks[chunk].draft.chunkHash) ==>
                   st.embeddings[key].vector == normalized.value
  {
    var key := KeyOf(chunk, document);
    CoherentFind(st, document, chunk);
    if key in st.embeddings {
      assert RowSound(key, st.embeddings[key]);
      assert key.chunk in st.chunks by { hide ContentsSchema, SectionsSchema, ChunksSchema; }
      assert key in ReusableKeys(st, document, st.chunks[chunk].draft.chunkHash);
    }
    if chunk in st.chunks {
      CoherentLookups(st, document, st.chunks[chunk].draft.chunkHash);
    }
    hide NormalizeVector, FindReusable, ContentsSchema, SectionsSchema, ChunksSchema;
  }

  lemma LinkKeepsCoherent(st: Store, document: DocumentConfig, chunk: Uuid, vector: Vector)
    requires VectorsCoherent(st.chunks, st.embeddings) && chunk in st.chunks
    requires NormalizeVector(vector, document.descriptor.dimension) == Some(vector)
    requires forall key :: key in ReusableKeys(st, document, st.chunks[chunk].draft.chunkHash) ==> st.embeddings[key].vector == vector
    ensures VectorsCoherent(st.chunks, LinkVector(st, document, chunk, vector).embeddings)
  {
    var st', added := LinkVector(st, document, chunk, vector), KeyOf(chunk, document);
    hide NormalizeVector;
    forall a, b | a in st'.embeddings && b in st'.embeddings && SameCalculation(st.chunks, a, b)
      ensures st'.embeddings[a].vector == st'.embeddings[b].vector
    {
      assert a != added ==> a in st.embeddings;
      assert b != added ==> b in st.embeddings;
      if a != added && b == added {
        assert a in ReusableKeys(st, document, st.chunks[chunk].draft.chunkHash);
      } else if a == added && b != added {
        assert b in ReusableKeys(st, document, st.chunks[chunk].draft.chunkHash);
      }
    }
  }

  lemma NormalizedLength(vector: Vector, dimension: nat)
    requires NormalizeVector(vector, dimension).Some?
    ensures |NormalizeVector(vector, dimension).value| == dimension
  {
  }

  /** Linking one row of the right dimension adds that row and nothing else. */
  lemma LinkVectorStructure(st: Store, document: DocumentConfig, chunk: Uuid, vector: Vector)
    requires StoreSchema(st) && chunk in st.chunks && |vector| == document.descriptor.dimension
    requires KeyOf(chunk, document) !in st.embeddings
    ensures var st' := LinkVector(st, document, chunk, vector);
            && StoreSchema(st') && Extends(st, st')
            && st'.embeddings.Keys == st.embeddings.Keys + {KeyOf(chunk, document)}
  {
    hide ContentsSchema, SectionsSchema, ChunksSchema, EmbeddingsSchema;
    LinkKeepsEmbeddings(st, document, chunk, vector);
  }

  lemma LinkKeepsEmbeddings(st: Store, document: DocumentConfig, chunk: Uuid, vector: Vector)
    requires StoreSchema(st) && chunk in st.chunks && |vector| == document.descriptor.dimension
    ensures EmbeddingsSchema(st.chunks, LinkVector(st, document, chunk, vector).embeddings)
  {
    hide ContentsSchema, SectionsSchema, ChunksSchema;
  }

  /** A successful save keeps every row, adds at most the one link, and leaves the
      chunk carrying the normalised vector. */
  lemma SaveVectorStructure(st: Store, document: DocumentConfig, chunk: Uuid, vector: Vector)
    requires StoreSchema(st) && SaveVector(st, document, chunk, vector).Some?
    ensures var st' := SaveVector(st, document, chunk, vector).value;
            && StoreSchema(st') && Extends(st, st')
            && st' == st.(embeddings := st'.embeddings)
            && st'.embeddings.Keys == st.embeddings.Keys + {KeyOf(chunk, document)}
            && FindEmbedding(st', document, chunk) == Stored(NormalizeVector(vector, document.descriptor.dimension).value)
  {
    NormalizeIdempotent(vector, document.descriptor.dimension);
    NormalizedLength(vector, document.descriptor.dimension);
    var normalized := NormalizeVector(vector, document.descriptor.dimension).value;
    hide NormalizeVector, FindReusable, StoreSchema;
    if FindEmbedding(st, document, chunk).NoVector? {
      LinkVectorStructure(st, document, chunk, normalized);
    }
  }

  lemma SaveVectorCoherent(st: Store, document: DocumentConfig, chunk: Uuid, vector: Vector)
    requires VectorsCoherent(st.chunks, st.embeddings) && StoreSchema(st) && SaveVector(st, document, chunk, vector).Some?
    ensures VectorsCoherent(st.chunks, SaveVector(st, document, chunk, vector).value.embeddings)
  {
    SaveVectorAgrees(st, document, chunk, vector);
    NormalizeIdempotent(vector, document.descriptor.dimension);
    hide NormalizeVector, FindReusable, ReusableKeys, VectorsCoherent;
    if FindEmbedding(st, document, chunk).NoVector? {
      LinkKeepsCoherent(st, document, chunk, NormalizeVector(vector, document.descriptor.dimension).value);
    }
  }

  /** The row a save leaves under the chunk's key. */
  lemma SavedFloats(st: Store, document: DocumentConfig, chunk: Uuid, vector: Vector)
    requires SaveVector(st, document, chunk, vector).Some?
    ensures var rows, key := SaveVector(st, document, chunk, vector).value.embeddings, EmbeddingKey(chunk, Sha256OfDocumentConfig(document));
            && key in rows && |vector| == document.descriptor.dimension
            && rows[key].descriptor == document.descriptor && SameFloats(vector, rows[key].vector)
            && (key !in st.embeddings || VectorsCoherent(st.chunks, st.embeddings) ==> Rounds(vector, rows[key].vector))
            && rows == st.embeddings[key := rows[key]]
            && (key in st.embeddings ==> rows == st.embeddings)
  {
    var key, dimension := KeyOf(chunk, document), document.descriptor.dimension;
    var normalized := NormalizeVector(vector, dimension).value;
    NormalizeRounds(vector, dimension, normalized);
    if key in st.embeddings {
      var row := st.embeddings[key];
      NormalizeRounds(row.vector, dimension, normalized);
      if VectorsCoherent(st.chunks, st.embeddings) { assert RowSound(key, row); }
      assert st.embeddings[key := row] == st.embeddings;
    }
    hide NormalizeVector, FindReusable;
  }

  /** save_embedding: the chunk's row names the configured model and holds the float32
      value of every coordinate; every other row is kept. */
  method SaveEmbedding(session: Session, document: DocumentConfig, chunk: Uuid, vector: Vector) returns (saved: bool)
    requires session.Sound()
    modifies session
    ensures session.Sound()
    ensures saved <==> SaveVector(old(session.db.store), document, chunk, vector).Some?
    ensures session.db == if saved then old(session.db).(store := SaveVector(old(session.db.store), document, chunk, vector).value)
                          else old(session.db)
    ensures saved ==>
              var rows, key := session.db.store.embeddings, EmbeddingKey(chunk, Sha256OfDocumentConfig(document));
              && key in rows && rows == old(session.db.store.embeddings)[key := rows[key]]
              && rows[key].descriptor == document.descriptor
              && |rows[key].vector| == |vector| == document.descriptor.dimension
              && forall i :: 0 <= i < |vector| ==> vector[i].Finite? && rows[key].vector[i].Finite? && rows[key].vector[i].float32 == vector[i].float32
    ensures saved && (EmbeddingKey(chunk, Sha256OfDocumentConfig(document)) !in old(session.db.store.embeddings)
                      || VectorsCoherent(old(session.db.store.chunks), old(session.db.store.embeddings))) ==>
              var key := EmbeddingKey(chunk, Sha256OfDocumentConfig(document));
              key in session.db.store.embeddings && Rounds(vector, session.db.store.embeddings[key].vector)
  {
    hide VectorsCoherent, FindEmbedding, FindReusable, NormalizeVector, StoreSchema, SaveVector;
    var st := session.db.store;
    var outcome := SaveVector(st, document, chunk, vector);
    if outcome.None? { return false; }
    SavedFloats(st, document, chunk, vector);
    SaveVectorStructure(st, document, chunk, vector);
    StoreChangeSchema(session.db, outcome.value);
    session.db := session.db.(store := outcome.value);
    session.Flush();
    return true;
  }
}
