/** Index stage: link every chunk of one parse to a vector, computing each missing
    chunk hash once. */
module EmbeddingStage {
  import opened Basics
  import opened Documents
  import opened Tables
  import opened StoredParses
  import opened StoreFrames
  import opened VectorStore
  import opened StoreInvariant
  import opened Readiness
  import opened ParseStage
  import opened Collaborators
  import opened Provenance

  /** missing_by_hash, with its insertion order. */
  datatype Waitlist = Waitlist(order: seq<string>, groups: map<string, seq<StoredChunk>>)

  /** The store only gained embedding rows. */
  ghost predicate LinksOnly(a: Database, b: Database) {
    match b
    case Database(_, _, _, _, store) => StoreStep(a, b) && store == a.store.(embeddings := store.embeddings)
  }

  lemma LinksOnlyTransitive(a: Database, b: Database, c: Database)
    requires LinksOnly(a, b) && LinksOnly(b, c)
    ensures LinksOnly(a, c) && Extends(a.store, c.store)
  {
    StoreStepTransitive(a, b, c);
    hide Extends, StoreSound;
  }

  /** The chunks carry the hashes and search texts of their stored rows. */
  ghost predicate ChunksMatch(st: Store, chunks: seq<StoredChunk>) {
    forall i :: 0 <= i < |chunks| ==>
      && chunks[i].id in st.chunks
      && st.chunks[chunks[i].id].draft.chunkHash == chunks[i].draft.chunkHash
      && st.chunks[chunks[i].id].draft.searchText == chunks[i].draft.searchText
  }

  ghost predicate GroupSound(st: Store, document: DocumentConfig, hash: string, group: seq<StoredChunk>) {
    && group != [] && ChunksMatch(st, group)
    && (forall i :: 0 <= i < |group| ==> group[i].draft.chunkHash == hash)
    && ReusableKeys(st, document, hash) == {}
  }

  /** Every group holds chunks of its hash, and no vector of that hash is stored. */
  ghost predicate MissingSound(st: Store, document: DocumentConfig, missing: Waitlist) {
    match missing
    case Waitlist(order, groups) =>
      && Distinct(order) && Elements(order) == groups.Keys
      && forall hash :: hash in groups ==> GroupSound(st, document, hash, groups[hash])
  }

  ghost predicate Waiting(missing: Waitlist, chunk: StoredChunk) {
    chunk.draft.chunkHash in missing.groups && chunk in missing.groups[chunk.draft.chunkHash]
  }

  /** Each of the first n chunks is embedded or waits in the group of its hash. */
  ghost predicate Handled(st: Store, document: DocumentConfig, missing: Waitlist, chunks: seq<StoredChunk>, n: nat)
    requires n <= |chunks|
  {
    forall i :: 0 <= i < n ==> Embedded(st, document, chunks[i].id) || Waiting(missing, chunks[i])
  }

  // ---------------------------------------------------------------- saving one vector

  /** Saving a vector for one chunk touches only the vectors of its own hash. */
  lemma SaveTouchesOneHash(st: Store, document: DocumentConfig, chunk: Uuid, vector: Vector, hash: string)
    requires StoreSchema(st) && SaveVector(st, document, chunk, vector).Some? && chunk in st.chunks
    ensures var st' := SaveVector(st, document, chunk, vector).value;
            && Embedded(st', document, chunk)
            && (hash != st.chunks[chunk].draft.chunkHash ==> ReusableKeys(st', document, hash) == ReusableKeys(st, document, hash))
            && (hash == st.chunks[chunk].draft.chunkHash ==>
                  ReusableKeys(st', document, hash) == ReusableKeys(st, document, hash) + {KeyOf(chunk, document)})
  {
    hide SaveVector, FindEmbedding, StoreSchema, NormalizeVector;
    var st' := SaveVector(st, document, chunk, vector).value;
    SaveVectorStructure(st, document, chunk, vector);
    EmbeddedWhenFound(st', document, chunk);
  }

  lemma EmbeddedWhenFound(st: Store, document: DocumentConfig, chunk: Uuid)
    requires FindEmbedding(st, document, chunk).Stored?
    ensures Embedded(st, document, chunk)
  {
  }

  lemma EmbeddedStays(a: Store, b: Store, document: DocumentConfig, chunk: Uuid)
    requires Extends(a, b) && Embedded(a, document, chunk)
    ensures Embedded(b, document, chunk)
  {
  }

  lemma ChunksMatchStays(a: Store, b: Store, chunks: seq<StoredChunk>)
    requires Extends(a, b) && ChunksMatch(a, chunks)
    ensures ChunksMatch(b, chunks)
  {
  }

  /** Chunks read from a parse carry their rows' hashes. */
  lemma FoundChunksMatch(st: Store, key: ParseKey, artifacts: ParseArtifacts)
    requires FindParse(st, key) == Found(artifacts)
    ensures ChunksMatch(st, artifacts.chunks)
    ensures forall id :: id in ChunksOf(st, key) ==> exists i :: 0 <= i < |artifacts.chunks| && artifacts.chunks[i].id == id
  {
    var ids := ChunkIds(st, key);
    Ordering.OrderByLists(ChunkKeys(st, key));
    hide ParseSound, Ordering.OrderBy;
    forall i | 0 <= i < |ids| ensures artifacts.chunks[i].id == ids[i] && ids[i] in ChunksOf(st, key) {
    }
    forall id | id in ChunksOf(st, key) ensures exists i :: 0 <= i < |artifacts.chunks| && artifacts.chunks[i].id == id {
      assert id in ChunkKeys(st, key);
      var i :| 0 <= i < |ids| && ids[i] == id;
      assert artifacts.chunks[i].id == id;
    }
  }

  // ---------------------------------------------------------------- reuse

  function AddMissing(missing: Waitlist, chunk: StoredChunk): Waitlist {
    var hash := chunk.draft.chunkHash;
    if hash in missing.groups
    then missing.(groups := missing.groups[hash := missing.groups[hash] + [chunk]])
    else Waitlist(missing.order + [hash], missing.groups[hash := [chunk]])
  }

  lemma AddMissingSound(st: Store, document: DocumentConfig, missing: Waitlist, chunk: StoredChunk)
    requires MissingSound(st, document, missing) && ChunksMatch(st, [chunk])
    requires ReusableKeys(st, document, chunk.draft.chunkHash) == {}
    ensures MissingSound(st, document, AddMissing(missing, chunk)) && Waiting(AddMissing(missing, chunk), chunk)
    ensures forall c :: Waiting(missing, c) ==> Waiting(AddMissing(missing, chunk), c)
  {
    var hash, after := chunk.draft.chunkHash, AddMissing(missing, chunk);
    assert [chunk][0] == chunk;
    hide ReusableKeys;
    assert GroupSound(st, document, hash, after.groups[hash]) by {
      if hash in missing.groups { assert GroupSound(st, document, hash, missing.groups[hash]); }
    }
    forall h | h in after.groups ensures GroupSound(st, document, h, after.groups[h]) {
      if h != hash { assert GroupSound(st, document, h, missing.groups[h]); }
    }
    hide GroupSound;
    if hash !in missing.groups {
      assert hash !in Elements(missing.order);
      assert Elements(missing.order + [hash]) == Elements(missing.order) + {hash};
    }
  }

  /** After reusing a vector the groups are as sound as before. */
  lemma ReuseKeepsMissing(st: Store, document: DocumentConfig, missing: Waitlist, chunk: StoredChunk, vector: Vector)
    requires MissingSound(st, document, missing) && StoreSchema(st) && ChunksMatch(st, [chunk])
    requires FindReusable(st, document, chunk.draft.chunkHash).Stored?
    requires SaveVector(st, document, chunk.id, vector).Some?
    ensures MissingSound(SaveVector(st, document, chunk.id, vector).value, document, missing)
  {
    var st' := SaveVector(st, document, chunk.id, vector).value;
    SaveVectorStructure(st, document, chunk.id, vector);
    assert [chunk][0] == chunk;
    assert ReusableKeys(st, document, chunk.draft.chunkHash) != {};
    hide FindReusable, FindEmbedding;
    forall hash | hash in missing.groups ensures GroupSound(st', document, hash, missing.groups[hash]) {
      assert GroupSound(st, document, hash, missing.groups[hash]);
      SaveTouchesOneHash(st, document, chunk.id, vector, hash);
      ChunksMatchStays(st, st', missing.groups[hash]);
    }
    hide GroupSound;
  }

  ghost predicate NoneStored(st: Store, document: DocumentConfig, hash: string) {
    ReusableKeys(st, document, hash) == {}
  }

  /** Linking stored vectors adds none to a hash that has none. */
  ghost predicate SameStored(a: Store, b: Store, document: DocumentConfig) {
    forall hash :: NoneStored(b, document, hash) <==> NoneStored(a, document, hash)
  }

  /** The chunks with a hash, in order. */
  function OfHash(chunks: seq<StoredChunk>, hash: string): seq<StoredChunk> {
    if chunks == [] then []
    else
      var last := |chunks| - 1;
      OfHash(chunks[..last], hash) + if chunks[last].draft.chunkHash == hash then [chunks[last]] else []
  }

  /** Of a hash without a stored vector all chunks wait, in order, and no others do. */
  ghost predicate WaitsExactly(st: Store, document: DocumentConfig, missing: Waitlist, chunks: seq<StoredChunk>) {
    forall hash :: if NoneStored(st, document, hash) && OfHash(chunks, hash) != []
                   then hash in missing.groups && missing.groups[hash] == OfHash(chunks, hash)
                   else hash !in missing.groups
  }

  lemma WaitsStep(st: Store, document: DocumentConfig, missing: Waitlist, chunks: seq<StoredChunk>, n: nat)
    requires n < |chunks| && WaitsExactly(st, document, missing, chunks[..n])
    ensures var hash := chunks[n].draft.chunkHash;
            WaitsExactly(st, document, if NoneStored(st, document, hash) then AddMissing(missing, chunks[n]) else missing, chunks[..n + 1])
  {
    hide NoneStored;
    assert chunks[..n + 1][..n] == chunks[..n];
  }

  /** One turn of the chunk loop. */
  method LinkOne(session: Session, document: DocumentConfig, chunk: StoredChunk, missing: Waitlist)
    returns (ok: bool, after: Waitlist)
    requires session.Sound() && ChunksMatch(session.db.store, [chunk])
    requires MissingSound(session.db.store, document, missing)
    modifies session
    ensures session.Sound() && LinksOnly(old(session.db), session.db)
    ensures !ok ==> !StoreSound(old(session.db.store))
    ensures ok ==> MissingSound(session.db.store, document, after)
    ensures ok ==> Embedded(session.db.store, document, chunk.id) || Waiting(after, chunk)
    ensures ok ==> forall c :: Waiting(missing, c) ==> Waiting(after, c)
    ensures ok ==> after == if NoneStored(old(session.db.store), document, chunk.draft.chunkHash) then AddMissing(missing, chunk) else missing
    ensures ok ==> SameStored(old(session.db.store), session.db.store, document)
  {
    ghost var st := session.db.store;
    assert [chunk][0] == chunk;
    NoStep(session.db);
    after := missing;
    LookupsUnderSound(st, document, chunk);
    match FindEmbedding(session.db.store, document, chunk.id) {
      case Conflict => return false, after;
      case Stored(_) =>
        EmbeddedWhenFound(st, document, chunk.id);
        assert KeyOf(chunk.id, document) in ReusableKeys(st, document, chunk.draft.chunkHash);
        return true, after;
      case NoVector =>
    }
    match FindReusable(session.db.store, document, chunk.draft.chunkHash) {
      case Conflict => return false, after;
      case Stored(vector) =>
        var saved := SaveEmbedding(session, document, chunk.id, vector);
        if !saved { return false, after; }
        VectorSavedGrows(st, document, chunk.id, vector);
        SaveVectorStructure(st, document, chunk.id, vector);
        SaveTouchesOneHash(st, document, chunk.id, vector, "");
        ReuseKeepsMissing(st, document, missing, chunk, vector);
        return true, after;
      case NoVector =>
        AddMissingSound(st, document, missing, chunk);
        return true, AddMissing(missing, chunk);
    }
  }

  /** With a sound store the lookups never conflict and a shared vector can be saved. */
  lemma LookupsUnderSound(st: Store, document: DocumentConfig, chunk: StoredChunk)
    requires StoreSchema(st) && ChunksMatch(st, [chunk])
    ensures FindReusable(st, document, chunk.draft.chunkHash) == NoVector ==> ReusableKeys(st, document, chunk.draft.chunkHash) == {}
    ensures StoreSound(st) ==> !FindEmbedding(st, document, chunk.id).Conflict?
    ensures StoreSound(st) ==> !FindReusable(st, document, chunk.draft.chunkHash).Conflict?
    ensures StoreSound(st) && FindReusable(st, document, chunk.draft.chunkHash).Stored? ==>
              SaveVector(st, document, chunk.id, FindReusable(st, document, chunk.draft.chunkHash).vector).Some?
  {
    hide ParsesSound, NoBlankParses, ContentsFaithful, StoreSchema, SaveVector;
    assert [chunk][0] == chunk;
    var hash := chunk.draft.chunkHash;
    if StoreSound(st) {
      CoherentFind(st, document, chunk.id);
      CoherentLookups(st, document, hash);
      var keys := ReusableKeys(st, document, hash);
      if keys != {} {
        var key :| key in keys;
        var vector := st.embeddings[key].vector;
        assert NormalizeVector(vector, document.descriptor.dimension) == Some(vector) by {
          assert RowSound(key, st.embeddings[key]);
        }
        SharedVector(st, document, hash, vector);
        SaveVectorAgrees(st, document, chunk.id, vector);
      }
    }
  }

  lemma SharedVector(st: Store, document: DocumentConfig, hash: string, vector: Vector)
    requires VectorsCoherent(st.chunks, st.embeddings)
    requires exists key :: key in ReusableKeys(st, document, hash) && st.embeddings[key].vector == vector
    ensures forall key :: key in ReusableKeys(st, document, hash) ==> st.embeddings[key].vector == vector
  {
    var known :| known in ReusableKeys(st, document, hash) && st.embeddings[known].vector == vector;
    forall key | key in ReusableKeys(st, document, hash) ensures st.embeddings[key].vector == vector {
      assert SameCalculation(st.chunks, key, known);
    }
  }

  /** What the chunk loop has done after n chunks. */
  ghost predicate LinkProgress(a: Database, b: Database, document: DocumentConfig, missing: Waitlist, chunks: seq<StoredChunk>, n: nat) {
    match b
    case Database(_, _, _, _, store) =>
      && n <= |chunks| && LinksOnly(a, b) && ChunksMatch(store, chunks)
      && MissingSound(store, document, missing) && Handled(store, document, missing, chunks, n)
      && WaitsExactly(a.store, document, missing, chunks[..n]) && SameStored(a.store, store, document)
  }

  lemma LinkStart(a: Database, document: DocumentConfig, chunks: seq<StoredChunk>)
    requires ChunksMatch(a.store, chunks)
    ensures LinkProgress(a, a, document, Waitlist([], map[]), chunks, 0)
  {
    NoLinks(a);
    hide LinksOnly, ChunksMatch;
  }

  lemma LinkFacts(a: Database, b: Database, document: DocumentConfig, missing: Waitlist, chunks: seq<StoredChunk>, n: nat)
    requires LinkProgress(a, b, document, missing, chunks, n)
    ensures LinksOnly(a, b) && (StoreSound(a.store) ==> StoreSound(b.store)) && MissingSound(b.store, document, missing)
    ensures n < |chunks| ==> ChunksMatch(b.store, [chunks[n]])
    ensures n == |chunks| ==> Handled(b.store, document, missing, chunks, |chunks|) && WaitsExactly(a.store, document, missing, chunks)
  {
    LinksOnlyExtends(a, b);
    hide LinksOnly, MissingSound, Handled, WaitsExactly, SameStored, StoreSound, Extends;
    assert chunks[..|chunks|] == chunks;
  }

  lemma LinkStep(a: Database, b: Database, c: Database, document: DocumentConfig, before: Waitlist, after: Waitlist, chunks: seq<StoredChunk>, n: nat)
    requires LinkProgress(a, b, document, before, chunks, n) && n < |chunks|
    requires LinksOnly(b, c) && MissingSound(c.store, document, after) && SameStored(b.store, c.store, document)
    requires Embedded(c.store, document, chunks[n].id) || Waiting(after, chunks[n])
    requires forall chunk :: Waiting(before, chunk) ==> Waiting(after, chunk)
    requires after == if NoneStored(b.store, document, chunks[n].draft.chunkHash) then AddMissing(before, chunks[n]) else before
    ensures LinkProgress(a, c, document, after, chunks, n + 1)
  {
    hide LinksOnly, MissingSound, Handled, WaitsExactly, SameStored, StoreSound, Extends, ChunksMatch, NoneStored, AddMissing, Embedded, Waiting;
    LinksOnlyTransitive(a, b, c);
    LinksOnlyExtends(b, c);
    ChunksMatchStays(b.store, c.store, chunks);
    HandledStays(b.store, c.store, document, before, after, chunks, n);
    StoredThen(a.store, b.store, c.store, document, chunks[n].draft.chunkHash);
    WaitsStep(a.store, document, before, chunks, n);
  }

  /** The chunk loop: every chunk ends up embedded or waiting, and those wait whose hash has
      no stored vector. */
  method LinkReusable(session: Session, document: DocumentConfig, chunks: seq<StoredChunk>)
    returns (ok: bool, missing: Waitlist)
    requires session.Sound() && ChunksMatch(session.db.store, chunks)
    modifies session
    ensures session.Sound() && LinksOnly(old(session.db), session.db)
    ensures !ok ==> !StoreSound(old(session.db.store))
    ensures ok ==> MissingSound(session.db.store, document, missing) && Handled(session.db.store, document, missing, chunks, |chunks|)
    ensures ok ==> WaitsExactly(old(session.db.store), document, missing, chunks)
  {
    hide LinkProgress, LinksOnly, MissingSound, Handled, WaitsExactly, SameStored, NoneStored, StoreSound, Extends, ChunksMatch, Embedded, Waiting,
         AddMissing;
    ghost var a := session.db;
    missing := Waitlist([], map[]);
    LinkStart(a, document, chunks);
    for i := 0 to |chunks|
      invariant session.Sound() && LinkProgress(a, session.db, document, missing, chunks, i)
    {
      ghost var b, waited := session.db, missing;
      LinkFacts(a, b, document, missing, chunks, i);
      ok, missing := LinkOne(session, document, chunks[i], missing);
      if !ok {
        LinksOnlyTransitive(a, b, session.db);
        return false, missing;
      }
      LinkStep(a, b, session.db, document, waited, missing, chunks, i);
    }
    LinkFacts(a, session.db, document, missing, chunks, |chunks|);
    ok := true;
  }

  lemma StoredThen(a: Store, b: Store, c: Store, document: DocumentConfig, hash: string)
    requires SameStored(a, b, document) && SameStored(b, c, document)
    ensures SameStored(a, c, document) && (NoneStored(a, document, hash) <==> NoneStored(b, document, hash))
  {
    hide NoneStored;
  }

  lemma NoLinks(a: Database)
    ensures LinksOnly(a, a)
  {
  }

  lemma LinksOnlyExtends(a: Database, b: Database)
    requires LinksOnly(a, b)
    ensures Extends(a.store, b.store) && (StoreSound(a.store) ==> StoreSound(b.store))
  {
  }

  lemma HandledStays(a: Store, b: Store, document: DocumentConfig, before: Waitlist, after: Waitlist,
                     chunks: seq<StoredChunk>, n: nat)
    requires Extends(a, b) && n < |chunks| && Handled(a, document, before, chunks, n)
    requires forall c :: Waiting(before, c) ==> Waiting(after, c)
    requires Embedded(b, document, chunks[n].id) || Waiting(after, chunks[n])
    ensures Handled(b, document, after, chunks, n + 1)
  {
    hide Waiting;
    forall j | 0 <= j < n && Embedded(a, document, chunks[j].id) ensures Embedded(b, document, chunks[j].id) {
      EmbeddedStays(a, b, document, chunks[j].id);
    }
  }

  // ---------------------------------------------------------------- computing the missing hashes

  /** All stored vectors of a hash equal the given one. */
  ghost predicate HashHolds(st: Store, document: DocumentConfig, hash: string, vector: Vector) {
    forall key :: key in ReusableKeys(st, document, hash) ==> st.embeddings[key].vector == vector
  }

  /** After a save the chunk's own row holds the normalised vector, other rows are kept. */
  lemma SavedRow(st: Store, document: DocumentConfig, chunk: Uuid, vector: Vector)
    requires StoreSchema(st) && VectorsCoherent(st.chunks, st.embeddings)
    requires SaveVector(st, document, chunk, vector).Some?
    ensures var st' := SaveVector(st, document, chunk, vector).value;
            && KeyOf(chunk, document) in st'.embeddings
            && Some(st'.embeddings[KeyOf(chunk, document)].vector) == NormalizeVector(vector, document.descriptor.dimension)
            && SubTable(st.embeddings, st'.embeddings)
  {
    var st', key := SaveVector(st, document, chunk, vector).value, KeyOf(chunk, document);
    SaveVectorStructure(st, document, chunk, vector);
    SaveVectorCoherent(st, document, chunk, vector);
    hide SaveVector;
    assert RowSound(key, st'.embeddings[key]);
    hide NormalizeVector, VectorsCoherent;
  }

  /** A well-shaped vector that agrees with what its hash already holds is saved, and
      the hash still holds that vector alone. */
  lemma SaveAgreeing(st: Store, document: DocumentConfig, chunk: StoredChunk, vector: Vector, normalized: Vector)
    requires StoreSchema(st) && VectorsCoherent(st.chunks, st.embeddings) && ChunksMatch(st, [chunk])
    requires NormalizeVector(vector, document.descriptor.dimension) == Some(normalized)
    requires HashHolds(st, document, chunk.draft.chunkHash, normalized)
    ensures SaveVector(st, document, chunk.id, vector).Some?
    ensures HashHolds(SaveVector(st, document, chunk.id, vector).value, document, chunk.draft.chunkHash, normalized)
  {
    assert [chunk][0] == chunk;
    SaveVectorAgrees(st, document, chunk.id, vector);
    SaveTouchesOneHash(st, document, chunk.id, vector, chunk.draft.chunkHash);
    SavedRow(st, document, chunk.id, vector);
    hide SaveVector, NormalizeVector, VectorsCoherent, StoreSchema;
    assert forall key :: key in ReusableKeys(st, document, chunk.draft.chunkHash) ==> key in st.embeddings;
    hide ReusableKeys;
  }

  ghost predicate OtherHashesKept(a: Store, b: Store, document: DocumentConfig, hash: string) {
    forall h :: h != hash ==> ReusableKeys(b, document, h) == ReusableKeys(a, document, h)
  }

  method SaveMember(session: Session, document: DocumentConfig, hash: string, chunk: StoredChunk, vector: Vector, ghost normalized: Vector)
    returns (ok: bool)
    requires session.Sound() && ChunksMatch(session.db.store, [chunk]) && chunk.draft.chunkHash == hash
    requires NormalizeVector(vector, document.descriptor.dimension) == Some(normalized)
    modifies session
    ensures session.Sound() && LinksOnly(old(session.db), session.db)
    ensures !ok ==> session.db == old(session.db)
    ensures !ok ==> !StoreSound(old(session.db.store)) || !HashHolds(old(session.db.store), document, hash, normalized)
    ensures ok && StoreSound(old(session.db.store)) && HashHolds(old(session.db.store), document, hash, normalized) ==>
              HashHolds(session.db.store, document, hash, normalized)
    ensures ok ==> Embedded(session.db.store, document, chunk.id) && ReusableKeys(session.db.store, document, hash) != {}
    ensures OtherHashesKept(old(session.db.store), session.db.store, document, hash)
  {
    ghost var st := session.db.store;
    NoLinks(session.db);
    assert [chunk][0] == chunk;
    if StoreSound(st) && HashHolds(st, document, hash, normalized) {
      SaveAgreeing(st, document, chunk, vector, normalized);
    }
    hide NormalizeVector, HashHolds;
    ok := SaveEmbedding(session, document, chunk.id, vector);
    if !ok { return; }
    VectorSavedGrows(st, document, chunk.id, vector);
    SaveVectorStructure(st, document, chunk.id, vector);
    SaveTouchesOneHash(st, document, chunk.id, vector, hash);
    forall h | h != hash ensures ReusableKeys(session.db.store, document, h) == ReusableKeys(st, document, h) {
      SaveTouchesOneHash(st, document, chunk.id, vector, h);
    }
  }

  /** What holds after the first n chunks of a group carry the vector. */
  ghost predicate GroupProgress(a: Database, b: Database, document: DocumentConfig, hash: string,
                                group: seq<StoredChunk>, normalized: Vector, n: nat)
  {
    match b
    case Database(_, _, _, _, store) =>
      && n <= |group| && LinksOnly(a, b) && ChunksMatch(store, group)
      && (StoreSound(a.store) ==> HashHolds(store, document, hash, normalized))
      && (forall j :: 0 <= j < n ==> Embedded(store, document, group[j].id))
      && (0 < n ==> ReusableKeys(store, document, hash) != {})
      && OtherHashesKept(a.store, store, document, hash)
  }

  lemma GroupStep(a: Database, b: Database, c: Database, document: DocumentConfig, hash: string,
                  group: seq<StoredChunk>, normalized: Vector, n: nat)
    requires GroupProgress(a, b, document, hash, group, normalized, n) && n < |group|
    requires LinksOnly(b, c) && OtherHashesKept(b.store, c.store, document, hash)
    requires Embedded(c.store, document, group[n].id) && ReusableKeys(c.store, document, hash) != {}
    requires StoreSound(b.store) && HashHolds(b.store, document, hash, normalized) ==> HashHolds(c.store, document, hash, normalized)
    ensures GroupProgress(a, c, document, hash, group, normalized, n + 1)
  {
    hide ReusableKeys, HashHolds;
    LinksOnlyTransitive(a, b, c);
    LinksOnlyExtends(a, b);
    LinksOnlyExtends(b, c);
    ChunksMatchStays(b.store, c.store, group);
    OthersKeptTransitive(a.store, b.store, c.store, document, hash);
    hide ChunksMatch, OtherHashesKept;
    forall j | 0 <= j < n ensures Embedded(c.store, document, group[j].id) {
      EmbeddedStays(b.store, c.store, document, group[j].id);
    }
  }

  /** One vector for every chunk of a group. */
  method SaveGroup(session: Session, document: DocumentConfig, hash: string, group: seq<StoredChunk>, vector: Vector)
    returns (ok: bool)
    requires session.Sound() && GroupSound(session.db.store, document, hash, group)
    requires NormalizeVector(vector, document.descriptor.dimension).Some?
    modifies session
    ensures session.Sound() && LinksOnly(old(session.db), session.db)
    ensures !ok ==> !StoreSound(old(session.db.store))
    ensures ok ==> forall i :: 0 <= i < |group| ==> Embedded(session.db.store, document, group[i].id)
    ensures ok ==> ReusableKeys(session.db.store, document, hash) != {}
    ensures ok && StoreSound(old(session.db.store)) ==> HashCarries(session.db.store, document, hash, vector)
    ensures OtherHashesKept(old(session.db.store), session.db.store, document, hash)
  {
    ghost var a, normalized := session.db, NormalizeVector(vector, document.descriptor.dimension).value;
    GroupStart(a, document, hash, group, normalized);
    hide NormalizeVector, GroupProgress, GroupSound, HashHolds, HashCarries;
    for i := 0 to |group|
      invariant session.Sound() && GroupProgress(a, session.db, document, hash, group, normalized, i)
    {
      ghost var b := session.db;
      GroupFacts(a, b, document, hash, group, normalized, i);
      ok := SaveMember(session, document, hash, group[i], vector, normalized);
      if !ok { return false; }
      GroupStep(a, b, session.db, document, hash, group, normalized, i);
    }
    GroupFacts(a, session.db, document, hash, group, normalized, |group|);
    if StoreSound(a.store) { HoldsIsCarried(session.db.store, document, hash, vector, normalized); }
    ok := true;
  }

  /** The hash carries the provider's own coordinates. */
  lemma HoldsIsCarried(st: Store, document: DocumentConfig, hash: string, vector: Vector, normalized: Vector)
    requires NormalizeVector(vector, document.descriptor.dimension) == Some(normalized)
    requires HashHolds(st, document, hash, normalized) && ReusableKeys(st, document, hash) != {}
    ensures HashCarries(st, document, hash, vector)
  {
    NormalizeRounds(vector, document.descriptor.dimension, normalized);
    hide NormalizeVector, Rounds;
    var known :| known in ReusableKeys(st, document, hash);
    assert Holder(st, document, hash, known);
    forall key | Holder(st, document, hash, key) ensures Rounds(vector, st.embeddings[key].vector) {
      assert key in ReusableKeys(st, document, hash);
    }
  }

  lemma GroupStart(a: Database, document: DocumentConfig, hash: string, group: seq<StoredChunk>, normalized: Vector)
    requires GroupSound(a.store, document, hash, group)
    ensures GroupProgress(a, a, document, hash, group, normalized, 0) && group != []
  {
    NoLinks(a);
  }

  lemma GroupFacts(a: Database, b: Database, document: DocumentConfig, hash: string,
                   group: seq<StoredChunk>, normalized: Vector, n: nat)
    requires GroupProgress(a, b, document, hash, group, normalized, n) && group != []
    ensures LinksOnly(a, b) && OtherHashesKept(a.store, b.store, document, hash)
    ensures n < |group| ==> ChunksMatch(b.store, [group[n]])
    ensures StoreSound(a.store) ==> StoreSound(b.store) && HashHolds(b.store, document, hash, normalized)
    ensures n == |group| ==> (forall i :: 0 <= i < |group| ==> Embedded(b.store, document, group[i].id))
                             && ReusableKeys(b.store, document, hash) != {}
  {
    LinksOnlyExtends(a, b);
    hide ReusableKeys, HashHolds, OtherHashesKept, LinksOnly, StoreSound;
  }

  lemma OthersKeptTransitive(a: Store, b: Store, c: Store, document: DocumentConfig, hash: string)
    requires OtherHashesKept(a, b, document, hash) && OtherHashesKept(b, c, document, hash)
    ensures OtherHashesKept(a, c, document, hash)
  {
    hide ReusableKeys;
  }
}
