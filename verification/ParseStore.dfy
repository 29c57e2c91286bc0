/** Saving parse artifacts: a deterministic projection is stored once, exact replay
    reuses it, and a different projection under the same key is rejected. */
module ParseStore {
  import opened Basics
  import opened Text
  import opened Documents
  import opened ArtifactIdentity
  import opened ChunkOwnership
  import opened Tables
  import opened StoredParses
  import opened ParseRoundTrip
  import opened ArtifactInserts
  import opened StoreFrames

  // ---------------------------------------------------------------- specification

  function Drafts(artifacts: ParseArtifacts): seq<ChunkDraft> {
    seq(|artifacts.chunks|, i requires 0 <= i < |artifacts.chunks| => artifacts.chunks[i].draft)
  }

  /** _parse_replay_matches */
  predicate ReplayMatches(stored: ParseArtifacts, parsed: ParsedMarkdown, chunks: seq<ChunkDraft>) {
    var storedOwners := OwnersOf(stored.parsed.sections, Drafts(stored));
    var owners := OwnersOf(parsed.sections, chunks);
    && stored.parserVersion == parsed.parserVersion
    && storedOwners.Some? && owners.Some?
    && ManifestOf(stored.parsed.sections, Drafts(stored), storedOwners.value).Some?
    && ManifestOf(stored.parsed.sections, Drafts(stored), storedOwners.value)
         == ManifestOf(parsed.sections, chunks, owners.value)
  }

  datatype Decision = Reject | Reuse(artifacts: ParseArtifacts) | Create(owners: seq<int>, manifest: Manifest)

  /** What save_parse does with an incoming projection. */
  function Decide(st: Store, key: ParseKey, parsed: ParsedMarkdown, chunks: seq<ChunkDraft>): Decision {
    var owners := OwnersOf(parsed.sections, chunks);
    if !IsSha256(key.chunkConfigHash) || parsed.parserVersion != key.parserVersion || owners.None? then Reject
    else
      var manifest := ManifestOf(parsed.sections, chunks, owners.value);
      if manifest.None? then Reject
      else match FindParse(st, key)
        case Corrupt => Reject
        case Found(existing) => if ReplayMatches(existing, parsed, chunks) then Reuse(existing) else Reject
        case Missing => if key.content in st.contents then Create(owners.value, manifest.value) else Reject
  }

  /** Replay is accepted exactly when every persisted field agrees. */
  lemma ReplayExact(st: Store, key: ParseKey, existing: ParseArtifacts, parsed: ParsedMarkdown, chunks: seq<ChunkDraft>, owners: seq<int>)
    requires FindParse(st, key) == Found(existing) && parsed.parserVersion == key.parserVersion
    requires OwnersOf(parsed.sections, chunks) == Some(owners) && ManifestOf(parsed.sections, chunks, owners).Some?
    ensures ReplayMatches(existing, parsed, chunks)
       <==> existing.parsed.sections == StoredSections(parsed.sections) && Drafts(existing) == StoredDrafts(chunks)
  {
    var sections, drafts := existing.parsed.sections, Drafts(existing);
    hide OwnersOf, FindParse, ManifestOf;
    assert existing.parserVersion == key.parserVersion by { FoundVersion(st, key, existing); }
    StoredOwners(parsed.sections, chunks);
    StoredFormCoherent(parsed.sections, chunks, owners);
    var storedOwners := OwnersOf(sections, drafts);
    if storedOwners.Some? {
      ManifestInjective(parsed.sections, chunks, owners, sections, drafts, storedOwners.value);
      FoundIsStored(st, key, existing);
    }
  }

  lemma FoundVersion(st: Store, key: ParseKey, existing: ParseArtifacts)
    requires FindParse(st, key) == Found(existing)
    ensures existing.parserVersion == existing.parsed.parserVersion == key.parserVersion
    ensures existing.chunkConfigHash == key.chunkConfigHash
  {
  }

  /** Artifacts read from the store carry no transient data. */
  lemma FoundIsStored(st: Store, key: ParseKey, existing: ParseArtifacts)
    requires FindParse(st, key) == Found(existing)
    ensures StoredSections(existing.parsed.sections) == existing.parsed.sections
    ensures StoredDrafts(Drafts(existing)) == Drafts(existing)
  {
    hide SectionIds, ChunkIds, ManifestOf;
    var sections := existing.parsed.sections;
    assert sections == ReadSections(st, key);
    forall i | 0 <= i < |sections| ensures StoredForm(sections[i]) == sections[i] {
    }
    assert Drafts(existing) == ReadDrafts(st, key);
  }

  // ---------------------------------------------------------------- save_parse

  /** The state after creating one new parse. */
  ghost predicate ParseCreated(a: Database, b: Database, key: ParseKey, manifest: Manifest) {
    && b == a.(store := b.store)
    && Extends(a.store, b.store)
    && b.store.contents == a.store.contents && b.store.embeddings == a.store.embeddings
    && b.store.parses == a.store.parses[key := manifest]
  }

  /** A parse key without a row has no sections or chunks either. */
  lemma AbsentParseIsEmpty(st: Store, key: ParseKey)
    requires StoreSchema(st) && key !in st.parses
    ensures SectionsOf(st, key) == {} && ChunksOf(st, key) == {}
  {
    assert forall id :: id in st.sections ==> st.sections[id].parse in st.parses;
  }

  lemma AddParseSchema(st: Store, key: ParseKey, manifest: Manifest)
    requires StoreSchema(st) && key.content in st.contents && 0 < manifest.sectionCount
    ensures StoreSchema(st.(parses := st.parses[key := manifest]))
  {
    assert ContentsSchema(st.contents, st.parses[key := manifest]);
    assert SectionsSchema(st.parses[key := manifest], st.sections) by { hide SectionChecks, SameOrdinal; }
    hide ContentsSchema, SectionsSchema, ChunksSchema, EmbeddingsSchema;
  }

  method InsertParse(session: Session, key: ParseKey, manifest: Manifest)
    requires session.Sound() && key.content in session.db.store.contents && 0 < manifest.sectionCount
    modifies session
    ensures session.Sound()
    ensures session.db == old(session.db).(store := old(session.db.store).(parses := old(session.db.store.parses)[key := manifest]))
  {
    var st := session.db.store;
    AddParseSchema(st, key, manifest);
    StoreChangeSchema(session.db, st.(parses := st.parses[key := manifest]));
    session.db := session.db.(store := st.(parses := st.parses[key := manifest]));
    session.Flush();
  }

  lemma CreatedExtends(a: Database, p: Database, s: Database, c: Database, key: ParseKey, manifest: Manifest)
    requires Schema(a) && key !in a.store.parses
    requires p == a.(store := a.store.(parses := a.store.parses[key := manifest]))
    requires SectionsAdded(p, s, key) && ChunksAdded(s, c, key)
    ensures ParseCreated(a, c, key, manifest)
  {
    AbsentParseIsEmpty(a.store, key);
  }

  method InsertArtifacts(session: Session, key: ParseKey, parsed: ParsedMarkdown, chunks: seq<ChunkDraft>,
                         owners: seq<int>, manifest: Manifest)
    returns (sectionIds: seq<Uuid>, chunkIds: seq<Uuid>)
    requires session.Sound() && key !in session.db.store.parses && key.content in session.db.store.contents
    requires ValidParsedMarkdown(parsed) && ValidChunks(chunks)
    requires 0 < manifest.sectionCount && Coherent(parsed.sections, chunks, owners)
    modifies session
    ensures session.Sound() && ParseCreated(old(session.db), session.db, key, manifest)
    ensures |sectionIds| == |parsed.sections| && SectionsStored(session.db.store, key, parsed.sections, sectionIds)
    ensures |chunkIds| == |chunks| && ChunksStored(session.db.store, key, chunks, owners, sectionIds, chunkIds)
  {
    ghost var a := session.db;
    AbsentParseIsEmpty(a.store, key);
    InsertParse(session, key, manifest);
    ghost var p := session.db;
    assert SectionsOf(p.store, key) == SectionsOf(a.store, key);
    sectionIds := InsertSections(session, key, parsed.sections);
    ghost var s := session.db;
    NoChunksYet(p.store, s.store, key);
    chunkIds := InsertChunks(session, key, parsed.sections, chunks, owners, sectionIds);
    SectionsKept(s.store, session.db.store, key, parsed.sections, sectionIds);
    CreatedExtends(a, p, s, session.db, key, manifest);
  }

  /** The rows created for an admissible projection read back as that projection. */
  method CreateParse(session: Session, key: ParseKey, parsed: ParsedMarkdown, chunks: seq<ChunkDraft>,
                     owners: seq<int>, manifest: Manifest)
    returns (created: ParseArtifacts)
    requires IsSha256(key.chunkConfigHash)
    requires session.Sound() && key !in session.db.store.parses && key.content in session.db.store.contents
    requires ValidParsedMarkdown(parsed) && ValidChunks(chunks) && parsed.parserVersion == key.parserVersion
    requires ManifestOf(parsed.sections, chunks, owners) == Some(manifest)
    modifies session
    ensures session.Sound() && ParseCreated(old(session.db), session.db, key, manifest)
    ensures FindParse(session.db.store, key) == Found(created)
    ensures created.parsed.sections == StoredSections(parsed.sections) && Drafts(created) == StoredDrafts(chunks)
    ensures ReadOwners(session.db.store, key) == owners
  {
    var sectionIds, chunkIds := InsertArtifacts(session, key, parsed, chunks, owners, manifest);
    created := ParseArtifacts(key.parserVersion, key.chunkConfigHash,
                              ParsedMarkdown(key.parserVersion, StoredSections(parsed.sections)),
                              StoredChunks(chunkIds, StoredDrafts(chunks)));
    DraftsOfStored(created, chunkIds, StoredDrafts(chunks));
    hide FindParse, ReadOwners, ParseCreated, Drafts;
    SavedParseIsFound(session.db.store, key, parsed.sections, chunks, owners, sectionIds, chunkIds);
  }

  lemma DraftsOfStored(artifacts: ParseArtifacts, ids: seq<Uuid>, drafts: seq<ChunkDraft>)
    requires |ids| == |drafts| && artifacts.chunks == StoredChunks(ids, drafts)
    ensures Drafts(artifacts) == drafts
  {
  }

  lemma NoChunksYet(p: Store, s: Store, key: ParseKey)
    requires StoreSchema(p) && SectionsOf(p, key) == {} && s == p.(sections := s.sections) && SubTable(p.sections, s.sections)
    ensures ChunksOf(s, key) == {}
  {
    forall id | id in s.chunks ensures !ChunkOf(s, key, id) {
      assert p.chunks[id].section in p.sections;
      assert p.chunks[id].section !in SectionsOf(p, key);
    }
  }

  /** Every chunk has one owner, and the projection has a manifest under these owners. */
  predicate Persistable(parsed: ParsedMarkdown, chunks: seq<ChunkDraft>) {
    && OwnersOf(parsed.sections, chunks).Some?
    && ManifestOf(parsed.sections, chunks, OwnersOf(parsed.sections, chunks).value).Some?
  }

  /** Over a stored parse the decision is the equality of every persisted field. */
  lemma DecidesReplay(st: Store, key: ParseKey, parsed: ParsedMarkdown, chunks: seq<ChunkDraft>)
    requires FindParse(st, key).Found?
    ensures var existing := FindParse(st, key).artifacts;
            Decide(st, key, parsed, chunks) ==
              if parsed.parserVersion == key.parserVersion && Persistable(parsed, chunks)
                 && existing.parsed.sections == StoredSections(parsed.sections) && Drafts(existing) == StoredDrafts(chunks)
              then Reuse(existing) else Reject
  {
    hide OwnersOf, ManifestOf, ParseSound, ReplayMatches;
    var existing := FindParse(st, key).artifacts;
    if parsed.parserVersion == key.parserVersion && Persistable(parsed, chunks) {
      ReplayExact(st, key, existing, parsed, chunks, OwnersOf(parsed.sections, chunks).value);
    }
  }

  /** save_parse */
  method SaveParse(session: Session, key: ParseKey, parsed: ParsedMarkdown, chunks: seq<ChunkDraft>)
    returns (saved: Option<ParseArtifacts>)
    requires session.Sound() && ValidParsedMarkdown(parsed) && ValidChunks(chunks)
    modifies session
    ensures session.Sound()
    ensures match Decide(old(session.db.store), key, parsed, chunks)
            case Reject => saved == None && session.db == old(session.db)
            case Reuse(existing) => saved == Some(existing) && session.db == old(session.db)
            case Create(owners, manifest) =>
              && saved.Some? && ParseCreated(old(session.db), session.db, key, manifest)
              && FindParse(session.db.store, key) == Found(saved.value)
              && saved.value.parsed.sections == StoredSections(parsed.sections)
              && Drafts(saved.value) == StoredDrafts(chunks)
              && ReadOwners(session.db.store, key) == owners
    ensures FindParse(old(session.db.store), key).Found? ==>
              var existing := FindParse(old(session.db.store), key).artifacts;
              && session.db == old(session.db)
              && saved == (if parsed.parserVersion == key.parserVersion && Persistable(parsed, chunks)
                              && existing.parsed.sections == StoredSections(parsed.sections) && Drafts(existing) == StoredDrafts(chunks)
                           then Some(existing) else None)
  {
    if FindParse(session.db.store, key).Found? { DecidesReplay(session.db.store, key, parsed, chunks); }
    if !IsSha256(key.chunkConfigHash) || parsed.parserVersion != key.parserVersion { return None; }
    hide OwnersOf, ManifestOf;
    var owners := ValidateAndMapChunks(parsed.sections, chunks);
    if owners.None? { return None; }
    var incoming := ParseArtifactManifest(parsed.sections, chunks, owners.value);
    if incoming.None? { return None; }
    match FindParse(session.db.store, key) {
      case Corrupt =>
        return None;
      case Found(existing) =>
        if !ReplayMatches(existing, parsed, chunks) { return None; }
        return Some(existing);
      case Missing =>
        if key.content !in session.db.store.contents { return None; }
        var created := CreateParse(session, key, parsed, chunks, owners.value, incoming.value);
        return Some(created);
    }
  }
}
