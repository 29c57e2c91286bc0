/** Reading parse artifacts back from their unordered rows. */
module StoredParses {
  import opened Basics
  import opened Text
  import opened Ordering
  import opened Documents
  import opened ArtifactIdentity
  import opened Tables

  datatype StoredChunk = StoredChunk(id: Uuid, draft: ChunkDraft)

  datatype ParseArtifacts = ParseArtifacts(
    parserVersion: string, chunkConfigHash: string, parsed: ParsedMarkdown, chunks: seq<StoredChunk>)

  /** Outcome of a lookup; `Corrupt` is the error raised for a configuration hash that is
      none, and for rows that violate the application contract. */
  datatype ParseLookup = Missing | Corrupt | Found(artifacts: ParseArtifacts)

  // ---------------------------------------------------------------- queries

  function SectionsOf(st: Store, key: ParseKey): set<Uuid> {
    set id | id in st.sections && st.sections[id].parse == key
  }

  predicate ChunkOf(st: Store, key: ParseKey, id: Uuid) {
    id in st.chunks && st.chunks[id].section in st.sections && st.sections[st.chunks[id].section].parse == key
  }

  function ChunksOf(st: Store, key: ParseKey): set<Uuid> {
    set id | id in st.chunks && ChunkOf(st, key, id)
  }

  /** ORDER BY section.ordinal */
  function SectionKeys(st: Store, key: ParseKey): map<Uuid, Key> {
    map id | id in SectionsOf(st, key) :: Key(st.sections[id].ordinal as real, 0, 0)
  }

  /** ORDER BY section.ordinal, chunk.ordinal */
  function ChunkKeys(st: Store, key: ParseKey): map<Uuid, Key> {
    map id | id in ChunksOf(st, key) ::
      Key(st.sections[st.chunks[id].section].ordinal as real, st.chunks[id].draft.ordinal, 0)
  }

  function SectionIds(st: Store, key: ParseKey): (ids: seq<Uuid>)
    ensures forall i :: 0 <= i < |ids| ==> ids[i] in SectionsOf(st, key)
  {
    OrderByLists(SectionKeys(st, key));
    OrderBy(SectionKeys(st, key))
  }

  function ChunkIds(st: Store, key: ParseKey): (ids: seq<Uuid>)
    ensures forall i :: 0 <= i < |ids| ==> ids[i] in ChunksOf(st, key)
  {
    OrderByLists(ChunkKeys(st, key));
    OrderBy(ChunkKeys(st, key))
  }

  predicate ParentsResolve(st: Store, key: ParseKey) {
    forall id :: id in SectionsOf(st, key) && st.sections[id].parent.Some? ==>
      st.sections[id].parent.value in SectionsOf(st, key)
  }

  /** The typed section of a row, with its parent's ordinal read through the join. */
  function ReadSection(st: Store, id: Uuid): Section
    requires id in st.sections
    requires st.sections[id].parent.Some? ==> st.sections[id].parent.value in st.sections
  {
    var row := st.sections[id];
    Section(row.ordinal,
            if row.parent.None? then None else Some(st.sections[row.parent.value].ordinal),
            row.level, row.heading, row.headingPath, row.body, row.lineStart, row.lineEnd, [])
  }

  function ReadSections(st: Store, key: ParseKey): (sections: seq<Section>)
    requires ParentsResolve(st, key)
    ensures |sections| == |SectionIds(st, key)|
  {
    var ids := SectionIds(st, key);
    seq(|ids|, i requires 0 <= i < |ids| => assert ids[i] in SectionsOf(st, key); ReadSection(st, ids[i]))
  }

  function ReadDrafts(st: Store, key: ParseKey): (drafts: seq<ChunkDraft>)
    ensures |drafts| == |ChunkIds(st, key)|
  {
    var ids := ChunkIds(st, key);
    seq(|ids|, i requires 0 <= i < |ids| => assert ids[i] in ChunksOf(st, key); StoredDraft(st.chunks[ids[i]].draft))
  }

  /** The section ordinal each chunk row joins to. */
  function ReadOwners(st: Store, key: ParseKey): (owners: seq<int>)
    ensures |owners| == |ChunkIds(st, key)|
  {
    var ids := ChunkIds(st, key);
    seq(|ids|, i requires 0 <= i < |ids| =>
      assert ids[i] in ChunksOf(st, key); st.sections[st.chunks[ids[i]].section].ordinal)
  }

  function StoredChunks(ids: seq<Uuid>, drafts: seq<ChunkDraft>): seq<StoredChunk>
    requires |ids| == |drafts|
  {
    seq(|ids|, i requires 0 <= i < |ids| => StoredChunk(ids[i], drafts[i]))
  }

  /** The stored rows of a parse rebuild into valid values that match its manifest. */
  predicate ParseSound(st: Store, key: ParseKey) {
    && key in st.parses
    && ParentsResolve(st, key)
    && ValidSections(ReadSections(st, key)) && ValidChunks(ReadDrafts(st, key))
    && ManifestOf(ReadSections(st, key), ReadDrafts(st, key), ReadOwners(st, key)) == Some(st.parses[key])
  }

  function ReadArtifacts(st: Store, key: ParseKey): ParseArtifacts
    requires ParentsResolve(st, key)
  {
    ParseArtifacts(key.parserVersion, key.chunkConfigHash,
                   ParsedMarkdown(key.parserVersion, ReadSections(st, key)),
                   StoredChunks(ChunkIds(st, key), ReadDrafts(st, key)))
  }

  /** find_parse */
  function FindParse(st: Store, key: ParseKey): ParseLookup {
    if !IsSha256(key.chunkConfigHash) then Corrupt
    else if key !in st.parses then Missing
    else if !ParseSound(st, key) then Corrupt
    else if key.parserVersion == "" then Corrupt
    else Found(ReadArtifacts(st, key))
  }

  // ---------------------------------------------------------------- what a parse depends on

  /** Both stores hold the same rows of one parse. */
  ghost predicate SameParse(a: Store, b: Store, key: ParseKey) {
    && (key in a.parses <==> key in b.parses)
    && (key in a.parses ==> a.parses[key] == b.parses[key])
    && SectionsOf(a, key) == SectionsOf(b, key)
    && (forall id :: id in SectionsOf(a, key) ==> a.sections[id] == b.sections[id])
    && ChunksOf(a, key) == ChunksOf(b, key)
    && (forall id :: id in ChunksOf(a, key) ==> a.chunks[id] == b.chunks[id])
  }

  lemma SameParseOrder(a: Store, b: Store, key: ParseKey)
    requires SameParse(a, b, key)
    ensures SectionIds(a, key) == SectionIds(b, key) && ChunkIds(a, key) == ChunkIds(b, key)
  {
    hide OrderBy;
    assert SectionKeys(a, key) == SectionKeys(b, key);
    assert ChunkKeys(a, key) == ChunkKeys(b, key);
  }

  lemma SameParseChunks(a: Store, b: Store, key: ParseKey)
    requires SameParse(a, b, key)
    ensures ReadDrafts(a, key) == ReadDrafts(b, key) && ReadOwners(a, key) == ReadOwners(b, key)
  {
    SameParseOrder(a, b, key);
    hide ChunkIds, SectionIds;
    var ids := ChunkIds(a, key);
    forall i | 0 <= i < |ids|
      ensures ReadDrafts(a, key)[i] == ReadDrafts(b, key)[i] && ReadOwners(a, key)[i] == ReadOwners(b, key)[i]
    {
      assert ids[i] in ChunksOf(a, key);
      assert a.chunks[ids[i]].section in SectionsOf(a, key);
    }
  }

  lemma SameParseSections(a: Store, b: Store, key: ParseKey)
    requires SameParse(a, b, key)
    ensures ParentsResolve(a, key) == ParentsResolve(b, key)
    ensures ParentsResolve(a, key) ==> ReadSections(a, key) == ReadSections(b, key)
  {
    if ParentsResolve(a, key) {
      SameParseOrder(a, b, key);
      hide ChunkIds, SectionIds;
      var ids := SectionIds(a, key);
      forall i | 0 <= i < |ids| ensures ReadSections(a, key)[i] == ReadSections(b, key)[i] {
        assert ids[i] in SectionsOf(a, key);
      }
    }
  }

  lemma SameParseFind(a: Store, b: Store, key: ParseKey)
    requires SameParse(a, b, key)
    ensures ParseSound(a, key) == ParseSound(b, key)
    ensures FindParse(a, key) == FindParse(b, key)
  {
    SameParseOrder(a, b, key);
    SameParseChunks(a, b, key);
    SameParseSections(a, b, key);
    hide SectionIds, ChunkIds, ReadSections, ReadDrafts, ReadOwners, SectionsOf, ChunksOf, ManifestOf;
  }
}
