/** What save_parse writes, find_parse reads back, whatever order the rows come in. */
module ParseRoundTrip {
  import opened Basics
  import opened Text
  import opened Ordering
  import opened Documents
  import opened ArtifactIdentity
  import opened Tables
  import opened StoredParses

  function ParentId(s: Section, ids: seq<Uuid>): Option<Uuid> {
    if s.parent.Some? && 0 <= s.parent.value < |ids| then Some(ids[s.parent.value]) else None
  }

  function SectionRowOf(key: ParseKey, s: Section, ids: seq<Uuid>): SectionRow {
    SectionRow(key, ParentId(s, ids), s.ordinal, s.level, s.heading, s.headingPath, s.body, s.lineStart, s.lineEnd)
  }

  /** The first |ids| sections are stored, under these identities, and no others. */
  ghost predicate SectionsStored(st: Store, key: ParseKey, sections: seq<Section>, ids: seq<Uuid>) {
    && |ids| <= |sections|
    && Distinct(ids) && Elements(ids) == SectionsOf(st, key)
    && forall i :: 0 <= i < |ids| ==> ids[i] in st.sections && st.sections[ids[i]] == SectionRowOf(key, sections[i], ids)
  }

  /** The first |ids| chunks are stored, under these identities, and no others. */
  ghost predicate ChunksStored(st: Store, key: ParseKey, chunks: seq<ChunkDraft>, owners: seq<int>,
                               sectionIds: seq<Uuid>, ids: seq<Uuid>)
  {
    && |ids| <= |chunks| == |owners|
    && Distinct(ids) && Elements(ids) == ChunksOf(st, key)
    && forall i :: 0 <= i < |ids| ==>
         && 0 <= owners[i] < |sectionIds| && ids[i] in st.chunks
         && st.chunks[ids[i]] == ChunkRow(sectionIds[owners[i]], StoredDraft(chunks[i]))
  }

  lemma StoredSectionIds(st: Store, key: ParseKey, sections: seq<Section>, ids: seq<Uuid>)
    requires SectionsStored(st, key, sections, ids) && Sequential(sections)
    ensures SectionIds(st, key) == ids
  {
    var keys := SectionKeys(st, key);
    assert Lists(ids, keys) by {
      forall i | 0 <= i < |ids| ensures ids[i] in keys && keys[ids[i]] == Key(i as real, 0, 0) {
        assert ids[i] in Elements(ids);
      }
      forall id | id in keys ensures id in ids { assert id in Elements(ids); }
    }
    OrderUnique(ids, keys);
  }

  lemma StoredSectionsRead(st: Store, key: ParseKey, sections: seq<Section>, ids: seq<Uuid>)
    requires SectionsStored(st, key, sections, ids) && |ids| == |sections|
    requires Sequential(sections) && ValidSections(sections)
    ensures ParentsResolve(st, key) && ReadSections(st, key) == StoredSections(sections)
  {
    StoredSectionIds(st, key, sections, ids);
    hide SectionIds, ValidBlock;
    forall i | 0 <= i < |ids|
      ensures ids[i] in SectionsOf(st, key)
      ensures sections[i].parent.Some? ==>
                && 0 <= sections[i].parent.value < i
                && st.sections[ids[i]].parent == Some(ids[sections[i].parent.value])
      ensures sections[i].parent.None? ==> st.sections[ids[i]].parent == None
    {
      assert ids[i] in Elements(ids);
      assert ValidSection(sections[i]);
    }
    forall id | id in SectionsOf(st, key) && st.sections[id].parent.Some?
      ensures st.sections[id].parent.value in SectionsOf(st, key)
    {
      assert id in Elements(ids);
      var i :| 0 <= i < |ids| && ids[i] == id;
      assert sections[i].parent.Some?;
      assert ids[sections[i].parent.value] in SectionsOf(st, key);
    }
    assert ParentsResolve(st, key);
    forall i | 0 <= i < |ids| ensures ReadSections(st, key)[i] == StoredForm(sections[i]) {
      assert ReadSections(st, key)[i] == ReadSection(st, ids[i]);
      if sections[i].parent.Some? {
        var p := sections[i].parent.value;
        assert st.sections[ids[p]].ordinal == sections[p].ordinal == p;
      }
    }
  }

  /** In an admissible projection a chunk's ordinal counts its section's earlier chunks. */
  lemma OrdinalCounts(sections: seq<Section>, chunks: seq<ChunkDraft>, owners: seq<int>, k: nat)
    requires Coherent(sections, chunks, owners) && k < |chunks|
    ensures chunks[k].ordinal == |OrdinalsOf(chunks[..k], owners[..k], owners[k])|
  {
    var owner := owners[k];
    OrdinalsExtend(chunks, owners, k, owner);
    OrdinalsPrefix(chunks, owners, k + 1, owner);
    var before, upTo := OrdinalsOf(chunks[..k], owners[..k], owner), OrdinalsOf(chunks[..k + 1], owners[..k + 1], owner);
    assert upTo[|before|] == chunks[k].ordinal;
    assert Counting(OrdinalsOf(chunks, owners, owner));
  }

  lemma OrdinalsGrow(sections: seq<Section>, chunks: seq<ChunkDraft>, owners: seq<int>, j: nat, k: nat)
    requires Coherent(sections, chunks, owners) && j < k < |chunks| && owners[j] == owners[k]
    ensures chunks[j].ordinal < chunks[k].ordinal
  {
    OrdinalCounts(sections, chunks, owners, j);
    OrdinalCounts(sections, chunks, owners, k);
    OrdinalsExtend(chunks, owners, j, owners[k]);
    OrdinalsPrefix(chunks[..k], owners[..k], j + 1, owners[k]);
    assert chunks[..k][..j + 1] == chunks[..j + 1] && owners[..k][..j + 1] == owners[..j + 1];
  }

  lemma StoredChunkRow(st: Store, key: ParseKey, sections: seq<Section>, chunks: seq<ChunkDraft>, owners: seq<int>,
                       sectionIds: seq<Uuid>, ids: seq<Uuid>, i: nat)
    requires SectionsStored(st, key, sections, sectionIds) && |sectionIds| == |sections| && Sequential(sections)
    requires ChunksStored(st, key, chunks, owners, sectionIds, ids) && i < |ids|
    ensures ids[i] in ChunksOf(st, key) && st.chunks[ids[i]].draft == StoredDraft(chunks[i])
    ensures st.sections[st.chunks[ids[i]].section].ordinal == owners[i]
  {
    assert ids[i] in Elements(ids);
  }

  ghost predicate ChunkKeysAre(keys: map<Uuid, Key>, ids: seq<Uuid>, chunks: seq<ChunkDraft>, owners: seq<int>) {
    && |ids| == |chunks| == |owners| && Elements(ids) == keys.Keys
    && forall i :: 0 <= i < |ids| ==> ids[i] in keys && keys[ids[i]] == Key(owners[i] as real, chunks[i].ordinal, 0)
  }

  lemma CoherentKeysList(keys: map<Uuid, Key>, ids: seq<Uuid>, sections: seq<Section>, chunks: seq<ChunkDraft>, owners: seq<int>)
    requires ChunkKeysAre(keys, ids, chunks, owners) && Coherent(sections, chunks, owners)
    ensures Lists(ids, keys)
  {
    forall id | id in keys ensures id in ids { assert id in Elements(ids); }
    forall i, j | 0 <= i < j < |ids| ensures Before(keys[ids[i]], ids[i], keys[ids[j]], ids[j]) {
      assert owners[i] <= owners[j];
      if owners[i] == owners[j] { OrdinalsGrow(sections, chunks, owners, i, j); }
    }
  }

  lemma StoredChunkIds(st: Store, key: ParseKey, sections: seq<Section>, chunks: seq<ChunkDraft>, owners: seq<int>,
                       sectionIds: seq<Uuid>, ids: seq<Uuid>)
    requires SectionsStored(st, key, sections, sectionIds) && |sectionIds| == |sections|
    requires ChunksStored(st, key, chunks, owners, sectionIds, ids) && |ids| == |chunks|
    requires Coherent(sections, chunks, owners)
    ensures ChunkIds(st, key) == ids
  {
    var keys := ChunkKeys(st, key);
    forall i | 0 <= i < |ids| ensures ids[i] in keys && keys[ids[i]] == Key(owners[i] as real, chunks[i].ordinal, 0) {
      StoredChunkRow(st, key, sections, chunks, owners, sectionIds, ids, i);
    }
    hide SectionsStored, Coherent, OrderBy;
    assert ChunkKeysAre(keys, ids, chunks, owners);
    CoherentKeysList(keys, ids, sections, chunks, owners);
    OrderUnique(ids, keys);
  }

  lemma StoredChunksRead(st: Store, key: ParseKey, sections: seq<Section>, chunks: seq<ChunkDraft>, owners: seq<int>,
                         sectionIds: seq<Uuid>, ids: seq<Uuid>)
    requires SectionsStored(st, key, sections, sectionIds) && |sectionIds| == |sections|
    requires ChunksStored(st, key, chunks, owners, sectionIds, ids) && |ids| == |chunks|
    requires Coherent(sections, chunks, owners)
    ensures ChunkIds(st, key) == ids
    ensures ReadDrafts(st, key) == StoredDrafts(chunks) && ReadOwners(st, key) == owners
  {
    StoredChunkIds(st, key, sections, chunks, owners, sectionIds, ids);
    hide ChunkIds;
    forall i | 0 <= i < |ids|
      ensures ReadDrafts(st, key)[i] == StoredDraft(chunks[i]) && ReadOwners(st, key)[i] == owners[i]
    {
      StoredChunkRow(st, key, sections, chunks, owners, sectionIds, ids, i);
    }
  }

  /** Round trip: the sections come back in order without their blocks, the chunks in
      their original order, and the owner read by the join is the owner saved. */
  lemma SavedParseIsFound(st: Store, key: ParseKey, sections: seq<Section>, chunks: seq<ChunkDraft>, owners: seq<int>,
                          sectionIds: seq<Uuid>, chunkIds: seq<Uuid>)
    requires IsSha256(key.chunkConfigHash)
    requires SectionsStored(st, key, sections, sectionIds) && |sectionIds| == |sections|
    requires ChunksStored(st, key, chunks, owners, sectionIds, chunkIds) && |chunkIds| == |chunks|
    requires ValidSections(sections) && ValidChunks(chunks) && key.parserVersion != ""
    requires Coherent(sections, chunks, owners)
    requires key in st.parses && Some(st.parses[key]) == ManifestOf(sections, chunks, owners)
    ensures ReadOwners(st, key) == owners
    ensures FindParse(st, key) == Found(ParseArtifacts(
              key.parserVersion, key.chunkConfigHash, ParsedMarkdown(key.parserVersion, StoredSections(sections)),
              StoredChunks(chunkIds, StoredDrafts(chunks))))
  {
    StoredSectionsRead(st, key, sections, sectionIds);
    StoredChunksRead(st, key, sections, chunks, owners, sectionIds, chunkIds);
    StoredFormCoherent(sections, chunks, owners);
    StoredFormsValid(sections, chunks);
    hide SectionIds, ChunkIds, ManifestOf, Coherent, SectionsStored, ChunksStored, ReadDrafts, ReadOwners, ReadSections;
  }

  lemma StoredFormsValid(sections: seq<Section>, chunks: seq<ChunkDraft>)
    ensures ValidSections(sections) ==> ValidSections(StoredSections(sections))
    ensures ValidChunks(chunks) ==> ValidChunks(StoredDrafts(chunks))
  {
    forall i | 0 <= i < |sections| && ValidSection(sections[i]) ensures ValidSection(StoredForm(sections[i])) {
    }
    forall i | 0 <= i < |chunks| && ValidChunk(chunks[i]) ensures ValidChunk(StoredDraft(chunks[i])) {
    }
  }
}
