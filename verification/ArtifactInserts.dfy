/** Row-by-row insertion of one parse's sections and chunks. */
module ArtifactInserts {
  import opened Basics
  import opened Text
  import opened Documents
  import opened ArtifactIdentity
  import opened Tables
  import opened StoredParses
  import opened ParseRoundTrip
  import opened StoreFrames

  lemma AddSectionRow(parses: map<ParseKey, Manifest>, sections: map<Uuid, SectionRow>, id: Uuid, row: SectionRow)
    requires SectionsSchema(parses, sections) && id !in sections
    requires row.parse in parses && SectionChecks(row)
    requires row.parent.Some? ==> row.parent.value in sections && sections[row.parent.value].parse == row.parse
    requires forall i :: i in sections ==> !SameOrdinal(sections[i], row)
    ensures SectionsSchema(parses, sections[id := row])
  {
    hide SectionChecks;
  }

  lemma AddSectionSchema(st: Store, id: Uuid, row: SectionRow)
    requires StoreSchema(st) && id !in st.sections
    requires row.parse in st.parses && SectionChecks(row)
    requires row.parent.Some? ==> row.parent.value in st.sections && st.sections[row.parent.value].parse == row.parse
    requires forall i :: i in st.sections ==> !SameOrdinal(st.sections[i], row)
    ensures StoreSchema(st.(sections := st.sections[id := row]))
  {
    AddSectionRow(st.parses, st.sections, id, row);
    assert ChunksSchema(st.sections[id := row], st.chunks) by { hide ChunkChecks, SameChunkOrdinal; }
    hide ContentsSchema, SectionsSchema, ChunksSchema, EmbeddingsSchema;
  }

  lemma AddChunkSchema(st: Store, id: Uuid, row: ChunkRow)
    requires StoreSchema(st) && id !in st.chunks
    requires row.section in st.sections && ChunkChecks(row)
    requires forall i :: i in st.chunks ==> !SameChunkOrdinal(st.chunks[i], row)
    ensures StoreSchema(st.(chunks := st.chunks[id := row]))
  {
    hide ChunkChecks;
    assert ChunksSchema(st.sections, st.chunks[id := row]);
    assert EmbeddingsSchema(st.chunks[id := row], st.embeddings);
    hide ContentsSchema, SectionsSchema, ChunksSchema, EmbeddingsSchema;
  }

  lemma StoreChangeSchema(db: Database, st: Store)
    requires Schema(db) && StoreSchema(st) && db.store.contents.Keys <= st.contents.Keys
    ensures Schema(db.(store := st))
  {
  }

  method InsertSection(session: Session, row: SectionRow) returns (id: Uuid)
    requires session.Sound()
    requires row.parse in session.db.store.parses && SectionChecks(row)
    requires row.parent.Some? ==>
      row.parent.value in session.db.store.sections && session.db.store.sections[row.parent.value].parse == row.parse
    requires forall i :: i in session.db.store.sections ==> !SameOrdinal(session.db.store.sections[i], row)
    modifies session
    ensures session.Sound() && id !in old(session.db.store.sections)
    ensures session.db == old(session.db).(store := old(session.db.store).(sections := old(session.db.store.sections)[id := row]))
  {
    var st := session.db.store;
    UnusedUuidExists(st.sections.Keys);
    id :| id !in st.sections;
    AddSectionSchema(st, id, row);
    StoreChangeSchema(session.db, st.(sections := st.sections[id := row]));
    session.db := session.db.(store := st.(sections := st.sections[id := row]));
    session.Flush();
  }

  method InsertChunk(session: Session, row: ChunkRow) returns (id: Uuid)
    requires session.Sound()
    requires row.section in session.db.store.sections && ChunkChecks(row)
    requires forall i :: i in session.db.store.chunks ==> !SameChunkOrdinal(session.db.store.chunks[i], row)
    modifies session
    ensures session.Sound() && id !in old(session.db.store.chunks)
    ensures session.db == old(session.db).(store := old(session.db.store).(chunks := old(session.db.store.chunks)[id := row]))
  {
    var st := session.db.store;
    UnusedUuidExists(st.chunks.Keys);
    id :| id !in st.chunks;
    AddChunkSchema(st, id, row);
    StoreChangeSchema(session.db, st.(chunks := st.chunks[id := row]));
    session.db := session.db.(store := st.(chunks := st.chunks[id := row]));
    session.Flush();
  }

  // ---------------------------------------------------------------- sections

  /** Section rows added to one parse, all else unchanged. */
  ghost predicate SectionsAdded(a: Database, b: Database, key: ParseKey) {
    && b == a.(store := a.store.(sections := b.store.sections))
    && SubTable(a.store.sections, b.store.sections)
    && forall id :: id in b.store.sections && id !in a.store.sections ==> b.store.sections[id].parse == key
  }

  lemma SectionStored(st: Store, key: ParseKey, sections: seq<Section>, ids: seq<Uuid>, id: Uuid)
    requires SectionsStored(st, key, sections, ids) && |ids| < |sections| && id !in st.sections
    requires Sequential(sections) && ValidSections(sections)
    ensures SectionsStored(st.(sections := st.sections[id := SectionRowOf(key, sections[|ids|], ids)]), key, sections, ids + [id])
  {
    var row := SectionRowOf(key, sections[|ids|], ids);
    var st', ids' := st.(sections := st.sections[id := row]), ids + [id];
    assert forall i :: 0 <= i < |ids| ==> ids[i] in Elements(ids);
    assert SectionsOf(st', key) == SectionsOf(st, key) + {id};
    assert Elements(ids') == Elements(ids) + {id};
    forall i | 0 <= i <= |ids| ensures SectionRowOf(key, sections[i], ids') == SectionRowOf(key, sections[i], ids) {
      EarlierParent(sections[i], ids, id);
    }
    hide Elements, SectionsOf, SectionRowOf, ValidSections, Sequential;
  }

  lemma EarlierParent(s: Section, ids: seq<Uuid>, id: Uuid)
    requires ValidSection(s) && s.ordinal <= |ids|
    ensures ParentId(s, ids + [id]) == ParentId(s, ids)
  {
    hide ValidBlock;
  }

  lemma NextSectionFits(st: Store, key: ParseKey, sections: seq<Section>, ids: seq<Uuid>)
    requires SectionsStored(st, key, sections, ids) && |ids| < |sections|
    requires Sequential(sections) && ValidSections(sections)
    ensures var row := SectionRowOf(key, sections[|ids|], ids);
            && SectionChecks(row)
            && (row.parent.Some? ==> row.parent.value in st.sections && st.sections[row.parent.value].parse == key)
            && forall i :: i in st.sections ==> !SameOrdinal(st.sections[i], row)
  {
    assert ValidSection(sections[|ids|]);
    hide ValidBlock;
    forall i | i in st.sections && st.sections[i].parse == key ensures st.sections[i].ordinal != |ids| {
      assert i in SectionsOf(st, key) && i in Elements(ids);
      var k :| 0 <= k < |ids| && ids[k] == i;
    }
  }

  /** Inserting the next section in order. */
  method InsertNextSection(session: Session, key: ParseKey, sections: seq<Section>, ids: seq<Uuid>) returns (id: Uuid)
    requires session.Sound() && key in session.db.store.parses
    requires Sequential(sections) && ValidSections(sections)
    requires |ids| < |sections| && SectionsStored(session.db.store, key, sections, ids)
    modifies session
    ensures session.Sound() && SectionsAdded(old(session.db), session.db, key)
    ensures SectionsStored(session.db.store, key, sections, ids + [id])
  {
    hide ValidSection, ValidSections, Sequential, Elements, SectionsStored, SectionChecks, Schema;
    NextSectionFits(session.db.store, key, sections, ids);
    ghost var before := session.db.store;
    id := InsertSection(session, SectionRowOf(key, sections[|ids|], ids));
    SectionStored(before, key, sections, ids, id);
  }

  method InsertSections(session: Session, key: ParseKey, sections: seq<Section>) returns (ids: seq<Uuid>)
    requires session.Sound() && key in session.db.store.parses && SectionsOf(session.db.store, key) == {}
    requires Sequential(sections) && ValidSections(sections)
    modifies session
    ensures session.Sound() && SectionsAdded(old(session.db), session.db, key)
    ensures |ids| == |sections| && SectionsStored(session.db.store, key, sections, ids)
  {
    ids := [];
    for i := 0 to |sections|
      invariant session.Sound() && SectionsAdded(old(session.db), session.db, key)
      invariant |ids| == i && SectionsStored(session.db.store, key, sections, ids)
    {
      ghost var before := session.db;
      var id := InsertNextSection(session, key, sections, ids);
      SectionsAddedTwice(old(session.db), before, session.db, key);
      ids := ids + [id];
    }
  }

  lemma SectionsAddedTwice(a: Database, b: Database, c: Database, key: ParseKey)
    requires SectionsAdded(a, b, key) && SectionsAdded(b, c, key)
    ensures SectionsAdded(a, c, key)
  {
  }

  // ---------------------------------------------------------------- chunks

  ghost predicate ChunksAdded(a: Database, b: Database, key: ParseKey) {
    && b == a.(store := a.store.(chunks := b.store.chunks))
    && SubTable(a.store.chunks, b.store.chunks)
    && forall id :: id in b.store.chunks && id !in a.store.chunks ==> b.store.chunks[id].section in SectionsOf(a.store, key)
  }

  lemma ChunkStored(st: Store, key: ParseKey, chunks: seq<ChunkDraft>, owners: seq<int>,
                    sectionIds: seq<Uuid>, ids: seq<Uuid>, id: Uuid)
    requires ChunksStored(st, key, chunks, owners, sectionIds, ids) && |ids| < |chunks| && id !in st.chunks
    requires 0 <= owners[|ids|] < |sectionIds| && Elements(sectionIds) == SectionsOf(st, key)
    ensures var row := ChunkRow(sectionIds[owners[|ids|]], StoredDraft(chunks[|ids|]));
            && row.section in SectionsOf(st, key)
            && ChunksStored(st.(chunks := st.chunks[id := row]), key, chunks, owners, sectionIds, ids + [id])
  {
    var row := ChunkRow(sectionIds[owners[|ids|]], StoredDraft(chunks[|ids|]));
    var st', ids' := st.(chunks := st.chunks[id := row]), ids + [id];
    assert row.section in Elements(sectionIds);
    assert forall i :: 0 <= i < |ids| ==> ids[i] in Elements(ids);
    assert ChunksOf(st', key) == ChunksOf(st, key) + {id};
    assert Elements(ids') == Elements(ids) + {id};
  }

  /** No stored chunk already holds the next chunk's place in its section. */
  lemma NextChunkFits(st: Store, key: ParseKey, sections: seq<Section>, chunks: seq<ChunkDraft>, owners: seq<int>,
                      sectionIds: seq<Uuid>, ids: seq<Uuid>)
    requires SectionsStored(st, key, sections, sectionIds) && |sectionIds| == |sections|
    requires ChunksStored(st, key, chunks, owners, sectionIds, ids) && |ids| < |chunks|
    requires Coherent(sections, chunks, owners)
    ensures var row := ChunkRow(sectionIds[owners[|ids|]], StoredDraft(chunks[|ids|]));
            forall i :: i in st.chunks ==> !SameChunkOrdinal(st.chunks[i], row)
  {
    var k := |ids|;
    var section := sectionIds[owners[k]];
    assert section in Elements(sectionIds);
    forall i | i in st.chunks && st.chunks[i].section == section ensures st.chunks[i].draft.ordinal != chunks[k].ordinal {
      assert i in ChunksOf(st, key);
      assert i in Elements(ids);
      var j :| 0 <= j < |ids| && ids[j] == i;
      assert owners[j] == owners[k];
      OrdinalsGrow(sections, chunks, owners, j, k);
    }
  }

  lemma ChunkPasses(chunk: ChunkDraft, row: ChunkRow)
    requires ValidChunk(chunk) && row.draft == StoredDraft(chunk)
    ensures ChunkChecks(row)
  {
  }

  /** Inserting the next chunk in order. */
  method InsertNextChunk(session: Session, key: ParseKey, ghost sections: seq<Section>, chunks: seq<ChunkDraft>,
                         owners: seq<int>, sectionIds: seq<Uuid>, ids: seq<Uuid>)
    returns (id: Uuid)
    requires session.Sound()
    requires |sectionIds| == |sections| && SectionsStored(session.db.store, key, sections, sectionIds)
    requires Coherent(sections, chunks, owners) && ValidChunks(chunks)
    requires |ids| < |chunks| && ChunksStored(session.db.store, key, chunks, owners, sectionIds, ids)
    modifies session
    ensures session.Sound() && ChunksAdded(old(session.db), session.db, key)
    ensures ChunksStored(session.db.store, key, chunks, owners, sectionIds, ids + [id])
  {
    hide ValidChunk, Schema, OrdinalsOf, Counting, Sorted;
    var k := |ids|;
    ghost var before := session.db.store;
    var row := ChunkRow(sectionIds[owners[k]], StoredDraft(chunks[k]));
    assert row.section in SectionsOf(before, key) by { assert row.section in Elements(sectionIds); }
    NextChunkFits(before, key, sections, chunks, owners, sectionIds, ids);
    ChunkPasses(chunks[k], row);
    id := InsertChunk(session, row);
    ChunkStored(before, key, chunks, owners, sectionIds, ids, id);
  }

  method InsertChunks(session: Session, key: ParseKey, ghost sections: seq<Section>, chunks: seq<ChunkDraft>,
                      owners: seq<int>, sectionIds: seq<Uuid>)
    returns (ids: seq<Uuid>)
    requires session.Sound() && ChunksOf(session.db.store, key) == {}
    requires |sectionIds| == |sections| && SectionsStored(session.db.store, key, sections, sectionIds)
    requires Coherent(sections, chunks, owners) && ValidChunks(chunks)
    modifies session
    ensures session.Sound() && ChunksAdded(old(session.db), session.db, key)
    ensures |ids| == |chunks| && ChunksStored(session.db.store, key, chunks, owners, sectionIds, ids)
  {
    ids := [];
    for k := 0 to |chunks|
      invariant session.Sound() && ChunksAdded(old(session.db), session.db, key)
      invariant |ids| == k && ChunksStored(session.db.store, key, chunks, owners, sectionIds, ids)
      invariant SectionsStored(session.db.store, key, sections, sectionIds)
    {
      ghost var before := session.db;
      var id := InsertNextChunk(session, key, sections, chunks, owners, sectionIds, ids);
      ChunksAddedTwice(old(session.db), before, session.db, key);
      SectionsKept(before.store, session.db.store, key, sections, sectionIds);
      ids := ids + [id];
    }
  }

  lemma ChunksAddedTwice(a: Database, b: Database, c: Database, key: ParseKey)
    requires ChunksAdded(a, b, key) && ChunksAdded(b, c, key)
    ensures ChunksAdded(a, c, key)
  {
  }

  lemma SectionsKept(a: Store, b: Store, key: ParseKey, sections: seq<Section>, ids: seq<Uuid>)
    requires SectionsStored(a, key, sections, ids) && a.sections == b.sections
    ensures SectionsStored(b, key, sections, ids)
  {
    assert SectionsOf(a, key) == SectionsOf(b, key);
  }
}
