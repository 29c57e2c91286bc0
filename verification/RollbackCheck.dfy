/** _assert_target_artifacts: recompute a run's statistics and every parse manifest
    from joined query rows, one pass each. */
module RollbackCheck {
  import opened Basics
  import opened Text
  import opened Ordering
  import opened Documents
  import opened ArtifactIdentity
  import opened Tables
  import opened StoredParses
  import opened VectorStore
  import opened Readiness
  import opened Grouping

  // ---------------------------------------------------------------- occurrence rows

  datatype ContentRow = ContentRow(content: Uuid, text: string)

  datatype Classification = Classification(occurrences: int, uniqueContents: int, empty: int, nonempty: set<Uuid>)

  ghost function ContentsOf(rows: seq<ContentRow>, n: nat): set<Uuid>
    requires n <= |rows|
  {
    set i | 0 <= i < n :: rows[i].content
  }

  ghost function NonemptyOf(rows: seq<ContentRow>, n: nat): set<Uuid>
    requires n <= |rows|
  {
    set i | 0 <= i < n && !Blank(rows[i].text) :: rows[i].content
  }

  ghost function BlankRows(rows: seq<ContentRow>, n: nat): set<nat>
    requires n <= |rows|
  {
    set i: nat | i < n && Blank(rows[i].text)
  }

  lemma RowsStep(rows: seq<ContentRow>, n: nat)
    requires n < |rows|
    ensures ContentsOf(rows, n + 1) == ContentsOf(rows, n) + {rows[n].content}
    ensures NonemptyOf(rows, n + 1) == NonemptyOf(rows, n) + if Blank(rows[n].text) then {} else {rows[n].content}
    ensures |BlankRows(rows, n + 1)| == |BlankRows(rows, n)| + if Blank(rows[n].text) then 1 else 0
  {
    hide Blank;
    assert BlankRows(rows, n + 1) == BlankRows(rows, n) + if Blank(rows[n].text) then {n} else {};
  }

  /** _classify_contents */
  method ClassifyContents(rows: seq<ContentRow>) returns (c: Classification)
    ensures c.occurrences == |rows| && c.uniqueContents == |ContentsOf(rows, |rows|)|
    ensures c.empty == |BlankRows(rows, |rows|)| && c.nonempty == NonemptyOf(rows, |rows|)
  {
    hide Blank;
    var ids: set<Uuid>, nonempty: set<Uuid>, empty := {}, {}, 0;
    for i := 0 to |rows|
      invariant ids == ContentsOf(rows, i) && nonempty == NonemptyOf(rows, i) && empty == |BlankRows(rows, i)|
    {
      RowsStep(rows, i);
      ids := ids + {rows[i].content};
      if Blank(rows[i].text) {
        empty := empty + 1;
      } else {
        nonempty := nonempty + {rows[i].content};
      }
    }
    c := Classification(|rows|, |ids|, empty, nonempty);
  }

  /** An unordered query answer: the selected keys in some order. */
  method Enumerate(keys: set<OccurrenceKey>) returns (order: seq<OccurrenceKey>)
    ensures Distinct(order) && Elements(order) == keys
  {
    order := [];
    var rest := keys;
    while rest != {}
      invariant Distinct(order) && Elements(order) + rest == keys && Elements(order) !! rest
      decreases |rest|
    {
      var key :| key in rest;
      rest := rest - {key};
      assert Elements(order + [key]) == Elements(order) + {key};
      order := order + [key];
    }
  }

  function ContentRows(db: Database, order: seq<OccurrenceKey>): seq<ContentRow>
    requires forall i :: 0 <= i < |order| ==> order[i] in db.occurrences && db.occurrences[order[i]].content in db.store.contents
  {
    seq(|order|, i requires 0 <= i < |order| =>
      var c := db.occurrences[order[i]].content; ContentRow(c, db.store.contents[c].text))
  }

  /** `order` lists the run's occurrences, all of whose contents are stored. */
  ghost predicate ListsRun(db: Database, run: Uuid, order: seq<OccurrenceKey>) {
    && Distinct(order) && Elements(order) == RunKeys(db, run)
    && forall i :: 0 <= i < |order| ==> order[i] in db.occurrences && db.occurrences[order[i]].content in db.store.contents
  }

  lemma RowOfContent(db: Database, run: Uuid, order: seq<OccurrenceKey>, c: Uuid)
    requires ListsRun(db, run, order) && c in RunContents(db, run)
    ensures exists i :: 0 <= i < |order| && ContentRows(db, order)[i].content == c
  {
    hide Blank, RunKeys;
    var key :| key in RunKeys(db, run) && db.occurrences[key].content == c;
    assert key in Elements(order);
    var i :| 0 <= i < |order| && order[i] == key;
    assert ContentRows(db, order)[i].content == c;
  }

  lemma RowInRun(db: Database, run: Uuid, order: seq<OccurrenceKey>, i: nat)
    requires ListsRun(db, run, order) && i < |order|
    ensures order[i] in RunKeys(db, run) && ContentRows(db, order)[i].content in RunContents(db, run)
    ensures Blank(ContentRows(db, order)[i].text) <==> IsBlank(db, ContentRows(db, order)[i].content)
  {
    hide Blank, RunKeys;
    assert order[i] in Elements(order);
  }

  lemma RowsContents(db: Database, run: Uuid, order: seq<OccurrenceKey>)
    requires ListsRun(db, run, order)
    ensures var rows := ContentRows(db, order);
            && |rows| == |RunKeys(db, run)|
            && ContentsOf(rows, |rows|) == RunContents(db, run)
            && NonemptyOf(rows, |rows|) == (set c | c in RunContents(db, run) && !IsBlank(db, c))
  {
    hide Blank, RunKeys, RunContents, IsBlank;
    var rows := ContentRows(db, order);
    DistinctCardinality(order);
    forall i | 0 <= i < |order|
      ensures rows[i].content in RunContents(db, run) && (Blank(rows[i].text) <==> IsBlank(db, rows[i].content))
    {
      RowInRun(db, run, order, i);
    }
    forall c | c in RunContents(db, run) ensures exists i :: 0 <= i < |rows| && rows[i].content == c {
      RowOfContent(db, run, order, c);
    }
    hide ContentRows;
    assert ContentsOf(rows, |rows|) == RunContents(db, run);
  }

  lemma RowsBlank(db: Database, run: Uuid, order: seq<OccurrenceKey>)
    requires ListsRun(db, run, order)
    ensures var rows := ContentRows(db, order); |BlankRows(rows, |rows|)| == |BlankKeys(db, run)|
  {
    var rows := ContentRows(db, order);
    hide Blank;
    forall i | 0 <= i < |order| ensures order[i] in RunKeys(db, run) {
      assert order[i] in Elements(order);
    }
    var f := map i | i in BlankRows(rows, |rows|) :: order[i];
    forall key | key in BlankKeys(db, run) ensures exists i :: i in f && f[i] == key {
      assert key in Elements(order);
      var i :| 0 <= i < |order| && order[i] == key;
      assert i in f;
    }
    SameCardinality(f, BlankKeys(db, run));
    assert f.Keys == BlankRows(rows, |rows|);
  }

  // ---------------------------------------------------------------- joined artifact rows

  datatype JoinedSection = JoinedSection(id: Uuid, row: SectionRow, parentOrdinal: Option<int>)

  /** A parse row outer-joined with one of its sections. */
  datatype SectionJoin = SectionJoin(parse: ParseKey, manifest: Manifest, joined: Option<JoinedSection>)

  /** A chunk row with its section's ordinal and the number of its matching ready embeddings. */
  datatype ChunkJoin = ChunkJoin(owner: int, draft: ChunkDraft, embeddings: int)

  function JoinSection(st: Store, key: ParseKey, id: Uuid): SectionJoin
    requires key in st.parses && id in st.sections
  {
    var row := st.sections[id];
    var above := if row.parent.Some? && row.parent.value in st.sections then Some(st.sections[row.parent.value].ordinal) else None;
    SectionJoin(key, st.parses[key], Some(JoinedSection(id, row, above)))
  }

  /** The rows of one parse by section ordinal; one bare row if it has no section. */
  function SectionJoins(st: Store, key: ParseKey): (rows: seq<SectionJoin>)
    requires key in st.parses
    ensures rows != []
  {
    var ids := SectionIds(st, key);
    if ids == [] then [SectionJoin(key, st.parses[key], None)]
    else seq(|ids|, i requires 0 <= i < |ids| => assert ids[i] in SectionsOf(st, key); JoinSection(st, key, ids[i]))
  }

  /** The rows of one parse by section and chunk ordinal.  The embedding join compares
      the whole descriptor and its key is unique, so it counts nought or one. */
  function ChunkJoins(st: Store, document: DocumentConfig, key: ParseKey): (rows: seq<ChunkJoin>)
    ensures |rows| == |ChunkIds(st, key)|
  {
    var ids := ChunkIds(st, key);
    seq(|ids|, i requires 0 <= i < |ids| =>
      assert ids[i] in ChunksOf(st, key);
      ChunkJoin(st.sections[st.chunks[ids[i]].section].ordinal, StoredDraft(st.chunks[ids[i]].draft),
                if Embedded(st, document, ids[i]) then 1 else 0))
  }

  /** The contents of the run that are parsed under the configuration. */
  function ParsedContents(db: Database, run: Uuid, snapshot: Snapshot): set<Uuid> {
    set c | c in RunContents(db, run) && ParseKeyOf(snapshot, c) in db.store.parses
  }

  function SectionParts(st: Store, snapshot: Snapshot, parsed: set<Uuid>): map<Uuid, seq<SectionJoin>>
    requires forall c :: c in parsed ==> ParseKeyOf(snapshot, c) in st.parses
  {
    map c | c in parsed :: SectionJoins(st, ParseKeyOf(snapshot, c))
  }

  function ChunkParts(st: Store, snapshot: Snapshot, parsed: set<Uuid>): map<Uuid, seq<ChunkJoin>> {
    map c | c in parsed :: ChunkJoins(st, snapshot.document, ParseKeyOf(snapshot, c))
  }

  lemma SortedIdsList(ids: set<Uuid>)
    ensures Distinct(SortedIds(ids)) && forall id :: id in SortedIds(ids) <==> id in ids
  {
    SortedIdsAscend(ids);
    hide SortedIds;
    forall id | id in SortedIds(ids) ensures id in ids { assert id in Elements(SortedIds(ids)); }
  }

  // ---------------------------------------------------------------- one parse

  function Typed(j: JoinedSection): Section {
    Section(j.row.ordinal, j.parentOrdinal, j.row.level, j.row.heading, j.row.headingPath, j.row.body, j.row.lineStart, j.row.lineEnd, [])
  }

  predicate SectionRowSound(row: SectionJoin) {
    && row.joined.Some?
    && (row.joined.value.row.parent.Some? ==> row.joined.value.parentOrdinal.Some?)
    && ValidSection(Typed(row.joined.value))
  }

  predicate SectionRowsSound(rows: seq<SectionJoin>) {
    forall i :: 0 <= i < |rows| ==> SectionRowSound(rows[i])
  }

  function TypedSections(rows: seq<SectionJoin>): seq<Section>
    requires SectionRowsSound(rows)
  {
    seq(|rows|, i requires 0 <= i < |rows| => Typed(rows[i].joined.value))
  }

  ghost function JoinedIds(rows: seq<SectionJoin>): set<Uuid>
    requires SectionRowsSound(rows)
  {
    set i | 0 <= i < |rows| :: rows[i].joined.value.id
  }

  ghost predicate ParentsJoined(rows: seq<SectionJoin>)
    requires SectionRowsSound(rows)
  {
    forall i :: 0 <= i < |rows| && rows[i].joined.value.row.parent.Some? ==> rows[i].joined.value.row.parent.value in JoinedIds(rows)
  }

  predicate ChunkRowsSound(rows: seq<ChunkJoin>) {
    forall i :: 0 <= i < |rows| ==> rows[i].embeddings == 1 && ValidChunk(rows[i].draft)
  }

  function TypedDrafts(rows: seq<ChunkJoin>): seq<ChunkDraft> {
    seq(|rows|, i requires 0 <= i < |rows| => rows[i].draft)
  }

  function Owners(rows: seq<ChunkJoin>): seq<int> {
    seq(|rows|, i requires 0 <= i < |rows| => rows[i].owner)
  }

  /** What the rows of one content must satisfy. */
  ghost predicate GroupSound(sections: seq<SectionJoin>, chunks: seq<ChunkJoin>) {
    && sections != []
    && (forall i :: 0 <= i < |sections| ==> sections[i].parse == sections[0].parse && sections[i].manifest == sections[0].manifest)
    && SectionRowsSound(sections) && ParentsJoined(sections) && ChunkRowsSound(chunks)
    && ManifestOf(TypedSections(sections), TypedDrafts(chunks), Owners(chunks)) == Some(sections[0].manifest)
  }

  method ReadSectionRows(rows: seq<SectionJoin>) returns (sections: Option<seq<Section>>)
    ensures sections.Some? <==> SectionRowsSound(rows) && ParentsJoined(rows)
    ensures sections.Some? ==> sections.value == TypedSections(rows)
  {
    hide ValidSection;
    var typed: seq<Section>, ids: set<Uuid> := [], {};
    for i := 0 to |rows|
      invariant SectionRowsSound(rows[..i]) && typed == TypedSections(rows[..i]) && ids == JoinedIds(rows[..i])
    {
      var row := rows[i];
      assert rows[..i + 1] == rows[..i] + [row];
      if row.joined.None? { return None; }
      if row.joined.value.row.parent.Some? && row.joined.value.parentOrdinal.None? { return None; }
      if !ValidSection(Typed(row.joined.value)) { return None; }
      assert JoinedIds(rows[..i + 1]) == JoinedIds(rows[..i]) + {row.joined.value.id} by {
        assert rows[..i + 1][i] == row;
        forall j | 0 <= j < i ensures rows[..i + 1][j] == rows[..i][j] {}
      }
      ids := ids + {row.joined.value.id};
      typed := typed + [Typed(row.joined.value)];
    }
    assert rows[..|rows|] == rows;
    if exists i :: 0 <= i < |rows| && rows[i].joined.value.row.parent.Some? && rows[i].joined.value.row.parent.value !in ids { return None; }
    return Some(typed);
  }

  method ReadChunkRows(rows: seq<ChunkJoin>) returns (read: Option<(seq<ChunkDraft>, seq<int>)>)
    ensures read.Some? <==> ChunkRowsSound(rows)
    ensures read.Some? ==> read.value == (TypedDrafts(rows), Owners(rows))
  {
    hide ValidChunk;
    var drafts: seq<ChunkDraft>, owners: seq<int> := [], [];
    for i := 0 to |rows|
      invariant ChunkRowsSound(rows[..i]) && drafts == TypedDrafts(rows[..i]) && owners == Owners(rows[..i])
    {
      var row := rows[i];
      assert rows[..i + 1] == rows[..i] + [row];
      if row.embeddings != 1 || !ValidChunk(row.draft) { return None; }
      owners := owners + [row.owner];
      drafts := drafts + [row.draft];
    }
    assert rows[..|rows|] == rows;
    return Some((drafts, owners));
  }

  /** The checks on one content's rows. */
  method CheckGroup(sections: seq<SectionJoin>, chunks: seq<ChunkJoin>) returns (ok: bool)
    ensures ok <==> GroupSound(sections, chunks)
  {
    hide SectionRowsSound, ChunkRowsSound, ManifestOf, ParentsJoined, TypedSections, TypedDrafts, Owners;
    if sections == [] { return false; }
    var declared := set i | 0 <= i < |sections| :: (sections[i].parse, sections[i].manifest);
    assert (sections[0].parse, sections[0].manifest) in declared;
    if |declared| != 1 {
      if forall i :: 0 <= i < |sections| ==> sections[i].parse == sections[0].parse && sections[i].manifest == sections[0].manifest {
        assert declared == {(sections[0].parse, sections[0].manifest)};
      }
      return false;
    }
    forall i | 0 <= i < |sections| ensures sections[i].parse == sections[0].parse && sections[i].manifest == sections[0].manifest {
      SoleElement(declared, (sections[i].parse, sections[i].manifest), (sections[0].parse, sections[0].manifest));
    }
    var typed := ReadSectionRows(sections);
    if typed.None? { return false; }
    var read := ReadChunkRows(chunks);
    if read.None? { return false; }
    var manifest := ParseArtifactManifest(typed.value, read.value.0, read.value.1);
    return manifest == Some(sections[0].manifest);
  }

  lemma SectionIdsAreSections(st: Store, key: ParseKey)
    ensures forall id :: id in SectionIds(st, key) <==> id in SectionsOf(st, key)
  {
    OrderByLists(SectionKeys(st, key));
    hide OrderBy;
  }

  lemma ChunkIdsAreChunks(st: Store, key: ParseKey)
    ensures forall id :: id in ChunkIds(st, key) <==> id in ChunksOf(st, key)
  {
    OrderByLists(ChunkKeys(st, key));
    hide OrderBy;
  }

  lemma ChunkRowsMean(st: Store, document: DocumentConfig, key: ParseKey)
    ensures var rows := ChunkJoins(st, document, key);
            && TypedDrafts(rows) == ReadDrafts(st, key) && Owners(rows) == ReadOwners(st, key)
            && (ChunkRowsSound(rows) <==> ValidChunks(ReadDrafts(st, key)) && AllEmbedded(st, document, key))
  {
    hide ValidChunk, Embedded;
    var rows, ids := ChunkJoins(st, document, key), ChunkIds(st, key);
    ChunkIdsAreChunks(st, key);
    hide ChunkIds;
    assert TypedDrafts(rows) == ReadDrafts(st, key) && Owners(rows) == ReadOwners(st, key);
    assert forall i :: 0 <= i < |ids| ==> ids[i] in ChunksOf(st, key);
    if AllEmbedded(st, document, key) {
      assert forall i :: 0 <= i < |ids| ==> rows[i].embeddings == 1;
    } else {
      var id :| id in ChunksOf(st, key) && !Embedded(st, document, id);
      assert id in ids;
      var i :| 0 <= i < |ids| && ids[i] == id;
      assert rows[i].embeddings == 0;
    }
    assert forall i :: 0 <= i < |rows| ==> rows[i].draft == ReadDrafts(st, key)[i];
  }

  lemma SectionRowsShow(st: Store, key: ParseKey)
    requires key in st.parses && SectionIds(st, key) != []
    ensures var rows, ids := SectionJoins(st, key), SectionIds(st, key);
            && |rows| == |ids|
            && forall i :: 0 <= i < |ids| ==>
                 ids[i] in SectionsOf(st, key) && rows[i].joined.Some? && rows[i].joined.value.id == ids[i]
                 && rows[i].joined.value.row == st.sections[ids[i]]
    ensures ParentsResolve(st, key) ==> forall i :: 0 <= i < |SectionIds(st, key)| ==>
              Typed(SectionJoins(st, key)[i].joined.value) == ReadSections(st, key)[i]
              && (st.sections[SectionIds(st, key)[i]].parent.Some? ==> SectionJoins(st, key)[i].joined.value.parentOrdinal.Some?)
  {
    hide SectionIds;
    var ids := SectionIds(st, key);
    if ParentsResolve(st, key) {
      forall i | 0 <= i < |ids| ensures Typed(SectionJoins(st, key)[i].joined.value) == ReadSections(st, key)[i] {
        assert ids[i] in SectionsOf(st, key);
      }
    }
  }

  /** Rows whose parents resolve are sound exactly when the sections they rebuild are. */
  lemma ResolvedRowsMean(st: Store, key: ParseKey)
    requires key in st.parses && SectionIds(st, key) != [] && ParentsResolve(st, key)
    ensures var rows := SectionJoins(st, key);
            && (SectionRowsSound(rows) <==> ValidSections(ReadSections(st, key)))
            && (SectionRowsSound(rows) ==> ParentsJoined(rows) && TypedSections(rows) == ReadSections(st, key))
  {
    hide ValidSection, SectionJoins, SectionIds, Typed, ReadSections;
    SectionRowsShow(st, key);
    SectionIdsAreSections(st, key);
    var rows, ids, sections := SectionJoins(st, key), SectionIds(st, key), ReadSections(st, key);
    forall i | 0 <= i < |rows| ensures SectionRowSound(rows[i]) <==> ValidSection(sections[i]) {
    }
    if SectionRowsSound(rows) {
      forall i | 0 <= i < |rows| && rows[i].joined.value.row.parent.Some? ensures rows[i].joined.value.row.parent.value in JoinedIds(rows) {
        var j :| 0 <= j < |ids| && ids[j] == rows[i].joined.value.row.parent.value;
        assert rows[j].joined.value.id == ids[j];
      }
    }
  }

  lemma UnresolvedRowsMean(st: Store, key: ParseKey)
    requires key in st.parses && SectionIds(st, key) != [] && !ParentsResolve(st, key)
    ensures !(SectionRowsSound(SectionJoins(st, key)) && ParentsJoined(SectionJoins(st, key)))
  {
    hide ValidSection, SectionJoins, SectionIds, Typed, ReadSections;
    SectionRowsShow(st, key);
    SectionIdsAreSections(st, key);
    var rows, ids := SectionJoins(st, key), SectionIds(st, key);
    var id :| id in SectionsOf(st, key) && st.sections[id].parent.Some? && st.sections[id].parent.value !in SectionsOf(st, key);
    var i :| 0 <= i < |ids| && ids[i] == id;
    assert SectionRowsSound(rows) ==> rows[i].joined.value.row.parent.value !in JoinedIds(rows);
  }

  lemma SectionRowsMean(st: Store, key: ParseKey)
    requires key in st.parses && SectionIds(st, key) != []
    ensures var rows := SectionJoins(st, key);
            && (SectionRowsSound(rows) && ParentsJoined(rows) <==> ParentsResolve(st, key) && ValidSections(ReadSections(st, key)))
            && (SectionRowsSound(rows) && ParentsJoined(rows) ==> TypedSections(rows) == ReadSections(st, key))
  {
    if ParentsResolve(st, key) { ResolvedRowsMean(st, key); } else { UnresolvedRowsMean(st, key); }
    hide SectionRowsSound, ParentsJoined, ParentsResolve, ValidSections, ReadSections, TypedSections, SectionJoins, SectionIds;
  }

  lemma EmptyIsUnsound(st: Store, key: ParseKey)
    requires SectionIds(st, key) == []
    ensures !ParseSound(st, key)
  {
    hide SectionIds, ReadDrafts, ReadOwners, ValidSections, ValidChunks;
    if ParentsResolve(st, key) { assert |ReadSections(st, key)| == 0; }
  }

  /** The row checks accept a parse exactly when it rebuilds and is fully embedded. */
  lemma GroupMeans(st: Store, document: DocumentConfig, key: ParseKey)
    requires key in st.parses
    ensures GroupSound(SectionJoins(st, key), ChunkJoins(st, document, key)) <==> ParseSound(st, key) && AllEmbedded(st, document, key)
  {
    ChunkRowsMean(st, document, key);
    if SectionIds(st, key) == [] {
      hide ChunkJoins, AllEmbedded, SectionIds;
      assert !SectionRowSound(SectionJoins(st, key)[0]);
      EmptyIsUnsound(st, key);
    } else {
      SectionRowsMean(st, key);
      hide ChunkJoins, SectionRowsSound, ParentsJoined, ChunkRowsSound, ParentsResolve, AllEmbedded, ValidSections, ValidChunks, ManifestOf,
           ReadSections, ReadDrafts, ReadOwners, TypedSections, TypedDrafts, Owners, SectionIds;
      var rows := SectionJoins(st, key);
      assert forall i :: 0 <= i < |rows| ==> rows[i].parse == key && rows[i].manifest == st.parses[key];
    }
  }

  // ---------------------------------------------------------------- all parses of the run

  /** What _validate_manifest_rows demands of its rows. */
  ghost predicate RowsAccepted(sections: seq<Tagged<SectionJoin>>, chunks: seq<Tagged<ChunkJoin>>, nonempty: set<Uuid>) {
    && (forall i :: 0 <= i < |sections| ==> sections[i].tag in nonempty)
    && (forall i :: 0 <= i < |chunks| ==> chunks[i].tag in nonempty)
    && (forall c :: c in nonempty ==> GroupSound(Group(sections, c), Group(chunks, c)))
  }

  /** _validate_manifest_rows */
  method ValidateManifestRows(sections: seq<Tagged<SectionJoin>>, chunks: seq<Tagged<ChunkJoin>>, nonempty: set<Uuid>)
    returns (ok: bool)
    ensures ok <==> RowsAccepted(sections, chunks, nonempty)
  {
    hide GroupSound, Group;
    var sectionsBy := GroupRows(sections, nonempty);
    if sectionsBy.None? { return false; }
    var chunksBy := GroupRows(chunks, nonempty);
    if chunksBy.None? { return false; }
    var rest := nonempty;
    while rest != {}
      invariant rest <= nonempty
      invariant forall c :: c in nonempty - rest ==> GroupSound(Group(sections, c), Group(chunks, c))
      decreases |rest|
    {
      var c :| c in rest;
      var own := Lookup(sectionsBy.value, c);
      var ownChunks := Lookup(chunksBy.value, c);
      var sound := CheckGroup(own, ownChunks);
      if !sound { return false; }
      rest := rest - {c};
    }
    return true;
  }

  ghost function Nonempty(db: Database, run: Uuid): set<Uuid> {
    set c | c in RunContents(db, run) && !IsBlank(db, c)
  }

  function SectionQuery(db: Database, run: Uuid, snapshot: Snapshot): seq<Tagged<SectionJoin>> {
    var parsed := ParsedContents(db, run, snapshot);
    SortedIdsList(parsed);
    Flatten(SortedIds(parsed), SectionParts(db.store, snapshot, parsed))
  }

  function ChunkQuery(db: Database, run: Uuid, snapshot: Snapshot): seq<Tagged<ChunkJoin>> {
    var parsed := ParsedContents(db, run, snapshot);
    SortedIdsList(parsed);
    Flatten(SortedIds(parsed), ChunkParts(db.store, snapshot, parsed))
  }

  /** The rows the check groups for one content are its parse's rows, if it has one. */
  lemma QueryGroups(db: Database, run: Uuid, snapshot: Snapshot, c: Uuid)
    ensures Group(SectionQuery(db, run, snapshot), c)
         == if c in ParsedContents(db, run, snapshot) then SectionJoins(db.store, ParseKeyOf(snapshot, c)) else []
    ensures Group(ChunkQuery(db, run, snapshot), c)
         == if c in ParsedContents(db, run, snapshot) then ChunkJoins(db.store, snapshot.document, ParseKeyOf(snapshot, c)) else []
  {
    hide SortedIds, Flatten, Group, SectionJoins, ChunkJoins;
    var parsed := ParsedContents(db, run, snapshot);
    SortedIdsList(parsed);
    GroupFlatten(SortedIds(parsed), SectionParts(db.store, snapshot, parsed), c);
    GroupFlatten(SortedIds(parsed), ChunkParts(db.store, snapshot, parsed), c);
  }

  /** A row's content is refused exactly when its group is. */
  lemma TagsAllowed<T>(rows: seq<Tagged<T>>, allowed: set<Uuid>)
    ensures (forall i :: 0 <= i < |rows| ==> rows[i].tag in allowed) <==> (forall c :: c !in allowed ==> Group(rows, c) == [])
  {
    forall c ensures Group(rows, c) != [] <==> exists i :: 0 <= i < |rows| && rows[i].tag == c {
      GroupNonempty(rows, c);
    }
    hide Group;
    forall i | 0 <= i < |rows| && rows[i].tag !in allowed ensures Group(rows, rows[i].tag) != [] {
    }
  }

  lemma ContentMeans(db: Database, run: Uuid, snapshot: Snapshot, c: Uuid)
    requires c in RunContents(db, run) && c in db.store.contents
    ensures ContentReady(db.store, snapshot, c) <==>
              if c in Nonempty(db, run) then GroupSound(Group(SectionQuery(db, run, snapshot), c), Group(ChunkQuery(db, run, snapshot), c))
              else Group(SectionQuery(db, run, snapshot), c) == []
  {
    hide GroupSound, Group, SectionQuery, ChunkQuery, SectionJoins, ChunkJoins, ParseSound, AllEmbedded, Blank, RunContents;
    QueryGroups(db, run, snapshot, c);
    if c in ParsedContents(db, run, snapshot) {
      GroupMeans(db.store, snapshot.document, ParseKeyOf(snapshot, c));
    } else {
      GroupOfNothing();
      UnparsedIsUnsound(db.store, ParseKeyOf(snapshot, c));
    }
  }

  lemma GroupOfNothing()
    ensures !GroupSound([], [])
  {
  }

  lemma UnparsedIsUnsound(st: Store, key: ParseKey)
    ensures key !in st.parses ==> !ParseSound(st, key)
  {
  }

  /** The row checks over the two queries decide artifact readiness. */
  lemma QueriesMean(db: Database, run: Uuid, snapshot: Snapshot)
    requires forall c :: c in RunContents(db, run) ==> c in db.store.contents
    ensures RowsAccepted(SectionQuery(db, run, snapshot), ChunkQuery(db, run, snapshot), Nonempty(db, run)) <==> ArtifactsReady(db, run, snapshot)
  {
    hide GroupSound, Group, SectionQuery, ChunkQuery, ContentReady, SectionJoins, ChunkJoins, IsBlank, RunContents;
    var sections, chunks := SectionQuery(db, run, snapshot), ChunkQuery(db, run, snapshot);
    TagsAllowed(sections, Nonempty(db, run));
    TagsAllowed(chunks, Nonempty(db, run));
    forall c ensures c !in RunContents(db, run) ==> Group(sections, c) == [] && Group(chunks, c) == []
             ensures Group(sections, c) == [] ==> Group(chunks, c) == []
    {
      QueryGroups(db, run, snapshot, c);
    }
    forall c | c in RunContents(db, run)
      ensures ContentReady(db.store, snapshot, c) <==>
                if c in Nonempty(db, run) then GroupSound(Group(sections, c), Group(chunks, c)) else Group(sections, c) == []
    {
      ContentMeans(db, run, snapshot, c);
    }
    if ArtifactsReady(db, run, snapshot) {
      forall c | c !in Nonempty(db, run) ensures Group(sections, c) == [] && Group(chunks, c) == [] {
      }
      forall c | c in Nonempty(db, run) ensures GroupSound(Group(sections, c), Group(chunks, c)) {
      }
    }
  }

  /** Every chunk of the parse has an embedding row of the configured model. */
  ghost predicate ChunksServed(st: Store, document: DocumentConfig, parse: ParseKey) {
    forall id :: id in st.chunks && st.chunks[id].section in st.sections && st.sections[st.chunks[id].section].parse == parse ==>
      var key := EmbeddingKey(id, Sha256OfDocumentConfig(document));
      key in st.embeddings && st.embeddings[key].descriptor == document.descriptor
  }

  /** What the rows of a ready run hold for one of its contents. */
  ghost predicate ContentServed(st: Store, snapshot: Snapshot, content: Uuid) {
    var parse := ParseKey(content, snapshot.parserVersion, snapshot.chunkConfigHash);
    && content in st.contents
    && (Blank(st.contents[content].text) ==> parse !in st.parses)
    && (!Blank(st.contents[content].text) ==> parse in st.parses && ChunksServed(st, snapshot.document, parse))
  }

  /** What acceptance means for the rows: every content the run uses is served under its
      configuration, and as many occurrences and contents are recorded as there are. */
  ghost predicate RunServed(db: Database, run: Uuid) {
    && run in db.runs && db.runs[run].config in db.configs && db.runs[run].stats.Some?
    && db.runs[run].stats.value.occurrences == |set key | key in db.occurrences && key.run == run|
    && db.runs[run].stats.value.uniqueContents == |set key | key in db.occurrences && key.run == run :: db.occurrences[key].content|
    && forall key :: key in db.occurrences && key.run == run ==>
         ContentServed(db.store, db.configs[db.runs[run].config].snapshot, db.occurrences[key].content)
  }

  lemma ReadyIsServed(db: Database, run: Uuid)
    requires RunReady(db, run)
    ensures RunServed(db, run)
  {
    hide ParseSound, Blank;
    var snapshot := db.configs[db.runs[run].config].snapshot;
    assert RunContents(db, run) == set key | key in db.occurrences && key.run == run :: db.occurrences[key].content;
    forall key | key in db.occurrences && key.run == run ensures ContentServed(db.store, snapshot, db.occurrences[key].content) {
      assert key in RunKeys(db, run) && db.occurrences[key].content in RunContents(db, run);
      ReadyContentServed(db.store, snapshot, db.occurrences[key].content);
    }
  }

  lemma ReadyContentServed(st: Store, snapshot: Snapshot, content: Uuid)
    requires ContentReady(st, snapshot, content)
    ensures ContentServed(st, snapshot, content)
  {
    var parse := ParseKeyOf(snapshot, content);
    assert ParseSound(st, parse) ==> parse in st.parses;
    hide ParseSound, Blank;
    if !Blank(st.contents[content].text) {
      forall id | id in st.chunks && st.chunks[id].section in st.sections && st.sections[st.chunks[id].section].parse == parse
        ensures Embedded(st, snapshot.document, id)
      {
        assert id in ChunksOf(st, parse);
      }
    }
  }

  /** _assert_target_artifacts: the statistics and row checks accept exactly the ready runs. */
  method AssertTargetArtifacts(db: Database, run: Uuid) returns (ok: bool)
    requires Schema(db) && run in db.runs
    ensures ok <==> RunReady(db, run)
    ensures ok ==> RunServed(db, run)
  {
    hide Blank, IsSha256, RunServed, ArtifactsReady, SectionQuery, ChunkQuery, RowsAccepted, StoreSchema, RunContents, BlankKeys, SourcesSchema;
    var row := db.runs[run];
    assert row.config in db.configs by { assert RunsSchema(db.sources, db.configs, db.runs); }
    var keys := Enumerate(RunKeys(db, run));
    RunIsListed(db, run, keys);
    RowsContents(db, run, keys);
    RowsBlank(db, run, keys);
    var classified := ClassifyContents(ContentRows(db, keys));
    if row.stats.None? { return false; }
    var stats := row.stats.value;
    if stats.occurrences < 0 || stats.uniqueContents < 0 || stats.empty < 0 { return false; }
    if stats.occurrences != classified.occurrences || stats.uniqueContents != classified.uniqueContents || stats.empty != classified.empty {
      return false;
    }
    var snapshot := db.configs[row.config].snapshot;
    if Blank(snapshot.parserVersion) || !IsSha256(snapshot.chunkConfigHash) { return false; }
    QueriesMean(db, run, snapshot);
    ok := ValidateManifestRows(SectionQuery(db, run, snapshot), ChunkQuery(db, run, snapshot), classified.nonempty);
    if ok { ReadyIsServed(db, run); }
  }

  lemma RunIsListed(db: Database, run: Uuid, keys: seq<OccurrenceKey>)
    requires Schema(db) && Distinct(keys) && Elements(keys) == RunKeys(db, run)
    ensures ListsRun(db, run, keys)
    ensures forall c :: c in RunContents(db, run) ==> c in db.store.contents
  {
    hide StoreSchema, RunsSchema, SourcesSchema;
    forall i | 0 <= i < |keys| ensures keys[i] in db.occurrences && db.occurrences[keys[i]].content in db.store.contents {
      assert keys[i] in Elements(keys);
    }
  }
}
