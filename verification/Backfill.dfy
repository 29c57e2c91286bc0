/** The migration's keyset-batched backfill of manifest columns. */
module Backfill {
  import opened Basics
  import opened Ordering
  import opened ArtifactIdentity
  import opened FrozenManifest
  import opened Grouping

  function After(ids: set<Uuid>, cursor: Option<Uuid>): set<Uuid> {
    set id | id in ids && (cursor.Some? ==> cursor.value.number < id.number)
  }

  /** `SELECT id ... WHERE id > :after_id ORDER BY id LIMIT :batch_size` */
  function NextBatch(ids: set<Uuid>, cursor: Option<Uuid>, batchSize: nat): seq<Uuid> {
    Take(SortedIds(After(ids, cursor)), batchSize)
  }

  /** A nonempty batch holds distinct unvisited rows, and the rows after its last row
      are exactly the other unvisited ones. */
  lemma AdvanceCursor(ids: set<Uuid>, cursor: Option<Uuid>, batchSize: nat)
    requires 0 < batchSize
    ensures var batch := NextBatch(ids, cursor, batchSize);
            && Distinct(batch) && Elements(batch) <= After(ids, cursor) <= ids
            && (batch == [] ==> After(ids, cursor) == {})
            && (batch != [] ==> After(ids, Some(batch[|batch| - 1])) == After(ids, cursor) - Elements(batch))
  {
    var open := After(ids, cursor);
    var order, batch := SortedIds(open), NextBatch(ids, cursor, batchSize);
    SortedIdsAscend(open);
    hide OrderBy, SortedIds;
    assert forall i :: 0 <= i < |batch| ==> batch[i] == order[i] && order[i] in Elements(order);
    if batch != [] {
      var last := order[|batch| - 1];
      forall id | id in open ensures last.number < id.number <==> id !in Elements(batch) {
        assert id in Elements(order);
        var i :| 0 <= i < |order| && order[i] == id;
        assert i < |batch| ==> id == batch[i];
      }
    }
  }

  lemma DisjointCounts<T>(a: set<T>, b: set<T>)
    requires a !! b
    ensures multiset(a) + multiset(b) == multiset(a + b)
  {
  }

  lemma MemberOf<T>(s: seq<T>, i: nat)
    requires i < |s|
    ensures s[i] in Elements(s)
  {
  }

  // ---------------------------------------------------------------- joined rows

  /** The defaultdict loop: rows appended under their parse, order kept. */
  method GroupByParse<T>(rows: seq<Tagged<T>>) returns (groups: map<Uuid, seq<T>>)
    ensures Holds(groups, rows)
  {
    hide Holds;
    groups := map[];
    NothingGrouped<T>();
    for k := 0 to |rows|
      invariant Holds(groups, rows[..k])
    {
      assert rows[..k + 1] == rows[..k] + [rows[k]];
      HoldsStep(groups, rows[..k], rows[k]);
      groups := groups[rows[k].tag := Lookup(groups, rows[k].tag) + [rows[k].value]];
    }
    assert rows[..|rows|] == rows;
  }

  // ---------------------------------------------------------------- the batched update

  datatype Turn = Finished | Failed | Saved

  /** The migrating database: joined rows per parse, and the new manifest columns. */
  class LegacyParses {
    const sections: map<Uuid, seq<SectionFields>>
    const chunks: map<Uuid, seq<ChunkFields>>
    var manifests: map<Uuid, Option<Manifest>>

    constructor (sections: map<Uuid, seq<SectionFields>>, chunks: map<Uuid, seq<ChunkFields>>)
      requires sections.Keys == chunks.Keys
      ensures this.sections == sections && this.chunks == chunks
      ensures manifests == map id | id in sections :: None
      ensures Valid()
    {
      this.sections, this.chunks := sections, chunks;
      manifests := map id | id in sections :: None;
    }

    ghost predicate Valid()
      reads this
    {
      sections.Keys == chunks.Keys == manifests.Keys
    }

    function Expected(id: Uuid): Option<Manifest>
      requires id in sections && id in chunks
    {
      ApplicationManifest(sections[id], chunks[id])
    }

    ghost predicate AllExpected(ids: set<Uuid>)
      requires sections.Keys == chunks.Keys
    {
      forall id :: id in ids ==> id in sections && Expected(id).Some?
    }

    /** The unbatched meaning: every parse gets the manifest of its own rows. */
    ghost function Backfilled(): map<Uuid, Option<Manifest>>
      requires sections.Keys == chunks.Keys
    {
      map id | id in sections :: Expected(id)
    }

    /** The columns once the given parses have been visited. */
    ghost function Updated(columns: map<Uuid, Option<Manifest>>, visited: set<Uuid>): map<Uuid, Option<Manifest>>
      requires columns.Keys == sections.Keys == chunks.Keys
    {
      map id | id in columns :: if id in visited then Expected(id) else columns[id]
    }

    lemma UpdatedTwice(columns: map<Uuid, Option<Manifest>>, first: set<Uuid>, second: set<Uuid>)
      requires columns.Keys == sections.Keys == chunks.Keys
      ensures Updated(columns, {}) == columns
      ensures Updated(Updated(columns, first), second) == Updated(columns, first + second)
      ensures Updated(columns, sections.Keys) == Backfilled()
    {
    }

    lemma AllExpectedUnion(first: set<Uuid>, second: set<Uuid>)
      requires sections.Keys == chunks.Keys && AllExpected(first) && AllExpected(second)
      ensures AllExpected(first + second)
    {
    }

    /** The grouped rows of a batch are the rows of each of its parses. */
    method GroupBatch(ids: seq<Uuid>)
      returns (sectionRows: map<Uuid, seq<SectionFields>>, chunkRows: map<Uuid, seq<ChunkFields>>)
      requires Valid() && Distinct(ids) && Elements(ids) <= sections.Keys
      ensures forall id :: id in Elements(ids) ==>
                Lookup(sectionRows, id) == sections[id] && Lookup(chunkRows, id) == chunks[id]
    {
      assert forall i :: 0 <= i < |ids| ==> ids[i] in Elements(ids);
      sectionRows := GroupByParse(Flatten(ids, sections));
      chunkRows := GroupByParse(Flatten(ids, chunks));
      forall id | id in Elements(ids)
        ensures Lookup(sectionRows, id) == sections[id] && Lookup(chunkRows, id) == chunks[id]
      {
        GroupFlatten(ids, sections, id);
        GroupFlatten(ids, chunks, id);
      }
    }

    /** The manifests of one batch, or failure at the first parse without one. */
    method BatchManifests(ids: seq<Uuid>) returns (updates: Option<map<Uuid, Option<Manifest>>>)
      requires Valid() && Distinct(ids) && Elements(ids) <= sections.Keys
      ensures updates.Some? <==> AllExpected(Elements(ids))
      ensures updates.Some? ==> updates.value == map id | id in Elements(ids) :: Expected(id)
    {
      var sectionRows, chunkRows := GroupBatch(ids);
      var found: map<Uuid, Option<Manifest>> := map[];
      hide ApplicationManifest, Lookup, AllExpected;
      for i := 0 to |ids|
        invariant forall j :: 0 <= j < i ==> ids[j] in found
        invariant forall id :: id in found ==> id in Elements(ids) && found[id] == Expected(id) && found[id].Some?
      {
        var id := ids[i];
        MemberOf(ids, i);
        var manifest := FrozenArtifactManifest(Lookup(sectionRows, id), Lookup(chunkRows, id));
        if manifest.None? {
          SomeMissing(ids, i);
          return None;
        }
        found := found[id := manifest];
      }
      AllFound(ids, found);
      return Some(found);
    }

    lemma SomeMissing(ids: seq<Uuid>, i: nat)
      requires sections.Keys == chunks.Keys && i < |ids| && ids[i] in sections && Expected(ids[i]).None?
      ensures !AllExpected(Elements(ids))
    {
      assert ids[i] in Elements(ids);
    }

    lemma AllFound(ids: seq<Uuid>, found: map<Uuid, Option<Manifest>>)
      requires sections.Keys == chunks.Keys && Elements(ids) <= sections.Keys
      requires forall j :: 0 <= j < |ids| ==> ids[j] in found
      requires forall id :: id in found ==> id in Elements(ids) && found[id] == Expected(id) && found[id].Some?
      ensures AllExpected(Elements(ids)) && found == map id | id in Elements(ids) :: Expected(id)
    {
    }

    /** One batch of updates, or failure before any update. */
    method BackfillBatch(ids: seq<Uuid>) returns (ok: bool)
      requires Valid() && Distinct(ids) && Elements(ids) <= sections.Keys
      modifies this
      ensures Valid()
      ensures ok <==> AllExpected(Elements(ids))
      ensures manifests == if ok then Updated(old(manifests), Elements(ids)) else old(manifests)
    {
      hide ApplicationManifest;
      var updates := BatchManifests(ids);
      if updates.None? { return false; }
      manifests := manifests + updates.value;
      assert manifests == Updated(old(manifests), Elements(ids));
      return true;
    }

    /** One turn of the loop: the next batch is saved, or there is none left, or it
        holds a parse without a manifest. */
    method Turn(cursor: Option<Uuid>, batchSize: nat, ghost visited: set<Uuid>)
      returns (turn: Turn, next: Option<Uuid>, ghost added: set<Uuid>)
      requires Valid() && 0 < batchSize
      requires visited == sections.Keys - After(sections.Keys, cursor)
      modifies this
      ensures Valid() && added !! visited && added <= sections.Keys
      ensures turn.Finished? ==> added == {} && manifests == old(manifests) && visited == sections.Keys
      ensures turn.Failed? ==> manifests == old(manifests) && !AllExpected(sections.Keys) && added == {}
      ensures turn.Saved? ==> manifests == Updated(old(manifests), added) && AllExpected(added) && added != {}
      ensures turn.Saved? ==> visited + added == sections.Keys - After(sections.Keys, next)
    {
      hide ApplicationManifest, SortedIds, NextBatch, Updated, Backfilled, After, Distinct;
      var batch := NextBatch(sections.Keys, cursor, batchSize);
      AdvanceCursor(sections.Keys, cursor, batchSize);
      next, added := cursor, {};
      if batch == [] { return Finished, next, added; }
      MemberOf(batch, 0);
      var saved := BackfillBatch(batch);
      if !saved { return Failed, next, added; }
      return Saved, Some(batch[|batch| - 1]), Elements(batch);
    }

    /** _backfill_parse_artifact_manifests: for any positive batch size the loop ends
        having visited every parse exactly once, and the columns are those of the
        unbatched map; it fails exactly when some parse has no manifest. */
    method Run(batchSize: nat) returns (ok: bool, ghost visited: set<Uuid>, ghost visits: multiset<Uuid>)
      requires Valid() && 0 < batchSize
      modifies this
      ensures Valid()
      ensures ok <==> AllExpected(sections.Keys)
      ensures visits == multiset(visited) && manifests == Updated(old(manifests), visited)
      ensures ok ==> visited == sections.Keys && manifests == Backfilled()
    {
      var cursor: Option<Uuid> := None;
      visited, visits := {}, multiset{};
      UpdatedTwice(manifests, {}, {});
      assert After(sections.Keys, None) == sections.Keys;
      hide *;
      while true
        invariant Valid() && visited == sections.Keys - After(sections.Keys, cursor)
        invariant visits == multiset(visited) && AllExpected(visited)
        invariant manifests == Updated(old(manifests), visited)
        decreases sections.Keys - visited
      {
        var turn, next, added := Turn(cursor, batchSize, visited);
        if !turn.Saved? { return turn.Finished?, visited, visits; }
        UpdatedTwice(old(manifests), visited, added);
        AllExpectedUnion(visited, added);
        DisjointCounts(visited, added);
        cursor, visited, visits := next, visited + added, visits + multiset(added);
      }
    }
  }
}
