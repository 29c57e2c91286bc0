/** reciprocal_rank_fusion over exact reals. */
module Fusion {
  import opened Basics
  import opened Ordering
  import opened Lanes

  datatype Fused = Fused(candidate: Candidate, keywordRank: Option<nat>, vectorRank: Option<nat>, score: real)

  datatype Weights = Weights(k: int, keyword: real, vector: real)

  predicate ValidWeights(w: Weights) {
    0 < w.k && 0.0 < w.keyword && 0.0 < w.vector
  }

  // ---------------------------------------------------------------- specification

  /** The one-based rank of a chunk in a lane; a later duplicate would win. */
  function Rank(lane: seq<Candidate>, id: Uuid): (rank: Option<nat>)
    ensures rank.Some? ==> 1 <= rank.value <= |lane| && lane[rank.value - 1].chunk == id
    ensures rank.None? ==> forall i :: 0 <= i < |lane| ==> lane[i].chunk != id
  {
    if lane == [] then None
    else if lane[|lane| - 1].chunk == id then Some(|lane|)
    else
      var earlier := Rank(lane[..|lane| - 1], id);
      assert forall i :: 0 <= i < |lane| - 1 ==> lane[..|lane| - 1][i] == lane[i];
      earlier
  }

  /** The candidates say the same of each chunk wherever they mention it. */
  ghost predicate Agree(candidates: seq<Candidate>) {
    forall i, j :: 0 <= i < |candidates| && 0 <= j < |candidates| && candidates[i].chunk == candidates[j].chunk ==>
      candidates[i] == candidates[j]
  }

  function Chunks(candidates: seq<Candidate>): set<Uuid> {
    set c | c in candidates :: c.chunk
  }

  /** What is known of each mentioned chunk. */
  function Known(candidates: seq<Candidate>): (known: map<Uuid, Candidate>)
    ensures forall id :: id in known ==> known[id].chunk == id && known[id] in candidates
    ensures known.Keys == Chunks(candidates)
  {
    if candidates == [] then map[]
    else
      var last := |candidates| - 1;
      assert candidates == candidates[..last] + [candidates[last]];
      Known(candidates[..last])[candidates[last].chunk := candidates[last]]
  }

  function Part(weight: real, k: nat, rank: Option<nat>): (part: real)
    requires 0 < k
  {
    if rank.Some? then weight / ((k + rank.value) as real) else 0.0
  }

  function ScoreOf(keyword: seq<Candidate>, vector: seq<Candidate>, w: Weights, id: Uuid): real
    requires 0 < w.k
  {
    Part(w.keyword, w.k, Rank(keyword, id)) + Part(w.vector, w.k, Rank(vector, id))
  }

  /** The chunk's last position in a lane; ranks count from one. */
  ghost predicate LastAt(lane: seq<Candidate>, at: nat, id: Uuid) {
    at < |lane| && lane[at].chunk == id && forall i :: at < i < |lane| ==> lane[i].chunk != id
  }

  ghost predicate Absent(lane: seq<Candidate>, id: Uuid) {
    forall i :: 0 <= i < |lane| ==> lane[i].chunk != id
  }

  lemma {:induction false} RankAt(lane: seq<Candidate>, id: Uuid)
    ensures Rank(lane, id).None? <==> Absent(lane, id)
    ensures forall at: nat :: LastAt(lane, at, id) ==> Rank(lane, id) == Some(at + 1)
  {
    if lane != [] && lane[|lane| - 1].chunk != id {
      var front := lane[..|lane| - 1];
      RankAt(front, id);
      forall at: nat | LastAt(lane, at, id) ensures Rank(lane, id) == Some(at + 1) { assert LastAt(front, at, id); }
    }
  }

  /** The reported ranks and score of a chunk, by its positions: 1 / (k + rank) of each lane
      it is in, weighted. */
  ghost predicate Scores(keyword: seq<Candidate>, vector: seq<Candidate>, w: Weights, f: Fused) {
    var id := f.candidate.chunk;
    && !(Absent(keyword, id) && Absent(vector, id))
    && (Absent(keyword, id) ==> f.keywordRank == None)
    && (Absent(vector, id) ==> f.vectorRank == None)
    && (forall a: nat :: LastAt(keyword, a, id) ==> f.keywordRank == Some(a + 1))
    && (forall b: nat :: LastAt(vector, b, id) ==> f.vectorRank == Some(b + 1))
    && (forall a: nat :: LastAt(keyword, a, id) && Absent(vector, id) ==> f.score * (w.k + a + 1) as real == w.keyword)
    && (forall b: nat :: LastAt(vector, b, id) && Absent(keyword, id) ==> f.score * (w.k + b + 1) as real == w.vector)
    && (forall a: nat, b: nat :: 0 < w.k && LastAt(keyword, a, id) && LastAt(vector, b, id) ==>
          f.score == w.keyword / (w.k + a + 1) as real + w.vector / (w.k + b + 1) as real)
  }

  lemma Shared(weight: real, x: real)
    requires x != 0.0
    ensures weight / x * x == weight
  {
  }

  /** What one lane contributes, by the chunk's position. */
  lemma PartAt(weight: real, k: nat, lane: seq<Candidate>, id: Uuid)
    requires 0 < k
    ensures Absent(lane, id) ==> Part(weight, k, Rank(lane, id)) == 0.0
    ensures forall at: nat :: LastAt(lane, at, id) ==> Part(weight, k, Rank(lane, id)) == weight / (k + at + 1) as real
    ensures forall at: nat :: LastAt(lane, at, id) ==> Part(weight, k, Rank(lane, id)) * (k + at + 1) as real == weight
  {
    RankAt(lane, id);
    hide Rank, LastAt, Absent;
    forall at: nat | LastAt(lane, at, id)
      ensures Part(weight, k, Rank(lane, id)) == weight / (k + at + 1) as real
      ensures Part(weight, k, Rank(lane, id)) * (k + at + 1) as real == weight
    {
      assert k + (at + 1) == k + at + 1;
      Shared(weight, (k + at + 1) as real);
    }
  }

  lemma FusedScores(keyword: seq<Candidate>, vector: seq<Candidate>, w: Weights, id: Uuid)
    requires 0 < w.k && id in Chunks(keyword + vector)
    ensures Scores(keyword, vector, w, FusedOf(keyword, vector, w, id))
  {
    hide Rank, Chunks, Known, Part, LastAt, Absent, ScoreOf;
    RankAt(keyword, id);
    RankAt(vector, id);
    Mentioned(keyword, vector, id);
    ScoreAt(keyword, vector, w, id);
    assert FusedOf(keyword, vector, w, id).candidate.chunk == id;
  }

  lemma ScoreAt(keyword: seq<Candidate>, vector: seq<Candidate>, w: Weights, id: Uuid)
    requires 0 < w.k
    ensures forall a: nat :: LastAt(keyword, a, id) && Absent(vector, id) ==> ScoreOf(keyword, vector, w, id) * (w.k + a + 1) as real == w.keyword
    ensures forall b: nat :: LastAt(vector, b, id) && Absent(keyword, id) ==> ScoreOf(keyword, vector, w, id) * (w.k + b + 1) as real == w.vector
    ensures forall a: nat, b: nat :: LastAt(keyword, a, id) && LastAt(vector, b, id) ==>
              ScoreOf(keyword, vector, w, id) == w.keyword / (w.k + a + 1) as real + w.vector / (w.k + b + 1) as real
  {
    hide Rank, Part, LastAt, Absent;
    PartAt(w.keyword, w.k, keyword, id);
    PartAt(w.vector, w.k, vector, id);
  }

  lemma Mentioned(keyword: seq<Candidate>, vector: seq<Candidate>, id: Uuid)
    requires id in Chunks(keyword + vector)
    ensures !(Absent(keyword, id) && Absent(vector, id))
  {
    var c :| c in keyword + vector && c.chunk == id;
    if c in keyword { var i :| 0 <= i < |keyword| && keyword[i] == c; } else { var i :| 0 <= i < |vector| && vector[i] == c; }
  }

  /** key=(-score, chunk_id.int) */
  function FusionKeys(keyword: seq<Candidate>, vector: seq<Candidate>, w: Weights): map<Uuid, Key>
    requires 0 < w.k
  {
    map id | id in Chunks(keyword + vector) :: Key(-ScoreOf(keyword, vector, w, id), 0, 0)
  }

  function FusedIds(keyword: seq<Candidate>, vector: seq<Candidate>, w: Weights): (ids: seq<Uuid>)
    requires 0 < w.k
    ensures forall i :: 0 <= i < |ids| ==> ids[i] in Chunks(keyword + vector)
  {
    OrderByLists(FusionKeys(keyword, vector, w));
    OrderBy(FusionKeys(keyword, vector, w))
  }

  function FusedOf(keyword: seq<Candidate>, vector: seq<Candidate>, w: Weights, id: Uuid): Fused
    requires 0 < w.k && id in Chunks(keyword + vector)
  {
    Fused(Known(keyword + vector)[id], Rank(keyword, id), Rank(vector, id), ScoreOf(keyword, vector, w, id))
  }

  function FusedList(keyword: seq<Candidate>, vector: seq<Candidate>, w: Weights): (list: seq<Fused>)
    requires 0 < w.k
    ensures |list| == |FusedIds(keyword, vector, w)|
    ensures forall i :: 0 <= i < |list| ==> list[i] == FusedOf(keyword, vector, w, FusedIds(keyword, vector, w)[i])
  {
    var ids := FusedIds(keyword, vector, w);
    seq(|ids|, i requires 0 <= i < |ids| => FusedOf(keyword, vector, w, ids[i]))
  }

  // ---------------------------------------------------------------- the loops

  lemma ChunksAppend(a: seq<Candidate>, c: Candidate)
    ensures Chunks(a + [c]) == Chunks(a) + {c.chunk}
    ensures Known(a + [c]) == Known(a)[c.chunk := c]
  {
    assert (a + [c])[..|a|] == a;
    forall id ensures id in Chunks(a + [c]) <==> id in Chunks(a) + {c.chunk} {
      if id in Chunks(a) {
        var x :| x in a && x.chunk == id;
        assert x in a + [c];
      }
      if id == c.chunk { assert c in a + [c]; }
    }
  }

  lemma AgreeAppend(a: seq<Candidate>, c: Candidate)
    requires Agree(a)
    ensures Agree(a + [c]) <==> (c.chunk in Chunks(a) ==> Known(a)[c.chunk] == c)
  {
    if c.chunk in Chunks(a) {
      var known := Known(a)[c.chunk];
      var i :| 0 <= i < |a| && a[i] == known;
      assert (a + [c])[i] == known && (a + [c])[|a|] == c;
    } else {
      forall i | 0 <= i < |a| ensures a[i].chunk != c.chunk { assert a[i] in a; }
    }
  }

  lemma AgreePrefix(a: seq<Candidate>, b: seq<Candidate>)
    requires Agree(a + b)
    ensures Agree(a)
  {
    forall i, j | 0 <= i < |a| && 0 <= j < |a| && a[i].chunk == a[j].chunk ensures a[i] == a[j] {
      assert (a + b)[i] == a[i] && (a + b)[j] == a[j];
    }
  }

  lemma RankAppend(a: seq<Candidate>, c: Candidate, id: Uuid)
    ensures Rank(a + [c], id) == if c.chunk == id then Some(|a| + 1) else Rank(a, id)
  {
    assert (a + [c])[..|a|] == a;
  }

  function RankIn(ranks: map<Uuid, nat>, id: Uuid): Option<nat> {
    if id in ranks then Some(ranks[id]) else None
  }

  ghost predicate RanksOf(lane: seq<Candidate>, ranks: map<Uuid, nat>) {
    forall id :: Rank(lane, id) == RankIn(ranks, id)
  }

  /** The dictionaries after some of a lane. */
  ghost predicate Collected(all: seq<Candidate>, lane: seq<Candidate>, known: map<Uuid, Candidate>, ranks: map<Uuid, nat>) {
    Agree(all) && known == Known(all) && RanksOf(lane, ranks)
  }

  lemma CollectStep(all: seq<Candidate>, lane: seq<Candidate>, c: Candidate, known: map<Uuid, Candidate>, ranks: map<Uuid, nat>)
    requires Collected(all, lane, known, ranks)
    ensures Agree(all + [c]) <==> (c.chunk in known ==> known[c.chunk] == c)
    ensures Agree(all + [c]) ==> Collected(all + [c], lane + [c], known[c.chunk := c], ranks[c.chunk := |lane| + 1])
  {
    ChunksAppend(all, c);
    AgreeAppend(all, c);
    hide Agree, Known, Rank, Chunks;
    assert Known(all).Keys == Chunks(all);
    forall id ensures Rank(lane + [c], id) == RankIn(ranks[c.chunk := |lane| + 1], id) {
      RankAppend(lane, c, id);
    }
  }

  /** Remember one lane's candidates and ranks after those already `seen`. */
  method CollectLane(candidates: map<Uuid, Candidate>, lane: seq<Candidate>, ghost seen: seq<Candidate>)
    returns (all: Option<map<Uuid, Candidate>>, ranks: map<Uuid, nat>)
    requires Agree(seen) && candidates == Known(seen)
    ensures all == if Agree(seen + lane) then Some(Known(seen + lane)) else None
    ensures all.Some? ==> RanksOf(lane, ranks)
  {
    hide Collected, Agree, Known, RanksOf, Chunks;
    var known := candidates;
    ranks := map[];
    assert seen + lane[..0] == seen;
    NothingCollected(seen);
    for i := 0 to |lane|
      invariant Collected(seen + lane[..i], lane[..i], known, ranks)
    {
      var c := lane[i];
      assert lane[..i + 1] == lane[..i] + [c];
      assert seen + lane[..i + 1] == (seen + lane[..i]) + [c];
      CollectStep(seen + lane[..i], lane[..i], c, known, ranks);
      if c.chunk in known && known[c.chunk] != c {
        assert seen + lane == (seen + lane[..i + 1]) + lane[i + 1..];
        if Agree(seen + lane) { AgreePrefix(seen + lane[..i + 1], lane[i + 1..]); }
        return None, ranks;
      }
      known := known[c.chunk := c];
      ranks := ranks[c.chunk := i + 1];
    }
    assert lane[..|lane|] == lane;
    CollectedFacts(seen + lane, lane, known, ranks);
    return Some(known), ranks;
  }

  lemma NothingCollected(seen: seq<Candidate>)
    requires Agree(seen)
    ensures Collected(seen, [], Known(seen), map[])
  {
  }

  lemma CollectedFacts(all: seq<Candidate>, lane: seq<Candidate>, known: map<Uuid, Candidate>, ranks: map<Uuid, nat>)
    requires Collected(all, lane, known, ranks)
    ensures Agree(all) && known == Known(all) && RanksOf(lane, ranks)
  {
  }

  function CollectedScore(keywordRanks: map<Uuid, nat>, vectorRanks: map<Uuid, nat>, w: Weights, id: Uuid): real
    requires 0 < w.k
  {
    Part(w.keyword, w.k, RankIn(keywordRanks, id)) + Part(w.vector, w.k, RankIn(vectorRanks, id))
  }

  lemma ScoresCollected(keyword: seq<Candidate>, vector: seq<Candidate>, keywordRanks: map<Uuid, nat>, vectorRanks: map<Uuid, nat>, w: Weights)
    requires 0 < w.k && RanksOf(keyword, keywordRanks) && RanksOf(vector, vectorRanks)
    ensures forall id :: CollectedScore(keywordRanks, vectorRanks, w, id) == ScoreOf(keyword, vector, w, id)
  {
    hide Part, Rank, RankIn;
  }

  /** Score, pair and sort what the two loops collected. */
  method Assemble(known: map<Uuid, Candidate>, keywordRanks: map<Uuid, nat>, vectorRanks: map<Uuid, nat>, w: Weights,
                  ghost keyword: seq<Candidate>, ghost vector: seq<Candidate>)
    returns (list: seq<Fused>)
    requires ValidWeights(w) && known == Known(keyword + vector) && RanksOf(keyword, keywordRanks) && RanksOf(vector, vectorRanks)
    ensures list == FusedList(keyword, vector, w)
  {
    hide OrderBy, Known, Rank, Chunks, Part, Lists, CollectedScore, ScoreOf, RankIn, Agree;
    ScoresCollected(keyword, vector, keywordRanks, vectorRanks, w);
    var keys := map id | id in known :: Key(-CollectedScore(keywordRanks, vectorRanks, w, id), 0, 0);
    assert keys == FusionKeys(keyword, vector, w);
    var ids := OrderBy(keys);
    assert ids == FusedIds(keyword, vector, w);
    list := [];
    for i := 0 to |ids|
      invariant list == FusedList(keyword, vector, w)[..i]
    {
      var id := ids[i];
      assert id in Chunks(keyword + vector) && Rank(keyword, id) == RankIn(keywordRanks, id) && Rank(vector, id) == RankIn(vectorRanks, id);
      list := list + [Fused(known[id], RankIn(keywordRanks, id), RankIn(vectorRanks, id), CollectedScore(keywordRanks, vectorRanks, w, id))];
    }
  }

  /** reciprocal_rank_fusion; None is a refused policy or lanes that disagree. */
  method ReciprocalRankFusion(keyword: seq<Candidate>, vector: seq<Candidate>, w: Weights) returns (fused: Option<seq<Fused>>)
    ensures fused.Some? <==> ValidWeights(w) && Agree(keyword + vector)
    ensures fused.Some? ==> fused.value == FusedList(keyword, vector, w)
    ensures fused.Some? ==> forall i :: 0 <= i < |fused.value| ==> Scores(keyword, vector, w, fused.value[i])
  {
    hide FusedList, Scores, Agree, Known, RanksOf;
    if w.k <= 0 || w.keyword <= 0.0 || w.vector <= 0.0 { return None; }
    assert [] + keyword == keyword;
    EmptyKnown();
    var candidates, keywordRanks := CollectLane(map[], keyword, []);
    if candidates.None? {
      if Agree(keyword + vector) { AgreePrefix(keyword, vector); }
      return None;
    }
    var all, vectorRanks := CollectLane(candidates.value, vector, keyword);
    if all.None? { return None; }
    var list := Assemble(all.value, keywordRanks, vectorRanks, w, keyword, vector);
    ListScores(keyword, vector, w);
    return Some(list);
  }

  lemma ListScores(keyword: seq<Candidate>, vector: seq<Candidate>, w: Weights)
    requires 0 < w.k
    ensures forall i :: 0 <= i < |FusedList(keyword, vector, w)| ==> Scores(keyword, vector, w, FusedList(keyword, vector, w)[i])
  {
    hide Scores, FusedOf, OrderBy;
    var ids := FusedIds(keyword, vector, w);
    forall i | 0 <= i < |ids| ensures Scores(keyword, vector, w, FusedList(keyword, vector, w)[i]) {
      FusedScores(keyword, vector, w, ids[i]);
    }
  }

  lemma EmptyKnown()
    ensures Agree([]) && Known([]) == map[]
  {
  }

  // ---------------------------------------------------------------- laws

  predicate FusedBefore(a: Fused, b: Fused) {
    a.score > b.score || (a.score == b.score && a.candidate.chunk.number < b.candidate.chunk.number)
  }

  /** Strict (descending score, chunk id) order, hence no chunk twice. */
  ghost predicate Ranked(list: seq<Fused>) {
    forall i, j :: 0 <= i < j < |list| ==> FusedBefore(list[i], list[j])
  }

  lemma FusedOrder(keyword: seq<Candidate>, vector: seq<Candidate>, w: Weights)
    requires 0 < w.k
    ensures Ranked(FusedList(keyword, vector, w))
    ensures forall id :: id in FusedIds(keyword, vector, w) <==> id in Chunks(keyword + vector)
  {
    hide Known, Rank, Part, Chunks;
    var keys := FusionKeys(keyword, vector, w);
    OrderByLists(keys);
    hide OrderBy;
    var ids, list := FusedIds(keyword, vector, w), FusedList(keyword, vector, w);
    forall i, j | 0 <= i < j < |list| ensures FusedBefore(list[i], list[j]) {
      assert Before(keys[ids[i]], ids[i], keys[ids[j]], ids[j]);
      assert list[i].candidate.chunk == ids[i] && list[j].candidate.chunk == ids[j];
    }
  }

  lemma FusedChunks(keyword: seq<Candidate>, vector: seq<Candidate>, w: Weights)
    requires 0 < w.k
    ensures var list := FusedList(keyword, vector, w);
            (set i | 0 <= i < |list| :: list[i].candidate.chunk) == Chunks(keyword + vector)
  {
    hide Known, Rank, Part, Chunks, OrderBy, FusedIds, Ranked;
    FusedOrder(keyword, vector, w);
    var ids, list := FusedIds(keyword, vector, w), FusedList(keyword, vector, w);
    assert forall i :: 0 <= i < |list| ==> list[i].candidate.chunk == ids[i];
    hide FusedList;
    var found := set i | 0 <= i < |list| :: list[i].candidate.chunk;
    forall id | id in Chunks(keyword + vector) ensures id in found {
      assert id in ids;
      var i :| 0 <= i < |ids| && ids[i] == id;
      assert list[i].candidate.chunk == id;
    }
  }

  /** The fused list is the union of the lanes, each chunk once, in strict order. */
  lemma FusionPermutes(keyword: seq<Candidate>, vector: seq<Candidate>, w: Weights)
    requires 0 < w.k
    ensures var list := FusedList(keyword, vector, w);
            && Ranked(list)
            && (forall i, j :: 0 <= i < j < |list| ==> list[i].candidate.chunk != list[j].candidate.chunk)
            && (set i | 0 <= i < |list| :: list[i].candidate.chunk) == Chunks(keyword) + Chunks(vector)
            && forall i :: 0 <= i < |list| ==> list[i].candidate in keyword + vector
  {
    hide Known, Rank, Part, Chunks, OrderBy, FusedIds;
    FusedOrder(keyword, vector, w);
    FusedChunks(keyword, vector, w);
    var list := FusedList(keyword, vector, w);
    assert forall i :: 0 <= i < |list| ==> list[i].candidate in keyword + vector;
    hide FusedList;
    assert forall i, j :: 0 <= i < j < |list| ==> FusedBefore(list[i], list[j]);
    forall id ensures id in Chunks(keyword + vector) <==> id in Chunks(keyword) + Chunks(vector) {
      UnionChunks(keyword, vector, id);
    }
    assert Chunks(keyword + vector) == Chunks(keyword) + Chunks(vector);
  }

  lemma UnionChunks(keyword: seq<Candidate>, vector: seq<Candidate>, id: Uuid)
    ensures id in Chunks(keyword + vector) <==> id in Chunks(keyword) || id in Chunks(vector)
  {
    if id in Chunks(keyword) { var c :| c in keyword && c.chunk == id; assert c in keyword + vector; }
    if id in Chunks(vector) { var c :| c in vector && c.chunk == id; assert c in keyword + vector; }
  }

  function Mirror(f: Fused): Fused {
    f.(keywordRank := f.vectorRank, vectorRank := f.keywordRank)
  }

  lemma SameUnion(keyword: seq<Candidate>, vector: seq<Candidate>)
    ensures Chunks(keyword + vector) == Chunks(vector + keyword)
  {
    forall id ensures id in Chunks(keyword + vector) <==> id in Chunks(vector + keyword) {
      UnionChunks(keyword, vector, id);
      UnionChunks(vector, keyword, id);
    }
  }

  lemma SameFusionKeys(keyword: seq<Candidate>, vector: seq<Candidate>, w: Weights)
    requires 0 < w.k
    ensures FusionKeys(keyword, vector, w) == FusionKeys(vector, keyword, Weights(w.k, w.vector, w.keyword))
  {
    hide Rank;
    SameUnion(keyword, vector);
  }

  /** Swapping the lanes together with their weights swaps the reported ranks and nothing else. */
  lemma FusionSymmetric(keyword: seq<Candidate>, vector: seq<Candidate>, w: Weights)
    requires 0 < w.k && Agree(keyword + vector)
    ensures var list, swapped := FusedList(keyword, vector, w), FusedList(vector, keyword, Weights(w.k, w.vector, w.keyword));
            |list| == |swapped| && forall i :: 0 <= i < |list| ==> swapped[i] == Mirror(list[i])
  {
    var w' := Weights(w.k, w.vector, w.keyword);
    hide Rank, OrderBy;
    SameUnion(keyword, vector);
    SameFusionKeys(keyword, vector, w);
    forall id | id in Chunks(keyword + vector) ensures Known(keyword + vector)[id] == Known(vector + keyword)[id] {
      SameKnown(keyword, vector, id);
    }
  }

  lemma SameKnown(keyword: seq<Candidate>, vector: seq<Candidate>, id: Uuid)
    requires Agree(keyword + vector) && id in Chunks(keyword + vector) && id in Chunks(vector + keyword)
    ensures Known(keyword + vector)[id] == Known(vector + keyword)[id]
  {
    var both := keyword + vector;
    var a, b := Known(both)[id], Known(vector + keyword)[id];
    assert b in both;
    var i :| 0 <= i < |both| && both[i] == a;
    var j :| 0 <= j < |both| && both[j] == b;
  }

  /** A strictly better rank, absence being the worst. */
  predicate RankBetter(a: Option<nat>, b: Option<nat>) {
    a.Some? && (b.None? || a.value < b.value)
  }

  predicate RankNoWorse(a: Option<nat>, b: Option<nat>) {
    RankBetter(a, b) || a == b
  }

  lemma Reciprocal(weight: real, x: real, y: real)
    requires 0.0 < weight && 0.0 < x < y
    ensures weight / x > weight / y > 0.0
  {
    var q := weight / x;
    assert q * x == weight;
    assert q > 0.0;
    assert q * y > weight;
  }

  lemma PartAntitone(weight: real, k: nat, a: Option<nat>, b: Option<nat>)
    requires 0 < k && 0.0 < weight && RankBetter(a, b)
    ensures Part(weight, k, a) > Part(weight, k, b)
  {
    if b.Some? {
      Reciprocal(weight, (k + a.value) as real, (k + b.value) as real);
    } else {
      Reciprocal(weight, (k + a.value) as real, (k + a.value) as real + 1.0);
    }
  }

  lemma RankedDescends(list: seq<Fused>)
    requires Ranked(list)
    ensures forall i, j :: 0 <= i < j < |list| ==> list[i].score >= list[j].score
  {
    forall i, j | 0 <= i < j < |list| ensures list[i].score >= list[j].score {
      assert FusedBefore(list[i], list[j]);
    }
  }

  lemma BetterScores(keyword: seq<Candidate>, vector: seq<Candidate>, w: Weights, a: Uuid, b: Uuid)
    requires ValidWeights(w)
    requires RankNoWorse(Rank(keyword, a), Rank(keyword, b)) && RankNoWorse(Rank(vector, a), Rank(vector, b))
    requires RankBetter(Rank(keyword, a), Rank(keyword, b)) || RankBetter(Rank(vector, a), Rank(vector, b))
    ensures ScoreOf(keyword, vector, w, a) > ScoreOf(keyword, vector, w, b)
  {
    hide Rank, Part;
    if RankBetter(Rank(keyword, a), Rank(keyword, b)) { PartAntitone(w.keyword, w.k, Rank(keyword, a), Rank(keyword, b)); }
    if RankBetter(Rank(vector, a), Rank(vector, b)) { PartAntitone(w.vector, w.k, Rank(vector, a), Rank(vector, b)); }
  }

  /** Dominance: a chunk ranked no worse in both lanes and strictly better in one comes
      first. */
  lemma FusionDominance(keyword: seq<Candidate>, vector: seq<Candidate>, w: Weights, a: Uuid, b: Uuid)
    requires ValidWeights(w)
    requires RankNoWorse(Rank(keyword, a), Rank(keyword, b)) && RankNoWorse(Rank(vector, a), Rank(vector, b))
    requires RankBetter(Rank(keyword, a), Rank(keyword, b)) || RankBetter(Rank(vector, a), Rank(vector, b))
    ensures ScoreOf(keyword, vector, w, a) > ScoreOf(keyword, vector, w, b)
    ensures var ids := FusedIds(keyword, vector, w);
            forall i, j :: 0 <= i < |ids| && 0 <= j < |ids| && ids[i] == a && ids[j] == b ==> i < j
  {
    hide Rank, OrderBy, Part, Chunks, Known, RankBetter, RankNoWorse, ScoreOf;
    BetterScores(keyword, vector, w, a, b);
    FusedOrder(keyword, vector, w);
    var ids, list := FusedIds(keyword, vector, w), FusedList(keyword, vector, w);
    RankedDescends(list);
    forall i, j | 0 <= i < |ids| && 0 <= j < |ids| && ids[i] == a && ids[j] == b ensures i < j {
      assert list[i].score == ScoreOf(keyword, vector, w, a) && list[j].score == ScoreOf(keyword, vector, w, b);
    }
  }
}
