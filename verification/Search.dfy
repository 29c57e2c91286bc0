/** SearchService.search: floors, fusion, the strict filter and grouping, composed. */
module Search {
  import opened Basics
  import opened Text
  import opened Ordering
  import opened Lanes
  import opened Fusion
  import opened Evidence

  datatype Policy = Policy(
    weights: Weights, keywordLimit: nat, vectorLimit: nat, keywordFloor: Score, vectorFloor: Score, calibrated: bool)

  /** What SearchPolicySnapshot guarantees. */
  predicate ValidPolicy(p: Policy) {
    && ValidWeights(p.weights) && 0 < p.keywordLimit && 0 < p.vectorLimit
    && 0 <= p.keywordFloor <= ONE && 0 <= p.vectorFloor <= ONE
  }

  datatype Level = Default | Strict

  /** The scored chunks of one query in the active generation, if there is one. */
  datatype Corpus = Corpus(active: Option<ActiveIndex>, keyword: map<Uuid, CandidateRow>, vector: map<Uuid, CandidateRow>)

  ghost predicate ValidCorpus(c: Corpus) {
    IsTable(c.keyword) && IsTable(c.vector)
  }

  datatype SearchError = InvalidInput | NoActiveIndex | Unavailable

  datatype Status = Ok | NoEvidence

  datatype SearchOutcome = Refused(error: SearchError) | Found(status: Status, index: ActiveIndex, items: seq<EvidenceItem>)

  // ---------------------------------------------------------------- specification

  function CandidatesOf(lane: seq<ScoredCandidate>): (candidates: seq<Candidate>)
    ensures |candidates| == |lane| && forall i :: 0 <= i < |candidates| ==> candidates[i] == lane[i].candidate
  {
    seq(|lane|, i requires 0 <= i < |lane| => lane[i].candidate)
  }

  function KeywordLane(c: Corpus, p: Policy): seq<Candidate> {
    CandidatesOf(Scored(LaneRows(c.keyword, p.keywordFloor, p.keywordLimit)))
  }

  function VectorLane(c: Corpus, p: Policy): seq<Candidate> {
    CandidatesOf(Scored(LaneRows(c.vector, p.vectorFloor, p.vectorLimit)))
  }

  /** The items found in both lanes, in fused order. */
  function InBoth(fused: seq<Fused>): (kept: seq<Fused>)
    ensures forall f :: f in kept <==> f in fused && f.keywordRank.Some? && f.vectorRank.Some?
  {
    if fused == [] then []
    else
      var last := |fused| - 1;
      assert fused == fused[..last] + [fused[last]];
      InBoth(fused[..last]) + if fused[last].keywordRank.Some? && fused[last].vectorRank.Some? then [fused[last]] else []
  }

  function Surviving(c: Corpus, p: Policy, level: Level): seq<Fused>
    requires ValidPolicy(p)
  {
    var fused := FusedList(KeywordLane(c, p), VectorLane(c, p), p.weights);
    if level.Strict? then InBoth(fused) else fused
  }

  /** The rows of both lanes can be read and say the same of each chunk. */
  ghost predicate Coherent(c: Corpus, p: Policy) {
    && c.active.Some?
    && Readable(LaneRows(c.keyword, p.keywordFloor, p.keywordLimit), c.active.value)
    && Readable(LaneRows(c.vector, p.vectorFloor, p.vectorLimit), c.active.value)
    && Agree(KeywordLane(c, p) + VectorLane(c, p))
  }

  // ---------------------------------------------------------------- the service

  lemma {:induction false} RetainAll(lane: seq<ScoredCandidate>, floor: Score)
    requires forall i :: 0 <= i < |lane| ==> lane[i].score >= floor
    ensures Retain(lane, floor) == lane
  {
    RetainPrefix(lane, floor, |lane|);
    assert lane[..|lane|] == lane;
  }

  /** The floor the service applies again keeps a whole lane. */
  lemma LaneRetained(table: map<Uuid, CandidateRow>, floor: Score, limit: nat)
    ensures Retain(Scored(LaneRows(table, floor, limit)), floor) == Scored(LaneRows(table, floor, limit))
  {
    LaneDescending(table, floor, limit);
    RetainAll(Scored(LaneRows(table, floor, limit)), floor);
  }

  /** retrieve: both lanes in one transaction. */
  method Retrieve(corpus: Corpus, policy: Policy, active: ActiveIndex)
    returns (batch: Option<(seq<ScoredCandidate>, seq<ScoredCandidate>)>)
    ensures batch.Some? <==>
              && Readable(LaneRows(corpus.keyword, policy.keywordFloor, policy.keywordLimit), active)
              && Readable(LaneRows(corpus.vector, policy.vectorFloor, policy.vectorLimit), active)
    ensures batch.Some? ==>
              && batch.value.0 == Scored(LaneRows(corpus.keyword, policy.keywordFloor, policy.keywordLimit))
              && batch.value.1 == Scored(LaneRows(corpus.vector, policy.vectorFloor, policy.vectorLimit))
  {
    hide LaneRows, Readable;
    var keyword := CandidateRows(LaneRows(corpus.keyword, policy.keywordFloor, policy.keywordLimit), active);
    if keyword.None? { return None; }
    var vector := CandidateRows(LaneRows(corpus.vector, policy.vectorFloor, policy.vectorLimit), active);
    if vector.None? { return None; }
    return Some((keyword.value, vector.value));
  }

  /** search.  `resolved` is the index of the first transaction, `embedded` whether the
      query embedding succeeded. */
  method SearchQuery(corpus: Corpus, resolved: Option<ActiveIndex>, policy: Policy, query: string, embedded: bool,
                     limit: int, maxLimit: int, level: Level)
    returns (outcome: SearchOutcome)
    requires ValidPolicy(policy) && ValidCorpus(corpus)
    ensures outcome == Refused(InvalidInput) <==> Blank(query) || !(1 <= limit <= maxLimit)
    ensures outcome == Refused(NoActiveIndex) <==>
              && !Blank(query) && 1 <= limit <= maxLimit && policy.calibrated
              && (resolved.None? || (embedded && corpus.active.None?))
    ensures outcome.Found? <==>
              && !Blank(query) && 1 <= limit <= maxLimit && policy.calibrated && embedded
              && resolved.Some? && resolved == corpus.active && Coherent(corpus, policy)
              && EvidenceOf(Surviving(corpus, policy, level), limit).Some?
    ensures outcome.Found? ==> Some(outcome.items) == EvidenceOf(Surviving(corpus, policy, level), limit)
    ensures outcome.Found? ==> AllShown(Surviving(corpus, policy, level), outcome.items)
    ensures outcome.Found? ==> (outcome.status == NoEvidence <==> outcome.items == []) && corpus.active == Some(outcome.index)
  {
    hide LaneRows, Agree, FusedList, EvidenceOf, Readable, Blank, AllShown, Ranked, Scores;
    if Blank(query) || limit < 1 || limit > maxLimit { return Refused(InvalidInput); }
    if !policy.calibrated { return Refused(Unavailable); }
    if resolved.None? { return Refused(NoActiveIndex); }
    if !embedded { return Refused(Unavailable); }
    if corpus.active.None? { return Refused(NoActiveIndex); }
    var batch := Retrieve(corpus, policy, corpus.active.value);
    if batch.None? { return Refused(Unavailable); }
    if corpus.active.value != resolved.value { return Refused(Unavailable); }
    LaneRetained(corpus.keyword, policy.keywordFloor, policy.keywordLimit);
    LaneRetained(corpus.vector, policy.vectorFloor, policy.vectorLimit);
    var keyword := CandidatesOf(Retain(batch.value.0, policy.keywordFloor));
    var vector := CandidatesOf(Retain(batch.value.1, policy.vectorFloor));
    var fused := ReciprocalRankFusion(keyword, vector, policy.weights);
    if fused.None? { return Refused(Unavailable); }
    var kept := if level.Strict? then InBoth(fused.value) else fused.value;
    SurvivingRanked(corpus, policy, level);
    var items := GroupEvidence(kept, limit);
    if items.None? { return Refused(Unavailable); }
    return Found(if items.value == [] then NoEvidence else Status.Ok, corpus.active.value, items.value);
  }

  // ---------------------------------------------------------------- laws

  lemma {:induction false} InBothRanked(fused: seq<Fused>)
    requires Ranked(fused)
    ensures Ranked(InBoth(fused))
  {
    if fused != [] {
      var last := |fused| - 1;
      InBothRanked(fused[..last]);
      var head := InBoth(fused[..last]);
      forall i | 0 <= i < |head| ensures FusedBefore(head[i], fused[last]) {
        assert head[i] in fused[..last];
        var j :| 0 <= j < last && fused[j] == head[i];
      }
    }
  }

  /** Grouping always receives a strictly ranked list, so ranking parents by their first
      child is ranking them by their best. */
  lemma SurvivingRanked(c: Corpus, p: Policy, level: Level)
    requires ValidPolicy(p)
    ensures Ranked(Surviving(c, p, level))
  {
    hide LaneRows, FusedList;
    FusedOrder(KeywordLane(c, p), VectorLane(c, p), p.weights);
    if level.Strict? { InBothRanked(FusedList(KeywordLane(c, p), VectorLane(c, p), p.weights)); }
  }

  /** A found result ranks distinct parents by their best surviving child and shows every
      surviving child; a strict result shows only children found in both lanes. */
  lemma ResultMeans(c: Corpus, p: Policy, level: Level, limit: nat)
    requires ValidPolicy(p) && EvidenceOf(Surviving(c, p, level), limit).Some?
    ensures var fused, items := Surviving(c, p, level), EvidenceOf(Surviving(c, p, level), limit).value;
            && (forall i, j :: 0 <= i < j < |items| ==>
                  ParentBefore(items[i].score, items[i].parent, items[j].score, items[j].parent) && items[i].parent != items[j].parent)
            && (forall i :: 0 <= i < |items| ==> IsBest(fused, items[i].parent, items[i].score))
            && AllShown(fused, items)
    ensures level.Strict? ==> forall f :: f in Surviving(c, p, level) ==> f.keywordRank.Some? && f.vectorRank.Some?
    ensures level.Strict? ==> forall f :: f in Surviving(c, p, level) ==> f in Surviving(c, p, Default)
  {
    hide EvidenceOf, Ranked, LaneRows, FusedList, IsBest, Children, MatchesOf, ParentOrder, Parents, AllShown;
    SurvivingRanked(c, p, level);
    EvidenceShown(Surviving(c, p, level), limit);
    GroupingRanksParents(Surviving(c, p, level), limit);
    ItemsAreBest(Surviving(c, p, level), limit);
  }

  /** A default search finds nothing exactly when no chunk reaches its lane's floor. */
  lemma NothingFound(c: Corpus, p: Policy, limit: nat)
    requires ValidPolicy(p) && 0 < limit && EvidenceOf(Surviving(c, p, Default), limit).Some?
    ensures EvidenceOf(Surviving(c, p, Default), limit).value == []
       <==> Passing(c.keyword, p.keywordFloor) == {} && Passing(c.vector, p.vectorFloor) == {}
  {
    hide EvidenceOf, Ranked, FusedList, Parents;
    var fused := Surviving(c, p, Default);
    SurvivingRanked(c, p, Default);
    GroupingRanksParents(fused, limit);
    NoParents(fused);
    FusedEmpty(KeywordLane(c, p), VectorLane(c, p), p.weights);
    LaneEmpty(c.keyword, p.keywordFloor, p.keywordLimit);
    LaneEmpty(c.vector, p.vectorFloor, p.vectorLimit);
  }

  lemma NoParents(fused: seq<Fused>)
    ensures Parents(fused) == {} <==> fused == []
  {
    if fused != [] { assert fused[0] in fused && fused[0].candidate.parent in Parents(fused); }
  }

  lemma FusedEmpty(keyword: seq<Candidate>, vector: seq<Candidate>, w: Weights)
    requires 0 < w.k
    ensures FusedList(keyword, vector, w) == [] <==> keyword == [] && vector == []
  {
    FusedOrder(keyword, vector, w);
    hide OrderBy, Rank, Known;
    if keyword + vector != [] {
      var c := (keyword + vector)[0];
      assert c in keyword + vector && c.chunk in Chunks(keyword + vector);
      assert c.chunk in FusedIds(keyword, vector, w);
    }
  }

  lemma LaneEmpty(table: map<Uuid, CandidateRow>, floor: Score, limit: nat)
    requires 0 < limit
    ensures LaneRows(table, floor, limit) == [] <==> Passing(table, floor) == {}
  {
    var keys := LaneKeys(table, floor);
    OrderByLists(keys);
    hide OrderBy;
    if id :| id in Passing(table, floor) { assert id in keys && id in OrderBy(keys); }
    if OrderBy(keys) != [] { assert OrderBy(keys)[0] in keys; }
  }
}
