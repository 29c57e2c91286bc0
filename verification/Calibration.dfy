/** Floor calibration: when the floors just above an unknown query's scores separate it
    from every known case. */
module Calibration {
  import opened Basics
  import opened Text
  import opened Ordering
  import opened Lanes
  import opened Fusion
  import opened Evidence
  import opened Search

  datatype KnownScores = KnownScores(keyword: Option<Score>, vector: Option<Score>)

  datatype Assessment = Assessment(calibratable: bool, margin: Option<real>, keywordMax: Score, vectorMax: Score)

  predicate ScoreInRange(score: Score) {
    0 <= score <= ONE
  }

  predicate ValidKnown(k: KnownScores) {
    (k.keyword.Some? ==> ScoreInRange(k.keyword.value)) && (k.vector.Some? ==> ScoreInRange(k.vector.value))
  }

  /** The real numbers the grid positions stand for, in order. */
  ghost predicate Monotone(value: Score -> real) {
    forall a, b :: a < b ==> value(a) < value(b)
  }

  /** The case's best score in some lane exceeds the unknown maximum of that lane. */
  predicate Beats(k: KnownScores, keywordMax: Score, vectorMax: Score) {
    (k.keyword.Some? && k.keyword.value > keywordMax) || (k.vector.Some? && k.vector.value > vectorMax)
  }

  // ---------------------------------------------------------------- assess_calibration

  /** The best margin of one case over its lanes; None if it has no lane. */
  function CaseMargin(k: KnownScores, keywordMax: Score, vectorMax: Score, value: Score -> real): Option<real> {
    var a := if k.keyword.Some? then Some(value(k.keyword.value) - value(keywordMax)) else None;
    var b := if k.vector.Some? then Some(value(k.vector.value) - value(vectorMax)) else None;
    if a.None? then b
    else if b.None? then a
    else Some(if b.value > a.value then b.value else a.value)
  }

  lemma MarginSign(k: KnownScores, keywordMax: Score, vectorMax: Score, value: Score -> real)
    requires Monotone(value)
    ensures Beats(k, keywordMax, vectorMax) <==> CaseMargin(k, keywordMax, vectorMax, value).Some? && CaseMargin(k, keywordMax, vectorMax, value).value > 0.0
  {
    if k.keyword.Some? { ValueOrder(value, k.keyword.value, keywordMax); }
    if k.vector.Some? { ValueOrder(value, k.vector.value, vectorMax); }
  }

  lemma ValueOrder(value: Score -> real, a: Score, b: Score)
    requires Monotone(value)
    ensures value(a) > value(b) <==> a > b
  {
    assert a == b || a < b || b < a;
  }

  /** `margin` is the larger of the case's lane margins, or its only one. */
  ghost predicate BestMargin(k: KnownScores, keywordMax: Score, vectorMax: Score, value: Score -> real, margin: real) {
    && ((k.keyword.Some? && margin == value(k.keyword.value) - value(keywordMax))
        || (k.vector.Some? && margin == value(k.vector.value) - value(vectorMax)))
    && (k.keyword.Some? ==> value(k.keyword.value) - value(keywordMax) <= margin)
    && (k.vector.Some? ==> value(k.vector.value) - value(vectorMax) <= margin)
  }

  lemma CaseMarginIsBest(k: KnownScores, keywordMax: Score, vectorMax: Score, value: Score -> real)
    ensures CaseMargin(k, keywordMax, vectorMax, value).None? <==> k == KnownScores(None, None)
    ensures CaseMargin(k, keywordMax, vectorMax, value).Some? ==>
              BestMargin(k, keywordMax, vectorMax, value, CaseMargin(k, keywordMax, vectorMax, value).value)
  {
  }

  /** The case's margin is at least `margin`. */
  ghost predicate MarginAtLeast(k: KnownScores, keywordMax: Score, vectorMax: Score, value: Score -> real, margin: real) {
    exists m :: BestMargin(k, keywordMax, vectorMax, value, m) && margin <= m
  }

  /** `margin` is the least case margin. */
  ghost predicate LeastMargin(known: seq<KnownScores>, keywordMax: Score, vectorMax: Score, value: Score -> real, margin: real) {
    && (forall i :: 0 <= i < |known| ==> MarginAtLeast(known[i], keywordMax, vectorMax, value, margin))
    && exists i :: 0 <= i < |known| && BestMargin(known[i], keywordMax, vectorMax, value, margin)
  }

  /** assess_calibration; None is a refused input. */
  method AssessCalibration(known: seq<KnownScores>, keywordMax: Score, vectorMax: Score, value: Score -> real)
    returns (assessment: Option<Assessment>)
    requires Monotone(value)
    requires forall i :: 0 <= i < |known| ==> ValidKnown(known[i])
    ensures assessment.Some? <==> known != [] && ScoreInRange(keywordMax) && ScoreInRange(vectorMax)
    ensures assessment.Some? ==> assessment.value.keywordMax == keywordMax && assessment.value.vectorMax == vectorMax
    ensures assessment.Some? ==> (assessment.value.calibratable <==> forall i :: 0 <= i < |known| ==> Beats(known[i], keywordMax, vectorMax))
    ensures assessment.Some? ==> (assessment.value.margin.None? <==> exists i :: 0 <= i < |known| && known[i] == KnownScores(None, None))
    ensures assessment.Some? && assessment.value.margin.Some? ==> LeastMargin(known, keywordMax, vectorMax, value, assessment.value.margin.value)
  {
    hide Beats;
    if known == [] || !ScoreInRange(keywordMax) || !ScoreInRange(vectorMax) { return None; }
    var margins: seq<real> := [];
    for i := 0 to |known|
      invariant |margins| == i
      invariant forall j :: 0 <= j < i ==> CaseMargin(known[j], keywordMax, vectorMax, value) == Some(margins[j])
    {
      MarginSign(known[i], keywordMax, vectorMax, value);
      var margin := CaseMargin(known[i], keywordMax, vectorMax, value);
      if margin.None? { return Some(Assessment(false, None, keywordMax, vectorMax)); }
      margins := margins + [margin.value];
    }
    var least := Least(margins);
    forall i | 0 <= i < |known|
      ensures Beats(known[i], keywordMax, vectorMax) <==> margins[i] > 0.0
      ensures BestMargin(known[i], keywordMax, vectorMax, value, margins[i])
    {
      MarginSign(known[i], keywordMax, vectorMax, value);
      CaseMarginIsBest(known[i], keywordMax, vectorMax, value);
    }
    var at :| 0 <= at < |margins| && margins[at] == least;
    LeastOfBest(known, keywordMax, vectorMax, value, margins, least, at);
    return Some(Assessment(least > 0.0, Some(least), keywordMax, vectorMax));
  }

  lemma LeastOfBest(known: seq<KnownScores>, keywordMax: Score, vectorMax: Score, value: Score -> real, margins: seq<real>, least: real, at: nat)
    requires |margins| == |known| && at < |margins| && margins[at] == least && forall i :: 0 <= i < |margins| ==> least <= margins[i]
    requires forall i :: 0 <= i < |known| ==> BestMargin(known[i], keywordMax, vectorMax, value, margins[i])
    ensures LeastMargin(known, keywordMax, vectorMax, value, least)
  {
    hide BestMargin;
    assert BestMargin(known[at], keywordMax, vectorMax, value, least);
    forall i | 0 <= i < |known| ensures MarginAtLeast(known[i], keywordMax, vectorMax, value, least) {
      assert BestMargin(known[i], keywordMax, vectorMax, value, margins[i]) && least <= margins[i];
    }
  }

  function Least(margins: seq<real>): (least: real)
    requires margins != []
    ensures exists i :: 0 <= i < |margins| && margins[i] == least
    ensures forall i :: 0 <= i < |margins| ==> least <= margins[i]
  {
    var last := |margins| - 1;
    if last == 0 then margins[0]
    else
      var rest := Least(margins[..last]);
      assert margins[..last][0] == margins[0];
      if margins[last] < rest then margins[last] else rest
  }

  // ---------------------------------------------------------------- scores observed

  const TOP_EVIDENCE_PER_LANE: nat := 5

  /** max(raw_score, default=0.0) */
  function MaxScore(lane: seq<ScoredCandidate>): (m: Score)
    ensures forall i :: 0 <= i < |lane| ==> lane[i].score <= m
    ensures lane == [] ==> m == 0
    ensures lane != [] ==> exists i :: 0 <= i < |lane| && lane[i].score == m
  {
    if lane == [] then 0
    else
      var last := |lane| - 1;
      var rest := MaxScore(lane[..last]);
      if last == 0 || lane[last].score > rest then lane[last].score else rest
  }

  /** _best_acceptable: the first best-scored acceptable row among the visible ones. */
  function BestAcceptable(lane: seq<ScoredCandidate>, acceptable: set<Uuid>): (best: Option<ScoredCandidate>)
    ensures best.Some? ==> best.value in lane && best.value.candidate.chunk in acceptable
  {
    BestOf(Take(lane, TOP_EVIDENCE_PER_LANE), acceptable)
  }

  /** Among the first n rows, row i is the first of the best-scored acceptable ones. */
  ghost predicate IsFirstBest(lane: seq<ScoredCandidate>, n: nat, acceptable: set<Uuid>, i: nat) {
    && i < |lane| && i < n && lane[i].candidate.chunk in acceptable
    && forall j :: 0 <= j < |lane| && j < n && lane[j].candidate.chunk in acceptable ==>
         lane[j].score <= lane[i].score && (j < i ==> lane[j].score < lane[i].score)
  }

  /** Only the five visible rows count, and of equal scores the first. */
  lemma BestIsFirst(lane: seq<ScoredCandidate>, acceptable: set<Uuid>)
    ensures BestAcceptable(lane, acceptable).None? <==>
              forall i :: 0 <= i < |lane| && i < TOP_EVIDENCE_PER_LANE ==> lane[i].candidate.chunk !in acceptable
    ensures BestAcceptable(lane, acceptable).Some? <==>
              exists i: nat :: IsFirstBest(lane, TOP_EVIDENCE_PER_LANE, acceptable, i) && BestAcceptable(lane, acceptable) == Some(lane[i])
  {
    var top := Take(lane, TOP_EVIDENCE_PER_LANE);
    assert forall i :: 0 <= i < |top| ==> top[i] == lane[i];
    if BestAcceptable(lane, acceptable).Some? {
      var i := FirstBestOf(top, acceptable);
      assert IsFirstBest(lane, TOP_EVIDENCE_PER_LANE, acceptable, i);
    }
  }

  lemma {:induction false} FirstBestOf(lane: seq<ScoredCandidate>, acceptable: set<Uuid>) returns (i: nat)
    requires BestOf(lane, acceptable).Some?
    ensures IsFirstBest(lane, |lane|, acceptable, i) && BestOf(lane, acceptable) == Some(lane[i])
  {
    var last := |lane| - 1;
    var front := lane[..last];
    var rest := BestOf(front, acceptable);
    if lane[last].candidate.chunk in acceptable && (rest.None? || lane[last].score > rest.value.score) {
      i := last;
      forall j | 0 <= j < last && lane[j].candidate.chunk in acceptable ensures lane[j].score < lane[last].score {
        assert front[j] == lane[j];
      }
    } else {
      i := FirstBestOf(front, acceptable);
      forall j | 0 <= j < last && lane[j].candidate.chunk in acceptable
        ensures lane[j].score <= lane[i].score && (j < i ==> lane[j].score < lane[i].score)
      {
        assert front[j] == lane[j];
      }
    }
  }

  function BestOf(lane: seq<ScoredCandidate>, acceptable: set<Uuid>): (best: Option<ScoredCandidate>)
    ensures best.Some? ==> best.value in lane && best.value.candidate.chunk in acceptable
    ensures best.Some? ==> forall i :: 0 <= i < |lane| && lane[i].candidate.chunk in acceptable ==> lane[i].score <= best.value.score
    ensures best.None? ==> forall i :: 0 <= i < |lane| ==> lane[i].candidate.chunk !in acceptable
  {
    if lane == [] then None
    else
      var last := |lane| - 1;
      var rest := BestOf(lane[..last], acceptable);
      assert lane == lane[..last] + [lane[last]];
      if lane[last].candidate.chunk in acceptable && (rest.None? || lane[last].score > rest.value.score) then Some(lane[last]) else rest
  }

  /** A case's lanes, retrieved for calibration with floor 0.0. */
  function Observed(table: map<Uuid, CandidateRow>, limit: nat): seq<ScoredCandidate> {
    Scored(LaneRows(table, 0, limit))
  }

  datatype Case = Case(corpus: Corpus, acceptable: set<Uuid>)

  function ScoreIn(best: Option<ScoredCandidate>): Option<Score> {
    if best.Some? then Some(best.value.score) else None
  }

  function KnownOf(case_: Case, p: Policy): KnownScores {
    KnownScores(ScoreIn(BestAcceptable(Observed(case_.corpus.keyword, p.keywordLimit), case_.acceptable)),
                ScoreIn(BestAcceptable(Observed(case_.corpus.vector, p.vectorLimit), case_.acceptable)))
  }

  /** _strict_floor_above: the next grid position; only below 1.0. */
  function FloorAbove(score: Score): Option<Score> {
    if 0 <= score < ONE then Some(score + 1) else None
  }

  /** The policy with both floors set just above the unknown query's maxima. */
  function Calibrated(p: Policy, unknown: Corpus): Policy {
    p.(keywordFloor := MaxScore(Observed(unknown.keyword, p.keywordLimit)) + 1,
       vectorFloor := MaxScore(Observed(unknown.vector, p.vectorLimit)) + 1, calibrated := true)
  }

  // ---------------------------------------------------------------- soundness

  lemma {:induction false} RetainNothing(lane: seq<ScoredCandidate>, floor: Score)
    requires forall i :: 0 <= i < |lane| ==> lane[i].score < floor
    ensures Retain(lane, floor) == []
  {
    RetainPrefix(lane, floor, 0);
  }

  /** Nothing observed reaches the floor, so the lane with that floor is empty. */
  lemma AboveMaximumIsEmpty(table: map<Uuid, CandidateRow>, limit: nat)
    ensures LaneRows(table, MaxScore(Observed(table, limit)) + 1, limit) == []
  {
    var lane := Observed(table, limit);
    var floor := MaxScore(lane) + 1;
    MaxNonnegative(table, limit);
    TopThenFloor(table, 0, floor, limit);
    RetainNothing(lane, floor);
    assert |Scored(LaneRows(table, floor, limit))| == 0;
  }

  lemma MaxNonnegative(table: map<Uuid, CandidateRow>, limit: nat)
    ensures MaxScore(Observed(table, limit)) >= 0
  {
    LaneDescending(table, 0, limit);
  }

  /** With the calibrated floors the unknown query finds nothing, at either level. */
  lemma UnknownFindsNothing(p: Policy, unknown: Corpus, level: Level, limit: nat)
    requires ValidPolicy(p) && ValidPolicy(Calibrated(p, unknown)) && 0 < limit
    ensures EvidenceOf(Surviving(unknown, Calibrated(p, unknown), level), limit) == Some([])
  {
    var q := Calibrated(p, unknown);
    AboveMaximumIsEmpty(unknown.keyword, p.keywordLimit);
    AboveMaximumIsEmpty(unknown.vector, p.vectorLimit);
    hide LaneRows, MaxScore;
    assert KeywordLane(unknown, q) == [] && VectorLane(unknown, q) == [];
    FusedEmpty([], [], q.weights);
    NothingGroups(limit);
  }

  lemma NothingGroups(limit: nat)
    ensures EvidenceOf([], limit) == Some([])
  {
    ParentsListed([]);
    assert Parents([]) == {};
    assert ParentOrder([]) == [];
    assert EvidenceOf([], limit).value == [];
  }

  /** A lane's best acceptable row survives every floor it reaches. */
  lemma BestSurvives(table: map<Uuid, CandidateRow>, acceptable: set<Uuid>, limit: nat, floor: Score)
    requires 0 <= floor && IsTable(table)
    requires BestAcceptable(Observed(table, limit), acceptable).Some?
    requires BestAcceptable(Observed(table, limit), acceptable).value.score >= floor
    ensures BestAcceptable(Observed(table, limit), acceptable).value in Scored(LaneRows(table, floor, limit))
  {
    var best := BestAcceptable(Observed(table, limit), acceptable).value;
    TopThenFloor(table, 0, floor, limit);
    RetainHas(Observed(table, limit), floor, best);
  }

  lemma {:induction false} RetainHas(lane: seq<ScoredCandidate>, floor: Score, item: ScoredCandidate)
    requires item in lane && item.score >= floor
    ensures item in Retain(lane, floor)
  {
    var last := |lane| - 1;
    assert lane == lane[..last] + [lane[last]];
    if lane[last] != item { RetainHas(lane[..last], floor, item); }
  }

  lemma InLane(lane: seq<ScoredCandidate>, item: ScoredCandidate)
    requires item in lane
    ensures item.candidate in CandidatesOf(lane)
  {
    var i :| 0 <= i < |lane| && lane[i] == item;
    assert CandidatesOf(lane)[i] == item.candidate;
  }

  /** The fused list mentions a chunk. */
  ghost predicate Mentions(fused: seq<Fused>, chunk: Uuid) {
    exists i :: 0 <= i < |fused| && fused[i].candidate.chunk == chunk
  }

  /** A lane's best acceptable candidate, as observed, is still in the lane under the new
      policy and in the fused list. */
  ghost predicate BestIsFused(observed: seq<ScoredCandidate>, acceptable: set<Uuid>, lane: seq<Candidate>, fused: seq<Fused>) {
    exists i: nat :: IsFirstBest(observed, TOP_EVIDENCE_PER_LANE, acceptable, i)
                     && observed[i].candidate in lane && Mentions(fused, observed[i].candidate.chunk)
  }

  /** Under q the default search of a case keeps the best acceptable candidate that was
      observed under p in the keyword or in the vector lane. */
  ghost predicate KeepsBest(case_: Case, p: Policy, q: Policy)
    requires ValidPolicy(q)
  {
    var fused := Surviving(case_.corpus, q, Default);
    || BestIsFused(Observed(case_.corpus.keyword, p.keywordLimit), case_.acceptable, KeywordLane(case_.corpus, q), fused)
    || BestIsFused(Observed(case_.corpus.vector, p.vectorLimit), case_.acceptable, VectorLane(case_.corpus, q), fused)
  }

  lemma LaneIsFused(c: Corpus, p: Policy, candidate: Candidate)
    requires ValidPolicy(p) && (candidate in KeywordLane(c, p) || candidate in VectorLane(c, p))
    ensures Mentions(Surviving(c, p, Default), candidate.chunk)
  {
    var keyword, vector := KeywordLane(c, p), VectorLane(c, p);
    FusionPermutes(keyword, vector, p.weights);
    hide FusedList, LaneRows;
    var list := FusedList(keyword, vector, p.weights);
    assert candidate.chunk in Chunks(keyword) + Chunks(vector);
    assert candidate.chunk in (set i | 0 <= i < |list| :: list[i].candidate.chunk);
  }

  /** A known case that beats the unknown maxima keeps its best acceptable candidate in
      some lane, and so in the fused list. */
  lemma KnownKeepsBest(p: Policy, unknown: Corpus, known: Case)
    requires ValidPolicy(p) && ValidPolicy(Calibrated(p, unknown)) && ValidCorpus(known.corpus)
    requires Beats(KnownOf(known, p), MaxScore(Observed(unknown.keyword, p.keywordLimit)), MaxScore(Observed(unknown.vector, p.vectorLimit)))
    ensures KeepsBest(known, p, Calibrated(p, unknown))
    ensures Passing(known.corpus.keyword, Calibrated(p, unknown).keywordFloor) != {} || Passing(known.corpus.vector, Calibrated(p, unknown).vectorFloor) != {}
  {
    var q := Calibrated(p, unknown);
    var scores := KnownOf(known, p);
    var keyword := BestAcceptable(Observed(known.corpus.keyword, p.keywordLimit), known.acceptable);
    var vector := BestAcceptable(Observed(known.corpus.vector, p.vectorLimit), known.acceptable);
    BestIsFirst(Observed(known.corpus.keyword, p.keywordLimit), known.acceptable);
    BestIsFirst(Observed(known.corpus.vector, p.vectorLimit), known.acceptable);
    hide MaxScore, BestAcceptable, Mentions, IsFirstBest;
    if keyword.Some? && keyword.value.score >= q.keywordFloor {
      BestSurvives(known.corpus.keyword, known.acceptable, p.keywordLimit, q.keywordFloor);
      InLane(Scored(LaneRows(known.corpus.keyword, q.keywordFloor, p.keywordLimit)), keyword.value);
      LaneIsFused(known.corpus, q, keyword.value.candidate);
      RowPasses(known.corpus.keyword, q.keywordFloor, p.keywordLimit);
    } else {
      BestSurvives(known.corpus.vector, known.acceptable, p.vectorLimit, q.vectorFloor);
      InLane(Scored(LaneRows(known.corpus.vector, q.vectorFloor, p.vectorLimit)), vector.value);
      LaneIsFused(known.corpus, q, vector.value.candidate);
      RowPasses(known.corpus.vector, q.vectorFloor, p.vectorLimit);
    }
  }

  lemma RowPasses(table: map<Uuid, CandidateRow>, floor: Score, limit: nat)
    requires LaneRows(table, floor, limit) != []
    ensures Passing(table, floor) != {}
  {
    LaneDescending(table, floor, limit);
    assert LaneIds(table, floor, limit)[0] in Passing(table, floor);
  }

  // ---------------------------------------------------------------- the calibration run

  ghost predicate AllBeat(cases: seq<Case>, p: Policy, unknown: Corpus) {
    forall i :: 0 <= i < |cases| ==>
      Beats(KnownOf(cases[i], p), MaxScore(Observed(unknown.keyword, p.keywordLimit)), MaxScore(Observed(unknown.vector, p.vectorLimit)))
  }

  /** The floors separate: the unknown query finds nothing at any level or limit, and
      every known case keeps the best acceptable candidate of a lane in its fused list. */
  ghost predicate Separates(cases: seq<Case>, p: Policy, q: Policy, unknown: Corpus)
    requires ValidPolicy(q)
  {
    && (forall level, limit: nat :: 0 < limit ==> EvidenceOf(Surviving(unknown, q, level), limit) == Some([]))
    && forall i :: 0 <= i < |cases| ==> KeepsBest(cases[i], p, q)
  }

  lemma AllBeatSeparates(cases: seq<Case>, p: Policy, unknown: Corpus)
    requires ValidPolicy(p) && ValidPolicy(Calibrated(p, unknown)) && AllBeat(cases, p, unknown)
    requires forall i :: 0 <= i < |cases| ==> ValidCorpus(cases[i].corpus)
    ensures Separates(cases, p, Calibrated(p, unknown), unknown)
  {
    hide EvidenceOf, Surviving, MaxScore, Mentions, KnownOf, ValidPolicy, Beats;
    var q := Calibrated(p, unknown);
    forall level, limit: nat | 0 < limit ensures EvidenceOf(Surviving(unknown, q, level), limit) == Some([]) {
      UnknownFindsNothing(p, unknown, level, limit);
    }
    forall i | 0 <= i < |cases| ensures KeepsBest(cases[i], p, q) {
      KnownKeepsBest(p, unknown, cases[i]);
    }
  }

  /** The rows observed in one lane are valid scored candidates. */
  predicate InRange(table: map<Uuid, CandidateRow>) {
    forall id :: id in table ==> -ONE <= table[id].score <= ONE
  }

  lemma ObservedInRange(table: map<Uuid, CandidateRow>, limit: nat, acceptable: set<Uuid>)
    requires InRange(table)
    ensures ScoreInRange(MaxScore(Observed(table, limit)))
    ensures BestAcceptable(Observed(table, limit), acceptable).Some? ==> ScoreInRange(BestAcceptable(Observed(table, limit), acceptable).value.score)
  {
    LaneDescending(table, 0, limit);
    var lane := Observed(table, limit);
    hide LaneIds;
    assert forall i :: 0 <= i < |lane| ==> 0 <= lane[i].score <= ONE;
    var best := BestAcceptable(lane, acceptable);
    if best.Some? { var i :| 0 <= i < |lane| && lane[i] == best.value; }
  }

  /** The calibration script: observe every case, assess, and offer the two floors.  When
      it offers them they separate the unknown query from every known case; it withholds
      them exactly when some case does not beat the unknown maxima, or a maximum is 1.0. */
  method Calibrate(cases: seq<Case>, unknown: Corpus, p: Policy, value: Score -> real)
    returns (floors: Option<(Score, Score)>)
    requires ValidPolicy(p) && Monotone(value) && cases != []
    requires InRange(unknown.keyword) && InRange(unknown.vector)
    requires forall i :: 0 <= i < |cases| ==> ValidCorpus(cases[i].corpus) && InRange(cases[i].corpus.keyword) && InRange(cases[i].corpus.vector)
    ensures floors.Some? <==> AllBeat(cases, p, unknown) && ValidPolicy(Calibrated(p, unknown))
    ensures floors.Some? ==> floors.value == (Calibrated(p, unknown).keywordFloor, Calibrated(p, unknown).vectorFloor)
    ensures floors.Some? ==> Separates(cases, p, Calibrated(p, unknown), unknown)
  {
    hide MaxScore, BestAcceptable, LaneRows, Separates, Beats, Monotone, InRange;
    var known: seq<KnownScores> := [];
    for i := 0 to |cases|
      invariant |known| == i && forall j :: 0 <= j < i ==> known[j] == KnownOf(cases[j], p) && ValidKnown(known[j])
    {
      ObservedInRange(cases[i].corpus.keyword, p.keywordLimit, cases[i].acceptable);
      ObservedInRange(cases[i].corpus.vector, p.vectorLimit, cases[i].acceptable);
      known := known + [KnownOf(cases[i], p)];
    }
    ObservedInRange(unknown.keyword, p.keywordLimit, {});
    ObservedInRange(unknown.vector, p.vectorLimit, {});
    var keywordMax, vectorMax := MaxScore(Observed(unknown.keyword, p.keywordLimit)), MaxScore(Observed(unknown.vector, p.vectorLimit));
    var assessment := AssessCalibration(known, keywordMax, vectorMax, value);
    assert AllBeat(cases, p, unknown) <==> assessment.value.calibratable by {
      assert forall i :: 0 <= i < |cases| ==> known[i] == KnownOf(cases[i], p);
    }
    if !assessment.value.calibratable { return None; }
    var keywordFloor, vectorFloor := FloorAbove(keywordMax), FloorAbove(vectorMax);
    if keywordFloor.None? || vectorFloor.None? { return None; }
    AllBeatSeparates(cases, p, unknown);
    return Some((keywordFloor.value, vectorFloor.value));
  }

  /** Floors above the unknown maxima exclude every visible acceptable row of a case that
      does not beat them, so no such floors could have kept it. */
  lemma BlockedCaseLosesBest(p: Policy, unknown: Corpus, known: Case, keywordFloor: Score, vectorFloor: Score, item: ScoredCandidate)
    requires !Beats(KnownOf(known, p), MaxScore(Observed(unknown.keyword, p.keywordLimit)), MaxScore(Observed(unknown.vector, p.vectorLimit)))
    requires keywordFloor > MaxScore(Observed(unknown.keyword, p.keywordLimit)) && vectorFloor > MaxScore(Observed(unknown.vector, p.vectorLimit))
    requires item.candidate.chunk in known.acceptable
    ensures item in Take(Observed(known.corpus.keyword, p.keywordLimit), TOP_EVIDENCE_PER_LANE) ==> item.score < keywordFloor
    ensures item in Take(Observed(known.corpus.vector, p.vectorLimit), TOP_EVIDENCE_PER_LANE) ==> item.score < vectorFloor
  {
    hide MaxScore, Observed;
    var a := Take(Observed(known.corpus.keyword, p.keywordLimit), TOP_EVIDENCE_PER_LANE);
    var b := Take(Observed(known.corpus.vector, p.vectorLimit), TOP_EVIDENCE_PER_LANE);
    if item in a { var i :| 0 <= i < |a| && a[i] == item; }
    if item in b { var i :| 0 <= i < |b| && b[i] == item; }
  }

  /** Searching the unknown query under the calibrated policy: whenever the input is in
      range and the service is available, the outcome is no evidence. */
  method SearchUnknown(p: Policy, unknown: Corpus, resolved: Option<ActiveIndex>, query: string, embedded: bool,
                       limit: int, maxLimit: int, level: Level)
    returns (outcome: SearchOutcome)
    requires ValidPolicy(p) && ValidPolicy(Calibrated(p, unknown)) && ValidCorpus(unknown)
    ensures !Blank(query) && 1 <= limit <= maxLimit && embedded && resolved.Some? && resolved == unknown.active ==>
              outcome == Found(NoEvidence, resolved.value, [])
    ensures outcome.Found? ==> outcome.status == NoEvidence && outcome.items == []
  {
    hide LaneRows, MaxScore, EvidenceOf, Surviving, Blank;
    var q := Calibrated(p, unknown);
    EmptyIsCoherent(p, unknown);
    if 1 <= limit { UnknownFindsNothing(p, unknown, level, limit); }
    outcome := SearchQuery(unknown, resolved, q, query, embedded, limit, maxLimit, level);
  }

  /** Empty lanes can always be read and agree. */
  lemma EmptyIsCoherent(p: Policy, unknown: Corpus)
    ensures Coherent(unknown, Calibrated(p, unknown)) <==> unknown.active.Some?
  {
    AboveMaximumIsEmpty(unknown.keyword, p.keywordLimit);
    AboveMaximumIsEmpty(unknown.vector, p.vectorLimit);
    hide LaneRows, MaxScore;
    var q := Calibrated(p, unknown);
    assert KeywordLane(unknown, q) + VectorLane(unknown, q) == [];
  }
}
