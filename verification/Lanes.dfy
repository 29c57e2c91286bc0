/** The two candidate lanes: SQL floor, order and limit, and the rows read back. */
module Lanes {
  import opened Basics
  import opened Text
  import opened Ordering
  import opened IndexRepository

  /** A finite similarity as its position on the ascending grid of floating-point
      values: 0 is 0.0, and the next representable value is one position up. */
  type Score = int

  /** The position of 1.0; -ONE is -1.0.  There are 2^62 - 2^52 doubles in (0, 1]. */
  const ONE: Score := 4607182418800017408

  datatype Origin = Origin(sourcePath: string, contentHash: string)

  datatype Candidate = Candidate(
    chunk: Uuid, parent: Uuid, headingPath: seq<string>, excerpt: string, lineStart: int, lineEnd: int, origins: set<Origin>)

  datatype ScoredCandidate = ScoredCandidate(candidate: Candidate, score: Score)

  datatype ActiveIndex = ActiveIndex(run: Uuid, commit: string)

  datatype CandidateRow = CandidateRow(run: Uuid, commit: string, candidate: Candidate, score: Score)

  predicate ValidOrigin(o: Origin) {
    && |o.sourcePath| >= |"design/wiki/"| && o.sourcePath[..|"design/wiki/"|] == "design/wiki/"
    && |o.sourcePath| >= 3 && o.sourcePath[|o.sourcePath| - 3..] == ".md"
    && IsSha256(o.contentHash)
  }

  predicate ValidCandidate(c: Candidate) {
    && (forall i :: 0 <= i < |c.headingPath| ==> !Blank(c.headingPath[i]))
    && c.excerpt != "" && 1 <= c.lineStart <= c.lineEnd
    && c.origins != {} && forall o :: o in c.origins ==> ValidOrigin(o)
  }

  predicate ValidRow(row: CandidateRow) {
    ValidCandidate(row.candidate) && -ONE <= row.score <= ONE
  }

  /** One scored row per authorised chunk. */
  ghost predicate IsTable(table: map<Uuid, CandidateRow>) {
    forall id :: id in table ==> table[id].candidate.chunk == id
  }

  // ---------------------------------------------------------------- the statement

  function Passing(table: map<Uuid, CandidateRow>, floor: Score): set<Uuid> {
    set id | id in table && table[id].score >= floor
  }

  /** raw_score DESC, chunk_id */
  function LaneKeys(table: map<Uuid, CandidateRow>, floor: Score): map<Uuid, Key> {
    map id | id in Passing(table, floor) :: Key((-table[id].score) as real, 0, 0)
  }

  /** WHERE raw_score >= floor ORDER BY raw_score DESC, chunk_id LIMIT limit */
  function LaneIds(table: map<Uuid, CandidateRow>, floor: Score, limit: nat): (ids: seq<Uuid>)
    ensures forall i :: 0 <= i < |ids| ==> ids[i] in table
  {
    OrderByLists(LaneKeys(table, floor));
    Take(OrderBy(LaneKeys(table, floor)), limit)
  }

  function RowsOf(table: map<Uuid, CandidateRow>, ids: seq<Uuid>): (rows: seq<CandidateRow>)
    requires forall i :: 0 <= i < |ids| ==> ids[i] in table
    ensures |rows| == |ids| && forall i :: 0 <= i < |rows| ==> rows[i] == table[ids[i]]
  {
    seq(|ids|, i requires 0 <= i < |ids| => table[ids[i]])
  }

  function LaneRows(table: map<Uuid, CandidateRow>, floor: Score, limit: nat): seq<CandidateRow> {
    RowsOf(table, LaneIds(table, floor, limit))
  }

  // ---------------------------------------------------------------- reading rows

  /** The rows a lane may carry: each of the active generation and each valid. */
  predicate Readable(rows: seq<CandidateRow>, active: ActiveIndex) {
    forall i :: 0 <= i < |rows| ==> rows[i].run == active.run && rows[i].commit == active.commit && ValidRow(rows[i])
  }

  function Scored(rows: seq<CandidateRow>): (scored: seq<ScoredCandidate>)
    ensures |scored| == |rows| && forall i :: 0 <= i < |rows| ==> scored[i] == ScoredCandidate(rows[i].candidate, rows[i].score)
  {
    seq(|rows|, i requires 0 <= i < |rows| => ScoredCandidate(rows[i].candidate, rows[i].score))
  }

  /** _candidate_rows; None is the unavailable error. */
  method CandidateRows(rows: seq<CandidateRow>, active: ActiveIndex) returns (scored: Option<seq<ScoredCandidate>>)
    ensures scored == if Readable(rows, active) then Some(Scored(rows)) else None
    ensures scored.Some? <==> forall i :: 0 <= i < |rows| ==>
              && rows[i].run == active.run && rows[i].commit == active.commit && -ONE <= rows[i].score <= ONE
              && (forall j :: 0 <= j < |rows[i].candidate.headingPath| ==> !Blank(rows[i].candidate.headingPath[j]))
              && rows[i].candidate.excerpt != "" && 1 <= rows[i].candidate.lineStart <= rows[i].candidate.lineEnd
              && rows[i].candidate.origins != {} && forall o :: o in rows[i].candidate.origins ==> ValidOrigin(o)
  {
    hide ValidOrigin, Blank;
    var found: seq<ScoredCandidate> := [];
    for i := 0 to |rows|
      invariant Readable(rows[..i], active) && found == Scored(rows[..i])
    {
      var row := rows[i];
      assert rows[..i + 1] == rows[..i] + [row];
      if row.run != active.run || row.commit != active.commit || !ValidRow(row) { return None; }
      found := found + [ScoredCandidate(row.candidate, row.score)];
    }
    assert rows[..|rows|] == rows;
    return Some(found);
  }

  /** retain_at_or_above: the inclusive floor, lane order kept. */
  function Retain(lane: seq<ScoredCandidate>, floor: Score): (kept: seq<ScoredCandidate>)
    ensures forall i :: 0 <= i < |kept| ==> kept[i] in lane && kept[i].score >= floor
  {
    if lane == [] then []
    else Retain(lane[..|lane| - 1], floor) + if lane[|lane| - 1].score >= floor then [lane[|lane| - 1]] else []
  }

  // ---------------------------------------------------------------- floors and limits commute

  /** A lane is sorted by descending score, as long as the limit allows, and nothing left
      out scores higher than anything in it. */
  lemma LaneDescending(table: map<Uuid, CandidateRow>, floor: Score, limit: nat)
    ensures var ids := LaneIds(table, floor, limit);
            && Distinct(ids) && |ids| == (if limit <= |Passing(table, floor)| then limit else |Passing(table, floor)|)
            && (forall i :: 0 <= i < |ids| ==> table[ids[i]].score >= floor)
            && (forall i, j :: 0 <= i < j < |ids| ==> table[ids[i]].score >= table[ids[j]].score)
            && (forall id, i :: id in Passing(table, floor) && id !in ids && 0 <= i < |ids| ==> table[id].score <= table[ids[i]].score)
  {
    hide OrderBy;
    var keys := LaneKeys(table, floor);
    OrderByLists(keys);
    ListsDistinct(OrderBy(keys), keys);
    assert keys.Keys == Passing(table, floor) && |keys| == |keys.Keys|;
    var order, ids := OrderBy(keys), LaneIds(table, floor, limit);
    assert forall i :: 0 <= i < |ids| ==> ids[i] == order[i];
    forall id, i | id in Passing(table, floor) && id !in ids && 0 <= i < |ids| ensures table[id].score <= table[ids[i]].score {
      LeftOut(table, floor, limit, id, i);
    }
    forall i, j | 0 <= i < j < |ids| ensures table[ids[i]].score >= table[ids[j]].score {
      assert Before(keys[ids[i]], ids[i], keys[ids[j]], ids[j]);
    }
  }

  lemma LeftOut(table: map<Uuid, CandidateRow>, floor: Score, limit: nat, id: Uuid, i: nat)
    requires id in Passing(table, floor) && id !in LaneIds(table, floor, limit) && i < |LaneIds(table, floor, limit)|
    ensures table[id].score <= table[LaneIds(table, floor, limit)[i]].score
  {
    hide OrderBy;
    var keys := LaneKeys(table, floor);
    OrderByLists(keys);
    var order, ids := OrderBy(keys), LaneIds(table, floor, limit);
    assert id in keys;
    var j :| 0 <= j < |order| && order[j] == id;
    assert forall k :: 0 <= k < |ids| ==> ids[k] == order[k] && order[k] in ids;
    assert Before(keys[order[i]], order[i], keys[order[j]], order[j]);
  }

  /** Everything at or above the higher floor comes first in the lower-floor order. */
  lemma HigherFirst(table: map<Uuid, CandidateRow>, low: Score, high: Score)
    requires low <= high
    ensures |OrderBy(LaneKeys(table, high))| <= |OrderBy(LaneKeys(table, low))|
    ensures OrderBy(LaneKeys(table, low))[..|OrderBy(LaneKeys(table, high))|] == OrderBy(LaneKeys(table, high))
    ensures forall i :: |OrderBy(LaneKeys(table, high))| <= i < |OrderBy(LaneKeys(table, low))| ==>
              OrderBy(LaneKeys(table, low))[i] in table && table[OrderBy(LaneKeys(table, low))[i]].score < high
  {
    var wide, narrow := LaneKeys(table, low), LaneKeys(table, high);
    var order := OrderBy(wide);
    OrderByLists(wide);
    hide OrderBy;
    var n := SplitPoint(table, order, wide, high);
    var prefix := order[..n];
    assert Lists(prefix, narrow) by {
      forall id | id in narrow ensures id in prefix {
        assert id in wide;
        var i :| 0 <= i < |order| && order[i] == id;
        assert prefix[i] == id;
      }
    }
    OrderUnique(prefix, narrow);
  }

  /** A descending order splits at the first score below a floor. */
  lemma {:induction false} SplitPoint(table: map<Uuid, CandidateRow>, order: seq<Uuid>, keys: map<Uuid, Key>, high: Score) returns (n: nat)
    requires forall id :: id in keys ==> id in table && keys[id] == Key((-table[id].score) as real, 0, 0)
    requires Ascending(order, keys)
    ensures n <= |order|
    ensures forall i :: 0 <= i < |order| ==> order[i] in table && (table[order[i]].score >= high <==> i < n)
  {
    n := 0;
    while n < |order| && table[order[n]].score >= high
      invariant n <= |order| && forall i :: 0 <= i < n ==> table[order[i]].score >= high
    {
      n := n + 1;
    }
    forall i | n <= i < |order| ensures table[order[i]].score < high {
      if i > n { assert Before(keys[order[n]], order[n], keys[order[i]], order[i]); }
    }
  }

  lemma {:induction false} RetainPrefix(lane: seq<ScoredCandidate>, floor: Score, n: nat)
    requires n <= |lane|
    requires forall i :: 0 <= i < |lane| ==> (lane[i].score >= floor <==> i < n)
    ensures Retain(lane, floor) == lane[..n]
  {
    if lane != [] {
      var last := |lane| - 1;
      RetainPrefix(lane[..last], floor, if n <= last then n else last);
      if n == |lane| { assert lane == lane[..last] + [lane[last]]; }
    }
  }

  /** The ids of the higher-floor lane are the leading ids of the lower-floor lane, and the
      rest of that lane is below the higher floor. */
  lemma LanePrefix(table: map<Uuid, CandidateRow>, low: Score, high: Score, limit: nat) returns (n: nat)
    requires low <= high
    ensures n <= |LaneIds(table, low, limit)| && LaneIds(table, high, limit) == LaneIds(table, low, limit)[..n]
    ensures forall i :: 0 <= i < |LaneIds(table, low, limit)| ==> (table[LaneIds(table, low, limit)[i]].score >= high <==> i < n)
  {
    HigherFirst(table, low, high);
    LaneDescending(table, high, limit);
    hide OrderBy, LaneKeys;
    var wide, narrow := OrderBy(LaneKeys(table, low)), OrderBy(LaneKeys(table, high));
    n := if |narrow| <= limit then |narrow| else limit;
    var top, ids := LaneIds(table, low, limit), LaneIds(table, high, limit);
    assert ids == top[..n];
    forall i | 0 <= i < |top| ensures table[top[i]].score >= high <==> i < n {
      assert top[i] == wide[i];
      if i < n { assert ids[i] == top[i]; }
    }
  }

  /** Applying a higher floor to the top-N of a lane is the top-N of the higher-floor lane. */
  lemma TopThenFloor(table: map<Uuid, CandidateRow>, low: Score, high: Score, limit: nat)
    requires low <= high
    ensures Retain(Scored(LaneRows(table, low, limit)), high) == Scored(LaneRows(table, high, limit))
  {
    hide LaneIds, Retain;
    var n := LanePrefix(table, low, high, limit);
    var lane := Scored(LaneRows(table, low, limit));
    RetainPrefix(lane, high, n);
    assert Scored(LaneRows(table, high, limit)) == lane[..n];
  }
}
