/** group_evidence: children grouped by parent, parents ranked by their first child. */
module Evidence {
  import opened Basics
  import opened Ordering
  import opened Lanes
  import opened Fusion

  datatype EvidenceMatch = EvidenceMatch(
    excerpt: string, lineStart: int, lineEnd: int, keywordRank: Option<nat>, vectorRank: Option<nat>, score: real)

  datatype EvidenceItem = EvidenceItem(
    rank: nat, parent: Uuid, headingPath: seq<string>, score: real, matches: seq<EvidenceMatch>, origins: set<Origin>)

  // ---------------------------------------------------------------- sorted

  /** key=(-score, chunk_id.int); equal keys keep their order. */
  function Insert(item: Fused, sorted: seq<Fused>): seq<Fused> {
    if sorted == [] || FusedBefore(item, sorted[0]) then [item] + sorted
    else [sorted[0]] + Insert(item, sorted[1..])
  }

  function SortFused(items: seq<Fused>): (sorted: seq<Fused>)
    ensures |sorted| == |items|
  {
    if items == [] then []
    else
      var last := |items| - 1;
      InsertLength(items[last], SortFused(items[..last]));
      Insert(items[last], SortFused(items[..last]))
  }

  lemma {:induction false} InsertLength(item: Fused, sorted: seq<Fused>)
    ensures |Insert(item, sorted)| == |sorted| + 1
  {
    if sorted != [] { InsertLength(item, sorted[1..]); }
  }

  lemma {:induction false} InsertLast(item: Fused, sorted: seq<Fused>)
    requires forall i :: 0 <= i < |sorted| ==> FusedBefore(sorted[i], item)
    ensures Insert(item, sorted) == sorted + [item]
  {
    if sorted != [] {
      InsertLast(item, sorted[1..]);
      assert sorted == [sorted[0]] + sorted[1..];
    }
  }

  /** Sorting what is already in strict order changes nothing. */
  lemma {:induction false} SortRanked(items: seq<Fused>)
    requires Ranked(items)
    ensures SortFused(items) == items
  {
    if items != [] {
      var last := |items| - 1;
      SortRanked(items[..last]);
      InsertLast(items[last], items[..last]);
      assert items == items[..last] + [items[last]];
    }
  }

  // ---------------------------------------------------------------- specification

  /** The children of one parent, in input order. */
  function Children(fused: seq<Fused>, parent: Uuid): (children: seq<Fused>)
    ensures forall i :: 0 <= i < |children| ==> children[i].candidate.parent == parent && children[i] in fused
    ensures children == [] ==> forall i :: 0 <= i < |fused| ==> fused[i].candidate.parent != parent
  {
    if fused == [] then []
    else
      var last := |fused| - 1;
      assert fused == fused[..last] + [fused[last]];
      Children(fused[..last], parent) + if fused[last].candidate.parent == parent then [fused[last]] else []
  }

  function Parents(fused: seq<Fused>): (parents: set<Uuid>)
    ensures forall p :: p in parents ==> Children(fused, p) != []
  {
    set item | item in fused :: item.candidate.parent
  }

  /** key=(-items[0].score, parent_id.int) */
  function ParentKeys(fused: seq<Fused>): map<Uuid, Key> {
    map p | p in Parents(fused) :: Key(-Children(fused, p)[0].score, 0, 0)
  }

  function ParentOrder(fused: seq<Fused>): (order: seq<Uuid>)
    ensures forall i :: 0 <= i < |order| ==> order[i] in Parents(fused)
  {
    OrderByLists(ParentKeys(fused));
    OrderBy(ParentKeys(fused))
  }

  function MatchOf(item: Fused): EvidenceMatch {
    EvidenceMatch(item.candidate.excerpt, item.candidate.lineStart, item.candidate.lineEnd, item.keywordRank, item.vectorRank, item.score)
  }

  function MatchesOf(items: seq<Fused>): (matches: seq<EvidenceMatch>)
    ensures |matches| == |items| && forall i :: 0 <= i < |matches| ==> matches[i] == MatchOf(items[i])
  {
    seq(|items|, i requires 0 <= i < |items| => MatchOf(items[i]))
  }

  function OriginsOf(items: seq<Fused>): set<Origin> {
    set item, o | item in items && o in item.candidate.origins :: o
  }

  predicate HeadingsAgree(items: seq<Fused>) {
    forall i :: 0 <= i < |items| ==> items[i].candidate.headingPath == items[0].candidate.headingPath
  }

  function ItemOf(children: seq<Fused>, parent: Uuid, rank: nat): EvidenceItem
    requires children != []
  {
    var sorted := SortFused(children);
    EvidenceItem(rank, parent, sorted[0].candidate.headingPath, sorted[0].score, MatchesOf(sorted), OriginsOf(sorted))
  }

  /** The items of the leading parents, if each parent's children share a heading path. */
  function Grouped(fused: seq<Fused>, parents: seq<Uuid>): Option<seq<EvidenceItem>>
    requires forall i :: 0 <= i < |parents| ==> parents[i] in Parents(fused)
  {
    if forall i :: 0 <= i < |parents| ==> HeadingsAgree(SortFused(Children(fused, parents[i])))
    then Some(seq(|parents|, i requires 0 <= i < |parents| => assert parents[i] in Parents(fused); ItemOf(Children(fused, parents[i]), parents[i], i + 1)))
    else None
  }

  function EvidenceOf(fused: seq<Fused>, limit: nat): Option<seq<EvidenceItem>> {
    Grouped(fused, Take(ParentOrder(fused), limit))
  }

  // ---------------------------------------------------------------- the loops

  /** groups.setdefault(parent, []).append(item) */
  method CollectGroups(fused: seq<Fused>) returns (groups: map<Uuid, seq<Fused>>)
    ensures groups.Keys == Parents(fused)
    ensures forall p :: p in groups ==> groups[p] == Children(fused, p)
  {
    groups := map[];
    for i := 0 to |fused|
      invariant forall p :: p in groups <==> Children(fused[..i], p) != []
      invariant forall p :: p in groups ==> groups[p] == Children(fused[..i], p)
    {
      var item := fused[i];
      var parent := item.candidate.parent;
      assert fused[..i + 1][..i] == fused[..i];
      groups := groups[parent := (if parent in groups then groups[parent] else []) + [item]];
    }
    assert fused[..|fused|] == fused;
    forall p ensures p in groups <==> p in Parents(fused) {
      if p in groups {
        assert Children(fused, p)[0] in fused;
      }
    }
  }

  /** group_evidence; None is a refused limit or inconsistent headings. */
  method GroupEvidence(fused: seq<Fused>, limit: int) returns (evidence: Option<seq<EvidenceItem>>)
    ensures evidence == if limit <= 0 then None else EvidenceOf(fused, limit)
    ensures evidence.Some? && Ranked(fused) ==> AllShown(fused, evidence.value)
  {
    hide OrderBy, SortFused, Children, Parents, Ranked, AllShown;
    if limit <= 0 { return None; }
    var groups: map<Uuid, seq<Fused>> := CollectGroups(fused);
    var keys := map p | p in groups :: Key(-groups[p][0].score, 0, 0);
    assert keys == ParentKeys(fused);
    var ordered := Take(OrderBy(keys), limit);
    assert ordered == Take(ParentOrder(fused), limit);
    var items: seq<EvidenceItem> := [];
    for i := 0 to |ordered|
      invariant |items| == i
      invariant forall j :: 0 <= j < i ==> HeadingsAgree(SortFused(Children(fused, ordered[j])))
      invariant forall j :: 0 <= j < i ==> Children(fused, ordered[j]) != [] && items[j] == ItemOf(Children(fused, ordered[j]), ordered[j], j + 1)
    {
      var parent := ordered[i];
      assert parent in Parents(fused);
      var matches := SortFused(groups[parent]);
      if !HeadingsAgree(matches) { return None; }
      items := items + [EvidenceItem(i + 1, parent, matches[0].candidate.headingPath, matches[0].score, MatchesOf(matches), OriginsOf(matches))];
    }
    assert items == Grouped(fused, ordered).value;
    if Ranked(fused) { EvidenceShown(fused, limit); }
    return Some(items);
  }

  // ---------------------------------------------------------------- laws

  /** `score` is the maximum among the children of a parent. */
  ghost predicate IsBest(fused: seq<Fused>, parent: Uuid, score: real) {
    && (forall i :: 0 <= i < |fused| && fused[i].candidate.parent == parent ==> fused[i].score <= score)
    && (exists i :: 0 <= i < |fused| && fused[i].candidate.parent == parent && fused[i].score == score)
  }

  /** The order among parents: by best child, then by id. */
  predicate ParentBefore(a: real, p: Uuid, b: real, q: Uuid) {
    a > b || (a == b && p.number < q.number)
  }

  lemma {:induction false} ChildrenRanked(fused: seq<Fused>, parent: Uuid)
    requires Ranked(fused)
    ensures Ranked(Children(fused, parent))
    ensures forall i :: 0 <= i < |fused| && fused[i].candidate.parent == parent ==> fused[i] in Children(fused, parent)
  {
    if fused != [] {
      var last := |fused| - 1;
      ChildrenRanked(fused[..last], parent);
      var head := Children(fused[..last], parent);
      forall i | 0 <= i < |head| ensures FusedBefore(head[i], fused[last]) {
        assert head[i] in fused[..last];
        var j :| 0 <= j < last && fused[j] == head[i];
      }
      forall i | 0 <= i < |fused| && fused[i].candidate.parent == parent ensures fused[i] in Children(fused, parent) {
        assert i < last ==> fused[i] == fused[..last][i];
      }
    }
  }

  /** In a ranked list the first child of a parent is its best. */
  lemma FirstIsBest(fused: seq<Fused>, parent: Uuid)
    requires Ranked(fused) && parent in Parents(fused)
    ensures IsBest(fused, parent, Children(fused, parent)[0].score)
    ensures SortFused(Children(fused, parent)) == Children(fused, parent)
  {
    ChildrenRanked(fused, parent);
    var children := Children(fused, parent);
    SortRanked(children);
    hide SortFused, Children;
    forall i | 0 <= i < |fused| && fused[i].candidate.parent == parent ensures fused[i].score <= children[0].score {
      var j :| 0 <= j < |children| && children[j] == fused[i];
      assert j > 0 ==> FusedBefore(children[0], children[j]);
    }
    assert children[0] in fused;
  }

  lemma ParentsListed(fused: seq<Fused>)
    ensures var order := ParentOrder(fused);
            && Distinct(order) && |order| == |Parents(fused)|
            && (forall p :: p in order <==> p in Parents(fused))
            && forall i, j :: 0 <= i < j < |order| ==>
                 ParentBefore(Children(fused, order[i])[0].score, order[i], Children(fused, order[j])[0].score, order[j])
  {
    hide Children, Parents;
    var keys := ParentKeys(fused);
    OrderByLists(keys);
    ListsDistinct(OrderBy(keys), keys);
    hide OrderBy;
    var order := ParentOrder(fused);
    assert keys.Keys == Parents(fused) && |keys| == |keys.Keys|;
    forall i, j | 0 <= i < j < |order|
      ensures ParentBefore(Children(fused, order[i])[0].score, order[i], Children(fused, order[j])[0].score, order[j])
    {
      assert Before(keys[order[i]], order[i], keys[order[j]], order[j]);
    }
  }

  /** The children are exactly the list's items of that parent, in the list's order. */
  lemma {:induction false} ChildrenExact(fused: seq<Fused>, parent: Uuid)
    requires Ranked(fused)
    ensures Ranked(Children(fused, parent))
    ensures forall f :: f in Children(fused, parent) <==> f in fused && f.candidate.parent == parent
  {
    ChildrenRanked(fused, parent);
    hide Children, Ranked;
    forall f | f in fused && f.candidate.parent == parent ensures f in Children(fused, parent) {
      var i :| 0 <= i < |fused| && fused[i] == f;
    }
    forall f | f in Children(fused, parent) ensures f in fused && f.candidate.parent == parent {
      var i :| 0 <= i < |Children(fused, parent)| && Children(fused, parent)[i] == f;
    }
  }

  /** The item shows these children, one match each, field by field; their common heading
      path and all their origins. */
  ghost predicate Shows(item: EvidenceItem, children: seq<Fused>) {
    && |item.matches| == |children|
    && (forall j :: 0 <= j < |children| ==>
          && item.matches[j].excerpt == children[j].candidate.excerpt
          && item.matches[j].lineStart == children[j].candidate.lineStart
          && item.matches[j].lineEnd == children[j].candidate.lineEnd
          && item.matches[j].keywordRank == children[j].keywordRank
          && item.matches[j].vectorRank == children[j].vectorRank
          && item.matches[j].score == children[j].score
          && item.headingPath == children[j].candidate.headingPath)
    && (forall o :: o in item.origins ==> exists j :: 0 <= j < |children| && o in children[j].candidate.origins)
    && (forall j, o :: 0 <= j < |children| && o in children[j].candidate.origins ==> o in item.origins)
  }

  /** Every item shows exactly the list's items of its parent, best first. */
  ghost predicate AllShown(fused: seq<Fused>, items: seq<EvidenceItem>) {
    forall i :: 0 <= i < |items| ==>
      var children := Children(fused, items[i].parent);
      && children != [] && items[i].rank == i + 1 && Shows(items[i], children) && Ranked(children)
      && items[i].score == children[0].score
      && forall f :: f in children <==> f in fused && f.candidate.parent == items[i].parent
  }

  lemma ItemShows(children: seq<Fused>, parent: Uuid, rank: nat)
    requires children != [] && Ranked(children) && HeadingsAgree(SortFused(children))
    ensures Shows(ItemOf(children, parent, rank), children)
  {
    SortRanked(children);
    hide SortFused;
    var item := ItemOf(children, parent, rank);
    forall o | o in item.origins ensures exists j :: 0 <= j < |children| && o in children[j].candidate.origins {
      var f :| f in children && o in f.candidate.origins;
      var j :| 0 <= j < |children| && children[j] == f;
    }
  }

  lemma EvidenceShown(fused: seq<Fused>, limit: nat)
    requires Ranked(fused) && EvidenceOf(fused, limit).Some?
    ensures AllShown(fused, EvidenceOf(fused, limit).value)
  {
    hide Children, Parents, SortFused, ParentOrder, IsBest, MatchesOf, OriginsOf, Ranked, Shows, HeadingsAgree;
    ItemsAreBest(fused, limit);
    var items := EvidenceOf(fused, limit).value;
    forall i | 0 <= i < |items| ensures Shows(items[i], Children(fused, items[i].parent)) {
      ChildrenExact(fused, items[i].parent);
      ItemShows(Children(fused, items[i].parent), items[i].parent, i + 1);
    }
    forall i | 0 <= i < |items|
      ensures Ranked(Children(fused, items[i].parent))
      ensures forall f :: f in Children(fused, items[i].parent) <==> f in fused && f.candidate.parent == items[i].parent
    {
      ChildrenExact(fused, items[i].parent);
    }
  }

  /** Each item of a ranked list carries its parent's maximum score. */
  lemma ItemsAreBest(fused: seq<Fused>, limit: nat)
    requires Ranked(fused) && EvidenceOf(fused, limit).Some?
    ensures var items := EvidenceOf(fused, limit).value;
            forall i :: 0 <= i < |items| ==>
              && items[i].rank == i + 1 && items[i].parent in Parents(fused)
              && items[i].parent == Take(ParentOrder(fused), limit)[i]
              && items[i].score == Children(fused, items[i].parent)[0].score
              && IsBest(fused, items[i].parent, items[i].score)
              && items[i].matches == MatchesOf(Children(fused, items[i].parent))
  {
    hide Children, Parents, SortFused, ParentOrder, IsBest, MatchesOf;
    var items := EvidenceOf(fused, limit).value;
    forall i | 0 <= i < |items|
      ensures items[i].rank == i + 1 && items[i].parent in Parents(fused)
      ensures items[i].parent == Take(ParentOrder(fused), limit)[i]
      ensures items[i].score == Children(fused, items[i].parent)[0].score
      ensures IsBest(fused, items[i].parent, items[i].score) && items[i].matches == MatchesOf(Children(fused, items[i].parent))
    {
      FirstIsBest(fused, Take(ParentOrder(fused), limit)[i]);
    }
  }

  lemma ItemsFollowOrder(fused: seq<Fused>, limit: nat)
    requires Ranked(fused) && EvidenceOf(fused, limit).Some?
    ensures var items, order := EvidenceOf(fused, limit).value, ParentOrder(fused);
            && |items| == (if limit <= |order| then limit else |order|)
            && forall i :: 0 <= i < |items| ==> items[i].parent == order[i] && items[i].score == Children(fused, order[i])[0].score
  {
    ItemsAreBest(fused, limit);
    hide Children, Parents, SortFused, ParentOrder, IsBest, MatchesOf, Ranked, HeadingsAgree;
  }

  /** Grouping a ranked list returns distinct parents by (best child, id), as many as the
      limit allows. */
  lemma GroupingRanksParents(fused: seq<Fused>, limit: nat)
    requires Ranked(fused) && EvidenceOf(fused, limit).Some?
    ensures var items := EvidenceOf(fused, limit).value;
            && |items| == (if limit <= |Parents(fused)| then limit else |Parents(fused)|)
            && (forall i, j :: 0 <= i < j < |items| ==>
                  ParentBefore(items[i].score, items[i].parent, items[j].score, items[j].parent) && items[i].parent != items[j].parent)
  {
    hide Children, Parents, SortFused, ParentOrder, Ranked, EvidenceOf;
    ParentsListed(fused);
    ItemsFollowOrder(fused, limit);
  }

  /** No parent left out would come before one returned. */
  lemma NoBetterParentLeftOut(fused: seq<Fused>, limit: nat, i: nat, p: Uuid)
    requires Ranked(fused) && EvidenceOf(fused, limit).Some? && i < |EvidenceOf(fused, limit).value| && p in Parents(fused)
    requires forall j :: 0 <= j < |EvidenceOf(fused, limit).value| ==> EvidenceOf(fused, limit).value[j].parent != p
    ensures var item := EvidenceOf(fused, limit).value[i];
            forall k :: 0 <= k < |fused| && fused[k].candidate.parent == p ==> ParentBefore(item.score, item.parent, fused[k].score, p)
  {
    hide Children, Parents, SortFused, ParentOrder, Ranked, EvidenceOf;
    ParentsListed(fused);
    ItemsFollowOrder(fused, limit);
    FirstIsBest(fused, p);
    var order := ParentOrder(fused);
    var at :| 0 <= at < |order| && order[at] == p;
  }

  /** The result for a smaller limit is a prefix of any successful larger one. */
  lemma SmallerLimitIsPrefix(fused: seq<Fused>, small: nat, large: nat)
    requires small <= large && EvidenceOf(fused, large).Some?
    ensures EvidenceOf(fused, small) == Some(Take(EvidenceOf(fused, large).value, small))
  {
    hide Children, Parents, SortFused, ParentOrder, HeadingsAgree;
    var few, many := Take(ParentOrder(fused), small), Take(ParentOrder(fused), large);
    assert forall i :: 0 <= i < |few| ==> few[i] == many[i];
    assert EvidenceOf(fused, small).Some?;
    assert EvidenceOf(fused, small).value == Take(EvidenceOf(fused, large).value, small);
  }
}
