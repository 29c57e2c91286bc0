/** Query answers ordered by a leading key, and their regrouping by that key. */
module Grouping {
  import opened Basics

  datatype Tagged<T> = Tagged(tag: Uuid, value: T)

  function Tag<T>(tag: Uuid, values: seq<T>): (rows: seq<Tagged<T>>)
    ensures |rows| == |values| && forall i :: 0 <= i < |rows| ==> rows[i] == Tagged(tag, values[i])
  {
    seq(|values|, i requires 0 <= i < |values| => Tagged(tag, values[i]))
  }

  /** The rows of each tag in turn. */
  function Flatten<T>(tags: seq<Uuid>, parts: map<Uuid, seq<T>>): seq<Tagged<T>>
    requires forall i :: 0 <= i < |tags| ==> tags[i] in parts
  {
    if tags == [] then []
    else
      var last := |tags| - 1;
      Flatten(tags[..last], parts) + Tag(tags[last], parts[tags[last]])
  }

  /** The values carrying a tag, in row order. */
  function Group<T>(rows: seq<Tagged<T>>, tag: Uuid): seq<T> {
    if rows == [] then []
    else
      var last := |rows| - 1;
      Group(rows[..last], tag) + if rows[last].tag == tag then [rows[last].value] else []
  }

  lemma {:induction false} GroupTagged<T>(rows: seq<Tagged<T>>, owner: Uuid, values: seq<T>, tag: Uuid)
    ensures Group(rows + Tag(owner, values), tag) == Group(rows, tag) + if owner == tag then values else []
  {
    var all := rows + Tag(owner, values);
    if values == [] {
      assert all == rows;
    } else {
      var last := |values| - 1;
      GroupTagged(rows, owner, values[..last], tag);
      assert all[..|all| - 1] == rows + Tag(owner, values[..last]);
      assert all[|all| - 1] == Tagged(owner, values[last]);
      assert values == values[..last] + [values[last]];
    }
  }

  /** Regrouping recovers each tag's rows, in order. */
  lemma {:induction false} GroupFlatten<T>(tags: seq<Uuid>, parts: map<Uuid, seq<T>>, tag: Uuid)
    requires Distinct(tags) && forall i :: 0 <= i < |tags| ==> tags[i] in parts
    ensures Group(Flatten(tags, parts), tag) == if tag in tags then parts[tag] else []
  {
    if tags != [] {
      var last := |tags| - 1;
      GroupFlatten(tags[..last], parts, tag);
      GroupTagged(Flatten(tags[..last], parts), tags[last], parts[tags[last]], tag);
      assert tags == tags[..last] + [tags[last]];
      assert tags[last] !in tags[..last];
    }
  }

  /** A tag occurs exactly when it was listed with some row. */
  lemma {:induction false} GroupNonempty<T>(rows: seq<Tagged<T>>, tag: Uuid)
    ensures Group(rows, tag) != [] <==> exists i :: 0 <= i < |rows| && rows[i].tag == tag
  {
    if rows != [] {
      var last := |rows| - 1;
      GroupNonempty(rows[..last], tag);
      if rows[last].tag == tag { assert rows[last].tag == tag; }
      assert forall i :: 0 <= i < last ==> rows[..last][i] == rows[i];
    }
  }

  function Lookup<T>(groups: map<Uuid, seq<T>>, tag: Uuid): seq<T> {
    if tag in groups then groups[tag] else []
  }

  /** The dictionary holds each tag's group. */
  ghost predicate Holds<T>(groups: map<Uuid, seq<T>>, rows: seq<Tagged<T>>) {
    forall tag :: Group(rows, tag) == Lookup(groups, tag)
  }

  lemma HoldsStep<T>(groups: map<Uuid, seq<T>>, rows: seq<Tagged<T>>, row: Tagged<T>)
    requires Holds(groups, rows)
    ensures Holds(groups[row.tag := Lookup(groups, row.tag) + [row.value]], rows + [row])
  {
    var after := groups[row.tag := Lookup(groups, row.tag) + [row.value]];
    forall tag ensures Group(rows + [row], tag) == Lookup(after, tag) {
      GroupAppend(rows, row, tag);
    }
  }

  lemma GroupAppend<T>(rows: seq<Tagged<T>>, row: Tagged<T>, tag: Uuid)
    ensures Group(rows + [row], tag) == Group(rows, tag) + if row.tag == tag then [row.value] else []
  {
    assert (rows + [row])[..|rows|] == rows;
  }

  /** setdefault(tag, []).append(value) over all rows; a tag outside `allowed` is refused. */
  method GroupRows<T>(rows: seq<Tagged<T>>, allowed: set<Uuid>) returns (groups: Option<map<Uuid, seq<T>>>)
    ensures groups.None? <==> exists i :: 0 <= i < |rows| && rows[i].tag !in allowed
    ensures groups.Some? ==> Holds(groups.value, rows)
  {
    hide Holds;
    var found: map<Uuid, seq<T>> := map[];
    NothingGrouped<T>();
    for i := 0 to |rows|
      invariant forall j :: 0 <= j < i ==> rows[j].tag in allowed
      invariant Holds(found, rows[..i])
    {
      var row := rows[i];
      if row.tag !in allowed { return None; }
      assert rows[..i + 1] == rows[..i] + [row];
      HoldsStep(found, rows[..i], row);
      found := found[row.tag := Lookup(found, row.tag) + [row.value]];
    }
    assert rows[..|rows|] == rows;
    return Some(found);
  }

  lemma NothingGrouped<T>()
    ensures Holds<T>(map[], [])
  {
  }
}
