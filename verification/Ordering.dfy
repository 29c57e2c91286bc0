/** ORDER BY and `sorted` over identified rows.  A sort key has up to three
    components; the row identity breaks the remaining ties, so the order is total. */
module Ordering {
  import opened Basics

  datatype Key = Key(major: real, middle: int, minor: int)

  predicate Before(a: Key, i: Uuid, b: Key, j: Uuid) {
    || a.major < b.major
    || (a.major == b.major &&
        (|| a.middle < b.middle
         || (a.middle == b.middle && (a.minor < b.minor || (a.minor == b.minor && i.number < j.number)))))
  }

  predicate IsFirst(keys: map<Uuid, Key>, m: Uuid) {
    m in keys && forall i :: i in keys && i != m ==> Before(keys[m], m, keys[i], i)
  }

  /** `order` enumerates exactly the keyed rows, each once, in strict order. */
  ghost predicate Lists(order: seq<Uuid>, keys: map<Uuid, Key>) {
    && (forall i :: 0 <= i < |order| ==> order[i] in keys)
    && (forall id :: id in keys ==> id in order)
    && (forall i, j :: 0 <= i < j < |order| ==> Before(keys[order[i]], order[i], keys[order[j]], order[j]))
  }

  lemma {:induction false} FirstExists(keys: map<Uuid, Key>)
    requires keys != map[]
    ensures exists m :: IsFirst(keys, m)
    decreases |keys|
  {
    var x :| x in keys;
    var rest := keys - {x};
    assert keys.Keys == rest.Keys + {x};
    if rest == map[] {
      assert IsFirst(keys, x);
    } else {
      FirstExists(rest);
      var m :| IsFirst(rest, m);
      if Before(keys[x], x, keys[m], m) {
        forall i | i in keys && i != x ensures Before(keys[x], x, keys[i], i) {
          assert i in rest;
        }
        assert IsFirst(keys, x);
      } else {
        forall i | i in keys && i != m ensures Before(keys[m], m, keys[i], i) {
          assert i == x || i in rest;
        }
        assert IsFirst(keys, m);
      }
    }
  }

  function First(keys: map<Uuid, Key>): (m: Uuid)
    requires keys != map[]
    ensures IsFirst(keys, m)
  {
    FirstExists(keys);
    var m :| IsFirst(keys, m);
    m
  }

  lemma ListsCons(keys: map<Uuid, Key>, m: Uuid, tail: seq<Uuid>)
    requires IsFirst(keys, m) && Lists(tail, keys - {m})
    ensures Lists([m] + tail, keys)
  {
    var rest, order := keys - {m}, [m] + tail;
    forall id | id in keys ensures id in order {
      assert id != m ==> id in rest;
    }
    forall i, j | 0 <= i < j < |order| ensures Before(keys[order[i]], order[i], keys[order[j]], order[j]) {
      assert order[j] == tail[j - 1] && tail[j - 1] in rest;
    }
  }

  function OrderBy(keys: map<Uuid, Key>): (order: seq<Uuid>)
    decreases |keys|
  {
    if keys == map[] then []
    else
      var m := First(keys);
      assert keys.Keys == (keys - {m}).Keys + {m};
      [m] + OrderBy(keys - {m})
  }

  lemma {:induction false} OrderByLists(keys: map<Uuid, Key>)
    ensures Lists(OrderBy(keys), keys)
    decreases |keys|
  {
    if keys != map[] {
      var m := First(keys);
      assert keys.Keys == (keys - {m}).Keys + {m};
      OrderByLists(keys - {m});
      ListsCons(keys, m, OrderBy(keys - {m}));
    }
  }

  lemma ListsDistinct(order: seq<Uuid>, keys: map<Uuid, Key>)
    requires Lists(order, keys)
    ensures Distinct(order) && Elements(order) == keys.Keys && |order| == |keys|
  {
    assert Distinct(order) by {
      forall i, j | 0 <= i < j < |order| ensures order[i] != order[j] {
        assert Before(keys[order[i]], order[i], keys[order[j]], order[j]);
      }
    }
    DistinctCardinality(order);
    forall id | id in Elements(order) ensures id in keys {
      var i :| 0 <= i < |order| && order[i] == id;
    }
    assert Elements(order) == keys.Keys;
    assert |keys| == |keys.Keys|;
  }

  /** The first row of any listing is the least one. */
  lemma ListsFirst(order: seq<Uuid>, keys: map<Uuid, Key>)
    requires Lists(order, keys) && keys != map[]
    ensures order != [] && order[0] == First(keys)
  {
    var m := First(keys);
    var i :| 0 <= i < |order| && order[i] == m;
    assert i != 0 ==> Before(keys[order[0]], order[0], keys[m], m);
    assert order[0] != m ==> Before(keys[m], m, keys[order[0]], order[0]);
  }

  lemma ListsTail(order: seq<Uuid>, keys: map<Uuid, Key>)
    requires Lists(order, keys) && order != []
    ensures Lists(order[1..], keys - {order[0]})
  {
    var tail, rest := order[1..], keys - {order[0]};
    forall i | 0 <= i < |tail| ensures tail[i] in rest {
      assert Before(keys[order[0]], order[0], keys[order[i + 1]], order[i + 1]);
    }
    forall id | id in rest ensures id in tail {
      var i :| 0 <= i < |order| && order[i] == id;
      assert tail[i - 1] == id;
    }
  }

  /** A strictly ordered enumeration is unique, so it is what OrderBy returns. */
  lemma {:induction false} OrderUnique(order: seq<Uuid>, keys: map<Uuid, Key>)
    requires Lists(order, keys)
    ensures order == OrderBy(keys)
    decreases |order|
  {
    assert order != [] ==> order[0] in keys;
    if keys != map[] {
      ListsFirst(order, keys);
      ListsTail(order, keys);
      OrderUnique(order[1..], keys - {order[0]});
      assert order == [order[0]] + order[1..];
    }
  }

  ghost predicate Ascending(order: seq<Uuid>, keys: map<Uuid, Key>) {
    && (forall i :: 0 <= i < |order| ==> order[i] in keys)
    && (forall i, j :: 0 <= i < j < |order| ==> Before(keys[order[i]], order[i], keys[order[j]], order[j]))
  }

  /** ORDER BY id */
  function SortedIds(ids: set<Uuid>): seq<Uuid> {
    OrderBy(map id | id in ids :: Key(0.0, 0, 0))
  }

  lemma SortedIdsAscend(ids: set<Uuid>)
    ensures Distinct(SortedIds(ids)) && Elements(SortedIds(ids)) == ids
    ensures var s := SortedIds(ids); forall i, j :: 0 <= i < j < |s| ==> s[i].number < s[j].number
  {
    var keys := map id | id in ids :: Key(0.0, 0, 0);
    OrderByLists(keys);
    ListsDistinct(OrderBy(keys), keys);
    hide OrderBy;
    var s := SortedIds(ids);
    forall i, j | 0 <= i < j < |s| ensures s[i].number < s[j].number {
      assert Before(keys[s[i]], s[i], keys[s[j]], s[j]);
    }
  }
}
