/** Small vocabulary shared by every component: optional values, row identities,
    and the sub-table relation between two states of a table. */
module Basics {

  datatype Option<+T> = None | Some(value: T)

  datatype Result<+T, +E> = Ok(value: T) | Err(error: E)

  /** A surrogate row identity; rows are ordered by its integer value. */
  datatype Uuid = Uuid(number: int)

  /** Every row of `a` is a row of `b`. */
  ghost predicate SubTable<K, V>(a: map<K, V>, b: map<K, V>) {
    forall k :: k in a ==> k in b && b[k] == a[k]
  }

  ghost predicate Distinct<T>(s: seq<T>) {
    forall i, j :: 0 <= i < j < |s| ==> s[i] != s[j]
  }

  ghost function Elements<T>(s: seq<T>): set<T> {
    set x | x in s
  }

  /** LIMIT n */
  function Take<T>(s: seq<T>, n: nat): seq<T> {
    if n <= |s| then s[..n] else s
  }

  /** There is always an unused identity, so a generator can produce one. */
  lemma UnusedUuidExists(used: set<Uuid>)
    ensures exists id: Uuid :: id !in used
  {
    var bound := UpperBound(used);
    assert Uuid(bound + 1) !in used;
  }

  lemma {:induction false} UpperBound(used: set<Uuid>) returns (bound: int)
    ensures forall id :: id in used ==> id.number <= bound
  {
    if used == {} {
      bound := 0;
    } else {
      var x :| x in used;
      var rest := UpperBound(used - {x});
      bound := if x.number > rest then x.number else rest;
      forall id | id in used ensures id.number <= bound {
        if id != x { assert id in used - {x}; }
      }
    }
  }

  lemma DistinctCardinality<T>(s: seq<T>)
    requires Distinct(s)
    ensures |Elements(s)| == |s|
  {
    if s != [] {
      var last := |s| - 1;
      DistinctCardinality(s[..last]);
      assert s == s[..last] + [s[last]];
      assert Elements(s) == Elements(s[..last]) + {s[last]};
      assert s[last] !in Elements(s[..last]);
    }
  }

  /** A one-to-one correspondence preserves cardinality. */
  lemma {:induction false} SameCardinality<A, B>(f: map<A, B>, image: set<B>)
    requires forall x, y :: x in f && y in f && f[x] == f[y] ==> x == y
    requires forall x :: x in f ==> f[x] in image
    requires forall b :: b in image ==> exists x :: x in f && f[x] == b
    ensures |f.Keys| == |image|
    decreases |f.Keys|
  {
    if f.Keys == {} {
      assert image == {};
    } else {
      var x :| x in f.Keys;
      var rest := f - {x};
      assert rest.Keys == f.Keys - {x};
      forall b | b in image - {f[x]} ensures exists y :: y in rest && rest[y] == b {
        var y :| y in f && f[y] == b;
        assert y in rest;
      }
      SameCardinality(rest, image - {f[x]});
    }
  }
}
