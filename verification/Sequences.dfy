/** Sequences as lists of different items, and orders of sets. */
module Sequences {
  predicate Distinct<T(==)>(q: seq<T>) {
    forall i, j :: 0 <= i < j < |q| ==> q[i] != q[j]
  }

  predicate Lists<T(==)>(order: seq<T>, s: set<T>) {
    && (forall x <- order :: x in s)
    && (forall x <- s :: x in order)
    && (forall i, j :: 0 <= i < j < |order| ==> order[i] != order[j])
  }

  /** Some order in which Python could iterate over a dictionary or a set. */
  method ListSet<T(==)>(s: set<T>) returns (order: seq<T>)
    ensures Lists(order, s)
  {
    order := [];
    var rest := s;
    while rest != {}
      invariant rest <= s && Lists(order, s - rest)
      decreases rest
    {
      var x :| x in rest;
      order := order + [x];
      rest := rest - {x};
    }
    assert s - rest == s;
  }

  function AddLast<T(==)>(q: seq<T>, x: T): seq<T> {
    if x in q then q else q + [x]
  }

  function Without<T(==)>(q: seq<T>, gone: set<T>): seq<T> {
    if q == [] then [] else (if q[0] in gone then [] else [q[0]]) + Without(q[1..], gone)
  }

  lemma {:induction false} WithoutFilters<T>(q: seq<T>, gone: set<T>)
    ensures forall x :: x in Without(q, gone) <==> x in q && x !in gone
    ensures Distinct(q) ==> Distinct(Without(q, gone))
  {
    if q != [] {
      WithoutFilters(q[1..], gone);
      var rest := Without(q[1..], gone);
      assert forall x :: x in q <==> x == q[0] || x in q[1..];
      if Distinct(q) {
        assert q[0] !in q[1..];
      }
    }
  }

  lemma {:induction false} WithoutAt<K>(q: seq<K>, i: nat)
    requires Distinct(q) && i < |q|
    ensures Without(q, {q[i]}) == q[..i] + q[i+1..]
  {
    if i == 0 {
      WithoutNone(q[1..], q[0]);
    } else {
      WithoutAt(q[1..], i - 1);
      assert q[..i] + q[i+1..] == [q[0]] + (q[1..][..i-1] + q[1..][i..]);
    }
  }

  lemma {:induction false} WithoutNone<K>(q: seq<K>, key: K)
    requires key !in q
    ensures Without(q, {key}) == q
  {
    if q != [] {
      WithoutNone(q[1..], key);
    }
  }

  lemma {:induction false} WithoutNothing<T>(q: seq<T>)
    ensures Without(q, {}) == q
  {
    if q != [] {
      WithoutNothing(q[1..]);
    }
  }

  /** What is left keeps its order. */
  lemma {:induction false} WithoutOfParts<T>(p: seq<T>, q: seq<T>, gone: set<T>)
    ensures Without(p + q, gone) == Without(p, gone) + Without(q, gone)
  {
    if p == [] {
      assert p + q == q;
    } else {
      assert (p + q)[0] == p[0] && (p + q)[1..] == p[1..] + q;
      WithoutOfParts(p[1..], q, gone);
    }
  }

  lemma {:induction false} DistinctCount<K>(q: seq<K>)
    requires Distinct(q)
    ensures |set key | key in q| == |q|
  {
    if q != [] {
      DistinctCount(q[1..]);
      assert (set key | key in q) == {q[0]} + set key | key in q[1..];
    }
  }
}
