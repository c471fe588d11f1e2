/**
 The bounded queue of failure messages: however messages repeat, it holds the most recent different ones.
 */
module ExplanationQueue {
  import opened Sequences

  /** The index of the last occurrence. */
  function LastIndex<T(==)>(h: seq<T>, x: T): (i: int)
    ensures -1 <= i < |h| && (i == -1 <==> x !in h)
    ensures i >= 0 ==> h[i] == x && forall j :: i < j < |h| ==> h[j] != x
  {
    if h == [] then -1
    else if h[|h|-1] == x then |h| - 1
    else
      assert x in h <==> x in h[..|h|-1];
      LastIndex(h[..|h|-1], x)
  }

  /** The different items of the history in the order of their last occurrences. */
  ghost predicate ByLastOccurrence<T(!new)>(q: seq<T>, h: seq<T>) {
    && (forall x :: x in q <==> x in h)
    && InOrder(q, h)
  }

  ghost predicate InOrder<T(!new)>(q: seq<T>, h: seq<T>) {
    forall i, j :: 0 <= i < j < |q| ==> LastIndex(h, q[i]) < LastIndex(h, q[j])
  }

  function Distincts<T(==)>(h: seq<T>): seq<T> {
    if h == [] then [] else Without(Distincts(h[..|h|-1]), {h[|h|-1]}) + [h[|h|-1]]
  }

  lemma LastIndexAfter<T>(h: seq<T>, x: T, y: T)
    ensures LastIndex(h + [x], y) == if y == x then |h| else LastIndex(h, y)
  {
    assert (h + [x])[..|h|] == h;
  }

  lemma {:induction false} DistinctsAreByLastOccurrence<T(!new)>(h: seq<T>)
    ensures Distinct(Distincts(h)) && ByLastOccurrence(Distincts(h), h)
  {
    if h != [] {
      var n, x := |h| - 1, h[|h|-1];
      var q := Distincts(h[..n]);
      DistinctsAreByLastOccurrence(h[..n]);
      WithoutFilters(q, {x});
      WithoutInOrder(q, h[..n], x);
      assert h == h[..n] + [x];
      hide Without;
      MoveToEnd(Without(q, {x}), h[..n], x);
    }
  }

  lemma MoveToEnd<T(!new)>(r: seq<T>, h: seq<T>, x: T)
    requires Distinct(r) && forall y :: y in r <==> y in h && y != x
    requires InOrder(r, h)
    ensures Distinct(r + [x]) && ByLastOccurrence(r + [x], h + [x])
  {
    forall y
      ensures LastIndex(h + [x], y) == if y == x then |h| else LastIndex(h, y)
    {
      LastIndexAfter(h, x, y);
    }
    hide LastIndex;
    var all := r + [x];
    forall i, j | 0 <= i < j < |all|
      ensures LastIndex(h + [x], all[i]) < LastIndex(h + [x], all[j])
    {
      assert r[i] in r;
      if j < |r| {
        assert r[j] in r;
      }
    }
  }

  lemma WithoutInOrder<T(!new)>(q: seq<T>, h: seq<T>, x: T)
    requires Distinct(q) && ByLastOccurrence(q, h)
    ensures InOrder(Without(q, {x}), h)
  {
    hide LastIndex, Without;
    if x in q {
      var k :| 0 <= k < |q| && q[k] == x;
      WithoutAt(q, k);
      var r := q[..k] + q[k+1..];
      forall i, j | 0 <= i < j < |r|
        ensures LastIndex(h, r[i]) < LastIndex(h, r[j])
      {
        assert r[i] == q[if i < k then i else i + 1] && r[j] == q[if j < k then j else j + 1];
      }
    } else {
      WithoutNone(q, x);
    }
  }

  /** There is only one such order. */
  lemma {:induction false} OrderIsUnique<T(!new)>(p: seq<T>, q: seq<T>, h: seq<T>)
    requires ByLastOccurrence(p, h) && ByLastOccurrence(q, h)
    ensures p == q
  {
    assert p[..|p|] == p && q[..|q|] == q;
    OrderAfter(p, q, h, |p|, |q|);
  }

  lemma SameEmptiness<T(!new)>(p: seq<T>, q: seq<T>)
    requires forall x :: x in p <==> x in q
    ensures p == [] <==> q == []
  {
    if p != [] {
      assert p[0] in p;
    }
    if q != [] {
      assert q[0] in q;
    }
  }

  lemma {:induction false} OrderAfter<T(!new)>(p: seq<T>, q: seq<T>, h: seq<T>, m: nat, n: nat)
    requires ByLastOccurrence(p, h) && ByLastOccurrence(q, h) && m <= |p| && n <= |q|
    requires forall x :: x in p[..m] <==> x in q[..n]
    ensures p[..m] == q[..n]
  {
    hide LastIndex;
    SameEmptiness(p[..m], q[..n]);
    if m > 0 {
      assert p[m-1] in p[..m];
      var i :| 0 <= i < n && q[i] == p[m-1];
      assert q[n-1] in q[..n];
      var j :| 0 <= j < m && p[j] == q[n-1];
      assert i == n - 1 && j == m - 1;
      OnlyOnce(p, h, m - 1);
      OnlyOnce(q, h, n - 1);
      assert forall x :: x in p[..m] <==> x in p[..m-1] || x == p[m-1];
      assert forall x :: x in q[..n] <==> x in q[..n-1] || x == q[n-1];
      OrderAfter(p, q, h, m - 1, n - 1);
      assert p[..m] == p[..m-1] + [p[m-1]] && q[..n] == q[..n-1] + [q[n-1]];
    }
  }

  lemma OnlyOnce<T(!new)>(p: seq<T>, h: seq<T>, m: nat)
    requires ByLastOccurrence(p, h) && m < |p|
    ensures p[m] !in p[..m]
  {
  }

  /** The last `k` items, or all of them if there are not so many. */
  function Tail<T>(q: seq<T>, k: int): seq<T> {
    if k <= 0 then [] else if |q| <= k then q else q[|q|-k..]
  }

  function Enqueued<T(==)>(q: seq<T>, x: T, k: int): seq<T> {
    var r := Without(q, {x}) + [x];
    if |r| > k then r[1..] else r
  }

  class ExplQueue<T(==,!new)> {
    const numItems: int
    var items: seq<T>  // the keys of the ordered dictionary
    ghost var history: seq<T>

    /** The queue holds the last different items of the history, by their last occurrence. */
    ghost predicate Valid()
      reads this
    {
      items == Tail(Distincts(history), numItems)
    }

    constructor (numItems: int)
      ensures Valid() && history == [] && this.numItems == numItems
    {
      this.numItems, items, history := numItems, [], [];
    }

    method Enqueue(item: T)
      requires Valid()
      modifies this
      ensures Valid() && history == old(history) + [item]
    {
      TailAfter(history, item, numItems);
      items := Without(items, {item});
      items := items + [item];
      if |items| > numItems {
        items := items[1..];
      }
      history := history + [item];
    }
  }

  /** The oldest entry that is dropped is the one that the bound cuts off. */
  lemma TailAfter<T(!new)>(h: seq<T>, x: T, k: int)
    ensures Enqueued(Tail(Distincts(h), k), x, k) == Tail(Distincts(h + [x]), k)
  {
    var q := Distincts(h);
    DistinctsAreByLastOccurrence(h);
    assert (h + [x])[..|h|] == h;
    var m := |q| - |Tail(q, k)|;
    hide ByLastOccurrence;
    if k > 0 {
      if x !in q {
        TailWithNew(q, x, k);
      } else {
        var i :| 0 <= i < |q| && q[i] == x;
        if m <= i {
          TailWithKnown(q, i, k);
        } else {
          TailWithForgotten(q, i, k);
        }
      }
    }
  }

  lemma TailWithNew<T>(q: seq<T>, x: T, k: int)
    requires x !in q && k > 0
    ensures Enqueued(Tail(q, k), x, k) == Tail(Without(q, {x}) + [x], k)
  {
    hide Without;
    WithoutNone(q, x);
    WithoutNone(Tail(q, k), x);
    var t := Tail(q, k);
    if |q| < k {
      assert t == q;
    } else {
      assert t == q[|q| - k..] && (t + [x])[1..] == t[1..] + [x] == q[|q| - k + 1..] + [x];
      SameEnd(q, t[1..], x, |q| + 1 - k, k);
    }
  }

  lemma TailWithKnown<T>(q: seq<T>, i: nat, k: int)
    requires Distinct(q) && k > 0 && |q| - |Tail(q, k)| <= i < |q|
    ensures Enqueued(Tail(q, k), q[i], k) == Tail(Without(q, {q[i]}) + [q[i]], k)
  {
    hide Without, Distinct;
    var m := |q| - |Tail(q, k)|;
    Cut(q, i, m);
    WithoutAt(q, i);
    WithoutAt(q[m..], i - m);
    assert Tail(q, k) == q[m..];
    SameEnd(Without(q, {q[i]}), Without(q[m..], {q[i]}), q[i], m, k);
  }

  lemma TailWithForgotten<T>(q: seq<T>, i: nat, k: int)
    requires Distinct(q) && k > 0 && i < |q| - |Tail(q, k)|
    ensures Enqueued(Tail(q, k), q[i], k) == Tail(Without(q, {q[i]}) + [q[i]], k)
  {
    hide Without, Distinct;
    var m := |q| - |Tail(q, k)|;
    Cut(q, i, m);
    WithoutAt(q, i);
    WithoutNone(q[m..], q[i]);
    assert Tail(q, k) == q[m..];
    var w, t := Without(q, {q[i]}), q[m..];
    assert (t + [q[i]])[1..] == t[1..] + [q[i]] && t[1..] == w[m-1..][1..] == w[m..];
    SameEnd(w, t[1..], q[i], m, k);
  }

  lemma SameEnd<T>(w: seq<T>, t: seq<T>, x: T, m: nat, k: int)
    requires k > 0 && m == (if |w| + 1 <= k then 0 else |w| + 1 - k) && t == w[m..]
    ensures Tail(w + [x], k) == t + [x] && |t| < k
  {
  }

  /** Where the rest of the sequence is, once one item is gone. */
  lemma Cut<T>(q: seq<T>, i: nat, m: nat)
    requires i < |q| && m <= |q| && Distinct(q)
    ensures var w := q[..i] + q[i+1..];
            && (m <= i ==> w[m..] == q[m..][..i-m] + q[m..][i-m+1..] && q[m..][i-m] == q[i])
            && (m > i ==> w[m-1..] == q[m..] && q[i] !in q[m..])
            && Distinct(q[m..])
  {
    assert forall j :: 0 <= j < |q[m..]| ==> q[m..][j] == q[m+j];
  }

  /** After any history the queue of size `k` holds the last min(k, number of different items) different items,
      in the order of their last occurrences. */
  lemma QueueHoldsTheMostRecent<T(!new)>(h: seq<T>, k: int, q: seq<T>)
    requires ByLastOccurrence(q, h)
    ensures var r := Tail(Distincts(h), k);
            && |r| == (if k <= 0 then 0 else if |q| <= k then |q| else k)
            && r == q[|q| - |r|..]
            && forall x, y :: x in r && y in h && y !in r ==> LastIndex(h, y) < LastIndex(h, x)
  {
    hide LastIndex, Distincts;
    DistinctsAreByLastOccurrence(h);
    OrderIsUnique(q, Distincts(h), h);
    var r := Tail(q, k);
    var m := |q| - |r|;
    assert r == q[m..];
    forall x, y | x in r && y in h && y !in r
      ensures LastIndex(h, y) < LastIndex(h, x)
    {
      BeforeTheTail(q, h, m, x, y);
    }
  }

  lemma BeforeTheTail<T(!new)>(q: seq<T>, h: seq<T>, m: nat, x: T, y: T)
    requires ByLastOccurrence(q, h) && m <= |q| && x in q[m..] && y in q && y !in q[m..]
    ensures LastIndex(h, y) < LastIndex(h, x)
  {
    hide LastIndex;
    var i :| m <= i < |q| && q[i] == x;
    var j :| 0 <= j < |q| && q[j] == y;
    assert forall n :: m <= n < |q| ==> q[n] == q[m..][n - m];
    assert j < m;
  }
}
