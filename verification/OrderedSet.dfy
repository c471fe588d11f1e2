/**
 The ordered set that holds the workers of a step: a ring of doubly linked nodes around a sentinel, and
 a map from each key to its node.  It is proved to be a sequence without duplicates.
 */
module OrderedSets {
  import opened Options
  import opened Sequences

  class Node<K> {
    const key: Option<K>  // the sentinel has none
    var prev: Node?<K>
    var next: Node?<K>

    constructor (key: Option<K>, prev: Node?<K>, next: Node?<K>)
      ensures this.key == key && this.prev == prev && this.next == next
    {
      this.key, this.prev, this.next := key, prev, next;
    }
  }

  /** The calls that change the set. */
  datatype Op<K> = Add(key: K) | Discard(key: K) | Pop(last: bool)

  function End<K>(q: seq<K>, last: bool): Option<K> {
    if q == [] then None else Some(if last then q[|q| - 1] else q[0])
  }

  /** What a call does to the sequence of the keys. */
  function Apply<K(==)>(q: seq<K>, op: Op<K>): seq<K> {
    match op
    case Add(key) => AddLast(q, key)
    case Discard(key) => Without(q, {key})
    case Pop(last) => if q == [] then [] else if last then q[..|q| - 1] else q[1..]
  }

  function ApplyAll<K(==)>(q: seq<K>, ops: seq<Op<K>>): seq<K> {
    if ops == [] then q else Apply(ApplyAll(q, ops[..|ops| - 1]), ops[|ops| - 1])
  }

  function Reversed<K>(q: seq<K>): (r: seq<K>)
    ensures |r| == |q| && forall i :: 0 <= i < |q| ==> r[i] == q[|q| - 1 - i]
  {
    if q == [] then [] else [q[|q| - 1]] + Reversed(q[..|q| - 1])
  }

  /** Every node but the last points to its successor, and is pointed to by it. */
  ghost predicate Chained<K>(ring: seq<Node<K>>)
    reads ring
  {
    forall i :: 0 <= i < |ring| - 1 ==> ring[i].next == ring[i+1] && ring[i+1].prev == ring[i]
  }

  /** The nodes once around, from the sentinel to the sentinel. */
  ghost function Ring<K>(end: Node<K>, nodes: seq<Node<K>>): seq<Node<K>> {
    [end] + nodes + [end]
  }

  ghost predicate Filed<K>(nodes: seq<Node<K>>, index: map<K, Node<K>>) {
    && (forall n <- nodes :: n.key.Some? && n.key.value in index && index[n.key.value] == n)
    && (forall key <- index :: index[key] in nodes && index[key].key == Some(key))
  }

  ghost predicate HaveKeys<K>(nodes: seq<Node<K>>) {
    forall n <- nodes :: n.key.Some?
  }

  ghost function KeysOf<K>(nodes: seq<Node<K>>): (q: seq<K>)
    requires HaveKeys(nodes)
    ensures |q| == |nodes| && forall i :: 0 <= i < |nodes| ==> q[i] == nodes[i].key.value
  {
    seq(|nodes|, i requires 0 <= i < |nodes| => assert nodes[i] in nodes; nodes[i].key.value)
  }

  /** The keys of filed nodes are those of the map, without duplicates. */
  lemma KeysAreIndexed<K>(nodes: seq<Node<K>>, index: map<K, Node<K>>)
    requires Filed(nodes, index) && Distinct(nodes)
    ensures HaveKeys(nodes) && Distinct(KeysOf(nodes)) && forall key :: key in index <==> key in KeysOf(nodes)
  {
    assert HaveKeys(nodes);
    var q := KeysOf(nodes);
    forall i, j | 0 <= i < j < |q|
      ensures q[i] != q[j]
    {
      assert nodes[i] in nodes && nodes[j] in nodes;
    }
    forall key
      ensures key in index <==> key in q
    {
      if key in index {
        var i :| 0 <= i < |nodes| && nodes[i] == index[key];
        assert q[i] == key;
      }
      if key in q {
        var i :| 0 <= i < |q| && q[i] == key;
        assert nodes[i] in nodes;
      }
    }
  }

  /** A new node in front of the sentinel. */
  lemma FiledMore<K>(nodes: seq<Node<K>>, index: map<K, Node<K>>, node: Node<K>)
    requires Filed(nodes, index) && Distinct(nodes)
    requires node.key.Some? && node.key.value !in index
    ensures Filed(nodes + [node], index[node.key.value := node]) && Distinct(nodes + [node])
    ensures HaveKeys(nodes) && KeysOf(nodes + [node]) == AddLast(KeysOf(nodes), node.key.value)
  {
    KeysAreIndexed(nodes, index);
  }

  /** One node less. */
  lemma FiledLess<K>(nodes: seq<Node<K>>, index: map<K, Node<K>>, i: nat)
    requires Filed(nodes, index) && Distinct(nodes) && i < |nodes|
    ensures var rest := nodes[..i] + nodes[i+1..];
            && nodes[i] in nodes && nodes[i] !in rest && Distinct(rest)
            && Filed(rest, index - {nodes[i].key.value})
            && HaveKeys(nodes) && KeysOf(rest) == Without(KeysOf(nodes), {nodes[i].key.value})
            && KeysOf(rest) == KeysOf(nodes)[..i] + KeysOf(nodes)[i+1..]
  {
    hide Filed, Distinct, Without;
    KeysAreIndexed(nodes, index);
    RestIsFiled(nodes, index, i);
    WithoutAt(KeysOf(nodes), i);
  }

  lemma RestIsFiled<K>(nodes: seq<Node<K>>, index: map<K, Node<K>>, i: nat)
    requires Filed(nodes, index) && Distinct(nodes) && i < |nodes|
    ensures var rest := nodes[..i] + nodes[i+1..];
            && nodes[i] in nodes && nodes[i] !in rest && Distinct(rest) && HaveKeys(rest)
            && Filed(rest, index - {nodes[i].key.value})
  {
    var rest := nodes[..i] + nodes[i+1..];
    assert forall j :: 0 <= j < |rest| ==> rest[j] == nodes[if j < i then j else j + 1];
    assert nodes[i] in nodes;
    var key := nodes[i].key.value;
    forall k | k in index && k != key
      ensures index[k] in rest
    {
      var j :| 0 <= j < |nodes| && nodes[j] == index[k];
      assert rest[if j < i then j else j - 1] == nodes[j];
    }
    forall n | n in rest
      ensures n in nodes && n.key.value != key
    {
      assert index[n.key.value] == n;
    }
  }

  lemma PopIsWithout<K>(q: seq<K>, last: bool)
    requires Distinct(q)
    ensures Apply(q, Op.Pop(last)) == if q == [] then q else Without(q, {End(q, last).value})
    ensures End(q, last).None? <==> q == []
  {
    if q != [] {
      WithoutAt(q, if last then |q| - 1 else 0);
    }
  }

  class OrderedSet<K(==)> {
    const end: Node<K>
    var index: map<K, Node<K>>
    ghost var nodes: seq<Node<K>>

    ghost predicate Valid()
      reads this, end, nodes
    {
      Filed(nodes, index) && Distinct(nodes) && end !in nodes && Chained(Ring(end, nodes))
    }

    ghost function Contents(): (q: seq<K>)
      requires HaveKeys(nodes)
      reads this
    {
      KeysOf(nodes)
    }

    constructor ()
      ensures Valid() && Contents() == [] && fresh(end)
    {
      var e := new Node<K>(None, null, null);
      end, index, nodes := e, map[], [];
      new;
      end.prev, end.next := end, end;
    }

    /** `self |= iterable`. */
    constructor From(items: seq<K>)
      ensures Valid() && Contents() == ApplyAll([], seq(|items|, i requires 0 <= i < |items| => Op.Add(items[i])))
      ensures fresh(end) && forall n <- nodes :: fresh(n)
    {
      var e := new Node<K>(None, null, null);
      end, index, nodes := e, map[], [];
      new;
      end.prev, end.next := end, end;
      ghost var ops := seq(|items|, i requires 0 <= i < |items| => Op.Add(items[i]));
      for i := 0 to |items|
        invariant Valid() && Contents() == ApplyAll([], ops[..i])
        invariant forall n <- nodes :: fresh(n)
      {
        assert ops[..i+1][..i] == ops[..i];
        Add(items[i]);
      }
      assert ops[..|items|] == ops;
    }

    method Len() returns (n: nat)
      requires Valid()
      ensures n == |Contents()|
    {
      n := |index|;
      KeysAreIndexed(nodes, index);
      assert index.Keys == set key | key in Contents();
      DistinctCount(Contents());
    }

    method Contains(key: K) returns (found: bool)
      requires Valid()
      ensures found <==> key in Contents()
    {
      KeysAreIndexed(nodes, index);
      found := key in index;
    }

    method Add(key: K)
      requires Valid()
      modifies this, end, nodes
      ensures Valid() && Contents() == AddLast(old(Contents()), key)
      ensures forall n <- nodes :: n in old(nodes) || fresh(n)
    {
      hide Filed, KeysOf;
      KeysAreIndexed(nodes, index);
      if key !in index {
        var node := Append(key);
        FiledMore(nodes, index, node);
        index := index[key := node];
        nodes := nodes + [node];
      }
    }

    /** A new node is linked in front of the sentinel. */
    method Append(key: K) returns (node: Node<K>)
      requires Chained(Ring(end, nodes)) && Distinct(nodes) && end !in nodes
      modifies end, nodes
      ensures fresh(node) && node.key == Some(key) && Chained(Ring(end, nodes + [node]))
    {
      ghost var ring := Ring(end, nodes);
      assert ring[|nodes|+1] == end && ring[|nodes|] == end.prev;
      var curr := end.prev;
      node := new Node<K>(Some(key), curr, end);
      curr.next := node;
      end.prev := node;
      assert Ring(end, nodes + [node]) == ring[..|nodes|+1] + [node, end];
    }

    method Discard(key: K)
      requires Valid()
      modifies this, end, nodes
      ensures Valid() && Contents() == Without(old(Contents()), {key})
      ensures forall n <- nodes :: n in old(nodes)
    {
      hide KeysOf;
      KeysAreIndexed(nodes, index);
      if key in index {
        var node := index[key];
        ghost var i :| 0 <= i < |nodes| && nodes[i] == node;
        FiledLess(nodes, index, i);
        hide Filed, Distinct;
        Unlink(node, i);
        index := index - {key};
        nodes := nodes[..i] + nodes[i+1..];
      } else {
        WithoutNone(Contents(), key);
      }
    }

    /** The node is taken out of the ring. */
    method Unlink(node: Node<K>, ghost i: nat)
      requires Chained(Ring(end, nodes)) && Distinct(nodes) && end !in nodes
      requires i < |nodes| && nodes[i] == node
      modifies end, nodes
      ensures Chained(Ring(end, nodes[..i] + nodes[i+1..]))
    {
      ghost var ring := Ring(end, nodes);
      var prev, next := node.prev, node.next;
      assert ring[i+1] == node && prev == ring[i] && next == ring[i+2];
      prev.next := next;
      next.prev := prev;
      ghost var rest := Ring(end, nodes[..i] + nodes[i+1..]);
      assert rest == ring[..i+1] + ring[i+2..];
      forall j | 0 <= j < |rest| - 1
        ensures rest[j].next == rest[j+1] && rest[j+1].prev == rest[j]
      {
        if j < i {
          assert rest[j] == ring[j] && rest[j+1] == ring[j+1];
        } else if j > i {
          assert rest[j] == ring[j+1] && rest[j+1] == ring[j+2];
        }
      }
    }

    /** Python raises a KeyError for the empty set. */
    method Peek(last: bool) returns (key: Option<K>)
      requires Valid()
      ensures key == End(Contents(), last)
    {
      var n := Len();
      if n == 0 {
        return None;
      }
      ghost var ring := Ring(end, nodes);
      assert ring[|nodes|+1] == end == ring[0] && end.prev == ring[|nodes|] && end.next == ring[1];
      assert nodes[0] in nodes && nodes[|nodes|-1] in nodes;
      return if last then end.prev.key else end.next.key;
    }

    method Pop(last: bool) returns (key: Option<K>)
      requires Valid()
      modifies this, end, nodes
      ensures Valid() && Contents() == Apply(old(Contents()), Op.Pop(last))
      ensures key == End(old(Contents()), last)
      ensures forall n <- nodes :: n in old(nodes)
    {
      hide Filed, KeysOf, Apply, Distinct, Chained;
      key := Peek(last);
      KeysAreIndexed(nodes, index);
      PopIsWithout(Contents(), last);
      if key.Some? {
        Discard(key.value);
      }
    }

    /** Iteration, forwards. */
    method Iterate() returns (keys: seq<K>)
      requires Valid()
      ensures keys == Contents()
    {
      keys := [];
      ghost var ring := Ring(end, nodes);
      assert Ring(end, nodes)[0] == end;
      var curr := end.next;
      while curr != end
        invariant |keys| <= |nodes| && curr == ring[|keys| + 1] && keys == Contents()[..|keys|]
        decreases |nodes| - |keys|
      {
        assert curr in nodes;
        keys := keys + [curr.key.value];
        curr := curr.next;
      }
      assert |keys| == |nodes|;
    }

    /** Iteration, backwards. */
    method IterateBackwards() returns (keys: seq<K>)
      requires Valid()
      ensures keys == Reversed(Contents())
    {
      keys := [];
      ghost var ring := Ring(end, nodes);
      assert ring[|nodes| + 1] == end;
      var curr := end.prev;
      while curr != end
        invariant |keys| <= |nodes| && curr == ring[|nodes| - |keys|] && keys == Reversed(Contents())[..|keys|]
        decreases |nodes| - |keys|
      {
        assert curr in nodes;
        keys := keys + [curr.key.value];
        curr := curr.prev;
      }
      assert |keys| == |nodes|;
    }

    /** Any run of calls. */
    method Run(ops: seq<Op<K>>)
      requires Valid()
      modifies this, end, nodes
      ensures Valid() && Contents() == ApplyAll(old(Contents()), ops)
      ensures forall n <- nodes :: n in old(nodes) || fresh(n)
    {
      for i := 0 to |ops|
        invariant Valid() && Contents() == ApplyAll(old(Contents()), ops[..i])
        invariant forall n <- nodes :: n in old(nodes) || fresh(n)
      {
        assert ops[..i+1][..i] == ops[..i];
        match ops[i] {
          case Add(key) => Add(key);
          case Discard(key) => Discard(key);
          case Pop(last) => var _ := Pop(last);
        }
      }
      assert ops[..|ops|] == ops;
    }
  }

  /** The call that put the key where it is now: the last one that added it while it was absent. */
  ghost function Born<K>(ops: seq<Op<K>>, key: K): (n: int)
    ensures -1 <= n < |ops|
  {
    if ops == [] then -1 else
    var n := |ops| - 1;
    if ops[n] == Op.Add(key) && key !in ApplyAll([], ops[..n]) then n else Born(ops[..n], key)
  }

  ghost predicate InOrderOfBirth<K>(q: seq<K>, ops: seq<Op<K>>) {
    forall i, j :: 0 <= i < j < |q| ==> Born(ops, q[i]) < Born(ops, q[j])
  }

  /** A call removes at most one key, and a new key goes to the end. */
  lemma OneCall<K>(q: seq<K>, op: Op<K>)
    requires Distinct(q)
    ensures var r := Apply(q, op);
            || r == q
            || (op.Add? && op.key !in q && r == q + [op.key])
            || exists i :: 0 <= i < |q| && r == q[..i] + q[i+1..]
  {
    match op
    case Add(key) =>
    case Discard(key) =>
      if key in q {
        var i :| 0 <= i < |q| && q[i] == key;
        WithoutAt(q, i);
      } else {
        WithoutNone(q, key);
      }
    case Pop(last) =>
      if q != [] {
        var i := if last then |q| - 1 else 0;
        assert Apply(q, op) == q[..i] + q[i+1..];
      }
  }

  /** After any run of calls, the keys stand in the order in which they were added. */
  lemma {:induction false} KeysInOrderOfBirth<K>(ops: seq<Op<K>>)
    ensures Distinct(ApplyAll([], ops)) && InOrderOfBirth(ApplyAll([], ops), ops)
  {
    if ops != [] {
      var n := |ops| - 1;
      var q := ApplyAll([], ops[..n]);
      KeysInOrderOfBirth(ops[..n]);
      OneCall(q, ops[n]);
      assert forall key <- q :: Born(ops, key) == Born(ops[..n], key);
      assert ops[n].Add? && ops[n].key !in q ==> Born(ops, ops[n].key) == n;
      hide Born, Apply;
      OrderAfterCall(q, ApplyAll([], ops), ops, n);
    }
  }

  /** The keys that were there before keep their order. */
  lemma OrderAfterCall<K>(q: seq<K>, r: seq<K>, ops: seq<Op<K>>, n: nat)
    requires n < |ops| && Distinct(q) && InOrderOfBirth(q, ops[..n])
    requires forall key <- q :: Born(ops, key) == Born(ops[..n], key)
    requires ops[n].Add? && ops[n].key !in q ==> Born(ops, ops[n].key) == n
    requires || r == q
             || (ops[n].Add? && ops[n].key !in q && r == q + [ops[n].key])
             || exists i :: 0 <= i < |q| && r == q[..i] + q[i+1..]
    ensures Distinct(r) && InOrderOfBirth(r, ops)
  {
    hide Born;
    assert InOrderOfBirth(q, ops);
    if ops[n].Add? && ops[n].key !in q && r == q + [ops[n].key] {
      AddedAtEnd(q, ops, n);
    } else if r != q {
      var i :| 0 <= i < |q| && r == q[..i] + q[i+1..];
      OneTakenOut(q, ops, i);
    }
  }

  lemma AddedAtEnd<K>(q: seq<K>, ops: seq<Op<K>>, n: nat)
    requires n < |ops| && ops[n].Add? && ops[n].key !in q && Distinct(q) && InOrderOfBirth(q, ops)
    requires (forall key <- q :: Born(ops, key) == Born(ops[..n], key)) && Born(ops, ops[n].key) == n
    ensures Distinct(q + [ops[n].key]) && InOrderOfBirth(q + [ops[n].key], ops)
  {
    hide Born;
    forall i | 0 <= i < |q|
      ensures Born(ops, q[i]) < n
    {
      assert q[i] in q;
    }
  }

  lemma OneTakenOut<K>(q: seq<K>, ops: seq<Op<K>>, i: nat)
    requires i < |q| && Distinct(q) && InOrderOfBirth(q, ops)
    ensures Distinct(q[..i] + q[i+1..]) && InOrderOfBirth(q[..i] + q[i+1..], ops)
  {
    hide Born;
    var r := q[..i] + q[i+1..];
    assert forall j :: 0 <= j < |r| ==> r[j] == q[if j < i then j else j + 1];
  }

  /** `peek` and `pop` with `last` give the key that was added most recently, otherwise the oldest one. */
  lemma EndIsExtreme<K>(ops: seq<Op<K>>, last: bool, key: K)
    requires key in ApplyAll([], ops)
    ensures var end := End(ApplyAll([], ops), last);
            end.Some? && if last then Born(ops, key) <= Born(ops, end.value) else Born(ops, end.value) <= Born(ops, key)
  {
    hide Born, ApplyAll;
    KeysInOrderOfBirth(ops);
    var q := ApplyAll([], ops);
    var i :| 0 <= i < |q| && q[i] == key;
  }

  predicate Mentions<K(==)>(op: Op<K>, key: K) {
    !op.Pop? && op.key == key
  }

  /** Without pops, a key is in the set just if the last call about it added it. */
  lemma {:induction false} MemberIfAddedLast<K>(ops: seq<Op<K>>, key: K)
    requires forall op <- ops :: !op.Pop?
    ensures key in ApplyAll([], ops) <==>
      exists i :: 0 <= i < |ops| && ops[i] == Op.Add(key) && forall j :: i < j < |ops| ==> !Mentions(ops[j], key)
  {
    if ops != [] {
      var n := |ops| - 1;
      assert ops[n] in ops && forall op <- ops[..n] :: op in ops;
      MemberIfAddedLast(ops[..n], key);
      var q := ApplyAll([], ops[..n]);
      WithoutFilters(q, {ops[n].key});
      if !Mentions(ops[n], key) && key in q {
        var i :| 0 <= i < n && ops[..n][i] == Op.Add(key) && forall j :: i < j < n ==> !Mentions(ops[..n][j], key);
        assert ops[i] == Op.Add(key);
        forall j | i < j < |ops|
          ensures !Mentions(ops[j], key)
        {
          assert j < n ==> ops[..n][j] == ops[j];
        }
      }
    }
  }
}
