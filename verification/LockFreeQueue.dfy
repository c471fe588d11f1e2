/**
 The ring buffer between one producer and one consumer.  `LFQueue` has the operations as they run alone.
 Below it, the same operations are cut into their single accesses to shared memory, which the two threads
 interleave in any order; the theorems hold in every reachable state of that system.
 */
module LockFreeQueue {
  import opened Options

  // ---------------------------------------------------------------- slots

  function Slot(i: nat, cap: nat): (slot: nat)
    requires cap > 0
    ensures slot < cap
  {
    i % cap
  }

  lemma SameSlot(i: nat, j: nat, cap: nat)
    requires i <= j < i + cap && Slot(i, cap) == Slot(j, cap)
    ensures i == j
  {
    var m, n := i / cap, j / cap;
    assert i == cap * m + i % cap && j == cap * n + j % cap;
    Gap(cap, m, n);
  }

  lemma Gap(cap: nat, m: nat, n: nat)
    requires cap * m <= cap * n < cap * m + cap
    ensures m == n
  {
    if n > m {
      Spread(cap, m, n);
    } else if m > n {
      Spread(cap, n, m);
    }
  }

  lemma {:induction false} Spread(cap: nat, m: nat, n: nat)
    requires m < n
    ensures cap * n >= cap * m + cap
  {
    if n > m + 1 {
      Spread(cap, m, n - 1);
    }
  }

  lemma FreshSlot(from: nat, n: nat, cap: nat)
    requires n < cap
    ensures forall i: nat :: from <= i < from + n ==> Slot(i, cap) != Slot(from + n, cap)
  {
    hide Slot;
    forall i: nat | from <= i < from + n
      ensures Slot(i, cap) != Slot(from + n, cap)
    {
      if Slot(i, cap) == Slot(from + n, cap) {
        SameSlot(i, from + n, cap);
      }
    }
  }

  lemma Times(cap: nat, m: nat, n: nat)
    requires m <= n
    ensures cap * m <= cap * n
  {
  }

  /** The index that is stored next. */
  lemma NextSlot(i: nat, cap: nat)
    requires cap > 0
    ensures Slot(Slot(i, cap) + 1, cap) == Slot(i + 1, cap)
  {
    var m := i / cap;
    assert i == cap * m + i % cap;
    if i % cap + 1 < cap {
      Remainder(i + 1, m, i % cap + 1, cap);
    } else {
      assert i + 1 == cap * (m + 1);
      Remainder(i + 1, m + 1, 0, cap);
    }
  }

  lemma Remainder(i: nat, m: nat, r: nat, cap: nat)
    requires r < cap && i == cap * m + r
    ensures i % cap == r
  {
    var n := i / cap;
    assert i == cap * n + i % cap;
    if n < m {
      Times(cap, n + 1, m);
    } else if m < n {
      Times(cap, m + 1, n);
    }
  }

  // ---------------------------------------------------------------- the operations alone

  /** The `n` elements from slot `from` on, around the end of the store. */
  function Window<T>(store: seq<T>, from: nat, n: nat): (q: seq<T>)
    requires n <= |store|
    ensures |q| == n && forall i :: 0 <= i < n ==> q[i] == store[Slot(from + i, |store|)]
  {
    seq(n, i requires 0 <= i < n => store[Slot(from + i, |store|)])
  }

  lemma WindowTail<T>(store: seq<T>, from: nat, n: nat)
    requires 0 < n <= |store|
    ensures Window(store, Slot(from + 1, |store|), n - 1) == Window(store, from, n)[1..]
  {
    hide Slot;
    var q, r := Window(store, from, n), Window(store, Slot(from + 1, |store|), n - 1);
    forall i | 0 <= i < n - 1
      ensures r[i] == q[i+1]
    {
      Shift(from + 1, i, |store|);
      assert from + 1 + i == from + (i + 1);
    }
  }

  class LFQueue<T(0)> {
    const store: array<T>
    var nextWriteIndex: nat
    var nextReadIndex: nat
    var numElements: nat

    ghost predicate Valid()
      reads this
    {
      && numElements <= store.Length && nextReadIndex <= store.Length
      && (store.Length > 0 ==> nextReadIndex < store.Length && nextWriteIndex == Slot(nextReadIndex + numElements, store.Length))
    }

    /** The elements from the oldest to the newest. */
    ghost function Contents(): (q: seq<T>)
      requires Valid()
      reads this, store
      ensures |q| == numElements
    {
      Window(store[..], nextReadIndex, numElements)
    }

    constructor (numElems: nat)
      ensures Valid() && Contents() == [] && store.Length == numElems && fresh(store)
    {
      store := new T[numElems];
      nextWriteIndex, nextReadIndex, numElements := 0, 0, 0;
    }

    method Size() returns (n: nat)
      requires Valid()
      ensures n == |Contents()|
    {
      n := numElements;
    }

    /** The slot to write to is not one that is waiting to be read. */
    method GetNextToWriteTo() returns (slot: nat)
      requires Valid() && |Contents()| < store.Length
      ensures slot == nextWriteIndex < store.Length
      ensures forall i: nat :: nextReadIndex <= i < nextReadIndex + |Contents()| ==> Slot(i, store.Length) != slot
    {
      hide Slot;
      slot := nextWriteIndex;
      FreshSlot(nextReadIndex, numElements, store.Length);
    }

    /** The element that was written through the pointer becomes the newest one. */
    method UpdateWriteIndex()
      requires Valid() && |Contents()| < store.Length
      modifies this`nextWriteIndex, this`numElements
      ensures Valid() && Contents() == old(Contents()) + [store[old(nextWriteIndex)]]
    {
      NextSlot(nextReadIndex + numElements, store.Length);
      hide Slot;
      nextWriteIndex := Slot(nextWriteIndex + 1, store.Length);
      numElements := numElements + 1;
    }

    method GetNextToRead() returns (slot: Option<nat>)
      requires Valid()
      ensures Contents() == [] ==> slot == None
      ensures Contents() != [] ==> slot.Some? && slot.value < store.Length && store[slot.value] == Contents()[0]
    {
      var size := Size();
      slot := if size != 0 then Some(nextReadIndex) else None;
      if size != 0 {
        Remainder(nextReadIndex, 0, nextReadIndex, store.Length);
        assert Slot(nextReadIndex + 0, store.Length) == nextReadIndex;
      }
    }

    /** The oldest element is given up.  The source asserts that there is one. */
    method UpdateReadIndex()
      requires Valid() && Contents() != []
      modifies this`nextReadIndex, this`numElements
      ensures Valid() && Contents() == old(Contents())[1..]
    {
      hide Slot, Window;
      WindowTail(store[..], nextReadIndex, numElements);
      Shift(nextReadIndex + 1, numElements - 1, store.Length);
      nextReadIndex := Slot(nextReadIndex + 1, store.Length);
      assert numElements != 0;
      numElements := numElements - 1;
    }
  }

  lemma {:induction false} Shift(a: nat, i: nat, cap: nat)
    requires cap > 0
    ensures Slot(Slot(a, cap) + i, cap) == Slot(a + i, cap)
  {
    if i == 0 {
      Remainder(a % cap, 0, a % cap, cap);
    } else {
      Shift(a, i - 1, cap);
      NextSlot(Slot(a, cap) + i - 1, cap);
      NextSlot(a + i - 1, cap);
    }
  }

  // ---------------------------------------------------------------- the interleaved system

  /** Where the producer is: between these points it makes one access to shared memory. */
  datatype Producer<T> =
    | Idle
    | HasRoom(value: T)                   // size() was below the capacity
    | GotSlot(value: T, slot: nat)        // has loaded next_write_index_
    | Writing(value: T, slot: nat)        // the slot is being written to
    | Wrote                               // the slot holds the value
    | NextWrite(next: nat)                // has loaded next_write_index_ again
    | Advanced                            // has stored the new index

  datatype Consumer =
    | Waiting
    | NonEmpty                            // size() was not zero
    | Holds(slot: nat)                    // has loaded next_read_index_
    | Took                                // has read the slot through the pointer
    | NextRead(next: nat)                 // has loaded next_read_index_ again
    | Left                                // has stored the new index
    | Checked                             // has passed the assertion
    | Aborted                             // has failed the assertion

  /** Shared memory, the two threads, and what has been written and read so far.
      A slot holds nothing definite while it is being written to. */
  datatype State<T> = State(
    store: seq<Option<T>>, nextWrite: nat, nextRead: nat, numElements: nat,
    producer: Producer<T>, consumer: Consumer, written: seq<T>, taken: seq<Option<T>>)

  ghost predicate Starts<T>(s: State<T>) {
    && s.nextWrite == 0 && s.nextRead == 0 && s.numElements == 0
    && s.producer == Idle && s.consumer == Waiting && s.written == [] && s.taken == []
  }

  /** One access by the producer, which has `value` to write when it is idle. */
  function Produce<T>(s: State<T>, value: T): State<T> {
    match s.producer
    case Idle => if s.numElements < |s.store| then s.(producer := HasRoom(value)) else s
    case HasRoom(v) => s.(producer := GotSlot(v, s.nextWrite))
    case GotSlot(v, slot) =>
      if slot < |s.store| then s.(producer := Writing(v, slot), store := s.store[slot := None]) else s
    case Writing(v, slot) =>
      if slot < |s.store| then s.(producer := Wrote, store := s.store[slot := Some(v)], written := s.written + [v]) else s
    case Wrote => if |s.store| > 0 then s.(producer := NextWrite(Slot(s.nextWrite + 1, |s.store|))) else s
    case NextWrite(next) => s.(producer := Advanced, nextWrite := next)
    case Advanced => s.(producer := Idle, numElements := s.numElements + 1)
  }

  function Consume<T>(s: State<T>): State<T> {
    match s.consumer
    case Waiting => if s.numElements != 0 then s.(consumer := NonEmpty) else s
    case NonEmpty => s.(consumer := Holds(s.nextRead))
    case Holds(slot) => if slot < |s.store| then s.(consumer := Took, taken := s.taken + [s.store[slot]]) else s
    case Took => if |s.store| > 0 then s.(consumer := NextRead(Slot(s.nextRead + 1, |s.store|))) else s
    case NextRead(next) => s.(consumer := Left, nextRead := next)
    case Left => s.(consumer := if s.numElements != 0 then Checked else Aborted)
    case Checked => s.(consumer := Waiting, numElements := if s.numElements > 0 then s.numElements - 1 else 0)
    case Aborted => s
  }

  datatype Turn<T> = ProducerTurn(value: T) | ConsumerTurn

  function Step<T>(s: State<T>, turn: Turn<T>): State<T> {
    match turn
    case ProducerTurn(value) => Produce(s, value)
    case ConsumerTurn => Consume(s)
  }

  ghost predicate IsRun<T>(states: seq<State<T>>, turns: seq<Turn<T>>) {
    && |states| == |turns| + 1 && Starts(states[0])
    && forall i :: 0 <= i < |turns| ==> states[i+1] == Step(states[i], turns[i])
  }

  // ---------------------------------------------------------------- the invariant

  /** Elements that the consumer has given up, and elements that the producer has published. */
  function Freed<T>(s: State<T>): int {
    if s.consumer.Took? || s.consumer.NextRead? || s.consumer.Left? || s.consumer.Checked? then |s.taken| - 1 else |s.taken|
  }

  function Published<T>(s: State<T>): int {
    if s.producer.Wrote? || s.producer.NextWrite? || s.producer.Advanced? then |s.written| - 1 else |s.written|
  }

  predicate ProducerOk<T>(s: State<T>) {
    var cap, n := |s.store|, Published(s);
    && 0 <= n
    && (!s.producer.Idle? ==> s.numElements < cap)
    && (cap > 0 ==> s.nextWrite == Slot(if s.producer.Advanced? then n + 1 else n, cap))
    && (s.producer.GotSlot? || s.producer.Writing? ==> cap > 0 && s.producer.slot == Slot(n, cap))
    && (s.producer.NextWrite? ==> cap > 0 && s.producer.next == Slot(n + 1, cap))
  }

  predicate ConsumerOk<T>(s: State<T>) {
    var cap, n := |s.store|, Freed(s);
    && 0 <= n && !s.consumer.Aborted?
    && (!s.consumer.Waiting? ==> s.numElements > 0)
    && (cap > 0 ==> s.nextRead == Slot(if s.consumer.Left? || s.consumer.Checked? then n + 1 else n, cap))
    && (s.consumer.Holds? ==> cap > 0 && s.consumer.slot == Slot(n, cap))
    && (s.consumer.NextRead? ==> cap > 0 && s.consumer.next == Slot(n + 1, cap))
  }

  /** Everything that has been written and not been given up is in its slot. */
  ghost predicate Stored<T>(s: State<T>) {
    forall i :: 0 <= Freed(s) <= i < |s.written| && |s.store| > 0 ==> s.store[Slot(i, |s.store|)] == Some(s.written[i])
  }

  /** What has been read is a prefix of what has been written. */
  ghost predicate ReadsAreWrites<T>(s: State<T>) {
    |s.taken| <= |s.written| && forall i :: 0 <= i < |s.taken| ==> s.taken[i] == Some(s.written[i])
  }

  ghost predicate Inv<T>(s: State<T>) {
    && s.numElements == Published(s) - Freed(s) <= |s.store|
    && ProducerOk(s) && ConsumerOk(s) && Stored(s) && ReadsAreWrites(s)
  }

  lemma ProduceKeepsStored<T>(s: State<T>, value: T)
    requires Inv(s)
    ensures Stored(Produce(s, value)) && ReadsAreWrites(Produce(s, value))
  {
    hide Slot;
    if s.producer.GotSlot? || s.producer.Writing? {
      WriteIsFree(s);
    }
  }

  lemma ProduceKeepsInv<T>(s: State<T>, value: T)
    requires Inv(s)
    ensures Inv(Produce(s, value))
  {
    hide Slot;
    ProduceKeepsStored(s, value);
    if s.producer.Wrote? {
      NextSlot(Published(s), |s.store|);
    }
    hide Stored, ReadsAreWrites;
  }

  /** The slot that the producer is about to write to, or is writing to, holds no element that is still needed. */
  lemma WriteIsFree<T>(s: State<T>)
    requires Inv(s) && (s.producer.GotSlot? || s.producer.Writing?)
    ensures forall i: nat :: Freed(s) <= i < |s.written| ==> Slot(i, |s.store|) != s.producer.slot
  {
    forall i: nat | Freed(s) <= i < |s.written|
      ensures Slot(i, |s.store|) != s.producer.slot
    {
      if Slot(i, |s.store|) == s.producer.slot {
        SameSlot(i, Published(s), |s.store|);
      }
    }
  }

  lemma ConsumeKeepsInv<T>(s: State<T>)
    requires Inv(s)
    ensures Inv(Consume(s))
  {
    hide Slot;
    if s.consumer.Took? {
      NextSlot(Freed(s), |s.store|);
    }
  }

  lemma StartIsOk<T>(s: State<T>)
    requires Starts(s)
    ensures Inv(s)
  {
  }

  lemma StepKeepsInv<T>(s: State<T>, turn: Turn<T>)
    requires Inv(s)
    ensures Inv(Step(s, turn))
  {
    hide Inv, Produce, Consume;
    match turn
    case ProducerTurn(value) => ProduceKeepsInv(s, value);
    case ConsumerTurn => ConsumeKeepsInv(s);
  }

  lemma {:induction false} EveryStateIsOk<T>(states: seq<State<T>>, turns: seq<Turn<T>>)
    requires IsRun(states, turns)
    ensures forall s <- states :: Inv(s)
  {
    var n := |turns|;
    if n == 0 {
      StartIsOk(states[0]);
    } else {
      EveryStateIsOk(states[..n], turns[..n-1]);
      assert states[n-1] in states[..n];
      StepKeepsInv(states[n-1], turns[n-1]);
      hide Inv, Step;
      assert states[n] == Step(states[n-1], turns[n-1]);
      assert states == states[..n] + [states[n]];
    }
  }

  // ---------------------------------------------------------------- the theorems

  /** Whatever the interleaving, the values read are a prefix of the values written, each of them complete. */
  lemma ReadsArePrefix<T>(states: seq<State<T>>, turns: seq<Turn<T>>, s: State<T>)
    requires IsRun(states, turns) && s in states
    ensures |s.taken| <= |s.written| && s.taken == seq(|s.taken|, i requires 0 <= i < |s.taken| => Some(s.written[i]))
  {
    hide Slot;
    EveryStateIsOk(states, turns);
    assert Inv(s);
  }

  /** The assertion in `updateReadIndex` never fails, and there are never more elements than slots. */
  lemma AssertionHolds<T>(states: seq<State<T>>, turns: seq<Turn<T>>, s: State<T>)
    requires IsRun(states, turns) && s in states
    ensures !s.consumer.Aborted? && (s.consumer.Left? ==> s.numElements != 0) && s.numElements <= |s.store|
  {
    hide Slot;
    EveryStateIsOk(states, turns);
    assert Inv(s);
  }

  /** No turn of the producer touches the slot that the consumer is reading, or one that is waiting to be read. */
  lemma NothingIsOverwritten<T>(states: seq<State<T>>, turns: seq<Turn<T>>, s: State<T>, value: T)
    requires IsRun(states, turns) && s in states
    ensures var r := Produce(s, value);
            && |r.store| == |s.store|
            && (s.consumer.Holds? ==> s.consumer.slot < |s.store| && r.store[s.consumer.slot] == s.store[s.consumer.slot])
            && forall i :: |s.taken| <= i < |s.written| ==>
                 |s.store| > 0 && s.store[Slot(i, |s.store|)] == Some(s.written[i]) == r.store[Slot(i, |s.store|)]
  {
    hide Slot;
    EveryStateIsOk(states, turns);
    assert Inv(s);
    if s.producer.GotSlot? || s.producer.Writing? {
      WriteIsFree(s);
      if s.consumer.Holds? {
        assert Freed(s) < |s.written|;
      }
    }
    ProduceKeepsInv(s, value);
  }

  /** The check of the producer is exactly what is needed: the slot at the write index is free just below the capacity. */
  lemma CheckIsExact<T>(states: seq<State<T>>, turns: seq<Turn<T>>, s: State<T>)
    requires IsRun(states, turns) && s in states && s.producer == Idle && |s.store| > 0
    ensures s.nextWrite < |s.store|
    ensures s.numElements < |s.store| <==> forall i: nat :: Freed(s) <= i < |s.written| ==> Slot(i, |s.store|) != s.nextWrite
  {
    hide Slot;
    EveryStateIsOk(states, turns);
    assert Inv(s);
    var cap, n := |s.store|, |s.written|;
    if s.numElements < cap {
      forall i: nat | Freed(s) <= i < n
        ensures Slot(i, cap) != s.nextWrite
      {
        if Slot(i, cap) == s.nextWrite {
          SameSlot(i, n, cap);
        }
      }
    } else {
      Shift(n - cap, 0, cap);
      assert Slot(n, cap) == Slot(n - cap, cap) by {
        Round(n - cap, cap);
      }
      assert Freed(s) <= n - cap < n;
    }
  }

  lemma Round(i: nat, cap: nat)
    requires cap > 0
    ensures Slot(i + cap, cap) == Slot(i, cap)
  {
    var m := i / cap;
    assert i + cap == cap * (m + 1) + i % cap;
    Remainder(i + cap, m + 1, i % cap, cap);
  }

  /** The element that is the `i`-th to be read from now on. */
  function Nth<T>(s: State<T>, i: nat): Option<T>
    requires |s.store| > 0
  {
    s.store[Slot(s.nextRead + i, |s.store|)]
  }

  lemma InItsSlot<T>(s: State<T>, i: nat)
    requires Inv(s) && s.producer == Idle && s.consumer == Waiting && i < s.numElements
    ensures |s.store| > 0 && Nth(s, i) == Some(s.written[|s.taken| + i])
  {
    Shift(|s.taken|, i, |s.store|);
    assert s.store[Slot(|s.taken| + i, |s.store|)] == Some(s.written[|s.taken| + i]);
  }

  /** Between operations, what has been written is what has been read and what is stored, in this order. */
  lemma NothingIsLost<T>(states: seq<State<T>>, turns: seq<Turn<T>>, s: State<T>)
    requires IsRun(states, turns) && s in states && s.producer == Idle && s.consumer == Waiting
    ensures |s.written| == |s.taken| + s.numElements
    ensures forall i: nat :: i < s.numElements ==> |s.store| > 0 && Nth(s, i) == Some(s.written[|s.taken| + i])
  {
    EveryStateIsOk(states, turns);
    assert Inv(s);
    forall i: nat | i < s.numElements
      ensures |s.store| > 0 && Nth(s, i) == Some(s.written[|s.taken| + i])
    {
      InItsSlot(s, i);
    }
  }
}
