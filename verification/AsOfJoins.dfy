/**
 Three ways to line up time series that were observed at different times: through an ordered map, through a
 sorted vector with binary search, and on a regular grid with two pointers.  The first two are proved to compute the
 as-of join of all series, up to the cells before the first observation; the third does so on sorted series,
 exactly if the grid does not wrap around.
 */
module AsOfJoins {
  import opened Options

  const TWO_TO_THE_32: int := 0x1_0000_0000
  type uint32 = x: int | 0 <= x < TWO_TO_THE_32

  datatype Series = Series(timestamps: seq<uint32>, values: seq<real>) {
    /** Each timestamp has a value. */
    predicate Complete() {
      |timestamps| <= |values|
    }

    predicate Matched() {
      |timestamps| == |values|
    }
  }

  type Row = seq<Option<real>>

  // ---------------------------------------------------------------- the value as of a time

  /** Observation `i` is the one that counts at time `t`: no other one up to `t` is later, and among
      those at the same timestamp it is the last one in the series. */
  predicate Counts(s: Series, i: nat, t: int) {
    && i < |s.timestamps| && s.timestamps[i] <= t
    && forall j :: 0 <= j < |s.timestamps| && s.timestamps[j] <= t ==>
         s.timestamps[j] < s.timestamps[i] || (s.timestamps[j] == s.timestamps[i] && j <= i)
  }

  /** The observation that counts among the first `n`. */
  function Best(s: Series, n: nat, t: int): (i: Option<nat>)
    requires n <= |s.timestamps|
    ensures i.Some? ==> i.value < n
  {
    if n == 0 then None else
    var i := Best(s, n - 1, t);
    if s.timestamps[n-1] <= t && (i.None? || s.timestamps[i.value] <= s.timestamps[n-1]) then Some(n - 1) else i
  }

  function AsOf(s: Series, t: int): Option<real>
    requires s.Complete()
  {
    var i := Best(s, |s.timestamps|, t);
    if i.Some? then Some(s.values[i.value]) else None
  }

  lemma {:induction false} BestOfFirst(s: Series, n: nat, t: int)
    requires n <= |s.timestamps|
    ensures match Best(s, n, t)
            case None => forall j :: 0 <= j < n ==> s.timestamps[j] > t
            case Some(i) =>
              && s.timestamps[i] <= t
              && forall j :: 0 <= j < n && s.timestamps[j] <= t ==>
                   s.timestamps[j] < s.timestamps[i] || (s.timestamps[j] == s.timestamps[i] && j <= i)
  {
    if n > 0 {
      BestOfFirst(s, n - 1, t);
    }
  }

  /** The value as of `t` is that of the observation that counts; there is none just if all observations are later. */
  lemma AsOfIsLatest(s: Series, t: int)
    requires s.Complete()
    ensures AsOf(s, t) == None <==> forall j :: 0 <= j < |s.timestamps| ==> s.timestamps[j] > t
    ensures forall i: nat :: Counts(s, i, t) ==> AsOf(s, t) == Some(s.values[i])
    ensures AsOf(s, t).Some? ==> exists i: nat :: Counts(s, i, t)
  {
    BestOfFirst(s, |s.timestamps|, t);
    var b := Best(s, |s.timestamps|, t);
    if b.Some? {
      assert Counts(s, b.value, t);
    }
  }

  /** The value observed exactly at `t` among the first `n` observations; a later entry replaces an earlier one. */
  function Exactly(s: Series, n: nat, t: int): Option<real>
    requires n <= |s.timestamps| && s.Complete()
  {
    if n == 0 then None
    else if s.timestamps[n-1] == t then Some(s.values[n-1])
    else Exactly(s, n - 1, t)
  }

  lemma {:induction false} ExactlyIsLast(s: Series, n: nat, t: int) returns (i: Option<nat>)
    requires n <= |s.timestamps| && s.Complete()
    ensures match i
            case None => Exactly(s, n, t) == None && forall j :: 0 <= j < n ==> s.timestamps[j] != t
            case Some(i) => i < n && s.timestamps[i] == t && Exactly(s, n, t) == Some(s.values[i]) &&
                            forall j :: i < j < n ==> s.timestamps[j] != t
  {
    if n == 0 {
      i := None;
    } else if s.timestamps[n-1] == t {
      i := Some(n - 1);
    } else {
      i := ExactlyIsLast(s, n - 1, t);
    }
  }

  /** An observation at `t` itself is the value as of `t`. */
  lemma ObservedNow(s: Series, t: int)
    requires s.Complete() && Exactly(s, |s.timestamps|, t).Some?
    ensures AsOf(s, t) == Exactly(s, |s.timestamps|, t)
  {
    var i := ExactlyIsLast(s, |s.timestamps|, t);
    assert Counts(s, i.value, t);
    AsOfIsLatest(s, t);
  }

  /** Without an observation after `before` and up to `t`, the value is carried forward. */
  lemma CarriedForward(s: Series, before: int, t: int)
    requires s.Complete() && before <= t
    requires forall j :: 0 <= j < |s.timestamps| ==> s.timestamps[j] <= before || s.timestamps[j] > t
    ensures AsOf(s, t) == AsOf(s, before)
  {
    AsOfIsLatest(s, before);
    AsOfIsLatest(s, t);
    if i: nat :| Counts(s, i, before) {
      assert Counts(s, i, t);
    }
  }

  // ---------------------------------------------------------------- rows

  function Or(o: Option<real>, default: Option<real>): Option<real> {
    if o.Some? then o else default
  }

  /** The row of the join at time `t`, with `default` before the first observation. */
  ghost function RowAt(indicators: seq<Series>, t: int, default: Option<real>): (row: Row)
    requires forall s <- indicators :: s.Complete()
    ensures |row| == |indicators|
  {
    seq(|indicators|, j requires 0 <= j < |indicators| => assert indicators[j] in indicators; Or(AsOf(indicators[j], t), default))
  }

  ghost predicate Observed(indicators: seq<Series>, t: int) {
    exists s <- indicators :: t in s.timestamps
  }

  predicate Increasing(times: seq<uint32>) {
    forall i, j :: 0 <= i < j < |times| ==> times[i] < times[j]
  }

  /** All timestamps, once each and in increasing order. */
  ghost predicate IsTimeline(times: seq<uint32>, indicators: seq<Series>) {
    Increasing(times) && forall t: uint32 :: t in times <==> Observed(indicators, t)
  }

  predicate NonDecreasing(q: seq<uint32>) {
    forall i, j :: 0 <= i < j < |q| ==> q[i] <= q[j]
  }

  function Insert(q: seq<uint32>, t: uint32): (r: seq<uint32>)
    ensures forall x: uint32 :: x in r <==> x in q || x == t
  {
    if q == [] then [t]
    else if t <= q[0] then [t] + q
    else
      assert q == [q[0]] + q[1..];
      [q[0]] + Insert(q[1..], t)
  }

  /** `std::sort`. */
  function Sort(q: seq<uint32>): (r: seq<uint32>)
    ensures forall x: uint32 :: x in r <==> x in q
  {
    if q == [] then [] else
    assert q == [q[0]] + q[1..];
    Insert(Sort(q[1..]), q[0])
  }

  lemma {:induction false} InsertKeepsOrder(q: seq<uint32>, t: uint32)
    requires NonDecreasing(q)
    ensures NonDecreasing(Insert(q, t))
  {
    if q != [] && t > q[0] {
      InsertKeepsOrder(q[1..], t);
      var rest := Insert(q[1..], t);
      forall j | 0 <= j < |rest|
        ensures q[0] <= rest[j]
      {
        assert rest[j] in rest;
      }
    }
  }

  lemma {:induction false} SortOrders(q: seq<uint32>)
    ensures NonDecreasing(Sort(q))
  {
    if q != [] {
      SortOrders(q[1..]);
      InsertKeepsOrder(Sort(q[1..]), q[0]);
    }
  }

  /** `std::unique` and the `erase` behind it: of equal neighbours only the first is kept. */
  function Unique(q: seq<uint32>): (r: seq<uint32>)
    ensures forall x: uint32 :: x in r <==> x in q
  {
    if q == [] then [] else
    var n := |q| - 1;
    assert q == q[..n] + [q[n]];
    if n > 0 && q[n] == q[n-1] then assert q[n-1] in q[..n]; Unique(q[..n]) else Unique(q[..n]) + [q[n]]
  }

  lemma {:induction false} UniqueIsIncreasing(q: seq<uint32>)
    requires NonDecreasing(q)
    ensures Increasing(Unique(q))
  {
    if q != [] {
      var n := |q| - 1;
      UniqueIsIncreasing(q[..n]);
      var r := Unique(q[..n]);
      forall i | 0 <= i < |r| && (n > 0 ==> q[n-1] < q[n])
        ensures r[i] < q[n]
      {
        assert r[i] in r;
      }
    }
  }

  function AllTimestamps(indicators: seq<Series>): seq<uint32> {
    if indicators == [] then [] else
    AllTimestamps(indicators[..|indicators|-1]) + indicators[|indicators|-1].timestamps
  }

  function Timeline(indicators: seq<Series>): seq<uint32> {
    Unique(Sort(AllTimestamps(indicators)))
  }

  lemma {:induction false} AllAreObserved(indicators: seq<Series>, t: uint32)
    ensures t in AllTimestamps(indicators) <==> Observed(indicators, t)
  {
    if indicators != [] {
      var n := |indicators| - 1;
      AllAreObserved(indicators[..n], t);
      assert indicators == indicators[..n] + [indicators[n]];
      assert Observed(indicators, t) <==> Observed(indicators[..n], t) || t in indicators[n].timestamps;
    }
  }

  /** The timeline is all timestamps, once each and in increasing order. */
  lemma TimelineIsComplete(indicators: seq<Series>)
    ensures IsTimeline(Timeline(indicators), indicators)
  {
    var all := AllTimestamps(indicators);
    SortOrders(all);
    UniqueIsIncreasing(Sort(all));
    forall t: uint32
      ensures t in Timeline(indicators) <==> Observed(indicators, t)
    {
      AllAreObserved(indicators, t);
    }
  }

  ghost predicate RowsAt(rows: seq<Row>, times: seq<uint32>, indicators: seq<Series>, default: Option<real>) {
    && (forall s <- indicators :: s.Complete())
    && |rows| == |times| && forall m :: 0 <= m < |times| ==> rows[m] == RowAt(indicators, times[m], default)
  }

  /** One row for each time of the timeline. */
  ghost predicate IsJoin(rows: seq<Row>, indicators: seq<Series>, default: Option<real>) {
    RowsAt(rows, Timeline(indicators), indicators, default)
  }

  lemma SameEmptiness(p: seq<uint32>, q: seq<uint32>)
    requires forall t: uint32 :: t in p <==> t in q
    ensures p == [] <==> q == []
  {
    if p != [] {
      assert p[0] in p;
    }
    if q != [] {
      assert q[0] in q;
    }
  }

  /** There is only one such order of the timestamps. */
  lemma {:induction false} TimelineIsUnique(p: seq<uint32>, q: seq<uint32>)
    requires Increasing(p) && Increasing(q) && forall t: uint32 :: t in p <==> t in q
    ensures p == q
  {
    SameEmptiness(p, q);
    if p != [] {
      var m, n := |p| - 1, |q| - 1;
      assert p[m] in q && q[n] in p;
      assert p[m] == q[n];
      forall t: uint32
        ensures t in p[..m] <==> t in q[..n]
      {
        assert t in p <==> t in p[..m] || t == p[m];
        assert t in q <==> t in q[..n] || t == q[n];
      }
      TimelineIsUnique(p[..m], q[..n]);
      assert p == p[..m] + [p[m]] && q == q[..n] + [q[n]];
    }
  }

  /** Two joins of the same series differ in nothing but what stands before the first observation of a series. */
  lemma JoinsAgree(rows: seq<Row>, default: Option<real>, others: seq<Row>, default': Option<real>, indicators: seq<Series>)
    requires IsJoin(rows, indicators, default) && IsJoin(others, indicators, default')
    ensures var times := Timeline(indicators);
            && |rows| == |others| == |times|
            && forall m, j :: 0 <= m < |rows| && 0 <= j < |indicators| ==>
                 && |rows[m]| == |others[m]| == |indicators|
                 && if forall t <- indicators[j].timestamps :: t > times[m] then rows[m][j] == default && others[m][j] == default'
                    else rows[m][j] == others[m][j]
  {
    var times := Timeline(indicators);
    forall m, j | 0 <= m < |rows| && 0 <= j < |indicators|
      ensures |rows[m]| == |others[m]| == |indicators|
      ensures if forall t <- indicators[j].timestamps :: t > times[m] then rows[m][j] == default && others[m][j] == default'
              else rows[m][j] == others[m][j]
    {
      var s := indicators[j];
      assert s in indicators;
      AsOfIsLatest(s, times[m]);
      if forall t <- s.timestamps :: t > times[m] {
        assert forall i :: 0 <= i < |s.timestamps| ==> s.timestamps[i] in s.timestamps;
      }
    }
  }

  // ---------------------------------------------------------------- through an ordered map

  type Table = map<uint32, Row>

  /** What the table holds for series `j` at time `t`. */
  function Entry(table: Table, t: uint32, j: nat): Option<real> {
    if t in table && j < |table[t]| then table[t][j] else None
  }

  /** How many observations of series `j` have been entered while observation `i` of series `k` is next. */
  function Entered(indicators: seq<Series>, k: nat, i: nat, j: nat): nat
    requires j < |indicators|
  {
    if j < k then |indicators[j].timestamps| else if j == k && i <= |indicators[j].timestamps| then i else 0
  }

  ghost predicate Filled(table: Table, indicators: seq<Series>, k: nat, i: nat) {
    && k <= |indicators|
    && (forall j :: 0 <= j < k ==> indicators[j].Matched())
    && (forall t: uint32, j :: 0 <= j < |indicators| && indicators[j].Complete() ==>
          Entry(table, t, j) == Exactly(indicators[j], Entered(indicators, k, i, j), t))
    && (forall t <- table :: Observed(indicators, t))
    && (forall j, n :: 0 <= j < |indicators| && 0 <= n < Entered(indicators, k, i, j) ==> indicators[j].timestamps[n] in table)
  }

  /** `combinedIndicators[timestamp][indicatorIndex] = value`, after making the vector large enough. */
  function Put(table: Table, t: uint32, j: nat, value: real): Table {
    var row := if t in table then table[t] else [];
    var wide := if |row| <= j then row + seq(j + 1 - |row|, _ => None) else row;
    table[t := wide[j := Some(value)]]
  }

  lemma PutEntry(table: Table, t: uint32, j: nat, value: real, t': uint32, j': nat)
    ensures Entry(Put(table, t, j, value), t', j') == if t' == t && j' == j then Some(value) else Entry(table, t', j')
  {
  }

  lemma FillOne(table: Table, indicators: seq<Series>, k: nat, i: nat)
    requires k < |indicators| && indicators[k].Matched() && i < |indicators[k].timestamps|
    requires Filled(table, indicators, k, i)
    ensures Filled(Put(table, indicators[k].timestamps[i], k, indicators[k].values[i]), indicators, k, i + 1)
  {
    var now := indicators[k].timestamps[i];
    var next := Put(table, now, k, indicators[k].values[i]);
    forall t: uint32, j | 0 <= j < |indicators| && indicators[j].Complete()
      ensures Entry(next, t, j) == Exactly(indicators[j], Entered(indicators, k, i + 1, j), t)
    {
      PutEntry(table, now, k, indicators[k].values[i], t, j);
    }
    assert now in indicators[k].timestamps && indicators[k] in indicators;
    assert next.Keys == table.Keys + {now};
  }

  lemma FillNext(table: Table, indicators: seq<Series>, k: nat)
    requires k < |indicators| && indicators[k].Matched()
    requires Filled(table, indicators, k, |indicators[k].timestamps|)
    ensures Filled(table, indicators, k + 1, 0)
  {
    forall j | 0 <= j < |indicators|
      ensures Entered(indicators, k + 1, 0, j) == Entered(indicators, k, |indicators[k].timestamps|, j)
    {
    }
  }

  /** The first loop; the exception for series of unequal length is an absent result. */
  method BuildTable(indicators: seq<Series>) returns (result: Option<Table>)
    ensures result == None <==> exists s <- indicators :: !s.Matched()
    ensures result.Some? ==> Filled(result.value, indicators, |indicators|, 0)
  {
    var table: Table := map[];
    for k := 0 to |indicators|
      invariant Filled(table, indicators, k, 0)
    {
      var s := indicators[k];
      if |s.timestamps| != |s.values| {
        assert s in indicators;
        return None;
      }
      hide Filled;
      for i := 0 to |s.timestamps|
        invariant Filled(table, indicators, k, i)
      {
        FillOne(table, indicators, k, i);
        table := Put(table, s.timestamps[i], k, s.values[i]);
      }
      FillNext(table, indicators, k);
    }
    return Some(table);
  }

  /** One row of a forward fill: a missing value is replaced by the last one that was seen. */
  method FillRow(values: Row, lastSeen: Row) returns (row: Row)
    ensures |row| == |lastSeen|
    ensures forall j :: 0 <= j < |row| ==> row[j] == Or(if j < |values| then values[j] else None, lastSeen[j])
  {
    row := [];
    for j := 0 to |lastSeen|
      invariant |row| == j
      invariant forall i :: 0 <= i < j ==> row[i] == Or(if i < |values| then values[i] else None, lastSeen[i])
    {
      row := row + [if j < |values| && values[j].Some? then values[j] else lastSeen[j]];
    }
  }

  /** The timestamps up to `last` have been handled, and `seen` is the row at `last`. */
  ghost predicate Carried(indicators: seq<Series>, last: int, seen: Row, default: Option<real>) {
    && |seen| == |indicators|
    && forall j :: 0 <= j < |indicators| ==> indicators[j].Complete() && seen[j] == Or(AsOf(indicators[j], last), default)
  }

  lemma NothingYet(indicators: seq<Series>, seen: Row, default: Option<real>)
    requires forall s <- indicators :: s.Complete()
    requires |seen| == |indicators| && forall j :: 0 <= j < |seen| ==> seen[j] == default
    ensures Carried(indicators, -1, seen, default)
  {
    forall j | 0 <= j < |indicators|
      ensures indicators[j].Complete() && AsOf(indicators[j], -1) == None
    {
      assert indicators[j] in indicators;
      AsOfIsLatest(indicators[j], -1);
    }
  }

  /** The filled row at the next timestamp. */
  lemma NextRow(indicators: seq<Series>, last: int, seen: Row, default: Option<real>, t: uint32, values: Row, row: Row)
    requires Carried(indicators, last, seen, default) && last < t
    requires forall j, n :: 0 <= j < |indicators| && 0 <= n < |indicators[j].timestamps| ==>
      indicators[j].timestamps[n] <= last || indicators[j].timestamps[n] >= t
    requires forall j :: 0 <= j < |indicators| ==>
      (if j < |values| then values[j] else None) == Exactly(indicators[j], |indicators[j].timestamps|, t)
    requires |row| == |seen|
    requires forall j :: 0 <= j < |row| ==> row[j] == Or(if j < |values| then values[j] else None, seen[j])
    ensures Carried(indicators, t, row, default)
    ensures (forall s <- indicators :: s.Complete()) && row == RowAt(indicators, t, default)
  {
    forall j | 0 <= j < |indicators|
      ensures row[j] == Or(AsOf(indicators[j], t), default)
    {
      var s := indicators[j];
      if Exactly(s, |s.timestamps|, t).Some? {
        ObservedNow(s, t);
      } else {
        var i := ExactlyIsLast(s, |s.timestamps|, t);
        CarriedForward(s, last, t);
      }
    }
  }

  lemma {:induction false} Minimum(s: set<uint32>) returns (least: uint32)
    requires s != {}
    ensures least in s && forall t <- s :: least <= t
  {
    var t :| t in s;
    if s == {t} {
      least := t;
    } else {
      var other := Minimum(s - {t});
      least := if other < t then other else t;
      assert forall x <- s :: x == t || x in s - {t};
    }
  }

  function LastOf(times: seq<uint32>): int {
    if times == [] then -1 else times[|times|-1]
  }

  predicate Splits(keys: set<uint32>, times: seq<uint32>, rest: set<uint32>) {
    forall t: uint32 :: t in keys <==> t in times || t in rest
  }

  lemma SplitNext(keys: set<uint32>, times: seq<uint32>, rest: set<uint32>, t: uint32)
    requires Splits(keys, times, rest) && t in rest
    ensures Splits(keys, times + [t], rest - {t})
  {
    forall x: uint32
      ensures x in keys <==> x in times + [t] || x in rest - {t}
    {
      assert x in times + [t] <==> x in times || x == t;
    }
  }

  lemma OneMoreRow(rows: seq<Row>, times: seq<uint32>, indicators: seq<Series>, default: Option<real>, row: Row, t: uint32)
    requires RowsAt(rows, times, indicators, default) && row == RowAt(indicators, t, default)
    ensures RowsAt(rows + [row], times + [t], indicators, default)
  {
    hide RowAt;
  }

  /** The keys in `times` have been handled, in increasing order, and those in `rest` have not. */
  ghost predicate Walking(table: Table, indicators: seq<Series>, rows: seq<Row>, times: seq<uint32>, rest: set<uint32>, seen: Row) {
    && Increasing(times) && Splits(table.Keys, times, rest)
    && (forall t <- rest :: LastOf(times) < t)
    && RowsAt(rows, times, indicators, Some(0.0))
    && Carried(indicators, LastOf(times), seen, Some(0.0))
  }

  lemma StartWalking(table: Table, indicators: seq<Series>, seen: Row)
    requires Filled(table, indicators, |indicators|, 0)
    requires |seen| == |indicators| && forall j :: 0 <= j < |seen| ==> seen[j] == Some(0.0)
    ensures Walking(table, indicators, [], [], table.Keys, seen)
  {
    NothingYet(indicators, seen, Some(0.0));
  }

  lemma WalkOn(table: Table, indicators: seq<Series>, rows: seq<Row>, times: seq<uint32>, rest: set<uint32>, seen: Row,
               t: uint32, row: Row)
    requires Filled(table, indicators, |indicators|, 0) && Walking(table, indicators, rows, times, rest, seen)
    requires t in rest && (forall x <- rest :: t <= x) && t in table
    requires |row| == |seen| && forall j :: 0 <= j < |row| ==> row[j] == Or(if j < |table[t]| then table[t][j] else None, seen[j])
    ensures Walking(table, indicators, rows + [row], times + [t], rest - {t}, row)
  {
    hide Filled, RowAt, Carried, Increasing, LastOf, RowsAt, Splits, Or;
    WalkedRow(table, indicators, rows, times, rest, seen, t, row);
    Appended(times, t);
    SplitNext(table.Keys, times, rest, t);
    OneMoreRow(rows, times, indicators, Some(0.0), row, t);
  }

  lemma WalkedRow(table: Table, indicators: seq<Series>, rows: seq<Row>, times: seq<uint32>, rest: set<uint32>, seen: Row,
                  t: uint32, row: Row)
    requires Filled(table, indicators, |indicators|, 0) && Walking(table, indicators, rows, times, rest, seen)
    requires t in rest && (forall x <- rest :: t <= x) && t in table
    requires |row| == |seen| && forall j :: 0 <= j < |row| ==> row[j] == Or(if j < |table[t]| then table[t][j] else None, seen[j])
    ensures LastOf(times) < t && Carried(indicators, t, row, Some(0.0)) && row == RowAt(indicators, t, Some(0.0))
  {
    hide Or, Exactly, RowAt, AsOf;
    forall j, n | 0 <= j < |indicators| && 0 <= n < |indicators[j].timestamps|
      ensures indicators[j].timestamps[n] <= LastOf(times) || indicators[j].timestamps[n] >= t
    {
      assert n < Entered(indicators, |indicators|, 0, j);
      BeforeOrAfter(times, rest, indicators[j].timestamps[n], t);
    }
    forall j | 0 <= j < |indicators|
      ensures (if j < |table[t]| then table[t][j] else None) == Exactly(indicators[j], |indicators[j].timestamps|, t)
    {
      assert Entry(table, t, j) == Exactly(indicators[j], Entered(indicators, |indicators|, 0, j), t);
    }
    NextRow(indicators, LastOf(times), seen, Some(0.0), t, table[t], row);
  }

  lemma BeforeOrAfter(times: seq<uint32>, rest: set<uint32>, x: uint32, t: uint32)
    requires Increasing(times) && (x in times || x in rest) && forall y <- rest :: t <= y
    ensures x <= LastOf(times) || x >= t
  {
  }

  lemma Appended(times: seq<uint32>, t: uint32)
    requires Increasing(times) && LastOf(times) < t
    ensures Increasing(times + [t]) && LastOf(times + [t]) == t
    ensures forall x: uint32 :: x in times + [t] <==> x in times || x == t
  {
  }

  /** `combineIndicators`. */
  method CombineIndicators(indicators: seq<Series>) returns (result: Option<seq<Row>>)
    ensures result == None <==> exists s <- indicators :: !s.Matched()
    ensures result.Some? ==> IsJoin(result.value, indicators, Some(0.0))
  {
    var filled := BuildTable(indicators);
    if filled.None? {
      return None;
    }
    ghost var times: seq<uint32> := [];
    var table := filled.value;
    var rows: seq<Row> := [];
    var lastSeen: Row := seq(|indicators|, _ => Some(0.0));
    StartWalking(table, indicators, lastSeen);
    var rest := table.Keys;
    hide Filled, Walking;
    while rest != {}
      invariant Walking(table, indicators, rows, times, rest, lastSeen) && rest <= table.Keys
      decreases rest
    {
      ghost var least := Minimum(rest);
      var t :| t in rest && forall x <- rest :: t <= x;  // the map is ordered
      var row := FillRow(table[t], lastSeen);
      Wide(table, indicators, rows, times, rest, lastSeen);
      WalkOn(table, indicators, rows, times, rest, lastSeen, t, row);
      rows, times, rest, lastSeen := rows + [row], times + [t], rest - {t}, row;
    }
    EndOfWalk(table, indicators, rows, times, lastSeen);
    return Some(rows);
  }

  lemma Wide(table: Table, indicators: seq<Series>, rows: seq<Row>, times: seq<uint32>, rest: set<uint32>, seen: Row)
    requires Walking(table, indicators, rows, times, rest, seen)
    ensures |seen| == |indicators|
  {
  }

  lemma EndOfWalk(table: Table, indicators: seq<Series>, rows: seq<Row>, times: seq<uint32>, seen: Row)
    requires Filled(table, indicators, |indicators|, 0) && Walking(table, indicators, rows, times, {}, seen)
    ensures IsJoin(rows, indicators, Some(0.0))
  {
    forall t: uint32
      ensures t in times <==> Observed(indicators, t)
    {
      if s :| s in indicators && t in s.timestamps {
        var j :| 0 <= j < |indicators| && indicators[j] == s;
        var n :| 0 <= n < |s.timestamps| && s.timestamps[n] == t;
        assert n < Entered(indicators, |indicators|, 0, j);
      }
    }
    TimelineIsComplete(indicators);
    TimelineIsUnique(times, Timeline(indicators));
  }

  // ---------------------------------------------------------------- through a sorted vector

  /** `std::lower_bound`, by bisection: the first position whose timestamp is not below `t`. */
  method LowerBound(q: seq<uint32>, t: uint32) returns (i: nat)
    requires NonDecreasing(q)
    ensures i <= |q| && (forall k :: 0 <= k < i ==> q[k] < t) && (forall k :: i <= k < |q| ==> q[k] >= t)
  {
    var hi := |q|;
    i := 0;
    while i < hi
      invariant i <= hi <= |q|
      invariant forall k :: 0 <= k < i ==> q[k] < t
      invariant forall k :: hi <= k < |q| ==> q[k] >= t
    {
      var mid := (i + hi) / 2;
      if q[mid] < t {
        i := mid + 1;
      } else {
        hi := mid;
      }
    }
  }

  /** The timestamps of all series, sorted and without duplicates. */
  method CollectTimestamps(indicators: seq<Series>) returns (times: seq<uint32>)
    ensures times == Timeline(indicators)
  {
    var all: seq<uint32> := [];
    for k := 0 to |indicators|
      invariant all == AllTimestamps(indicators[..k])
    {
      assert indicators[..k+1][..k] == indicators[..k];
      all := all + indicators[k].timestamps;
    }
    assert indicators[..|indicators|] == indicators;
    return Unique(Sort(all));
  }

  /** The cells hold the observations that have been entered so far. */
  ghost predicate Placed(rows: seq<Row>, times: seq<uint32>, indicators: seq<Series>, k: nat, i: nat) {
    && |rows| == |times| && k <= |indicators|
    && forall m :: 0 <= m < |times| ==> PlacedAt(rows[m], times[m], indicators, k, i)
  }

  ghost predicate PlacedAt(row: Row, t: uint32, indicators: seq<Series>, k: nat, i: nat) {
    && |row| == |indicators| && (forall s <- indicators :: s.Complete())
    && forall j :: 0 <= j < |indicators| ==> indicators[j].Complete() && row[j] == Exactly(indicators[j], Entered(indicators, k, i, j), t)
  }

  lemma PlaceOne(rows: seq<Row>, times: seq<uint32>, indicators: seq<Series>, k: nat, i: nat, index: nat)
    requires Placed(rows, times, indicators, k, i) && k < |indicators| && i < |indicators[k].timestamps| && indicators[k].Complete()
    requires Increasing(times) && index < |times| && times[index] == indicators[k].timestamps[i] && |rows[index]| == |indicators|
    ensures Placed(rows[index := rows[index][k := Some(indicators[k].values[i])]], times, indicators, k, i + 1)
  {
    var next := rows[index := rows[index][k := Some(indicators[k].values[i])]];
    forall m | 0 <= m < |times|
      ensures PlacedAt(next[m], times[m], indicators, k, i + 1)
    {
      assert PlacedAt(rows[m], times[m], indicators, k, i);
      assert m != index ==> times[m] != times[index];
    }
  }

  lemma PlaceNext(rows: seq<Row>, times: seq<uint32>, indicators: seq<Series>, k: nat)
    requires k < |indicators| && Placed(rows, times, indicators, k, |indicators[k].timestamps|)
    ensures Placed(rows, times, indicators, k + 1, 0)
  {
    forall j | 0 <= j < |indicators|
      ensures Entered(indicators, k + 1, 0, j) == Entered(indicators, k, |indicators[k].timestamps|, j)
    {
    }
    forall m | 0 <= m < |times|
      ensures PlacedAt(rows[m], times[m], indicators, k + 1, 0)
    {
      assert PlacedAt(rows[m], times[m], indicators, k, |indicators[k].timestamps|);
    }
  }

  lemma NothingPlaced(rows: seq<Row>, times: seq<uint32>, indicators: seq<Series>)
    requires forall s <- indicators :: s.Complete()
    requires |rows| == |times| && forall m :: 0 <= m < |rows| ==> rows[m] == seq(|indicators|, _ => None)
    ensures Placed(rows, times, indicators, 0, 0)
  {
    forall m | 0 <= m < |times|
      ensures PlacedAt(rows[m], times[m], indicators, 0, 0)
    {
      forall j | 0 <= j < |indicators|
        ensures indicators[j].Complete()
      {
        assert indicators[j] in indicators;
      }
    }
  }

  method PlaceAll(indicators: seq<Series>, times: seq<uint32>) returns (rows: seq<Row>)
    requires (forall s <- indicators :: s.Complete()) && IsTimeline(times, indicators)
    ensures Placed(rows, times, indicators, |indicators|, 0)
  {
    rows := seq(|times|, _ => seq(|indicators|, _ => None));
    NothingPlaced(rows, times, indicators);
    hide Placed;
    for k := 0 to |indicators|
      invariant Placed(rows, times, indicators, k, 0)
    {
      rows := PlaceSeries(indicators, times, rows, k);
      PlaceNext(rows, times, indicators, k);
    }
  }

  method PlaceSeries(indicators: seq<Series>, times: seq<uint32>, start: seq<Row>, k: nat) returns (rows: seq<Row>)
    requires (forall s <- indicators :: s.Complete()) && IsTimeline(times, indicators) && k < |indicators|
    requires Placed(start, times, indicators, k, 0)
    ensures Placed(rows, times, indicators, k, |indicators[k].timestamps|)
  {
    rows := start;
    var s := indicators[k];
    assert s in indicators;
    hide PlacedAt;
    for i := 0 to |s.timestamps|
      invariant Placed(rows, times, indicators, k, i)
    {
      var index := LowerBound(times, s.timestamps[i]);
      FoundAt(indicators, times, s, i, index);
      Width(rows, times, indicators, k, i, index);
      PlaceOne(rows, times, indicators, k, i, index);
      rows := rows[index := rows[index][k := Some(s.values[i])]];
    }
  }

  lemma Width(rows: seq<Row>, times: seq<uint32>, indicators: seq<Series>, k: nat, i: nat, m: nat)
    requires Placed(rows, times, indicators, k, i) && m < |times|
    ensures |rows[m]| == |indicators|
  {
    assert PlacedAt(rows[m], times[m], indicators, k, i);
  }

  lemma FoundAt(indicators: seq<Series>, times: seq<uint32>, s: Series, i: nat, index: nat)
    requires IsTimeline(times, indicators) && s in indicators && i < |s.timestamps| && index <= |times|
    requires (forall k :: 0 <= k < index ==> times[k] < s.timestamps[i]) && (forall k :: index <= k < |times| ==> times[k] >= s.timestamps[i])
    ensures index < |times| && times[index] == s.timestamps[i]
  {
    assert s.timestamps[i] in s.timestamps && Observed(indicators, s.timestamps[i]);
    var k :| 0 <= k < |times| && times[k] == s.timestamps[i];
    assert k >= index;
  }

  /** The timeline leaves no observation between two of its neighbours. */
  lemma NothingBetween(indicators: seq<Series>, times: seq<uint32>, m: nat)
    requires IsTimeline(times, indicators) && m < |times|
    ensures LastOf(times[..m]) < times[m]
    ensures forall j, n :: 0 <= j < |indicators| && 0 <= n < |indicators[j].timestamps| ==>
      indicators[j].timestamps[n] <= LastOf(times[..m]) || indicators[j].timestamps[n] >= times[m]
  {
    forall j, n | 0 <= j < |indicators| && 0 <= n < |indicators[j].timestamps|
      ensures indicators[j].timestamps[n] <= LastOf(times[..m]) || indicators[j].timestamps[n] >= times[m]
    {
      var x := indicators[j].timestamps[n];
      assert indicators[j] in indicators && x in indicators[j].timestamps && Observed(indicators, x);
      var p :| 0 <= p < |times| && times[p] == x;
    }
  }

  /** The rows before `m` are filled; the others are as they were placed. */
  ghost predicate Filling(rows: seq<Row>, placed: seq<Row>, times: seq<uint32>, indicators: seq<Series>, m: nat, seen: Row) {
    && |rows| == |placed| == |times| && m <= |times|
    && RowsAt(rows[..m], times[..m], indicators, None)
    && rows[m..] == placed[m..]
    && Carried(indicators, LastOf(times[..m]), seen, None)
  }

  lemma FillOn(rows: seq<Row>, placed: seq<Row>, times: seq<uint32>, indicators: seq<Series>, m: nat, seen: Row, row: Row)
    requires IsTimeline(times, indicators) && Placed(placed, times, indicators, |indicators|, 0)
    requires Filling(rows, placed, times, indicators, m, seen) && m < |times|
    requires |row| == |seen|
    requires forall j :: 0 <= j < |row| ==> row[j] == Or(if j < |rows[m]| then rows[m][j] else None, seen[j])
    ensures Filling(rows[m := row], placed, times, indicators, m + 1, row)
  {
    assert rows[m] == rows[m..][0] == placed[m];
    NothingBetween(indicators, times, m);
    assert PlacedAt(placed[m], times[m], indicators, |indicators|, 0);
    hide Or, Exactly, AsOf, RowAt;
    NextRow(indicators, LastOf(times[..m]), seen, None, times[m], rows[m], row);
    assert times[..m+1] == times[..m] + [times[m]];
    var next := rows[m := row];
    assert next[..m+1] == rows[..m] + [row];
    assert next[m+1..] == rows[m..][1..] == placed[m+1..];
    hide Carried;
    OneMoreRow(rows[..m], times[..m], indicators, None, row, times[m]);
  }

  lemma StartFilling(placed: seq<Row>, times: seq<uint32>, indicators: seq<Series>, seen: Row)
    requires (forall s <- indicators :: s.Complete()) && |placed| == |times|
    requires |seen| == |indicators| && forall j :: 0 <= j < |seen| ==> seen[j] == None
    ensures Filling(placed, placed, times, indicators, 0, seen)
  {
    NothingYet(indicators, seen, None);
  }

  /** `combineIndicatorsVector`.  It does not compare the lengths, so the caller has to see to it that each timestamp has a value. */
  method CombineIndicatorsVector(indicators: seq<Series>) returns (rows: seq<Row>)
    requires forall s <- indicators :: s.Complete()
    ensures IsJoin(rows, indicators, None)
  {
    var times := CollectTimestamps(indicators);
    TimelineIsComplete(indicators);
    rows := PlaceAll(indicators, times);
    ghost var placed := rows;
    assert |placed| == |times|;
    var lastSeen: Row := seq(|indicators|, _ => None);
    StartFilling(placed, times, indicators, lastSeen);
    hide Placed, IsTimeline, RowsAt, Carried;
    for m := 0 to |rows|
      invariant |rows| == |times| && Filling(rows, placed, times, indicators, m, lastSeen)
    {
      var row := FillRow(rows[m], lastSeen);
      FillOn(rows, placed, times, indicators, m, lastSeen, row);
      rows := rows[m := row];
      lastSeen := row;
    }
    assert rows[..|rows|] == rows && times[..|rows|] == times;
  }

  // ---------------------------------------------------------------- on a grid

  /** `end - start` in unsigned 32-bit arithmetic. */
  function Distance(start: uint32, end: uint32): (d: uint32)
    ensures d == if start <= end then end - start else end - start + TWO_TO_THE_32
  {
    (end - start) % TWO_TO_THE_32
  }

  /** `(gridEnd - gridStart) / gridInterval + 1` in unsigned 32-bit arithmetic, stored in an `int`. */
  function GridSize(start: uint32, end: uint32, interval: uint32): (n: int)
    requires interval > 0
    ensures n < 0x8000_0000
  {
    var n := (Distance(start, end) / interval + 1) % TWO_TO_THE_32;
    if n < 0x8000_0000 then n else n - TWO_TO_THE_32
  }

  function GridTime(start: uint32, interval: uint32, i: nat): uint32 {
    (start + i * interval) % TWO_TO_THE_32
  }

  /** The latest of the first `n` times of the grid. */
  function Reached(start: uint32, interval: uint32, n: nat): int {
    if n == 0 then -1 else
    var before, t := Reached(start, interval, n - 1), GridTime(start, interval, n - 1);
    if t > before then t else before
  }

  /** How many leading timestamps are at most `t`. */
  function Leading(q: seq<uint32>, t: int): (n: nat)
    ensures n <= |q| && (forall k :: 0 <= k < n ==> q[k] <= t) && (n < |q| ==> q[n] > t)
  {
    if q == [] || q[0] > t then 0 else 1 + Leading(q[1..], t)
  }

  /** The value in front of the pointer. */
  function ValueBefore(s: Series, n: nat): real
    requires n <= |s.timestamps| && s.Complete()
  {
    if n == 0 then 0.0 else s.values[n-1]
  }

  lemma LeadingIs(q: seq<uint32>, t: int, n: nat)
    requires n <= |q| && (forall k :: 0 <= k < n ==> q[k] <= t) && (n < |q| ==> q[n] > t)
    ensures Leading(q, t) == n
  {
  }

  /** `combineIndicatorsGrid`; a negative size makes the vector's constructor throw.  The pointers never go back,
      so a grid point sees the observations up to the latest grid point so far. */
  method CombineIndicatorsGrid(indicators: seq<Series>, gridStart: uint32, gridEnd: uint32, gridInterval: uint32)
      returns (result: Option<array2<real>>)
    requires gridInterval > 0 && forall s <- indicators :: s.Complete()
    ensures result == None <==> GridSize(gridStart, gridEnd, gridInterval) < 0
    ensures result.Some? ==>
      var (grid, n) := (result.value, GridSize(gridStart, gridEnd, gridInterval));
      && grid.Length0 == |indicators| && grid.Length1 == n
      && forall j, i :: 0 <= j < |indicators| && 0 <= i < n ==>
           (forall s <- indicators :: s.Complete()) &&
           grid[j, i] == OnGrid(indicators[j], gridStart, gridInterval, i)
  {
    var gridSize := GridSize(gridStart, gridEnd, gridInterval);
    if gridSize < 0 {
      return None;
    }
    var grid := new real[|indicators|, gridSize]((_, _) => 0.0);
    hide OnGrid;
    for j := 0 to |indicators|
      invariant forall k, i :: 0 <= k < j && 0 <= i < gridSize ==>
        indicators[k].Complete() && grid[k, i] == OnGrid(indicators[k], gridStart, gridInterval, i)
    {
      assert indicators[j] in indicators;
      WalkGrid(indicators[j], grid, j, gridStart, gridInterval);
    }
    return Some(grid);
  }

  /** What the walk leaves at one point of the grid. */
  function OnGrid(s: Series, start: uint32, interval: uint32, i: nat): real
    requires s.Complete()
  {
    ValueBefore(s, Leading(s.timestamps, Reached(start, interval, i + 1)))
  }

  /** The inner loop: both pointers move past the observations up to `t`. */
  method Advance(s: Series, from: nat, value: real, t: uint32, ghost reached: int) returns (at: nat, lastValue: real)
    requires s.Complete() && from == Leading(s.timestamps, reached) && value == ValueBefore(s, from)
    ensures at == Leading(s.timestamps, if t > reached then t else reached) && lastValue == ValueBefore(s, at)
  {
    at, lastValue := from, value;
    while at < |s.timestamps| && s.timestamps[at] <= t
      invariant at <= |s.timestamps| && lastValue == ValueBefore(s, at)
      invariant forall k :: 0 <= k < at ==> s.timestamps[k] <= if t > reached then t else reached
      invariant at < |s.timestamps| && t <= reached ==> s.timestamps[at] > reached
    {
      lastValue := s.values[at];
      at := at + 1;
    }
    LeadingIs(s.timestamps, if t > reached then t else reached, at);
  }

  /** The walk over one series. */
  method WalkGrid(s: Series, grid: array2<real>, j: nat, start: uint32, interval: uint32)
    requires s.Complete() && j < grid.Length0
    modifies grid
    ensures forall i :: 0 <= i < grid.Length1 ==> grid[j, i] == OnGrid(s, start, interval, i)
    ensures forall k, i :: 0 <= k < grid.Length0 && k != j && 0 <= i < grid.Length1 ==> grid[k, i] == old(grid[k, i])
  {
    var at := 0;
    var lastValue := 0.0;
    LeadingIs(s.timestamps, -1, 0);
    hide Leading, GridTime, ValueBefore;
    for i := 0 to grid.Length1
      invariant at == Leading(s.timestamps, Reached(start, interval, i))
      invariant lastValue == ValueBefore(s, at)
      invariant forall k :: 0 <= k < i ==> grid[j, k] == OnGrid(s, start, interval, k)
      invariant forall k, i :: 0 <= k < grid.Length0 && k != j && 0 <= i < grid.Length1 ==> grid[k, i] == old(grid[k, i])
    {
      var t := GridTime(start, interval, i);
      at, lastValue := Advance(s, at, lastValue, t, Reached(start, interval, i));
      grid[j, i] := lastValue;
    }
  }

  // ---------------------------------------------------------------- when the grid is an as-of join

  predicate Sorted(s: Series) {
    s.Complete() && NonDecreasing(s.timestamps)
  }

  function Known(o: Option<real>): real {
    if o.Some? then o.value else 0.0
  }

  /** On a sorted series the value in front of the pointer is the value as of the time reached. */
  lemma PointerIsAsOf(s: Series, t: int)
    requires Sorted(s)
    ensures ValueBefore(s, Leading(s.timestamps, t)) == Known(AsOf(s, t))
  {
    var n := Leading(s.timestamps, t);
    AsOfIsLatest(s, t);
    if n > 0 {
      assert Counts(s, n - 1, t);
    }
  }

  /** The grid does not run past the largest timestamp. */
  predicate Fits(start: uint32, interval: uint32, n: nat) {
    n == 0 || start + (n - 1) * interval < TWO_TO_THE_32
  }

  lemma {:induction false} Times(interval: nat, i: nat, n: nat)
    requires i <= n
    ensures i * interval <= n * interval
  {
    if i < n {
      Times(interval, i, n - 1);
      assert (n - 1) * interval + interval == n * interval;
    }
  }

  /** A grid that fits visits its times in order, so each point is the latest so far. */
  lemma {:induction false} FittingGrid(start: uint32, interval: uint32, n: nat, i: nat)
    requires Fits(start, interval, n) && i < n && interval > 0
    ensures GridTime(start, interval, i) == start + i * interval == Reached(start, interval, i + 1)
  {
    Times(interval, i, n - 1);
    if i > 0 {
      FittingGrid(start, interval, n, i - 1);
      assert (i - 1) * interval + interval == i * interval;
    }
  }

  lemma Quotient(x: nat, interval: nat)
    requires interval > 0
    ensures 0 <= x / interval * interval <= x && 0 <= x / interval <= x
  {
    var q := x / interval;
    assert x == interval * q + x % interval;
    Times(q, 1, interval);
  }

  /** The last grid point is the last one that is not past the end. */
  lemma LastPoint(start: uint32, end: uint32, interval: uint32)
    requires interval > 0
    ensures var n := GridSize(start, end, interval);
            n > 0 ==> n - 1 == Distance(start, end) / interval && 0 <= (n - 1) * interval <= Distance(start, end)
  {
    Quotient(Distance(start, end), interval);
  }

  /** The grid has a point at every interval up to the end, if their number is an `int`; a larger number is stored as a
      negative one, or as zero if it is not even an unsigned one. */
  lemma GridReachesEnd(start: uint32, end: uint32, interval: uint32)
    requires interval > 0
    ensures var n, points := GridSize(start, end, interval), Distance(start, end) / interval + 1;
            && (points - 1) * interval <= Distance(start, end) < points * interval
            && (points < 0x8000_0000 ==> n == points)
            && (0x8000_0000 <= points < TWO_TO_THE_32 ==> n == points - TWO_TO_THE_32 < 0)
            && (points == TWO_TO_THE_32 ==> n == 0) && points <= TWO_TO_THE_32
  {
    var distance := Distance(start, end);
    Quotient(distance, interval);
    var q := distance / interval;
    assert distance == interval * q + distance % interval;
    assert (q + 1) * interval == interval * q + interval;
  }

  /** A point of a grid that fits, on a sorted series: the value of the last observation up to its time, or zero. */
  lemma GridPoint(s: Series, start: uint32, interval: uint32, n: nat, i: nat)
    requires Sorted(s) && interval > 0 && Fits(start, interval, n) && i < n
    ensures var t := start + i * interval;
            && ((forall k :: 0 <= k < |s.timestamps| ==> s.timestamps[k] > t) ==> OnGrid(s, start, interval, i) == 0.0)
            && forall k :: 0 <= k < |s.timestamps| && s.timestamps[k] <= t && (k + 1 < |s.timestamps| ==> s.timestamps[k+1] > t) ==>
                 OnGrid(s, start, interval, i) == s.values[k]
  {
    FittingGrid(start, interval, n, i);
    GridIsAsOf(s, start, interval, n, i);
    var t := start + i * interval;
    AsOfIsLatest(s, t);
    hide OnGrid, AsOf, GridTime;
    forall k | 0 <= k < |s.timestamps| && s.timestamps[k] <= t && (k + 1 < |s.timestamps| ==> s.timestamps[k+1] > t)
      ensures Counts(s, k, t)
    {
    }
  }

  /** A grid from a start to an end that is not before it fits. */
  lemma OrderedGridFits(start: uint32, end: uint32, interval: uint32)
    requires interval > 0 && start <= end && GridSize(start, end, interval) >= 0
    ensures Fits(start, interval, GridSize(start, end, interval))
  {
    LastPoint(start, end, interval);
    hide GridSize;
  }

  /** A grid that fits holds the value as of its times, for every sorted series. */
  lemma GridIsAsOf(s: Series, start: uint32, interval: uint32, n: nat, i: nat)
    requires Sorted(s) && interval > 0 && Fits(start, interval, n) && i < n
    ensures OnGrid(s, start, interval, i) == Known(AsOf(s, GridTime(start, interval, i)))
  {
    FittingGrid(start, interval, n, i);
    PointerIsAsOf(s, Reached(start, interval, i + 1));
  }

  /** A grid that does not fit wraps around to a point before its start. */
  lemma Wraps(start: uint32, end: uint32, interval: uint32)
    requires interval > 0 && GridSize(start, end, interval) > 0 && !Fits(start, interval, GridSize(start, end, interval))
    ensures GridTime(start, interval, GridSize(start, end, interval) - 1) < start
  {
    LastPoint(start, end, interval);
    hide GridSize;
    var x := start + (GridSize(start, end, interval) - 1) * interval;
    assert TWO_TO_THE_32 <= x < start + TWO_TO_THE_32;
    assert x % TWO_TO_THE_32 == x - TWO_TO_THE_32;
  }

  lemma {:induction false} StartIsReached(start: uint32, interval: uint32, n: nat)
    requires n > 0
    ensures Reached(start, interval, n) >= start
  {
    if n > 1 {
      StartIsReached(start, interval, n - 1);
    }
  }

  /** The grid is the as-of join for all sorted series exactly if it does not run past the largest timestamp,
      as is the case whenever its start is not after its end. */
  lemma GridIsAsOfJustIfItFits(start: uint32, end: uint32, interval: uint32)
    requires interval > 0 && GridSize(start, end, interval) >= 0
    ensures start <= end ==> Fits(start, interval, GridSize(start, end, interval))
    ensures Fits(start, interval, GridSize(start, end, interval)) <==>
      forall s: Series, i: nat :: Sorted(s) && i < GridSize(start, end, interval) ==>
        OnGrid(s, start, interval, i) == Known(AsOf(s, GridTime(start, interval, i)))
  {
    var n := GridSize(start, end, interval);
    if start <= end {
      OrderedGridFits(start, end, interval);
    }
    hide GridSize, GridTime, OnGrid, AsOf;
    if Fits(start, interval, n) {
      forall s: Series, i: nat | Sorted(s) && i < n
        ensures OnGrid(s, start, interval, i) == Known(AsOf(s, GridTime(start, interval, i)))
      {
        GridIsAsOf(s, start, interval, n, i);
      }
    } else {
      Witness(start, end, interval);
      var s := Series([start], [1.0]);
      assert Sorted(s) && OnGrid(s, start, interval, n - 1) != Known(AsOf(s, GridTime(start, interval, n - 1)));
    }
  }

  /** The series with one observation at the start of the grid shows the difference. */
  lemma Witness(start: uint32, end: uint32, interval: uint32)
    requires interval > 0 && GridSize(start, end, interval) > 0 && !Fits(start, interval, GridSize(start, end, interval))
    ensures var (s, i) := (Series([start], [1.0]), GridSize(start, end, interval) - 1);
            Sorted(s) && OnGrid(s, start, interval, i) == 1.0 && Known(AsOf(s, GridTime(start, interval, i))) == 0.0
  {
    var s, i := Series([start], [1.0]), GridSize(start, end, interval) - 1;
    Wraps(start, end, interval);
    StartIsReached(start, interval, i + 1);
    AsOfIsLatest(s, GridTime(start, interval, i));
    LeadingIs(s.timestamps, Reached(start, interval, i + 1), 1);
  }
}
