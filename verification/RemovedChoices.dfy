/**
 Which removed steps `get_work` can come upon, over all orders of equally ranked steps, and so exactly when it
 can raise an exception.
 */
module RemovedChoices {
  import opened Options
  import opened Sequences
  import opened SchedulerModel
  import opened SchedulerInvariants
  import opened RemovedSteps

  // ---------------------------------------------------------------- where the scan stops

  /** The scan of a trivial worker stops at such a step. */
  ghost predicate Ready<O>(s: System<O>, it: Item<O>) {
    Schedulable(s.w.steps, it.rec) && HasResources(it.rec.load.resources, map[], s.w.totals)
  }

  lemma {:induction false} NothingReserved(steps: Steps, req: Request, q: seq<StepRec>)
    ensures PassAll(steps, req, Greedy(map[], map[]), q) == Greedy(map[], map[])
  {
    hide Schedulable, HasResources;
    if q != [] {
      var n := |q| - 1;
      NothingReserved(steps, req, q[..n]);
      NoSlots(Candidates(req, q[n]), q[n].load.resources);
    }
  }

  lemma {:induction false} NoSlots(candidates: seq<WorkerId>, amounts: Amounts)
    ensures Reserve(Greedy(map[], map[]), candidates, amounts) == Greedy(map[], map[])
  {
    if candidates != [] {
      NoSlots(candidates[1..], amounts);
    }
  }

  /** The scan of a trivial worker stops at the first step that is ready. */
  lemma TrivialStops<O>(s: System<O>, a: WorkArgs, scan: seq<Item<O>>, i: nat, now: Time, cfg: Config)
    requires SystemOk(s) && a.worker in s.w.workers && TrivialFor(s, a.worker) && !s.w.paused
    requires Lists(scan, Scanned(s, a.worker)) && i < |scan|
    ensures StopsAt(s.w.steps, RequestFor(s, a), GreedyFor(s, a, now, cfg), RecsIn(scan), i) <==> Ready(s, scan[i])
  {
    var recs := RecsIn(scan);
    NothingReserved(s.w.steps, RequestFor(s, a), recs[..i]);
    assert scan[i] in Scanned(s, a.worker) by {
      assert scan[i] in scan;
    }
    SeenMayRun(s, a.worker, scan[i]);
    hide Schedulable, HasResources, TrivialFor, Scanned, PassAll, SystemOk;
  }

  lemma SeenMayRun<O>(s: System<O>, x: WorkerId, it: Item<O>)
    requires SystemOk(s) && x in s.w.workers && TrivialFor(s, x) && it in Scanned(s, x)
    ensures x in it.rec.info.workers
  {
    assert HeldOk(s, x);
    hide TrivialFor, WalksOwn, RosterOk, RecOk;
  }

  // ---------------------------------------------------------------- sorted lists

  /** The steps in the order of their ranks. */
  lemma {:induction false} Sorted<O>(items: set<Item<O>>) returns (q: seq<Item<O>>)
    ensures Lists(q, items) && Ranked(RecsIn(q))
    decreases |items|
  {
    if items == {} {
      q := [];
    } else {
      var it :| it in items;
      var rest := Sorted(items - {it});
      var n := HigherThan(rest, it);
      q := rest[..n] + [it] + rest[n..];
      Inserted(rest, it, n);
      assert items - {it} + {it} == items;
    }
  }

  /** The number of steps at the front that rank strictly above the given one. */
  lemma HigherThan<O>(q: seq<Item<O>>, it: Item<O>) returns (n: nat)
    requires Ranked(RecsIn(q))
    ensures n <= |q| && (forall j :: 0 <= j < n ==> !HigherOrEqual(it.rec, q[j].rec))
    ensures forall j :: n <= j < |q| ==> HigherOrEqual(it.rec, q[j].rec)
  {
    n := 0;
    while n < |q| && !HigherOrEqual(it.rec, q[n].rec)
      invariant n <= |q| && forall j :: 0 <= j < n ==> !HigherOrEqual(it.rec, q[j].rec)
    {
      n := n + 1;
    }
    forall j | n <= j < |q|
      ensures HigherOrEqual(it.rec, q[j].rec)
    {
      assert j > n ==> HigherOrEqual(RecsIn(q)[n], RecsIn(q)[j]);
    }
  }

  lemma Inserted<O>(q: seq<Item<O>>, it: Item<O>, n: nat)
    requires Ranked(RecsIn(q)) && n <= |q| && it !in q && Distinct(q)
    requires forall j :: 0 <= j < n ==> !HigherOrEqual(it.rec, q[j].rec)
    requires forall j :: n <= j < |q| ==> HigherOrEqual(it.rec, q[j].rec)
    ensures var r := q[..n] + [it] + q[n..];
            Ranked(RecsIn(r)) && Distinct(r) && forall other :: other in r <==> other in q || other == it
  {
    var r := q[..n] + [it] + q[n..];
    forall j, k | 0 <= j < k < |r|
      ensures HigherOrEqual(r[j].rec, r[k].rec)
    {
      assert forall i :: 0 <= i < |q| ==> RecsIn(q)[i] == q[i].rec;
    }
  }

  lemma SortedWith<O>(items: set<Item<O>>, top: Item<O>) returns (q: seq<Item<O>>, n: nat)
    requires top in items
    ensures Lists(q, items) && Ranked(RecsIn(q)) && n < |q| && q[n] == top
    ensures forall j :: 0 <= j < n ==> !HigherOrEqual(top.rec, q[j].rec)
  {
    var rest := Sorted(items - {top});
    n := HigherThan(rest, top);
    q := rest[..n] + [top] + rest[n..];
    Inserted(rest, top, n);
    assert items - {top} + {top} == items;
  }

  /** The same with two of them, which come first among those of their rank. */
  lemma SortedWithTwo<O>(items: set<Item<O>>, best: Item<O>, it: Item<O>) returns (q: seq<Item<O>>, n: nat, m: nat)
    requires best in items && it in items && best != it && HigherOrEqual(best.rec, it.rec)
    ensures Lists(q, items) && Ranked(RecsIn(q)) && n < m < |q| && q[n] == best && q[m] == it
    ensures forall j :: 0 <= j < n ==> !HigherOrEqual(best.rec, q[j].rec)
    ensures forall j :: n < j < m ==> !HigherOrEqual(it.rec, q[j].rec)
  {
    hide HigherOrEqual, Ranked;
    var rest, k := SortedWith(items - {best}, it);
    n := HigherThan(rest, best);
    assert n <= k;
    q, m := rest[..n] + [best] + rest[n..], k + 1;
    Inserted(rest, best, n);
    assert items - {best} + {best} == items;
  }

  // ---------------------------------------------------------------- batches

  ghost function Joiners<O>(steps: Steps, b: Batcher, best: StepRec, q: seq<Item<O>>): set<Item<O>> {
    set it | it in q && JoinsBatch(steps, b, best, it.rec)
  }

  lemma JoinersOf<O>(steps: Steps, b: Batcher, best: StepRec, q: seq<Item<O>>, n: nat)
    requires Distinct(q) && 0 < n <= |q|
    ensures |Joiners(steps, b, best, q[..n])| ==
              |Joiners(steps, b, best, q[1..][..n-1])| + if JoinsBatch(steps, b, best, q[0].rec) then 1 else 0
  {
    hide JoinsBatch;
    var rest := q[1..][..n-1];
    assert q[..n] == [q[0]] + rest;
    assert Joiners(steps, b, best, q[..n]) == Joiners(steps, b, best, rest) + if JoinsBatch(steps, b, best, q[0].rec) then {q[0]} else {};
    assert q[0] !in rest;
  }

  lemma {:induction false} CollectKeeps<O>(steps: Steps, b: Batcher, best: StepRec, batch: seq<Item<O>>, q: seq<Item<O>>)
    ensures batch <= CollectItems(steps, b, best, batch, q)
    decreases |q|
  {
    hide JoinsBatch, BelowMax;
    if q != [] {
      CollectKeeps(steps, b, best, batch + [q[0]], q[1..]);
      CollectKeeps(steps, b, best, batch, q[1..]);
    }
  }

  /** A step that joins is collected if those in front of it leave room. */
  lemma {:induction false} CollectsIfRoom<O>(steps: Steps, b: Batcher, best: StepRec, batch: seq<Item<O>>, q: seq<Item<O>>, n: nat)
    requires Distinct(q) && n < |q| && JoinsBatch(steps, b, best, q[n].rec)
    requires BelowMax(|batch| + |Joiners(steps, b, best, q[..n])|, b)
    ensures q[n] in CollectItems(steps, b, best, batch, q)
    decreases |q|
  {
    hide JoinsBatch;
    if n == 0 {
      CollectKeeps(steps, b, best, batch + [q[0]], q[1..]);
      assert (batch + [q[0]])[|batch|] == q[0];
    } else {
      JoinersOf(steps, b, best, q, n);
      CollectsIfRoom(steps, b, best, if JoinsBatch(steps, b, best, q[0].rec) then batch + [q[0]] else batch, q[1..], n - 1);
    }
  }

  /** The other way round. */
  lemma {:induction false} CollectedHadRoom<O>(steps: Steps, b: Batcher, best: StepRec, batch: seq<Item<O>>, q: seq<Item<O>>, it: Item<O>)
      returns (n: nat)
    requires Distinct(q) && it in CollectItems(steps, b, best, batch, q) && it !in batch
    ensures n < |q| && q[n] == it && JoinsBatch(steps, b, best, it.rec)
    ensures BelowMax(|batch| + |Joiners(steps, b, best, q[..n])|, b)
    decreases |q|
  {
    hide JoinsBatch;
    var joins := BelowMax(|batch|, b) && JoinsBatch(steps, b, best, q[0].rec);
    if joins && q[0] == it {
      n := 0;
    } else {
      var rest := CollectedHadRoom(steps, b, best, if joins then batch + [q[0]] else batch, q[1..], it);
      n := rest + 1;
      JoinersOf(steps, b, best, q, n);
    }
  }

  /** The step at `m` joins the batch behind the one at `n`, if those between them leave room. */
  lemma JoinsBatchFrom<O>(w: World, x: WorkerId, scan: seq<Item<O>>, n: nat, m: nat)
    requires Distinct(scan) && n < m < |scan|
    requires var b := GetBatcher(w, x, scan[n].rec.info.family);
             && StartsBatch(b, scan[n].rec) && JoinsBatch(w.steps, b, scan[n].rec, scan[m].rec)
             && BelowMax(1 + |Joiners(w.steps, b, scan[n].rec, scan[n+1..][..m-n-1])|, b)
    ensures scan[m] in BatchFrom(w, x, scan, n) && |BatchFrom(w, x, scan, n)| > 1
  {
    hide GetBatcher, StartsBatch, JoinsBatch, BelowMax, Joiners;
    var b, q := GetBatcher(w, x, scan[n].rec.info.family), scan[n+1..];
    assert q[m-n-1] == scan[m];
    CollectsIfRoom(w.steps, b, scan[n].rec, [scan[n]], q, m - n - 1);
    CollectKeeps(w.steps, b, scan[n].rec, [scan[n]], q);
  }

  lemma JoinedBatchFrom<O>(w: World, x: WorkerId, scan: seq<Item<O>>, n: nat, it: Item<O>) returns (m: nat)
    requires Distinct(scan) && n < |scan| && it in BatchFrom(w, x, scan, n) && it != scan[n]
    ensures n < m < |scan| && scan[m] == it
    ensures var b := GetBatcher(w, x, scan[n].rec.info.family);
            && StartsBatch(b, scan[n].rec) && JoinsBatch(w.steps, b, scan[n].rec, it.rec)
            && BelowMax(1 + |Joiners(w.steps, b, scan[n].rec, scan[n+1..][..m-n-1])|, b)
  {
    hide GetBatcher, StartsBatch, JoinsBatch, BelowMax, Joiners;
    var b, q := GetBatcher(w, x, scan[n].rec.info.family), scan[n+1..];
    var k := CollectedHadRoom(w.steps, b, scan[n].rec, [scan[n]], q, it);
    m := n + 1 + k;
  }

  // ---------------------------------------------------------------- which removed steps are chosen

  /** The scan stops at the step, and at none that outranks it. */
  ghost predicate Tops<O>(s: System<O>, x: WorkerId, it: Item<O>)
    requires x in s.w.workers
  {
    it in Scanned(s, x) && Ready(s, it) && forall other <- Scanned(s, x) :: Ready(s, other) ==> HigherOrEqual(it.rec, other.rec)
  }

  /** The steps that join the batch behind `best` and outrank `it`. */
  ghost function Rivals<O>(s: System<O>, x: WorkerId, best: Item<O>, it: Item<O>): set<Item<O>>
    requires x in s.w.workers
  {
    set other | other in Scanned(s, x) && other != best && !HigherOrEqual(it.rec, other.rec)
                && JoinsBatch(s.w.steps, GetBatcher(s.w, x, best.rec.info.family), best.rec, other.rec)
  }

  /** `best` starts a batch, `it` joins it, and its rivals leave room. */
  ghost predicate MayJoin<O>(s: System<O>, x: WorkerId, best: Item<O>, it: Item<O>)
    requires x in s.w.workers
  {
    var b := GetBatcher(s.w, x, best.rec.info.family);
    && it in Scanned(s, x) && it != best && StartsBatch(b, best.rec) && JoinsBatch(s.w.steps, b, best.rec, it.rec)
    && BelowMax(1 + |Rivals(s, x, best, it)|, b)
  }

  /** The worker is trivial and takes the shortcut, and a removed step is on top, or may join a batch behind a
      step on top. */
  ghost predicate MayChooseRemoved<O>(s: System<O>, x: WorkerId)
    requires x in s.w.workers
  {
    && !s.w.paused && TrivialFor(s, x) && WalksOwn(s, x, {PENDING, RUNNING})
    && exists it <- HeldBy(s, x) :: Tops(s, x, it) || exists best <- Scanned(s, x) :: Tops(s, x, best) && MayJoin(s, x, best, it)
  }

  lemma SeenByShortcut<O>(s: System<O>, x: WorkerId, it: Item<O>)
    requires SystemOk(s) && x in s.w.workers && it in Scanned(s, x) && Gone(s, it)
    ensures !s.w.paused && TrivialFor(s, x) && WalksOwn(s, x, {PENDING, RUNNING})
  {
  }

  lemma FirstOutranks<O>(s: System<O>, a: WorkArgs, scan: seq<Item<O>>, i: nat, now: Time, cfg: Config)
    requires SystemOk(s) && a.worker in s.w.workers && TrivialFor(s, a.worker) && !s.w.paused
    requires IsScan(s, a.worker, scan) && i < |scan|
    requires i == Pick(s.w.steps, RequestFor(s, a), GreedyFor(s, a, now, cfg), RecsIn(scan), 0)
    ensures forall other <- Scanned(s, a.worker) :: Ready(s, other) ==> HigherOrEqual(scan[i].rec, other.rec)
  {
    hide TrivialFor, StopsAt, Ready, Scanned, SystemOk;
    forall other | other in Scanned(s, a.worker) && Ready(s, other)
      ensures HigherOrEqual(scan[i].rec, other.rec)
    {
      var j :| 0 <= j < |scan| && scan[j] == other;
      TrivialStops(s, a, scan, j, now, cfg);
      assert RecsIn(scan)[i] == scan[i].rec && RecsIn(scan)[j] == other.rec;
    }
  }

  lemma BestIsChosen<O>(s: System<O>, a: WorkArgs, scan: seq<Item<O>>, now: Time, cfg: Config)
    requires a.worker in s.w.workers
    ensures var i := Pick(s.w.steps, RequestFor(s, a), GreedyFor(s, a, now, cfg), RecsIn(scan), 0);
            i < |scan| ==> scan[i] in Chosen(s, a, scan, now, cfg)
  {
    var i := Pick(s.w.steps, RequestFor(s, a), GreedyFor(s, a, now, cfg), RecsIn(scan), 0);
    hide Pick, StartsBatch, GetBatcher, JoinsBatch;
    if i < |scan| {
      CollectKeeps(s.w.steps, GetBatcher(s.w, a.worker, scan[i].rec.info.family), scan[i].rec, [scan[i]], scan[i+1..]);
    }
  }

  /** The scan picks the first step on top. */
  lemma PicksTop<O>(s: System<O>, a: WorkArgs, scan: seq<Item<O>>, n: nat, now: Time, cfg: Config)
    requires SystemOk(s) && a.worker in s.w.workers && TrivialFor(s, a.worker) && !s.w.paused
    requires IsScan(s, a.worker, scan) && n < |scan| && Tops(s, a.worker, scan[n])
    requires forall j :: 0 <= j < n ==> !HigherOrEqual(scan[n].rec, scan[j].rec)
    ensures Pick(s.w.steps, RequestFor(s, a), GreedyFor(s, a, now, cfg), RecsIn(scan), 0) == n
  {
    hide TrivialFor, StopsAt, Ready, Scanned, HigherOrEqual, SystemOk;
    forall j | 0 <= j < n
      ensures !Ready(s, scan[j])
    {
      assert scan[j] in scan;
    }
    hide Lists, Ranked;
    forall j | 0 <= j <= n {
      TrivialStops(s, a, scan, j, now, cfg);
    }
  }

  lemma TopIsChosen<O>(s: System<O>, a: WorkArgs, top: Item<O>, now: Time, cfg: Config) returns (scan: seq<Item<O>>)
    requires SystemOk(s) && a.worker in s.w.workers && TrivialFor(s, a.worker) && !s.w.paused && Tops(s, a.worker, top)
    ensures IsScan(s, a.worker, scan) && top in Chosen(s, a, scan, now, cfg)
  {
    hide TrivialFor, Ready, HigherOrEqual, SystemOk, Chosen, Scanned, RecsIn, Ranked;
    var n;
    scan, n := SortedWith(Scanned(s, a.worker), top);
    PicksTop(s, a, scan, n, now, cfg);
    BestIsChosen(s, a, scan, now, cfg);
  }

  lemma JoinerIsChosen<O>(s: System<O>, a: WorkArgs, best: Item<O>, it: Item<O>, now: Time, cfg: Config) returns (scan: seq<Item<O>>)
    requires SystemOk(s) && a.worker in s.w.workers && TrivialFor(s, a.worker) && !s.w.paused
    requires Tops(s, a.worker, best) && MayJoin(s, a.worker, best, it)
    ensures IsScan(s, a.worker, scan) && it in Chosen(s, a, scan, now, cfg)
  {
    var x, b := a.worker, GetBatcher(s.w, a.worker, best.rec.info.family);
    JoinsReady(s, b, best, it);
    hide TrivialFor, Ready, HigherOrEqual, SystemOk, Scanned, RecsIn, Ranked, GetBatcher, StartsBatch, JoinsBatch, BelowMax, BatchFrom,
         Joiners, Rivals, Tops, Pick;
    assert HigherOrEqual(best.rec, it.rec) && best in Scanned(s, x) by {
      TopOutranks(s, x, best, it);
    }
    var n, m;
    scan, n, m := SortedWithTwo(Scanned(s, x), best, it);
    PicksTop(s, a, scan, n, now, cfg);
    SegmentIsRivals(s, x, scan, n, m);
    RoomForFewer(Joiners(s.w.steps, b, best.rec, scan[n+1..][..m-n-1]), Rivals(s, x, best, it), b);
    JoinsBatchFrom(s.w, x, scan, n, m);
  }

  lemma TopOutranks<O>(s: System<O>, x: WorkerId, best: Item<O>, it: Item<O>)
    requires x in s.w.workers && Tops(s, x, best) && it in Scanned(s, x) && Ready(s, it)
    ensures HigherOrEqual(best.rec, it.rec) && best in Scanned(s, x)
  {
    hide Scanned, Ready, HigherOrEqual;
  }

  lemma JoinsReady<O>(s: System<O>, b: Batcher, best: Item<O>, it: Item<O>)
    requires Ready(s, best) && JoinsBatch(s.w.steps, b, best.rec, it.rec)
    ensures Ready(s, it)
  {
    hide Schedulable;
  }

  lemma SegmentIsRivals<O>(s: System<O>, x: WorkerId, scan: seq<Item<O>>, n: nat, m: nat)
    requires x in s.w.workers && Lists(scan, Scanned(s, x)) && n < m < |scan|
    requires forall j :: n < j < m ==> !HigherOrEqual(scan[m].rec, scan[j].rec)
    ensures var b := GetBatcher(s.w, x, scan[n].rec.info.family);
            Joiners(s.w.steps, b, scan[n].rec, scan[n+1..][..m-n-1]) <= Rivals(s, x, scan[n], scan[m])
  {
    hide Scanned, HigherOrEqual, GetBatcher, JoinsBatch;
    var q := scan[n+1..][..m-n-1];
    forall other | other in q
      ensures other in Scanned(s, x) && other != scan[n] && !HigherOrEqual(scan[m].rec, other.rec)
    {
      var j :| 0 <= j < |q| && q[j] == other;
      assert scan[n+1+j] == other && other in scan;
    }
  }

  lemma {:induction false} FewerItems<T>(a: set<T>, b: set<T>)
    requires a <= b
    ensures |a| <= |b|
  {
    if x :| x in a {
      FewerItems(a - {x}, b - {x});
    }
  }

  lemma RoomForFewer<T>(few: set<T>, many: set<T>, b: Batcher)
    requires few <= many && BelowMax(1 + |many|, b)
    ensures BelowMax(1 + |few|, b)
  {
    FewerItems(few, many);
  }

  lemma ChosenMayBeRemoved<O>(s: System<O>, a: WorkArgs, scan: seq<Item<O>>, it: Item<O>, now: Time, cfg: Config)
    requires SystemOk(s) && a.worker in s.w.workers && IsScan(s, a.worker, scan)
    requires it in Chosen(s, a, scan, now, cfg) && Gone(s, it)
    ensures MayChooseRemoved(s, a.worker)
  {
    var x := a.worker;
    ChosenAreSeen(s, a, scan, now, cfg);
    assert it in Scanned(s, x);
    SeenIsKnown(s, x, it);
    SeenByShortcut(s, x, it);
    hide TrivialFor, WalksOwn, StopsAt, Ready, Scanned, SystemOk, Gone, HigherOrEqual, BatchFrom, IsScan, MayJoin;
    var i := Pick(s.w.steps, RequestFor(s, a), GreedyFor(s, a, now, cfg), RecsIn(scan), 0);
    assert i < |scan|;
    BestTops(s, a, scan, i, now, cfg);
    if it != scan[i] {
      BatchMayJoin(s, a, scan, i, it, now, cfg);
    }
  }

  lemma BestTops<O>(s: System<O>, a: WorkArgs, scan: seq<Item<O>>, i: nat, now: Time, cfg: Config)
    requires SystemOk(s) && a.worker in s.w.workers && TrivialFor(s, a.worker) && !s.w.paused
    requires IsScan(s, a.worker, scan) && i < |scan|
    requires i == Pick(s.w.steps, RequestFor(s, a), GreedyFor(s, a, now, cfg), RecsIn(scan), 0)
    ensures Tops(s, a.worker, scan[i]) && scan[i] in Scanned(s, a.worker)
  {
    hide TrivialFor, StopsAt, Ready, Scanned, SystemOk, HigherOrEqual;
    TrivialStops(s, a, scan, i, now, cfg);
    FirstOutranks(s, a, scan, i, now, cfg);
    assert scan[i] in scan;
  }

  lemma BatchMayJoin<O>(s: System<O>, a: WorkArgs, scan: seq<Item<O>>, i: nat, it: Item<O>, now: Time, cfg: Config)
    requires SystemOk(s) && a.worker in s.w.workers && TrivialFor(s, a.worker) && !s.w.paused && IsScan(s, a.worker, scan)
    requires i < |scan| && i == Pick(s.w.steps, RequestFor(s, a), GreedyFor(s, a, now, cfg), RecsIn(scan), 0)
    requires it in BatchFrom(s.w, a.worker, scan, i) && it != scan[i]
    ensures MayJoin(s, a.worker, scan[i], it)
  {
    hide TrivialFor, StopsAt, Ready, Scanned, SystemOk, HigherOrEqual, StartsBatch, JoinsBatch, BelowMax, GetBatcher, Pick, BatchFrom, RecsIn;
    var x, b := a.worker, GetBatcher(s.w, a.worker, scan[i].rec.info.family);
    var m := JoinedBatchFrom(s.w, x, scan, i, it);
    var between := Joiners(s.w.steps, b, scan[i].rec, scan[i+1..][..m-i-1]);
    forall other | other in Rivals(s, x, scan[i], it)
      ensures other in between
    {
      RivalIsBetween(s, a, scan, i, m, other, now, cfg);
    }
    RoomForFewer(Rivals(s, x, scan[i], it), between, b);
    assert scan[m] in scan;
  }

  lemma RivalIsBetween<O>(s: System<O>, a: WorkArgs, scan: seq<Item<O>>, i: nat, m: nat, other: Item<O>, now: Time, cfg: Config)
    requires SystemOk(s) && a.worker in s.w.workers && TrivialFor(s, a.worker) && !s.w.paused && IsScan(s, a.worker, scan)
    requires i < m < |scan| && i == Pick(s.w.steps, RequestFor(s, a), GreedyFor(s, a, now, cfg), RecsIn(scan), 0)
    requires other in Rivals(s, a.worker, scan[i], scan[m])
    ensures other in scan[i+1..][..m-i-1]
  {
    hide TrivialFor, StopsAt, Scanned, SystemOk, HigherOrEqual, GetBatcher, JoinsBatch, Ready;
    assert other in scan;
    var j :| 0 <= j < |scan| && scan[j] == other;
    RanksWithItself(scan[m].rec);
    assert RecsIn(scan)[m] == scan[m].rec && RecsIn(scan)[j] == scan[j].rec;
    assert j < m;
    BestTops(s, a, scan, i, now, cfg);
    JoinsReady(s, GetBatcher(s.w, a.worker, scan[i].rec.info.family), scan[i], other);
    TrivialStops(s, a, scan, j, now, cfg);
    assert i < j;
    assert scan[i+1..][..m-i-1][j-i-1] == other;
  }

  lemma RanksWithItself(s: StepRec)
    ensures HigherOrEqual(s, s)
  {
  }

  /** In some order of equally ranked steps, the search chooses a removed step, just if the worker is trivial, the
      shortcut is taken, and a removed step is on top or may join a batch behind a step on top. */
  lemma RemovedIsChosenJust<O>(s: System<O>, a: WorkArgs, now: Time, cfg: Config)
    requires SystemOk(s) && a.worker in s.w.workers
    ensures (exists scan :: IsScan(s, a.worker, scan) && exists it <- Chosen(s, a, scan, now, cfg) :: Gone(s, it))
            <==> MayChooseRemoved(s, a.worker)
  {
    hide SystemOk, IsScan, Chosen, Gone, MayChooseRemoved;
    if scan, it :| IsScan(s, a.worker, scan) && it in Chosen(s, a, scan, now, cfg) && Gone(s, it) {
      ChosenMayBeRemoved(s, a, scan, it, now, cfg);
    }
    if MayChooseRemoved(s, a.worker) {
      var scan, it := RemovedCanBeChosen(s, a, now, cfg);
    }
  }

  lemma RemovedCanBeChosen<O>(s: System<O>, a: WorkArgs, now: Time, cfg: Config) returns (scan: seq<Item<O>>, it: Item<O>)
    requires SystemOk(s) && a.worker in s.w.workers && MayChooseRemoved(s, a.worker)
    ensures IsScan(s, a.worker, scan) && it in Chosen(s, a, scan, now, cfg) && Gone(s, it)
  {
    var x := a.worker;
    hide IsScan, Chosen, TrivialFor, Scanned, Tops, MayJoin, WalksOwn;
    it :| it in HeldBy(s, x) && (Tops(s, x, it) || exists best <- Scanned(s, x) :: Tops(s, x, best) && MayJoin(s, x, best, it));
    assert HeldOk(s, x);
    hide SystemOk, HeldOk;
    if Tops(s, x, it) {
      scan := TopIsChosen(s, a, it, now, cfg);
    } else {
      var best: Item<O> :| best in Scanned(s, x) && Tops(s, x, best) && MayJoin(s, x, best, it);
      scan := JoinerIsChosen(s, a, best, it, now, cfg);
    }
  }

  // ---------------------------------------------------------------- whether some order makes `get_work` raise

  predicate NothingToResend(steps: Steps, a: WorkArgs) {
    forall k <- steps :: !Unclaimed(steps[k], a)
  }

  /** With the choices of the turn, the call raises an exception. */
  ghost predicate RaisesWith<O>(s: System<O>, t: Turn<O>, now: Time, cfg: Config) {
    SystemOk(s) && PossibleTurn(s, t, now, cfg) && SystemNext(s, t, now, cfg).1.Raises()
  }

  lemma {:induction false} Highest(steps: Steps, ids: set<StepId>) returns (id: StepId)
    requires ids != {} && ids <= steps.Keys
    ensures id in ids && forall k <- ids :: HigherOrEqual(steps[id], steps[k])
    decreases |ids|
  {
    id :| id in ids;
    if ids != {id} {
      var other := Highest(steps, ids - {id});
      if !HigherOrEqual(steps[id], steps[other]) {
        id := other;
      }
    }
  }

  lemma SomeResend(steps: Steps, a: WorkArgs) returns (resend: Option<StepId>)
    ensures ValidResend(steps, a, resend) && (NothingToResend(steps, a) ==> resend.None?)
  {
    resend := None;
    hide HigherOrEqual, Unclaimed;
    if k :| k in steps && Unclaimed(steps[k], a) {
      var ids := set j | j in steps && Unclaimed(steps[j], a);
      assert k in ids;
      var id := Highest(steps, ids);
      resend := Some(id);
    }
  }

  lemma SomeOwners<O>(s: System<O>, x: WorkerId) returns (owners: set<WorkerId>)
    ensures LooksUp(s, x, owners)
  {
    hide GetSteps, CountRaises, MaySkip;
    owners := set it | it in GetSteps(s, x, {RUNNING}) && it.rec.load.workerRunning.Some? :: it.rec.load.workerRunning.value;
  }

  /** The state in which `get_work` can raise an exception. */
  ghost predicate MayRaise<O>(s: System<O>, a: WorkArgs, order: seq<StepId>, now: Time, cfg: Config)
    requires cfg.pruneOnGetWork ==> Lists(order, s.w.steps.Keys)
  {
    var s1, s2, x := PreparedSystem(s, a, order, now, cfg), ScanSystem(s, a, order, now, cfg), a.worker;
    && !s1.w.workers[x].disabled
    && ((exists it <- HeldBy(s2, x) :: HeldRaises(s2, x, it)) || (NothingToResend(s1.w.steps, a) && MayChooseRemoved(s2, x)))
  }

  lemma RaisesOnlyIf<O>(s: System<O>, t: Turn<O>, now: Time, cfg: Config)
    requires t.OnWork? && RaisesWith(s, t, now, cfg)
    ensures MayRaise(s, t.args, t.order, now, cfg)
  {
    hide SystemNext, SystemOk, PreparedSystem, ScanSystem, CountRaises, HeldRaises, Chosen, LooksUp, Prepare,
         HeldBy, Unclaimed, HigherOrEqual, IsScan, Gone, Lists, MayChooseRemoved;
    var OnWork(a, order, resend, scan, owners) := t;
    ScanSystemOk(s, a, order, now, cfg);
    var s2 := ScanSystem(s, a, order, now, cfg);
    GetWorkRaisesJust(s, a, order, resend, scan, owners, now, cfg);
    CountRaisesJust(s2, a.worker);
    if !CountRaises(s2, a.worker) {
      var it :| it in Chosen(s2, a, scan, now, cfg) && Gone(s2, it);
      ChosenMayBeRemoved(s2, a, scan, it, now, cfg);
    }
  }

  lemma RaisingTurn<O>(s: System<O>, a: WorkArgs, order: seq<StepId>, now: Time, cfg: Config) returns (t: Turn<O>)
    requires SystemOk(s) && (cfg.pruneOnGetWork ==> Lists(order, s.w.steps.Keys))
    requires MayRaise(s, a, order, now, cfg)
    ensures t.OnWork? && t.args == a && t.order == order && RaisesWith(s, t, now, cfg)
  {
    hide SystemNext, SystemOk, PreparedSystem, ScanSystem, CountRaises, HeldRaises, Chosen, LooksUp, Prepare,
         HeldBy, Unclaimed, HigherOrEqual, Gone, MayChooseRemoved, TrivialFor, WalksOwn, Lists, Scanned, Ranked, RecsIn;
    ScanSystemOk(s, a, order, now, cfg);
    var s2 := ScanSystem(s, a, order, now, cfg);
    CountRaisesJust(s2, a.worker);
    var resend := SomeResend(PreparedSystem(s, a, order, now, cfg).w.steps, a);
    var scan := Sorted(Scanned(s2, a.worker));
    var owners := SomeOwners(s2, a.worker);
    if !CountRaises(s2, a.worker) {
      var it;
      scan, it := RemovedCanBeChosen(s2, a, now, cfg);
    }
    t := OnWork(a, order, resend, scan, owners);
    GetWorkRaisesJust(s, a, order, resend, scan, owners, now, cfg);
  }

  /** Some order of the sets makes `get_work` raise an exception, just if the worker is enabled, and either the count
      comes upon a removed step whose id is DONE, or no step has to be sent again and the search may choose a removed
      one. */
  lemma GetWorkMayRaiseJust<O>(s: System<O>, a: WorkArgs, order: seq<StepId>, now: Time, cfg: Config)
    requires SystemOk(s) && (cfg.pruneOnGetWork ==> Lists(order, s.w.steps.Keys))
    ensures (exists t: Turn<O> :: t.OnWork? && t.args == a && t.order == order && RaisesWith(s, t, now, cfg))
            <==> MayRaise(s, a, order, now, cfg)
  {
    hide RaisesWith, MayRaise, SystemOk, Lists, ScanSystem;
    if t: Turn<O> :| t.OnWork? && t.args == a && t.order == order && RaisesWith(s, t, now, cfg) {
      RaisesOnlyIf(s, t, now, cfg);
    }
    if MayRaise(s, a, order, now, cfg) {
      var t := RaisingTurn(s, a, order, now, cfg);
    }
  }
}
