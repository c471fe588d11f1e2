/**
 Which step `get_work` chooses when the worker also sees steps that have been removed, stated on the fields.
 */
module RemovedGrants {
  import opened Options
  import opened Sequences
  import opened SchedulerModel
  import opened SchedulerInvariants
  import opened GrantLaws
  import opened RemovedSteps

  /** The scan of the step objects: each that the worker sees once, none behind one that it comes before. */
  ghost predicate ScansItems<O>(s: System<O>, x: WorkerId, scan: seq<Item<O>>)
    requires x in s.w.workers
  {
    && (forall it <- scan :: it in Scanned(s, x)) && (forall it <- Scanned(s, x) :: it in scan)
    && (forall i, j :: 0 <= i < j < |scan| ==> scan[i] != scan[j] && !Outranks(scan[j].rec, scan[i].rec))
  }

  /** What the worker sees: open active steps, only its own if its pending ones are without demands; in that case also
      the open removed steps that it holds, if it holds fewer steps than are open. */
  lemma SeenAre<O>(s: System<O>, x: WorkerId, it: Item<O>)
    requires SystemOk(s) && x in s.w.workers
    ensures it in Scanned(s, x) <==>
      && !s.w.paused && it.rec.life.status in {PENDING, RUNNING}
      && (|| (&& it.rec.id in s.w.steps && s.w.steps[it.rec.id] == it.rec && s.who[it.rec.id] == it.obj
              && (TrivialFor(s, x) ==> x in it.rec.info.workers))
          || (TrivialFor(s, x) && WalksOwn(s, x, {PENDING, RUNNING}) && it in s.held[x]))
  {
    hide WalksOwn, TrivialFor, RosterOk, HeldOk, RecOk;
  }

  /** The choice is made by the rules of the scan. */
  lemma ChosenByTheRules<O>(s: System<O>, a: WorkArgs, scan: seq<Item<O>>, now: Time, cfg: Config)
      returns (req: Request, g: Greedy, trace: seq<Greedy>, i: nat)
    requires a.worker in s.w.workers && IsScan(s, a.worker, scan)
    ensures ScansItems(s, a.worker, scan)
    ensures StartsWith(s.w, a, TrivialFor(s, a.worker), req, g, now, cfg) && ScansTo(s.w.steps, req, g, RecsIn(scan), trace, i)
    ensures IdsIn(Chosen(s, a, scan, now, cfg)) == if i == |scan| then [] else BatchBehind(s.w, a.worker, RecsIn(scan), i)
    ensures i < |scan| ==> Chosen(s, a, scan, now, cfg) != [] && Chosen(s, a, scan, now, cfg)[0] == scan[i]
  {
    req, g := RequestFor(s, a), GreedyFor(s, a, now, cfg);
    SetUpFor(s, a, now, cfg);
    trace := ScanByTheRules(s.w.steps, req, g, RecsIn(scan));
    i := Pick(s.w.steps, req, g, RecsIn(scan), 0);
    OrderOfItems(s, a.worker, scan);
    hide ScansTo, StartsWith, IsScan, ScansItems, Pick, RequestFor, GreedyFor, TrivialFor, BatchFrom, BatchBehind;
    if i < |scan| {
      BatchOfItems(s.w, a.worker, scan, i);
    }
  }

  lemma SetUpFor<O>(s: System<O>, a: WorkArgs, now: Time, cfg: Config)
    requires a.worker in s.w.workers
    ensures StartsWith(s.w, a, TrivialFor(s, a.worker), RequestFor(s, a), GreedyFor(s, a, now, cfg), now, cfg)
  {
    hide TrivialFor;
    UsedByRunning(s.w.steps);
    hide UsedResources, UsedAt;
  }

  lemma OrderOfItems<O>(s: System<O>, x: WorkerId, scan: seq<Item<O>>)
    requires x in s.w.workers && IsScan(s, x, scan)
    ensures ScansItems(s, x, scan)
  {
    hide Scanned;
    var q := RecsIn(scan);
    forall i, j | 0 <= i < j < |scan|
      ensures !Outranks(scan[j].rec, scan[i].rec)
    {
      assert HigherOrEqual(q[i], q[j]);
    }
  }

  lemma BatchOfItems<O>(w: World, x: WorkerId, scan: seq<Item<O>>, i: nat)
    requires i < |scan|
    ensures var batch := BatchFrom(w, x, scan, i);
            var chosen := if |batch| > 1 then batch else [scan[i]];
            IdsIn(chosen) == BatchBehind(w, x, RecsIn(scan), i) && chosen[0] == scan[i]
  {
    SameBatch(w, x, scan, i);
    RepliesWithBatch(w, x, RecsIn(scan), i);
    FirstOfBatch(w, x, RecsIn(scan), i);
    CollectedBehind(w.steps, GetBatcher(w, x, scan[i].rec.info.family), scan[i].rec, [scan[i]], scan[i+1..]);
    hide BatchBehind, BatchAt, CollectItems, StartsBatch;
  }

  lemma {:induction false} CollectedBehind<O>(steps: Steps, b: Batcher, best: StepRec, batch: seq<Item<O>>, q: seq<Item<O>>)
    ensures batch <= CollectItems(steps, b, best, batch, q)
    decreases |q|
  {
    if q != [] {
      CollectedBehind(steps, b, best, batch + [q[0]], q[1..]);
      CollectedBehind(steps, b, best, batch, q[1..]);
    }
  }

  /** Without workers that take part, nothing is set aside. */
  lemma {:induction false} NothingAside(steps: Steps, req: Request, g: Greedy, q: seq<StepRec>, trace: seq<Greedy>, i: nat, j: nat)
    requires ScansTo(steps, req, g, q, trace, i) && g.slots == map[] && j <= |q|
    ensures trace[j] == g
  {
    if j > 0 {
      NothingAside(steps, req, g, q, trace, i, j - 1);
      assert Passes(steps, req, trace[j-1], q[j-1], trace[j]);
      hide ReadyToRun, Fits;
    }
  }

  /** For a worker without demands the choice is, among all that it sees, ready steps whose demands fit the totals, the
      one with the highest priority, and of several the oldest. */
  lemma ChosenIsHighest<O>(s: System<O>, a: WorkArgs, scan: seq<Item<O>>, now: Time, cfg: Config)
    requires SystemOk(s) && a.worker in s.w.workers && IsScan(s, a.worker, scan) && TrivialFor(s, a.worker) && !a.assistant
    ensures var chosen, steps := Chosen(s, a, scan, now, cfg), s.w.steps;
            && (chosen != [] ==> chosen[0] in Scanned(s, a.worker) && ReadyToRun(steps, chosen[0].rec))
            && forall it <- Scanned(s, a.worker) :: ReadyToRun(steps, it.rec) && Fits(it.rec.load.resources, map[], s.w.totals) ==>
                 chosen != [] && (|| it.rec.info.priority < chosen[0].rec.info.priority
                                  || (it.rec.info.priority == chosen[0].rec.info.priority && it.rec.info.time >= chosen[0].rec.info.time))
  {
    hide Chosen, IsScan, ReadyToRun, Fits, ScansTo, StartsWith, TrivialFor, BatchBehind, Scanned, RosterOk, HeldOk;
    var req, g, trace, i := ChosenByTheRules(s, a, scan, now, cfg);
    var chosen := Chosen(s, a, scan, now, cfg);
    StopIsReady(s.w.steps, req, g, RecsIn(scan), trace, i);
    forall it | it in Scanned(s, a.worker) && ReadyToRun(s.w.steps, it.rec) && Fits(it.rec.load.resources, map[], s.w.totals)
      ensures chosen != [] && !Outranks(it.rec, chosen[0].rec)
    {
      var j := ComesLater(s, a, scan, req, g, trace, i, it, now, cfg);
    }
  }

  lemma StopIsReady(steps: Steps, req: Request, g: Greedy, q: seq<StepRec>, trace: seq<Greedy>, i: nat)
    requires ScansTo(steps, req, g, q, trace, i)
    ensures i <= |q| && (i < |q| ==> ReadyToRun(steps, q[i]))
  {
    hide ReadyToRun, Fits, Passes;
  }

  /** The scan does not pass over a step that could be handed out. */
  lemma ComesLater<O>(s: System<O>, a: WorkArgs, scan: seq<Item<O>>, req: Request, g: Greedy, trace: seq<Greedy>, i: nat, it: Item<O>,
                      now: Time, cfg: Config) returns (j: nat)
    requires SystemOk(s) && a.worker in s.w.workers && ScansItems(s, a.worker, scan) && TrivialFor(s, a.worker)
    requires StartsWith(s.w, a, true, req, g, now, cfg) && ScansTo(s.w.steps, req, g, RecsIn(scan), trace, i)
    requires it in Scanned(s, a.worker) && ReadyToRun(s.w.steps, it.rec) && Fits(it.rec.load.resources, map[], s.w.totals)
    ensures i <= j < |scan| && scan[j] == it
  {
    hide ReadyToRun, Fits, Passes, TrivialFor, Scanned, SystemOk;
    HeldForWorker(s, a.worker, it);
    j :| 0 <= j < |scan| && scan[j] == it;
    NothingAside(s.w.steps, req, g, RecsIn(scan), trace, i, j);
    assert Takeable(s.w.steps, req, trace[j].reserved, RecsIn(scan)[j]);
  }

  lemma HeldForWorker<O>(s: System<O>, x: WorkerId, it: Item<O>)
    requires SystemOk(s) && x in s.w.workers && it in Scanned(s, x) && TrivialFor(s, x)
    ensures x in it.rec.info.workers
  {
    SeenAre(s, x, it);
    assert HeldOk(s, x);
    hide Scanned, TrivialFor, WalksOwn;
  }
}
