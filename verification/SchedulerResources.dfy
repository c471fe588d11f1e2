/**
 The resource limits hold over whole runs, and a grant leaves room for what the greedy
 simulation has reserved.
 */
module SchedulerResources {
  import opened Options
  import opened Sequences
  import opened SchedulerModel
  import opened SchedulerInvariants

  predicate NonNegative(m: Amounts) {
    forall r <- m :: m[r] >= 0
  }

  ghost predicate AtMost(m: Amounts, n: Amounts) {
    forall r: Resource :: At(m, r) <= At(n, r)
  }

  /** Demands are not negative, and a running step has its own account of what it uses. */
  predicate DemandOk(s: StepRec) {
    && NonNegative(s.load.resources)
    && (s.life.status == RUNNING ==> s.load.resourcesRunning.Some?)
    && (s.load.resourcesRunning.Some? ==> NonNegative(s.load.resourcesRunning.value))
  }

  predicate DemandsOk(steps: Steps) {
    forall k <- steps :: DemandOk(steps[k])
  }

  ghost predicate WithinTotals(w: World) {
    forall r: Resource :: UsedAt(w.steps, Running(w.steps), r) <= TotalOf(w.totals, r)
  }

  // ---------------------------------------------------------------- sums over running steps

  lemma {:induction false} UsedAtSplit(steps: Steps, ids: set<StepId>, r: Resource, k: StepId)
    requires ids <= steps.Keys && k in ids
    ensures UsedAt(steps, ids, r) == At(Charge(steps[k]), r) + UsedAt(steps, ids - {k}, r)
  {
    var j :| j in ids && UsedAt(steps, ids, r) == At(Charge(steps[j]), r) + UsedAt(steps, ids - {j}, r);
    if j != k {
      UsedAtSplit(steps, ids - {j}, r, k);
      UsedAtSplit(steps, ids - {k}, r, j);
      assert ids - {j} - {k} == ids - {k} - {j};
    }
  }

  lemma {:induction false} UsedAtMono(steps: Steps, next: Steps, ids: set<StepId>, less: set<StepId>, r: Resource)
    requires less <= ids <= steps.Keys && less <= next.Keys
    requires forall k <- ids :: NonNegative(Charge(steps[k]))
    requires forall k <- less :: AtMost(Charge(next[k]), Charge(steps[k]))
    ensures UsedAt(next, less, r) <= UsedAt(steps, ids, r)
  {
    if ids != {} {
      var k :| k in ids;
      UsedAtSplit(steps, ids, r, k);
      UsedAtMono(steps, next, ids - {k}, less - {k}, r);
      if k in less {
        UsedAtSplit(next, less, r, k);
      } else {
        assert less - {k} == less;
      }
    }
  }

  lemma {:induction false} UsedAtZero(steps: Steps, ids: set<StepId>, r: Resource)
    requires ids <= steps.Keys && forall k <- ids :: r !in Charge(steps[k])
    ensures UsedAt(steps, ids, r) == 0
  {
    if ids != {} {
      var k :| k in ids;
      UsedAtSplit(steps, ids, r, k);
      UsedAtZero(steps, ids - {k}, r);
    }
  }

  lemma UsedResourcesSum(steps: Steps, r: Resource)
    ensures At(UsedResources(steps), r) == UsedAt(steps, Running(steps), r)
  {
    if r !in UsedKeys(steps) {
      UsedAtZero(steps, Running(steps), r);
    }
  }

  // ---------------------------------------------------------------- operations that start nothing

  /** No step starts to run, and no running step uses more. */
  ghost predicate Calms(steps: Steps, next: Steps) {
    DemandsOk(steps) ==>
      && DemandsOk(next)
      && Running(next) <= Running(steps)
      && forall k <- Running(next) :: AtMost(Charge(next[k]), Charge(steps[k]))
  }

  lemma CalmsTotals(w: World, next: World)
    requires WithinTotals(w) && DemandsOk(w.steps) && Calms(w.steps, next.steps) && next.totals == w.totals
    ensures WithinTotals(next)
  {
    forall r: Resource
      ensures UsedAt(next.steps, Running(next.steps), r) <= TotalOf(next.totals, r)
    {
      UsedAtMono(w.steps, next.steps, Running(w.steps), Running(next.steps), r);
    }
  }

  /** `t` runs only if `s` does, and its accounts are those of `s`. */
  predicate SameAccounts(s: StepRec, t: StepRec) {
    && t.load.resources == s.load.resources && t.load.resourcesRunning == s.load.resourcesRunning
    && (t.life.status == RUNNING ==> s.life.status == RUNNING)
  }

  lemma SameAccountsCalm(steps: Steps, next: Steps)
    requires forall k <- next :: k in steps && SameAccounts(steps[k], next[k])
    ensures Calms(steps, next)
  {
    if DemandsOk(steps) {
      forall k | k in next
        ensures DemandOk(next[k])
      {
        assert DemandOk(steps[k]);
      }
      forall k | k in Running(next)
        ensures k in Running(steps) && Charge(next[k]) == Charge(steps[k])
      {
      }
    }
  }

  lemma SettlesCalms(steps: Steps, next: Steps)
    requires AllSettle(steps, next)
    ensures Calms(steps, next)
  {
    forall k | k in next
      ensures SameAccounts(steps[k], next[k])
    {
      assert Settles(steps[k], next[k]);
      assert next[k].load.resources == next[k].load.(workerRunning := None).resources;
      assert next[k].load.resourcesRunning == next[k].load.(workerRunning := None).resourcesRunning;
    }
    SameAccountsCalm(steps, next);
  }

  lemma SetStatusCalms(steps: Steps, id: StepId, target: Status, now: Time, cfg: Config)
    requires id in steps && target != RUNNING
    ensures Calms(steps, SetStatus(steps, id, target, now, cfg))
  {
    var next := SetStatus(steps, id, target, now, cfg);
    SetStatusAt(steps, id, target, now, cfg, id);
    forall k | k in next
      ensures SameAccounts(steps[k], next[k])
    {
      SetStatusAt(steps, id, target, now, cfg, k);
      SetLifeOk(steps[k].life, steps[k].info.batchable, steps[k].info.policy, target, now, cfg);
    }
    SameAccountsCalm(steps, next);
  }

  lemma PruneCalms(w: World, order: seq<StepId>, now: Time, cfg: Config)
    requires Lists(order, w.steps.Keys)
    ensures Calms(w.steps, Prune(w, order, now, cfg).steps) && Prune(w, order, now, cfg).totals == w.totals
    ensures Prune(w, order, now, cfg).batchers == w.batchers
  {
    var w1 := PruneWorkers(w, now, cfg);
    var next := Prune(w, order, now, cfg).steps;
    PruneLoopSettles(w1.steps, order, now, cfg, Assistants(w1.workers), {});
    forall k | k in next
      ensures k in w.steps && SameAccounts(w.steps[k], next[k])
    {
      assert Settles(w1.steps[k], next[k]);
      assert next[k].load.resources == next[k].load.(workerRunning := None).resources;
      assert next[k].load.resourcesRunning == next[k].load.(workerRunning := None).resourcesRunning;
    }
    SameAccountsCalm(w.steps, next);
  }

  lemma TailCalms(steps: Steps, a: AddArgs, enabled: bool, now: Time, cfg: Config)
    requires a.id in steps && a.status != RUNNING && NonNegative(a.resources)
    ensures Calms(steps, AddStepTail(steps, a, enabled, now, cfg))
  {
    var unmarked := steps[a.id := Unmark(steps[a.id], a)];
    var reported := Report(unmarked, a, now, cfg);
    var next := AddStepTail(steps, a, enabled, now, cfg);
    SetStatusCalms(unmarked, a.id, if a.status == SUSPENDED then PENDING else a.status, now, cfg);
    assert Calms(unmarked, reported);
    if DemandsOk(steps) {
      assert DemandsOk(unmarked) && DemandsOk(reported);
      forall k | k in next
        ensures DemandOk(next[k])
        ensures next[k].life.status == RUNNING ==>
                  k in steps && steps[k].life.status == RUNNING && AtMost(Charge(next[k]), Charge(steps[k]))
      {
        AddStepTailAt(steps, a, enabled, now, cfg, k);
        if k in steps && next[k].life.status == RUNNING {
          assert k in Running(reported) && k in Running(unmarked);
        }
      }
    }
  }

  lemma AddStepCalms(w: World, a: AddArgs, pick: Option<StepId>, now: Time, cfg: Config)
    requires a.status != RUNNING && NonNegative(a.resources)
    ensures var r := AddStep(w, a, pick, now, cfg).0;
            Calms(w.steps, r.steps) && r.totals == w.totals && r.batchers == w.batchers
  {
    hide AddStepTail;
    AddStepShape(w, a, pick, now, cfg);
    var head := AddStepHead(w.steps, a, now, cfg);
    assert head[a.id].life.status == Found(w.steps, a, now, cfg).life.status;
    assert Calms(w.steps, head);
    TailCalms(head, a, !Touch(w.workers, a.worker, false, now)[a.worker].disabled, now, cfg);
  }

  lemma DecreaseOneLess(s: StepRec, d: Amounts)
    requires DemandOk(s)
    ensures var t := DecreaseOne(s, d);
            DemandOk(t) && AtMost(Charge(t), Charge(s)) && t.life == s.life
  {
    if s.load.resourcesRunning.Some? {
      var m := s.load.resourcesRunning.value;
      assert NonNegative(Decreased(m, d)) && AtMost(Decreased(m, d), m);
    }
  }

  lemma DecreaseCalms(w: World, id: StepId, d: Amounts, done: set<StepId>)
    ensures Calms(w.steps, DecreaseRunning(w, id, d, done).steps)
  {
    hide DecreaseSteps, Calms;
    if id in w.steps {
      DecreaseStepsCalm(w.steps, id, d, done);
    }
    SameIsCalm(w.steps);
  }

  lemma SameIsCalm(steps: Steps)
    ensures Calms(steps, steps)
  {
    SameAccountsCalm(steps, steps);
  }

  lemma DecreaseStepsCalm(steps: Steps, id: StepId, d: Amounts, done: set<StepId>)
    ensures Calms(steps, DecreaseSteps(steps, id, d, done))
  {
    hide DecreaseOne, DemandOk, Charge, InBatch, AtMost;
    var next := DecreaseSteps(steps, id, d, done);
    if DemandsOk(steps) {
      forall k | k in steps
        ensures DemandOk(next[k]) && AtMost(Charge(next[k]), Charge(steps[k])) && next[k].life == steps[k].life
      {
        DecreaseOneLess(steps[k], d);
        SameAtMost(steps[k]);
      }
    }
  }

  lemma SameAtMost(s: StepRec)
    requires DemandOk(s)
    ensures AtMost(Charge(s), Charge(s))
  {
  }

  // ---------------------------------------------------------------- get_work

  /** A position of the scan at which `get_work` may stop, read off the scheduler state. */
  lemma ScanPosition(w: World, a: WorkArgs, c: Choices, now: Time, cfg: Config) returns (q: seq<StepRec>, i: nat)
    requires a.worker in w.workers && ValidScan(w, Relevant(w, a.worker), c.scan) && Keyed(w.steps)
    requires c.resend.None? && w.batchers == map[]
    ensures q == RecsOf(w.steps, c.scan) && i <= |q| && i == Pick(w.steps, RequestOf(w, a), GreedyOf(w, a, now, cfg), q, 0)
    ensures Decide(w, a, c, now, cfg) == if i == |q| then NoWork else Granted(c.scan[i])
    ensures i < |q| ==> c.scan[i] in Relevant(w, a.worker) && q[i] == w.steps[c.scan[i]] && q[i].id == c.scan[i] &&
                        StopsAt(w.steps, RequestOf(w, a), GreedyOf(w, a, now, cfg), q, i)
  {
    q := RecsOf(w.steps, c.scan);
    i := Pick(w.steps, RequestOf(w, a), GreedyOf(w, a, now, cfg), q, 0);
    if i < |q| {
      assert c.scan[i] in c.scan;
    }
  }

  lemma GrantWithinTotals(w: World, id: StepId, x: WorkerId, now: Time, cfg: Config)
    requires WithinTotals(w) && DemandsOk(w.steps) && id in w.steps && w.steps[id].life.status == PENDING
    requires w.steps[id].load.resources == map[] ||
             HasResources(w.steps[id].load.resources, UsedResources(w.steps), w.totals)
    ensures var next := w.(steps := Grant(w.steps, id, x, now, cfg));
            WithinTotals(next) && DemandsOk(next.steps)
  {
    var next := Grant(w.steps, id, x, now, cfg);
    forall k | k in w.steps
      ensures k != id ==> next[k] == w.steps[k]
      ensures next[id].life.status == RUNNING && Charge(next[id]) == w.steps[id].load.resources
    {
      SetStatusAt(w.steps, id, RUNNING, now, cfg, k);
      SetStatusAt(w.steps, id, RUNNING, now, cfg, id);
    }
    assert Running(next) - {id} == Running(w.steps);
    forall r: Resource
      ensures UsedAt(next, Running(next), r) <= TotalOf(w.totals, r)
    {
      UsedAtSplit(next, Running(next), r, id);
      UsedAtMono(w.steps, next, Running(w.steps), Running(w.steps), r);
      UsedResourcesSum(w.steps, r);
    }
  }

  lemma AtScanCalms(w: World, a: WorkArgs, c: Choices, now: Time, cfg: Config)
    requires cfg.pruneOnGetWork ==> Lists(c.pruneOrder, w.steps.Keys)
    ensures var w2 := AtScan(w, a, c, now, cfg);
            Calms(w.steps, w2.steps) && w2.totals == w.totals && w2.batchers == w.batchers
    ensures var w1 := Prepare(w, a, c.pruneOrder, now, cfg);
            Calms(w.steps, w1.steps) && w1.totals == w.totals && w1.batchers == w.batchers
  {
    var w1 := Prepare(w, a, c.pruneOrder, now, cfg);
    if cfg.pruneOnGetWork {
      PruneCalms(w, c.pruneOrder, now, cfg);
    }
    AnnounceCalms(w1, a, now, cfg);
  }

  lemma AnnounceCalms(w: World, a: WorkArgs, now: Time, cfg: Config)
    requires a.worker in w.workers
    ensures var r := Announce(w, a, now, cfg);
            Calms(w.steps, r.steps) && r.totals == w.totals && r.batchers == w.batchers
  {
    var next := Announce(w, a, now, cfg).steps;
    forall k | k in next
      ensures k in w.steps && SameAccounts(w.steps[k], next[k])
    {
      SetLifeOk(w.steps[k].life, w.steps[k].info.batchable, w.steps[k].info.policy, PENDING, now, cfg);
    }
    SameAccountsCalm(w.steps, next);
  }

  /** A fresh grant keeps the use of every resource within its total. */
  lemma GetWorkWithinTotals(w: World, a: WorkArgs, c: Choices, now: Time, cfg: Config)
    requires Inv(w) && ValidChoices(w, a, c, now, cfg) && c.resend.None? && w.batchers == map[]
    requires WithinTotals(w) && DemandsOk(w.steps)
    ensures var next := GetWork(w, a, c, now, cfg).0;
            WithinTotals(next) && DemandsOk(next.steps) && next.batchers == map[] && next.totals == w.totals
  {
    hide GetWork, Decide, Grant, Prepare, Announce;
    var reply := GetWorkShape(w, a, c, now, cfg);
    AtScanCalms(w, a, c, now, cfg);
    var w1 := Prepare(w, a, c.pruneOrder, now, cfg);
    CalmsTotals(w, w1);
    if !w1.workers[a.worker].disabled {
      var w2 := AtScan(w, a, c, now, cfg);
      CalmsTotals(w, w2);
      DecisionIsKnown(w, a, c, now, cfg);
      var q, i := ScanPosition(w2, a, c, now, cfg);
      if i < |q| {
        GrantWithinTotals(w2, c.scan[i], a.worker, now, cfg);
      }
    }
  }

  // ---------------------------------------------------------------- runs

  /** Reports that do not start a step, fresh grants, no batching, fixed totals. */
  predicate Plain(e: Event) {
    match e
    case OnAddStep(a, pick) => a.status != RUNNING && NonNegative(a.resources)
    case OnGetWork(a, c) => c.resend.None?
    case OnAddBatcher(_, _, _) => false
    case OnUpdateResource(_, _) => false
    case OnUpdateResources(_) => false
    case _ => true
  }

  ghost predicate ResourcesOk(w: World) {
    WithinTotals(w) && DemandsOk(w.steps) && w.batchers == map[]
  }

  lemma NextWithinTotals(w: World, e: Event, now: Time, cfg: Config)
    requires Inv(w) && Possible(w, e, now, cfg) && Plain(e) && ResourcesOk(w)
    ensures var next := Next(w, e, now, cfg);
            ResourcesOk(next) && next.totals == w.totals
  {
    hide AddStep, GetWork, Prune, ReEnable, SetStatus, WithinTotals, Inv, DemandsOk;
    match e
    case OnAddStep(a, pick) =>
      AddStepCalms(w, a, pick, now, cfg);
      CalmsTotals(w, Next(w, e, now, cfg));
    case OnGetWork(a, c) => GetWorkWithinTotals(w, a, c, now, cfg);
    case OnPrune(order) =>
      PruneCalms(w, order, now, cfg);
      CalmsTotals(w, Next(w, e, now, cfg));
    case OnMarkAsDone(id) =>
      if id in w.steps { SetStatusCalms(w.steps, id, DONE, now, cfg); CalmsTotals(w, w.(steps := SetStatus(w.steps, id, DONE, now, cfg))); }
    case OnForgive(id) =>
      if id in w.steps { SetStatusCalms(w.steps, id, PENDING, now, cfg); CalmsTotals(w, w.(steps := SetStatus(w.steps, id, PENDING, now, cfg))); }
    case OnReEnable(id) =>
      if id in w.steps {
        ReEnableSettles(w.steps, id, now, cfg);
        SettlesCalms(w.steps, ReEnable(w.steps, id, now, cfg));
        CalmsTotals(w, w.(steps := ReEnable(w.steps, id, now, cfg)));
      }
    case OnDecrease(id, d, done) =>
      DecreaseCalms(w, id, d, done);
      CalmsTotals(w, Next(w, e, now, cfg));
    case OnDisableWorker(x) => DisableCalms(w, x, now);
    case OnCountPending(x) => CalmsTotals(w, Next(w, e, now, cfg));
    case OnAddWorker(x, info) => CalmsTotals(w, Next(w, e, now, cfg));
    case OnPing(x) => CalmsTotals(w, Next(w, e, now, cfg));
    case OnSetPaused(paused) => CalmsTotals(w, Next(w, e, now, cfg));
  }

  lemma DisableCalms(w: World, x: WorkerId, now: Time)
    requires WithinTotals(w) && DemandsOk(w.steps)
    ensures WithinTotals(DisableWorker(w, x, now)) && DemandsOk(DisableWorker(w, x, now).steps)
  {
    var next := DisableWorker(w, x, now);
    assert forall k <- w.steps :: next.steps[k].load == w.steps[k].load && next.steps[k].life == w.steps[k].life;
    CalmsTotals(w, next);
  }

  lemma StartWithinTotals(totals: Amounts)
    requires NonNegative(totals)
    ensures ResourcesOk(Initial(totals))
  {
    assert Running(Initial(totals).steps) == {};
  }

  /** In every run of plain calls, what the running steps use of a resource never exceeds its total. */
  lemma {:induction false} ResourcesStayWithinTotals(worlds: seq<World>, calls: seq<Call>, cfg: Config)
    requires IsRun(worlds, calls, cfg) && NonNegative(worlds[0].totals)
    requires forall c <- calls :: Plain(c.event)
    ensures forall w <- worlds :: ResourcesOk(w) && w.totals == worlds[0].totals
  {
    hide Next, Possible, Inv, Plain, ResourcesOk;
    var n := |calls|;
    if n == 0 {
      StartWithinTotals(worlds[0].totals);
    } else {
      ResourcesStayWithinTotals(worlds[..n], calls[..n-1], cfg);
      ReachableStatesAreOk(worlds, calls, cfg);
      assert worlds[n-1] in worlds[..n] && worlds[n-1] in worlds && calls[n-1] in calls;
      NextWithinTotals(worlds[n-1], calls[n-1].event, calls[n-1].now, cfg);
      assert worlds == worlds[..n] + [worlds[n]];
    }
  }

  // ---------------------------------------------------------------- what the greedy pass reserves

  predicate AnySlot(g: Greedy, candidates: seq<WorkerId>) {
    exists x <- candidates :: HasSlot(g, x)
  }

  /** The pass reserves just if one of the candidates has a free process. */
  lemma {:induction false} ReserveTakes(g: Greedy, candidates: seq<WorkerId>, amounts: Amounts)
    ensures var next := Reserve(g, candidates, amounts);
            && next.reserved == (if AnySlot(g, candidates) then Plus(g.reserved, amounts) else g.reserved)
            && next.slots.Keys == g.slots.Keys
  {
    if candidates != [] && !HasSlot(g, candidates[0]) {
      ReserveTakes(g, candidates[1..], amounts);
      assert forall x :: x in candidates <==> x == candidates[0] || x in candidates[1..];
    } else if candidates != [] {
      assert candidates[0] in candidates;
    }
  }

  /** The greedy pass reserves the demand of the step at position `j`: it could run, if all running steps
      were started anew, on a worker that still has a free process. */
  predicate Reserved(steps: Steps, req: Request, g: Greedy, q: seq<StepRec>, j: nat)
    requires j < |q|
  {
    var before := ChargeRunning(PassAll(steps, req, g, q[..j]), q[j]);
    && Schedulable(steps, q[j]) && HasResources(q[j].load.resources, before.reserved, req.totals)
    && AnySlot(before, Candidates(req, q[j]))
  }

  /** The step runs on a worker that takes part in the pass. */
  predicate RunsInPass(g: Greedy, s: StepRec) {
    s.life.status == RUNNING && s.load.workerRunning.Some? && s.load.workerRunning.value in g.slots
  }

  /** What the pass sets aside of a resource for the first `n` steps: for those that run, what they are
      charged; for those that it reserves, what they demand. */
  function SetAside(steps: Steps, req: Request, g: Greedy, q: seq<StepRec>, n: nat, r: Resource): int
    requires n <= |q|
  {
    if n == 0 then 0 else
    SetAside(steps, req, g, q, n - 1, r)
    + (if RunsInPass(g, q[n-1]) then At(Charge(q[n-1]), r) else 0)
    + (if Reserved(steps, req, g, q, n - 1) then At(q[n-1].load.resources, r) else 0)
  }

  lemma {:induction false} PassSetsAside(steps: Steps, req: Request, g: Greedy, q: seq<StepRec>, n: nat, r: Resource)
    requires n <= |q|
    ensures var after := PassAll(steps, req, g, q[..n]);
            after.slots.Keys == g.slots.Keys && At(after.reserved, r) == At(g.reserved, r) + SetAside(steps, req, g, q, n, r)
  {
    if n > 0 {
      PassSetsAside(steps, req, g, q, n - 1, r);
      assert q[..n][..n-1] == q[..n-1];
      var before, s := PassAll(steps, req, g, q[..n-1]), q[n-1];
      hide Schedulable, HasResources, AnySlot, PassAll;
      ChargeTakes(before, s, r);
      ReserveTakes(ChargeRunning(before, s), Candidates(req, s), s.load.resources);
    }
  }

  lemma ChargeTakes(g: Greedy, s: StepRec, r: Resource)
    ensures var next := ChargeRunning(g, s);
            && next.slots.Keys == g.slots.Keys
            && At(next.reserved, r) == At(g.reserved, r) + if RunsInPass(g, s) then At(Charge(s), r) else 0
  {
  }

  /** A step is only granted if its demand fits on top of all that the pass has set aside for the steps
      ranked above it. */
  lemma GrantLeavesRoom(steps: Steps, req: Request, g: Greedy, q: seq<StepRec>, i: nat)
    requires i < |q| && StopsAt(steps, req, g, q, i)
    ensures forall r <- q[i].load.resources ::
      q[i].load.resources[r] + At(g.reserved, r) + SetAside(steps, req, g, q, i, r) <= TotalOf(req.totals, r)
  {
    forall r | r in q[i].load.resources
      ensures q[i].load.resources[r] + At(g.reserved, r) + SetAside(steps, req, g, q, i, r) <= TotalOf(req.totals, r)
    {
      PassSetsAside(steps, req, g, q, i, r);
      ChargeTakes(PassAll(steps, req, g, q[..i]), q[i], r);
    }
  }

  /** The same for what `get_work` decides: the best step fits on top of what the greedy pass sets aside. */
  lemma FreshGrantLeavesRoom(w: World, a: WorkArgs, c: Choices, now: Time, cfg: Config)
    requires a.worker in w.workers && ValidScan(w, Relevant(w, a.worker), c.scan) && c.resend.None?
    ensures var q := RecsOf(w.steps, c.scan);
            var req, g := RequestOf(w, a), GreedyOf(w, a, now, cfg);
            var i := Pick(w.steps, req, g, q, 0);
            Decide(w, a, c, now, cfg) != NoWork ==>
              && i < |q| && Decide(w, a, c, now, cfg) == ReplyFor(q[i].id, BatchAt(w, a.worker, q, i))
              && forall r <- q[i].load.resources ::
                   q[i].load.resources[r] + SetAside(w.steps, req, g, q, i, r) <= TotalOf(w.totals, r)
  {
    var q := RecsOf(w.steps, c.scan);
    var req, g := RequestOf(w, a), GreedyOf(w, a, now, cfg);
    var i := Pick(w.steps, req, g, q, 0);
    hide Pick, StopsAt, BatchAt, SetAside;
    if i < |q| {
      GrantLeavesRoom(w.steps, req, g, q, i);
    }
  }
}
