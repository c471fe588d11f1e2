/**
 How `get_work` looks for a step: the loops over step objects, which read the scheduler's state but do
 not change it.  Each of them is proved to compute the function of the same name in SchedulerModel, or in
 RemovedSteps if it can come upon removed steps.
 */
module WorkSearch {
  import opened Options
  import opened Sequences
  import opened SchedulerModel
  import opened SchedulerInvariants
  import opened SchedulerState
  import opened SchedulerResources
  import opened RemovedSteps

  // ---------------------------------------------------------------- lists of steps

  /** The value `s` describes the state, with the steps that have been removed. */
  ghost predicate Describes(state: SimpleStepState, s: System<Step>)
    reads state, state.steps.Values, state.activeWorkers.Values, state.WorkerSteps()
  {
    && s.w.steps == state.Recs() && s.w.workers == state.WorkerRecs() && s.w.batchers == state.batchers
    && s.who == state.steps && s.held == state.Held()
  }

  ghost function ItemsOfSteps(steps: set<Step>): set<Item<Step>>
    reads steps
  {
    set s | s in steps :: Item(s, s.Rec())
  }

  ghost function ItemsIn(q: seq<Step>): (r: seq<Item<Step>>)
    reads q
    ensures |r| == |q| && forall i :: 0 <= i < |q| ==> r[i] == Item(q[i], q[i].Rec())
  {
    seq(|q|, i requires 0 <= i < |q| reads q => Item(q[i], q[i].Rec()))
  }

  ghost function RecsOfSteps(q: seq<Step>): (r: seq<StepRec>)
    reads q
    ensures |r| == |q| && forall i :: 0 <= i < |q| ==> r[i] == q[i].Rec()
  {
    seq(|q|, i requires 0 <= i < |q| reads q => q[i].Rec())
  }

  /** `get_active_steps_by_status`, as a set. */
  method StepsByStatus(state: SimpleStepState, statuses: set<Status>) returns (found: set<Step>)
    requires state.Indexed()
    ensures found == set k | k in state.steps && state.steps[k].life.status in statuses :: state.steps[k]
  {
    found := {};
    var rest := statuses;
    while rest != {}
      invariant rest <= statuses
      invariant found == set k | k in state.steps && state.steps[k].life.status in statuses - rest :: state.steps[k]
      decreases rest
    {
      var status :| status in rest;
      assert state.IndexOk(status);
      found := found + state.WithStatus(status).Values;
      rest := rest - {status};
    }
    assert statuses - rest == statuses;
  }

  /** `Worker.get_steps`.  It filters the smaller one of two collections, and only the worker's own one can hold
      steps that have been removed. */
  method GetSteps(state: SimpleStepState, worker: Worker, statuses: set<Status>, ghost s: System<Step>) returns (found: set<Step>)
    requires state.Consistent() && worker.id in state.activeWorkers && state.activeWorkers[worker.id] == worker && Describes(state, s)
    ensures ItemsOfSteps(found) == RemovedSteps.GetSteps(s, worker.id, statuses)
  {
    hide SimpleStepState.Linked, ItemsOf, HeldWith, OwnIds, StatusIds, StepsOfWorker, RemovedSteps.Objects, ItemsOfSteps;
    var candidates := StepsByStatus(state, statuses);
    OwnSteps(state, worker, s);
    FiledSteps(state, statuses, s);
    if |worker.steps| < |candidates| {
      found := set t | t in worker.steps && t.life.status in statuses;
      FoundByWorker(state, worker, statuses, s, found);
    } else {
      found := set t | t in candidates && worker.id in t.info.workers;
      FoundByStatus(state, worker, statuses, s, found);
    }
  }

  /** `worker.steps` is what the value says. */
  lemma OwnSteps(state: SimpleStepState, worker: Worker, s: System<Step>)
    requires state.Consistent() && worker.id in state.activeWorkers && state.activeWorkers[worker.id] == worker && Describes(state, s)
    ensures worker.steps == StepsOfWorker(s, worker.id)
  {
    assert HeldBy(s, worker.id) == state.RemovedOf(worker);
    forall t
      ensures t in worker.steps <==> t in StepsOfWorker(s, worker.id)
    {
      if t in worker.steps {
        if state.Active(t) {
          assert t.id in OwnIds(s.w, worker.id) && s.who[t.id] == t;
        } else {
          assert Item(t, t.Rec()) in HeldBy(s, worker.id);
        }
      }
      if t in Objects(s, OwnIds(s.w, worker.id)) {
        var k :| k in OwnIds(s.w, worker.id) && k in s.who && s.who[k] == t;
        assert state.steps[k] in state.activeWorkers[worker.id].steps;
      }
    }
  }

  lemma FiledSteps(state: SimpleStepState, statuses: set<Status>, s: System<Step>)
    requires Describes(state, s)
    ensures (set k | k in state.steps && state.steps[k].life.status in statuses :: state.steps[k]) == Objects(s, StatusIds(s.w, statuses))
  {
    forall k | k in state.steps
      ensures s.w.steps[k] == state.steps[k].Rec()
    {
    }
  }

  lemma FoundByWorker(state: SimpleStepState, worker: Worker, statuses: set<Status>, s: System<Step>, found: set<Step>)
    requires state.Consistent() && worker.id in state.activeWorkers && state.activeWorkers[worker.id] == worker && Describes(state, s)
    requires found == set t | t in worker.steps && t.life.status in statuses
    ensures ItemsOfSteps(found) == ItemsOf(s, OwnIds(s.w, worker.id) * StatusIds(s.w, statuses)) + HeldWith(s, worker.id, statuses)
  {
    assert HeldBy(s, worker.id) == state.RemovedOf(worker);
    var own := OwnIds(s.w, worker.id) * StatusIds(s.w, statuses);
    forall it
      ensures it in ItemsOfSteps(found) <==> it in ItemsOf(s, own) + HeldWith(s, worker.id, statuses)
    {
      if it in ItemsOfSteps(found) {
        var t :| t in found && it == Item(t, t.Rec());
        if state.Active(t) {
          assert t.id in own;
        }
      }
      if it in ItemsOf(s, own) {
        var k :| k in own && k in s.who && k in s.w.steps && it == Item(s.who[k], s.w.steps[k]);
        assert state.steps[k] in state.activeWorkers[worker.id].steps;
      }
    }
  }

  lemma FoundByStatus(state: SimpleStepState, worker: Worker, statuses: set<Status>, s: System<Step>, found: set<Step>)
    requires state.Indexed() && Describes(state, s)
    requires found == set k | k in state.steps && state.steps[k].life.status in statuses && worker.id in state.steps[k].info.workers
               :: state.steps[k]
    ensures ItemsOfSteps(found) == ItemsOf(s, OwnIds(s.w, worker.id) * StatusIds(s.w, statuses))
  {
    var own := OwnIds(s.w, worker.id) * StatusIds(s.w, statuses);
    forall it
      ensures it in ItemsOfSteps(found) <==> it in ItemsOf(s, own)
    {
      if it in ItemsOf(s, own) {
        var k :| k in own && k in s.who && k in s.w.steps && it == Item(s.who[k], s.w.steps[k]);
        assert state.steps[k] in found;
      }
    }
  }

  /** The steps by falling rank. */
  method SortByRank(steps: set<Step>) returns (q: seq<Step>)
    ensures Lists(q, steps) && Ranked(RecsOfSteps(q))
  {
    q := [];
    var rest := steps;
    while rest != {}
      invariant rest <= steps && Lists(q, steps - rest) && Ranked(RecsOfSteps(q))
      decreases rest
    {
      var step :| step in rest;
      q := InsertByRank(q, step);
      rest := rest - {step};
    }
    assert steps - rest == steps;
  }

  method InsertByRank(q: seq<Step>, step: Step) returns (r: seq<Step>)
    requires Ranked(RecsOfSteps(q)) && step !in q && Distinct(q)
    ensures Ranked(RecsOfSteps(r)) && Distinct(r) && forall s :: s in r <==> s in q || s == step
  {
    var i := 0;
    while i < |q| && HigherOrEqual(q[i].Rec(), step.Rec())
      invariant i <= |q| && forall j :: 0 <= j < i ==> HigherOrEqual(q[j].Rec(), step.Rec())
    {
      i := i + 1;
    }
    r := q[..i] + [step] + q[i..];
    forall j, k | 0 <= j < k < |r|
      ensures HigherOrEqual(r[j].Rec(), r[k].Rec())
    {
      assert RecsOfSteps(q)[if j < i then j else if j == i then 0 else j - 1] == q[if j < i then j else if j == i then 0 else j - 1].Rec();
    }
  }

  // ---------------------------------------------------------------- resources

  /** `for resource, amount in d.items(): m[resource] += amount`. */
  method AddAmounts(m: Amounts, d: Amounts) returns (sum: Amounts)
    ensures sum == Plus(m, d)
  {
    sum := m;
    var rest := d.Keys;
    while rest != {}
      invariant rest <= d.Keys && sum.Keys == m.Keys + (d.Keys - rest)
      invariant forall r <- sum :: sum[r] == At(m, r) + if r in d && r !in rest then d[r] else 0
      decreases rest
    {
      var r :| r in rest;
      sum := sum[r := At(sum, r) + d[r]];
      rest := rest - {r};
    }
  }

  /** `_has_resources`. */
  method CheckResources(needed: Amounts, used: Amounts, totals: Amounts) returns (fits: bool)
    ensures fits == HasResources(needed, used, totals)
  {
    var rest := needed.Keys;
    while rest != {}
      invariant rest <= needed.Keys
      invariant forall r <- needed :: r !in rest ==> needed[r] + At(used, r) <= TotalOf(totals, r)
      decreases rest
    {
      var r :| r in rest;
      if needed[r] + At(used, r) > TotalOf(totals, r) {
        return false;
      }
      rest := rest - {r};
    }
    return true;
  }

  /** What the steps in `ids` are charged together. */
  ghost function Charges(steps: Steps, ids: set<StepId>): Amounts
    requires ids <= steps.Keys
  {
    map r | r in ChargedKeys(steps, ids) :: UsedAt(steps, ids, r)
  }

  function ChargedKeys(steps: Steps, ids: set<StepId>): set<Resource>
    requires ids <= steps.Keys
  {
    set k, r | k in ids && r in Charge(steps[k]) :: r
  }

  lemma ChargeOneMore(steps: Steps, ids: set<StepId>, k: StepId)
    requires ids <= steps.Keys && k in steps && k !in ids
    ensures Charges(steps, ids + {k}) == Plus(Charges(steps, ids), Charge(steps[k]))
  {
    var more := ids + {k};
    assert more - {k} == ids;
    assert ChargedKeys(steps, more) == ChargedKeys(steps, ids) + Charge(steps[k]).Keys by {
      hide Charge;
    }
    hide UsedAt, Charge, ChargedKeys;
    forall r | r in ChargedKeys(steps, more)
      ensures UsedAt(steps, more, r) == At(Charges(steps, ids), r) + At(Charge(steps[k]), r)
    {
      UsedAtSplit(steps, more, r, k);
      ChargesAt(steps, ids, r);
    }
  }

  lemma ChargesAt(steps: Steps, ids: set<StepId>, r: Resource)
    requires ids <= steps.Keys
    ensures At(Charges(steps, ids), r) == UsedAt(steps, ids, r)
  {
    if r !in ChargedKeys(steps, ids) {
      UsedAtZero(steps, ids, r);
    }
  }

  /** `_used_resources`. */
  method SumUsedResources(state: SimpleStepState) returns (used: Amounts)
    requires state.Indexed()
    ensures used == UsedResources(state.Recs())
  {
    used := map[];
    var running := StepsByStatus(state, {RUNNING});
    var rest := running;
    ghost var steps := state.Recs();
    ghost var done: set<StepId> := {};
    while rest != {}
      invariant rest <= running && done == set s | s in running - rest :: s.id
      invariant done <= steps.Keys && used == Charges(steps, done)
      decreases rest
    {
      var step :| step in rest;
      assert steps[step.id] == step.Rec() && step.id !in done;
      ChargeOneMore(steps, done, step.id);
      used := AddAmounts(used, if step.load.resourcesRunning.Some? then step.load.resourcesRunning.value else step.load.resources);
      assert running - (rest - {step}) == running - rest + {step};
      rest := rest - {step};
      done := done + {step.id};
    }
    assert running - rest == running;
    AllRunning(state, running, done);
  }

  lemma AllRunning(state: SimpleStepState, running: set<Step>, ids: set<StepId>)
    requires state.Indexed() && ids == set s | s in running :: s.id
    requires running == set k | k in state.steps && state.steps[k].life.status in {RUNNING} :: state.steps[k]
    ensures ids == Running(state.Recs()) && ids <= state.Recs().Keys && Charges(state.Recs(), ids) == UsedResources(state.Recs())
  {
    forall k
      ensures k in ids <==> k in Running(state.Recs())
    {
      if k in Running(state.Recs()) {
        assert state.steps[k] in running;
      }
    }
  }

  // ---------------------------------------------------------------- one step of the scan

  /** `_schedulable`. */
  method IsSchedulable(state: SimpleStepState, step: Step) returns (schedulable: bool)
    requires state.Indexed()
    ensures schedulable == Schedulable(state.Recs(), step.Rec())
  {
    if step.life.status != PENDING {
      return false;
    }
    var rest := step.info.deps;
    while rest != {}
      invariant rest <= step.info.deps
      invariant forall d <- step.info.deps :: d !in rest ==> d in state.steps && state.steps[d].life.status == DONE
      decreases rest
    {
      var d :| d in rest;
      if d !in state.steps || state.steps[d].life.status != DONE {
        assert d in step.info.deps && (d in state.steps ==> state.Recs()[d] == state.steps[d].Rec());
        return false;
      }
      rest := rest - {d};
    }
    forall d | d in step.info.deps
      ensures d in state.Recs() && state.Recs()[d].life.status == DONE
    {
      assert state.Recs()[d] == state.steps[d].Rec();
    }
    return true;
  }

  /** The first worker with a free slot is used up, together with the resources of the step. */
  method TakeWorker(g: Greedy, candidates: seq<WorkerId>, amounts: Amounts) returns (next: Greedy)
    ensures next == Reserve(g, candidates, amounts)
  {
    var i := 0;
    while i < |candidates|
      invariant i <= |candidates| && Reserve(g, candidates, amounts) == Reserve(g, candidates[i..], amounts)
    {
      if candidates[i] in g.slots && g.slots[candidates[i]] > 0 {
        var reserved := AddAmounts(g.reserved, amounts);
        return Greedy(g.slots[candidates[i] := g.slots[candidates[i]] - 1], reserved);
      }
      assert candidates[i..][1..] == candidates[i+1..];
      i := i + 1;
    }
    return g;
  }

  /** A running step takes its worker and its resources. */
  method ChargeIfRunning(g: Greedy, step: Step) returns (next: Greedy)
    ensures next == ChargeRunning(g, step.Rec())
  {
    if step.life.status == RUNNING && step.load.workerRunning.Some? && step.load.workerRunning.value in g.slots {
      var owner := step.load.workerRunning.value;
      var reserved := AddAmounts(g.reserved,
                                 if step.load.resourcesRunning.Some? then step.load.resourcesRunning.value else step.load.resources);
      return Greedy(g.slots[owner := g.slots[owner] - 1], reserved);
    }
    return g;
  }

  /** The body of the scan before there is a best step. */
  method Consider(state: SimpleStepState, req: Request, g: Greedy, step: Step) returns (best: bool, next: Greedy)
    requires state.Indexed()
    ensures best == Grantable(state.Recs(), req, ChargeRunning(g, step.Rec()), step.Rec())
    ensures !best ==> next == PassOver(state.Recs(), req, g, step.Rec())
  {
    hide ChargeRunning, HasResources, Schedulable, Reserve;
    best := false;
    next := ChargeIfRunning(g, step);
    var schedulable := IsSchedulable(state, step);
    if schedulable {
      var fits := CheckResources(step.load.resources, next.reserved, req.totals);
      if fits {
        var fitsUsed := CheckResources(step.load.resources, req.used, req.totals);
        if ((req.assistant && step.info.runnable) || req.worker in step.info.workers) && fitsUsed {
          best := true;
        } else {
          next := TakeWorker(next, if req.assistant then step.info.workers + [req.worker] else step.info.workers,
                             step.load.resources);
        }
      }
    }
  }

  /** The scan has passed over the first `i` steps. */
  ghost predicate Passed(steps: Steps, req: Request, g0: Greedy, g: Greedy, q: seq<StepRec>, i: nat) {
    && i <= |q| && g == PassAll(steps, req, g0, q[..i])
    && forall j :: 0 <= j < i ==> !StopsAt(steps, req, g0, q, j)
  }

  lemma PassOne(steps: Steps, req: Request, g0: Greedy, g: Greedy, q: seq<StepRec>, i: nat)
    requires Passed(steps, req, g0, g, q, i) && i < |q|
    ensures StopsAt(steps, req, g0, q, i) == Grantable(steps, req, ChargeRunning(g, q[i]), q[i])
    ensures !StopsAt(steps, req, g0, q, i) ==> Passed(steps, req, g0, PassOver(steps, req, g, q[i]), q, i + 1)
  {
    assert q[..i+1][..i] == q[..i];
    hide Grantable, PassOver, ChargeRunning;
  }

  /** The position at which the scan stops, which is the end if no step can be granted. */
  method FindBest(state: SimpleStepState, req: Request, g0: Greedy, q: seq<Step>) returns (i: nat)
    requires state.Indexed()
    ensures i == Pick(state.Recs(), req, g0, RecsOfSteps(q), 0)
  {
    i := 0;
    var g := g0;
    ghost var recs := RecsOfSteps(q);
    hide PassOver, Grantable, ChargeRunning, Pick;
    StartScan(state.Recs(), req, g0, recs);
    hide Passed, StopsAt;
    while i < |q|
      invariant Passed(state.Recs(), req, g0, g, recs, i) && i <= |q|
    {
      PassOne(state.Recs(), req, g0, g, recs, i);
      var best, next := Consider(state, req, g, q[i]);
      if best {
        break;
      }
      g := next;
      i := i + 1;
    }
    PickIs(state.Recs(), req, g0, g, recs, i);
  }

  lemma StartScan(steps: Steps, req: Request, g0: Greedy, q: seq<StepRec>)
    ensures Passed(steps, req, g0, g0, q, 0)
  {
  }

  lemma PickIs(steps: Steps, req: Request, g0: Greedy, g: Greedy, q: seq<StepRec>, i: nat)
    requires Passed(steps, req, g0, g, q, i) && (i < |q| ==> StopsAt(steps, req, g0, q, i))
    ensures i == Pick(steps, req, g0, q, 0)
  {
    hide StopsAt;
    var k := Pick(steps, req, g0, q, 0);
    assert k >= i;
  }

  // ---------------------------------------------------------------- running steps of the worker

  /** The highest ranked step that should run on the worker, but is not among the steps the worker says it runs. */
  method FindUnclaimed(state: SimpleStepState, a: WorkArgs) returns (best: Option<Step>)
    requires state.Indexed()
    ensures best.Some? ==> state.Active(best.value)
    ensures ValidResend(state.Recs(), a, if best.Some? then Some(best.value.id) else None)
  {
    best := None;
    if a.current.None? {
      return;
    }
    var running := StepsByStatus(state, {RUNNING});
    var q := SortByRank(running);
    for i := |q| downto 0  // from the lowest rank to the highest
      invariant best.None? ==> forall j :: i <= j < |q| ==> !Unclaimed(q[j].Rec(), a)
      invariant best.Some? ==> best.value in q && Unclaimed(best.value.Rec(), a)
      invariant best.Some? ==> forall j :: i <= j < |q| && Unclaimed(q[j].Rec(), a) ==> HigherOrEqual(best.value.Rec(), q[j].Rec())
    {
      if q[i].load.workerRunning == Some(a.worker) && q[i].id !in a.current.value {
        best := Some(q[i]);
        assert forall j :: i < j < |q| ==> HigherOrEqual(RecsOfSteps(q)[i], RecsOfSteps(q)[j]);
      }
    }
    AllUnclaimed(state, a, q);
  }

  /** Every unclaimed step is among the running ones. */
  lemma AllUnclaimed(state: SimpleStepState, a: WorkArgs, q: seq<Step>)
    requires state.Indexed()
    requires Lists(q, set k | k in state.steps && state.steps[k].life.status in {RUNNING} :: state.steps[k])
    ensures forall k <- state.steps :: Unclaimed(state.Recs()[k], a) ==>
      exists j :: 0 <= j < |q| && q[j] == state.steps[k] && q[j].Rec() == state.Recs()[k]
    ensures forall s <- q :: state.Active(s) && state.Recs()[s.id] == s.Rec()
  {
    var running := set k | k in state.steps && state.steps[k].life.status in {RUNNING} :: state.steps[k];
    forall k | k in state.steps && Unclaimed(state.Recs()[k], a)
      ensures exists j :: 0 <= j < |q| && q[j] == state.steps[k] && q[j].Rec() == state.Recs()[k]
    {
      assert state.steps[k] in running;
    }
  }

  /** `_reset_orphaned_batch_running_steps` up to the change of the statuses. */
  method FindOrphans(state: SimpleStepState, x: WorkerId) returns (orphans: set<Step>)
    requires state.Indexed()
    ensures forall s <- orphans :: state.Active(s)
    ensures forall k <- state.steps :: state.steps[k] in orphans <==> OrphanedMember(state.Recs(), state.Recs()[k], x)
  {
    var running := StepsByStatus(state, {RUNNING});
    var batchIds := set s | s in running && s.load.workerRunning == Some(x) :: s.life.batchId;
    var batchRunning := StepsByStatus(state, {BATCH_RUNNING});
    orphans := set s | s in batchRunning && s.load.workerRunning == Some(x) && s.life.batchId !in batchIds;
    KnownBatches(state, x, running, batchIds);
    forall k | k in state.steps
      ensures state.steps[k] in orphans <==> OrphanedMember(state.Recs(), state.Recs()[k], x)
    {
      assert state.Recs()[k] == state.steps[k].Rec();
    }
  }

  ghost predicate RunsBatch(steps: Steps, x: WorkerId, b: Option<BatchId>) {
    exists j :: j in steps && steps[j].life.status == RUNNING && steps[j].load.workerRunning == Some(x) && steps[j].life.batchId == b
  }

  lemma KnownBatches(state: SimpleStepState, x: WorkerId, running: set<Step>, batchIds: set<Option<BatchId>>)
    requires state.Indexed()
    requires running == set k | k in state.steps && state.steps[k].life.status in {RUNNING} :: state.steps[k]
    requires batchIds == set s | s in running && s.load.workerRunning == Some(x) :: s.life.batchId
    ensures forall b :: b in batchIds <==> RunsBatch(state.Recs(), x, b)
  {
    forall b
      ensures b in batchIds <==> RunsBatch(state.Recs(), x, b)
    {
      if b in batchIds {
        var s :| s in running && s.load.workerRunning == Some(x) && s.life.batchId == b;
        assert state.Recs()[s.id] == s.Rec();
      }
      if RunsBatch(state.Recs(), x, b) {
        var j :| j in state.steps && state.Recs()[j].life.status == RUNNING
                 && state.Recs()[j].load.workerRunning == Some(x) && state.Recs()[j].life.batchId == b;
        assert state.steps[j] in running && state.steps[j].Rec() == state.Recs()[j];
      }
    }
  }

  // ---------------------------------------------------------------- batches

  /** The condition under which the scan adds a step to the batch, apart from the size. */
  method Joins(state: SimpleStepState, b: Batcher, best: Step, step: Step) returns (joins: bool)
    requires state.Indexed()
    ensures joins == JoinsBatch(state.Recs(), b, best.Rec(), step.Rec())
  {
    hide Schedulable;
    var schedulable := IsSchedulable(state, step);
    var unbatched := map n | n in best.info.params && n !in b.names :: best.info.params[n];
    joins := step.info.family == best.info.family && step.info.batchable
             && (forall n <- unbatched :: n in step.info.params && step.info.params[n] == unbatched[n])
             && step.load.resources == best.load.resources && schedulable;
    assert (forall n <- unbatched :: n in step.info.params && step.info.params[n] == unbatched[n]) <==>
      forall n <- best.info.params :: n in b.names || (n in step.info.params && step.info.params[n] == best.info.params[n]);
  }

  /** The rest of the scan, behind the best step. */
  method CollectBatch(state: SimpleStepState, b: Batcher, best: Step, q: seq<Step>) returns (batch: seq<Step>)
    requires state.Indexed()
    ensures ItemsIn(batch) == CollectItems(state.Recs(), b, best.Rec(), [Item(best, best.Rec())], ItemsIn(q))
  {
    batch := [best];
    ghost var items := ItemsIn(q);
    assert items[0..] == items && ItemsIn(batch) == [Item(best, best.Rec())];
    hide JoinsBatch;
    for i := 0 to |q|
      invariant CollectItems(state.Recs(), b, best.Rec(), ItemsIn(batch), items[i..])
             == CollectItems(state.Recs(), b, best.Rec(), [Item(best, best.Rec())], items)
    {
      var joins := Joins(state, b, best, q[i]);
      assert items[i..][0] == Item(q[i], q[i].Rec()) && items[i..][1..] == items[i+1..];
      if (b.maxSize.Some? ==> |batch| < b.maxSize.value) && joins {
        assert ItemsIn(batch + [q[i]]) == ItemsIn(batch) + [Item(q[i], q[i].Rec())];
        batch := batch + [q[i]];
      }
    }
    assert items[|q|..] == [];
  }

  /** The batch that starts with the step at position `i`, which is empty if that step does not start one. */
  method FindBatch(state: SimpleStepState, ghost w: World, x: WorkerId, q: seq<Step>, i: nat) returns (batch: seq<Step>)
    requires state.Indexed() && w.steps == state.Recs() && w.batchers == state.batchers && i < |q|
    ensures ItemsIn(batch) == BatchFrom(w, x, ItemsIn(q), i)
  {
    var best := q[i];
    var b := if (x, best.info.family) in state.batchers then state.batchers[(x, best.info.family)] else Batcher([], Some(1));
    batch := [];
    assert ItemsIn(q)[i+1..] == ItemsIn(q[i+1..]);
    if b.names != [] && best.info.batchable {
      if forall n <- b.names :: n in best.info.params {
        hide CollectItems;
        batch := CollectBatch(state, b, best, q[i+1..]);
      }
    }
  }

  // ---------------------------------------------------------------- the search

  /** `is_trivial_worker`. */
  method IsTrivialWorker(state: SimpleStepState, worker: Worker, ghost s: System<Step>) returns (trivial: bool)
    requires state.Consistent() && worker.id in state.activeWorkers && state.activeWorkers[worker.id] == worker && Describes(state, s)
    ensures worker.id in s.w.workers && trivial == TrivialFor(s, worker.id)
  {
    if worker.info.assistant {
      return false;
    }
    var pending := GetSteps(state, worker, {PENDING}, s);
    trivial := forall t <- pending :: t.load.resources == map[];
    hide RemovedSteps.GetSteps;
    assert forall t: Step <- pending :: Item(t, t.Rec()) in ItemsOfSteps(pending);
  }

  /** The steps that the scan looks at, and whether the worker is trivial. */
  method RelevantSteps(state: SimpleStepState, worker: Worker, ghost s: System<Step>, paused: bool) returns (found: set<Step>, trivial: bool)
    requires state.Consistent() && worker.id in state.activeWorkers && state.activeWorkers[worker.id] == worker
    requires Describes(state, s) && s.w.paused == paused
    ensures worker.id in s.w.workers && ItemsOfSteps(found) == Scanned(s, worker.id)
    ensures !paused ==> trivial == TrivialFor(s, worker.id)
  {
    hide SimpleStepState.Linked, RemovedSteps.GetSteps, TrivialFor;
    trivial := false;
    found := {};
    if !paused {
      trivial := IsTrivialWorker(state, worker, s);
      if trivial {
        found := GetSteps(state, worker, {PENDING, RUNNING}, s);
      } else {
        found := StepsByStatus(state, {PENDING, RUNNING});
        FoundOpen(state, s, found);
      }
    }
  }

  lemma FoundOpen(state: SimpleStepState, s: System<Step>, found: set<Step>)
    requires state.Indexed() && Describes(state, s)
    requires found == set k | k in state.steps && state.steps[k].life.status in {PENDING, RUNNING} :: state.steps[k]
    ensures ItemsOfSteps(found) == ItemsOf(s, StatusIds(s.w, {PENDING, RUNNING}))
  {
    var ids := StatusIds(s.w, {PENDING, RUNNING});
    forall it
      ensures it in ItemsOfSteps(found) <==> it in ItemsOf(s, ids)
    {
      if it in ItemsOf(s, ids) {
        var k :| k in ids && k in s.who && k in s.w.steps && it == Item(s.who[k], s.w.steps[k]);
        assert state.steps[k] in found;
      }
    }
  }

  /** Sorted step objects are a valid order of the scan. */
  lemma SortedScan(steps: set<Step>, q: seq<Step>)
    requires Lists(q, steps) && Ranked(RecsOfSteps(q))
    ensures Lists(ItemsIn(q), ItemsOfSteps(steps)) && Ranked(RecsIn(ItemsIn(q))) && RecsIn(ItemsIn(q)) == RecsOfSteps(q)
  {
    var items := ItemsIn(q);
    assert RecsIn(items) == RecsOfSteps(q);
    forall it | it in ItemsOfSteps(steps)
      ensures it in items
    {
      var t :| t in steps && it == Item(t, t.Rec());
      var i :| 0 <= i < |q| && q[i] == t;
      assert items[i] == it;
    }
  }

  method ActiveWorkerSlots(state: SimpleStepState, now: Time, cfg: Config) returns (slots: map<WorkerId, int>)
    ensures slots == ActiveSlots(state.WorkerRecs(), now, cfg)
  {
    var activityLimit := now - cfg.disconnectDelay;
    slots := map x | x in state.activeWorkers && state.activeWorkers[x].info.lastGetWork.Some?
                     && state.activeWorkers[x].info.lastGetWork.value > activityLimit :: state.activeWorkers[x].info.processes;
  }

  /** What stays the same during the scan, and what the greedy simulation starts with. */
  method Budget(state: SimpleStepState, a: WorkArgs, ghost s: System<Step>, totals: Amounts, trivial: bool, now: Time, cfg: Config)
      returns (req: Request, g: Greedy)
    requires state.Indexed() && Describes(state, s) && s.w.totals == totals
    requires a.worker in s.w.workers && trivial == TrivialFor(s, a.worker)
    ensures req == RequestFor(s, a) && g == GreedyFor(s, a, now, cfg)
  {
    hide TrivialFor, UsedResources, ActiveSlots;
    if trivial {
      req, g := Request(a.worker, a.assistant, map[], totals), Greedy(map[], map[]);
    } else {
      var used := SumUsedResources(state);
      var slots := ActiveWorkerSlots(state, now, cfg);
      req, g := Request(a.worker, a.assistant, used, totals), Greedy(slots, map[]);
    }
  }

  /** The scan over the ranked steps. */
  method ScanSteps(state: SimpleStepState, a: WorkArgs, ghost s: System<Step>, req: Request, g: Greedy, q: seq<Step>,
                   ghost now: Time, ghost cfg: Config)
      returns (work: seq<Step>)
    requires state.Indexed() && Describes(state, s) && a.worker in s.w.workers
    requires req == RequestFor(s, a) && g == GreedyFor(s, a, now, cfg)
    ensures ItemsIn(work) == Chosen(s, a, ItemsIn(q), now, cfg)
  {
    hide Pick, BatchFrom, SimpleStepState.Indexed, TrivialFor, UsedResources, ActiveSlots;
    var i := FindBest(state, req, g, q);
    assert RecsIn(ItemsIn(q)) == RecsOfSteps(q);
    if i == |q| {
      return [];
    }
    var batch := FindBatch(state, s.w, a.worker, q, i);
    if |batch| > 1 {
      return batch;
    }
    return [q[i]];
  }

  /** The search of `get_work`: nothing, a single step, or the steps of a batch. */
  method Search(state: SimpleStepState, worker: Worker, a: WorkArgs, ghost s: System<Step>, totals: Amounts, paused: bool,
                now: Time, cfg: Config)
      returns (work: seq<Step>, ghost scan: seq<Item<Step>>)
    requires state.Consistent() && worker.id == a.worker && a.worker in state.activeWorkers && state.activeWorkers[a.worker] == worker
    requires Describes(state, s) && s.w.totals == totals && s.w.paused == paused
    ensures a.worker in s.w.workers && IsScan(s, a.worker, scan)
    ensures ItemsIn(work) == Chosen(s, a, scan, now, cfg)
  {
    hide SimpleStepState.Indexed, SimpleStepState.Linked, TrivialFor, Pick, Chosen, Ranked, Scanned, ItemsOfSteps;
    var found, trivial := RelevantSteps(state, worker, s, paused);
    var q := SortByRank(found);
    scan := ItemsIn(q);
    SortedScan(found, q);
    if paused {
      PausedScan(s, a, scan, now, cfg);
      return [], scan;
    }
    var req, g := Budget(state, a, s, totals, trivial, now, cfg);
    work := ScanSteps(state, a, s, req, g, q, now, cfg);
  }

  lemma PausedScan(s: System<Step>, a: WorkArgs, scan: seq<Item<Step>>, now: Time, cfg: Config)
    requires a.worker in s.w.workers && s.w.paused && Lists(scan, Scanned(s, a.worker))
    ensures Chosen(s, a, scan, now, cfg) == []
  {
    FirstIsElement(scan);
  }

  lemma FirstIsElement<T>(scan: seq<T>)
    ensures scan == [] || scan[0] in scan
  {
  }
}
