/**
 The calls of the scheduler on its objects.  Each call is proved to be the turn of the same name in
 RemovedSteps, which is the event of the same name in SchedulerModel unless a removed step is in the way.
 */
module CentralScheduler {
  import opened Options
  import opened Sequences
  import opened SchedulerModel
  import opened SchedulerInvariants
  import opened SchedulerState
  import opened SchedulerPriority
  import opened WorkSearch
  import opened RemovedSteps
  import opened RemovedRuns
  import opened RunningResources
  import US = UpstreamStatus

  /** The calls that workers and users make. */
  datatype Rpc =
    | DoAddStep(add: AddArgs) | DoGetWork(work: WorkArgs) | DoCountPending(worker: WorkerId) | DoPrune
    | DoMarkAsDone(id: StepId) | DoForgive(id: StepId) | DoReEnable(id: StepId) | DoDecrease(id: StepId, amounts: Amounts)
    | DoDisableWorker(worker: WorkerId) | DoAddWorker(worker: WorkerId, info: WorkerInfo) | DoPing(worker: WorkerId)
    | DoAddBatcher(worker: WorkerId, family: string, batcher: Batcher)
    | DoUpdateResource(resource: Resource, amount: int) | DoUpdateResources(resources: Amounts) | DoPause | DoUnpause

  /** The event is about what the call asks for. */
  predicate Serves(rpc: Rpc, e: Event) {
    match rpc
    case DoAddStep(a) => e.OnAddStep? && e.add == a
    case DoGetWork(a) => e.OnGetWork? && e.work == a
    case DoCountPending(x) => e == OnCountPending(x)
    case DoPrune => e.OnPrune?
    case DoMarkAsDone(id) => e == OnMarkAsDone(id)
    case DoForgive(id) => e == OnForgive(id)
    case DoReEnable(id) => e == OnReEnable(id)
    case DoDecrease(id, amounts) => e.OnDecrease? && e.id == id && e.amounts == amounts
    case DoDisableWorker(x) => e == OnDisableWorker(x)
    case DoAddWorker(x, info) => e == OnAddWorker(x, info)
    case DoPing(x) => e == OnPing(x)
    case DoAddBatcher(x, family, batcher) => e == OnAddBatcher(x, family, batcher)
    case DoUpdateResource(r, amount) => e == OnUpdateResource(r, amount)
    case DoUpdateResources(amounts) => e == OnUpdateResources(amounts)
    case DoPause => e == OnSetPaused(true)
    case DoUnpause => e == OnSetPaused(false)
  }

  /** No batches and no reports of assistants. */
  predicate IsQuiet(rpc: Rpc) {
    (rpc.DoAddStep? ==> !rpc.add.assistant && rpc.add.batchId.None?) && !rpc.DoAddBatcher?
  }

  /** The call reports that a step runs. */
  predicate IsReportOfRun(rpc: Rpc) {
    rpc.DoAddStep? && rpc.add.status.Runs()
  }

  class Scheduler {
    const state: SimpleStepState
    const cfg: Config
    var totals: Amounts
    var paused: bool

    constructor (cfg: Config, totals: Amounts)
      ensures Valid() && World() == Initial(totals) && this.cfg == cfg && fresh(state)
    {
      this.cfg, this.totals, paused := cfg, totals, false;
      state := new SimpleStepState();
      new;
      assert state.Recs() == map[] && state.WorkerRecs() == map[];
    }

    ghost function World(): World
      reads this, state, state.steps.Values, state.activeWorkers.Values
    {
      SchedulerModel.World(state.Recs(), state.WorkerRecs(), state.batchers, totals, paused)
    }

    /** The same with the objects and with the removed steps that the workers hold. */
    ghost function Full(): System<Step>
      reads this, state, state.steps.Values, state.activeWorkers.Values, state.WorkerSteps()
    {
      System(World(), state.steps, state.Held())
    }

    ghost predicate Valid()
      reads this, state, state.steps.Values, state.activeWorkers.Values, state.WorkerSteps()
    {
      state.Consistent() && SystemOk(Full())
    }

    lemma FullIs()
      ensures Full().w == World() && Full().who == state.steps && Full().held == state.Held() && Full().held.Keys == World().workers.Keys
      ensures World().steps == state.Recs() && World().steps.Keys == state.steps.Keys && World().workers == state.WorkerRecs()
    {
    }

    lemma WorldHas()
      ensures World() == SchedulerModel.World(state.Recs(), state.WorkerRecs(), state.batchers, totals, paused)
    {
    }

    lemma ValidInv()
      requires Valid()
      ensures Inv(World())
    {
      FullIs();
      hide Inv, SimpleStepState.Consistent;
    }

    twostate lemma OnlyWorldChanges()
      requires old(state.Indexed()) && state.steps == old(state.steps) && state.SameLinks()
      requires forall s <- old(state.WorkerSteps()) :: s !in state.steps.Values ==> s.Rec() == old(s.Rec())
      ensures Full() == WithWorld(old(Full()), World()) && World().steps.Keys == old(Full()).w.steps.Keys
    {
      state.SameHeld();
      hide SimpleStepState.Indexed;
    }

    /** No step has come or gone, and the links and the removed steps are the same. */
    twostate lemma Stays()
      requires old(state.Indexed()) && state.steps == old(state.steps) && state.SameLinks()
      requires forall s <- old(state.WorkerSteps()) :: s !in state.steps.Values ==> s.Rec() == old(s.Rec())
      ensures Full() == WithWorld(old(Full()), World())
      ensures old(SystemOk(Full())) && Inv(World()) ==> SystemOk(Full())
    {
      OnlyWorldChanges();
      hide SystemOk, SimpleStepState.Indexed, Inv, Full, World;
      if old(SystemOk(Full())) && Inv(World()) {
        WithWorldOk(old(Full()), World());
      }
    }

    // -------------------------------------------------------------- priorities

    /** `_update_priority`; the recursion ends on cycles as well, because every call below the first raises
        a step that was below the new priority. */
    method UpdatePriority(step: Step, priority: int)
      requires state.Active(step) && state.Indexed()
      modifies state.steps.Values`info
      ensures state.Indexed()
      ensures state.Recs() == SchedulerModel.UpdatePriority(old(state.Recs()), step.id, priority)
    {
      ghost var raised := Raise(step, priority);
      RaisedIsUpdated(old(state.Recs()), state.Recs(), raised, step.id, priority);
    }

    method Raise(step: Step, priority: int) returns (ghost raised: set<StepId>)
      requires state.Active(step) && state.Indexed()
      modifies state.steps.Values`info
      ensures state.Indexed()
      ensures RaisedExactly(old(state.Recs()), state.Recs(), raised, step.id, Max(priority, old(step.info.priority)))
      decreases Below(state.Recs(), step.id, Max(priority, step.info.priority)), 1
    {
      ghost var was := state.Recs();
      var prio := Max(priority, step.info.priority);
      var deps := ListSet(step.info.deps);
      step.info := step.info.(priority := prio);
      state.StillIndexed();
      state.RecsAre(was[step.id := Lifted(was[step.id], prio)]);
      StartRaising(was, step.id, prio);
      raised := {step.id};
      assert Elements([]) == {};
      hide Raising, RaisedExactly, Elements, Lifted, Below, SimpleStepState.Indexed, Lists;
      for i := 0 to |deps|
        invariant state.Indexed()
        invariant Raising(was, state.Recs(), raised, step.id, prio, Elements(deps[..i]))
      {
        OneMore(deps, i);
        ListsMember(deps, was[step.id].info.deps, i);
        raised := RaiseDep(was, step, prio, deps[i], raised, Elements(deps[..i]));
      }
      AllElements(deps, was[step.id].info.deps);
      AllRaised(was, state.Recs(), raised, step.id, prio);
    }

    /** The body of the loop of `_update_priority` over the dependencies. */
    method RaiseDep(ghost was: Steps, step: Step, prio: int, dep: StepId, ghost raised0: set<StepId>, ghost seen: set<StepId>)
        returns (ghost raised: set<StepId>)
      requires state.Active(step) && state.Indexed() && step.id in was && dep in was[step.id].info.deps
      requires Raising(was, state.Recs(), raised0, step.id, prio, seen)
      modifies state.steps.Values`info
      ensures state.Indexed()
      ensures Raising(was, state.Recs(), raised, step.id, prio, seen + {dep})
      decreases Below(was, step.id, prio), 0
    {
      ghost var mid := state.Recs();
      if dep in state.steps && prio > state.steps[dep].info.priority {
        assert dep != step.id && state.Recs()[dep] == state.steps[dep].Rec();
        BelowShrinks(was, mid, raised0, step.id, prio, seen, dep);
        ghost var more := Raise(state.steps[dep], prio);
        CallRaises(was, mid, state.Recs(), raised0, more, step.id, prio, seen, dep);
        raised := raised0 + more;
      } else {
        NothingToRaise(was, mid, raised0, step.id, prio, seen, dep);
        raised := raised0;
      }
    }

    // -------------------------------------------------------------- prune

    method PruneWorkers(now: Time)
      requires state.Consistent()
      modifies state`activeWorkers, state.steps.Values`info
      ensures state.Consistent()
      ensures World() == SchedulerModel.PruneWorkers(old(World()), now, cfg)
      ensures forall x <- state.activeWorkers :: x in old(state.activeWorkers) && state.activeWorkers[x] == old(state.activeWorkers[x])
    {
      hide SimpleStepState.Indexed, SimpleStepState.Linked, RemoveWorkers;
      var removed := SilentOnes(now);
      state.InactivateWorkers(removed);
      assert state.WorkerRecs() == old(state.WorkerRecs()) - removed;
    }

    method SilentOnes(now: Time) returns (removed: set<WorkerId>)
      ensures removed == SilentWorkers(state.WorkerRecs(), now, cfg) && removed <= state.activeWorkers.Keys
    {
      removed := {};
      var order := ListSet(state.activeWorkers.Keys);
      for i := 0 to |order|
        invariant removed == set x | x in order[..i] && Silent(state.activeWorkers[x].info, now, cfg)
      {
        assert order[i] in order && order[..i+1] == order[..i] + [order[i]];
        if state.activeWorkers[order[i]].info.lastActive + cfg.disconnectDelay < now {
          removed := removed + {order[i]};
        }
      }
      assert order[..|order|] == order;
    }

    method GetAssistants() returns (ids: set<WorkerId>)
      ensures ids == Assistants(state.WorkerRecs())
    {
      ids := set x | x in state.activeWorkers && state.activeWorkers[x].info.assistant;
    }

    lemma LinkedEach()
      requires state.Linked()
      ensures forall k <- state.steps :: forall x <- state.activeWorkers ::
        state.steps[k] in state.activeWorkers[x].steps <==> x in state.steps[k].info.workers
    {
    }

    method PruneSteps(now: Time) returns (ghost order: seq<StepId>, ghost r: (Steps, set<StepId>))
      requires state.Consistent() && StepsOk(state.Recs())
      modifies state`steps, state`statusSteps, state.steps.Values`life, state.steps.Values`load
      ensures state.Consistent() && Lists(order, old(state.steps.Keys))
      ensures World() == SchedulerModel.PruneSteps(old(World()), order, now, cfg)
      ensures r == PruneLoop(old(state.Recs()), order, now, cfg, Assistants(old(state.WorkerRecs())), {})
              && state.steps == old(state.steps) - r.1 && r.1 <= old(state.steps).Keys
              && forall k <- old(state.steps) :: k in r.0 && r.0[k] == old(state.steps)[k].Rec()
    {
      hide SchedulerModel.PruneLoop, SimpleStepState.Indexed, SimpleStepState.Linked, Lists, StepsOk, World, SimpleStepState.WorkerRecs;
      WorldHas();
      var assistants := GetAssistants();
      var doomed;
      doomed, order := PruneEach(now, assistants);
      ghost var pruned := state.Recs();
      assert pruned.Keys == state.steps.Keys && forall k <- state.steps :: pruned[k] == state.steps[k].Rec();
      r := (pruned, doomed);
      hide SimpleStepState.Recs;
      state.InactivateSteps(doomed);
      state.StillLinked();
      SameWorkerRecs();
      WorldHas();
    }

    twostate lemma SameWorkerRecs()
      requires state.activeWorkers == old(state.activeWorkers)
      requires forall x <- state.activeWorkers :: state.activeWorkers[x].info == old(state.activeWorkers[x].info)
      ensures state.WorkerRecs() == old(state.WorkerRecs())
    {
    }

    method PruneEach(now: Time, assistants: set<WorkerId>) returns (doomed: set<StepId>, ghost order: seq<StepId>)
      requires state.Indexed() && StepsOk(state.Recs())
      modifies state`statusSteps, state.steps.Values`life, state.steps.Values`load
      ensures state.Indexed() && Lists(order, state.steps.Keys) && doomed <= state.steps.Keys
      ensures PruneLoop(old(state.Recs()), order, now, cfg, assistants, {}) == (state.Recs(), doomed)
    {
      hide PruneLoop, SimpleStepState.Indexed, Lists, PruneStep, StepsOk, Pruning, MayPrune;
      var todo := ListSet(state.steps.Keys);
      order := todo;
      doomed := {};
      ghost var recs := state.Recs();
      assert recs.Keys == state.steps.Keys;
      StartPruning(recs, todo, now, cfg, assistants);
      for i := 0 to |todo|
        invariant state.Indexed() && Pruning(recs, state.Recs(), todo, i, now, cfg, assistants, doomed)
      {
        PruneNext(recs, state.Recs(), todo, i, now, cfg, assistants, doomed);
        var gone := PruneOne(todo[i], now, assistants);
        if gone {
          doomed := doomed + {todo[i]};
        }
      }
      EndPruning(recs, state.Recs(), todo, now, cfg, assistants, doomed);
    }

    method Prune(now: Time) returns (ghost order: seq<StepId>)
      requires Valid()
      modifies state, state.steps.Values
      ensures Valid() && Lists(order, old(Full()).w.steps.Keys)
      ensures Full() == PruneSystem(old(Full()), order, now, cfg)
      ensures state.steps.Values <= old(state.steps.Values) && state.activeWorkers.Values <= old(state.activeWorkers.Values)
    {
      hide SystemOk, Full, World, PruneSystem, Lists, SimpleStepState.Consistent, RemovedFrom, PrunedTo;
      ghost var before := Full();
      FullIs();
      ValidSystem();
      order := PruneObjects(now);
      FullIs();
      PruneSystemOk(before, order, now, cfg);
      PruneIs(before, Full(), order, now, cfg);
    }

    /** `prune` on the objects: the values before and after, and what the workers hold. */
    method PruneObjects(now: Time) returns (ghost order: seq<StepId>)
      requires Valid()
      modifies state, state.steps.Values
      ensures state.Consistent() && Lists(order, old(Full()).w.steps.Keys)
      ensures PrunedTo(old(Full()), Full(), order, now, cfg)
      ensures state.steps.Values <= old(state.steps.Values) && state.activeWorkers.Values <= old(state.activeWorkers.Values)
    {
      hide SimpleStepState.Linked, SchedulerModel.PruneSteps, SchedulerModel.PruneWorkers, SystemOk, PruneLoop, Assistants,
           Full, World, RemovedFrom, Inv, StepsOk, SimpleStepState.Indexed, SimpleStepState.Recs, SimpleStepState.WorkerRecs,
           SimpleStepState.Held, PrunedTo, Lists;
      ghost var before := Full();
      FullIs();
      ValidSystem();
      StepsStayOk(before, now, cfg);
      PruneWorkers(now);
      ghost var w1 := World();
      FullIs();
      LinkedEach();
      ghost var r;
      order, r := PruneSteps(now);
      HeldAfterPrune(r);
      FullIs();
      PrunedInto(before, w1, r, Full(), order, now, cfg);
    }

    /** The workers keep the steps that `prune` removes. */
    twostate lemma HeldAfterPrune(r: (Steps, set<StepId>))
      requires old(state.Indexed()) && state.steps == old(state.steps) - r.1
      requires forall x <- state.activeWorkers ::
        x in old(state.activeWorkers) && state.activeWorkers[x] == old(state.activeWorkers[x])
        && state.activeWorkers[x].steps == old(state.activeWorkers[x].steps)
      requires forall k <- old(state.steps) :: k in r.0 && r.0[k] == old(state.steps)[k].Rec()
      requires forall k <- old(state.steps) :: forall x <- state.activeWorkers ::
        old(state.steps)[k] in state.activeWorkers[x].steps <==> x in old(state.steps)[k].info.workers
      requires forall s <- old(state.WorkerSteps()) :: s !in old(state.steps.Values) ==> s.Rec() == old(s.Rec())
      ensures forall x <- Full().held :: x in old(Full()).held && Full().held[x] == old(Full()).held[x] + RemovedFrom(old(Full()), r.0, r.1, x)
    {
      forall x | x in state.activeWorkers
        ensures state.RemovedOf(state.activeWorkers[x]) == old(state.RemovedOf(state.activeWorkers[x])) + RemovedFrom(old(Full()), r.0, r.1, x)
      {
        RemovedByPrune((r, x));
      }
    }

    twostate lemma RemovedByPrune(at: ((Steps, set<StepId>), WorkerId))
      requires var (r, x) := at;
        && old(state.Indexed()) && state.steps == old(state.steps) - r.1
        && x in state.activeWorkers && x in old(state.activeWorkers) && state.activeWorkers[x] == old(state.activeWorkers[x])
        && state.activeWorkers[x].steps == old(state.activeWorkers[x].steps)
        && (forall k <- old(state.steps) :: k in r.0 && r.0[k] == old(state.steps)[k].Rec())
        && (forall k <- old(state.steps) :: old(state.steps)[k] in state.activeWorkers[x].steps <==> x in old(state.steps)[k].info.workers)
        && forall s <- old(state.WorkerSteps()) :: s !in old(state.steps.Values) ==> s.Rec() == old(s.Rec())
      ensures var (r, x) := at;
        state.RemovedOf(state.activeWorkers[x]) == old(state.RemovedOf(state.activeWorkers[x])) + RemovedFrom(old(Full()), r.0, r.1, x)
    {
      var (r, x) := at;
      var worker := state.activeWorkers[x];
      var kept, removed := old(state.RemovedOf(worker)), RemovedFrom(old(Full()), r.0, r.1, x);
      assert forall s <- worker.steps :: s in old(state.WorkerSteps());
      forall it
        ensures it in state.RemovedOf(worker) <==> it in kept + removed
      {
        if it in state.RemovedOf(worker) {
          var s :| s in worker.steps && !state.Active(s) && it == Item(s, s.Rec());
          if old(state.Active(s)) {
            assert s.id in r.1 && old(state.steps)[s.id] == s;
            assert Item(old(Full()).who[s.id], r.0[s.id]) in removed;
          }
        }
      }
    }

    /** The body of the loop of `_prune_steps`. */
    method PruneOne(id: StepId, now: Time, assistants: set<WorkerId>) returns (gone: bool)
      requires state.Indexed() && StepsOk(state.Recs()) && id in state.steps
      modifies state`statusSteps, state.steps.Values`life, state.steps.Values`load
      ensures state.Indexed()
      ensures state.Recs() == PruneStep(old(state.Recs()), id, now, cfg, assistants)
      ensures gone == MayPrune(state.Recs()[id], now)
    {
      hide FailDead, UpdateStatus;
      var step := state.steps[id];
      FailDeadOk(state.Recs(), id, now, cfg, assistants);
      state.FailDeadWorkerStep(step, now, cfg, assistants);
      assert RecOk(state.Recs()[id]) && step.Rec() == state.Recs()[id];
      state.UpdateStatus(step, now, cfg);
      assert step.Rec() == state.Recs()[id];
      gone := Truthy(step.life.remove) && now >= step.life.remove.value;
    }

    // -------------------------------------------------------------- add_step

    /** `_update_worker`. */
    method UpdateWorker(x: WorkerId, getWork: bool, now: Time) returns (worker: Worker)
      requires state.Consistent()
      requires forall k <- state.steps :: forall y <- state.steps[k].info.workers :: y in state.activeWorkers
      modifies state`activeWorkers, state.activeWorkers.Values`info
      ensures state.Consistent()
      ensures x in state.activeWorkers && state.activeWorkers[x] == worker && worker.id == x
      ensures state.Recs() == old(state.Recs()) && state.WorkerRecs() == Touch(old(state.WorkerRecs()), x, getWork, now)
      ensures worker.info == Touch(old(state.WorkerRecs()), x, getWork, now)[x] && state.SameLinks()
      ensures fresh(state.activeWorkers.Values - old(state.activeWorkers.Values))
    {
      hide SimpleStepState.Consistent, SimpleStepState.WorkerRecs, GetWorker;
      worker := LookUpWorker(x, now);
      WorkerRecordOf(worker);
      Refresh(worker, getWork, now);
    }

    method Refresh(worker: Worker, getWork: bool, now: Time)
      requires state.Consistent() && worker.id in state.activeWorkers && state.activeWorkers[worker.id] == worker
      modifies worker`info
      ensures state.Consistent() && state.Recs() == old(state.Recs())
      ensures worker.info == old(worker.info).(lastActive := now, lastGetWork := if getWork then Some(now) else old(worker.info.lastGetWork))
      ensures state.WorkerRecs() == old(state.WorkerRecs())[worker.id := worker.info]
    {
      hide SimpleStepState.Indexed, SimpleStepState.Linked;
      state.WorkersFiled();
      worker.Update(getWork, now);
      state.WorkerRecsAre(old(state.WorkerRecs())[worker.id := worker.info]);
      state.StillConsistent();
    }

    /** Family, parameters, batch id and owner. */
    method DescribeStep(step: Step, a: AddArgs)
      requires state.Consistent() && state.Active(step)
      modifies step
      ensures state.Consistent()
      ensures state.Recs() == old(state.Recs())[step.id := Describe(old(step.Rec()), a)]
    {
      step.Describe(a);
      state.OneUpdated(step);
    }

    /** `step.resources_running = batch_steps[0].resources_running.copy()`, which raises an exception if
        there is no such step or if it has no such attribute. */
    method CopyBatchResources(step: Step, batchId: Option<BatchId>) returns (failed: bool, ghost pick: Option<StepId>)
      requires state.Consistent() && state.Active(step)
      modifies step`load
      ensures state.Consistent()
      ensures ValidPick(old(state.Recs()), batchId, pick)
      ensures failed == PickFails(old(state.Recs()), pick)
      ensures state.Recs() == if failed then old(state.Recs())
                              else old(state.Recs())[step.id := Equipped(old(step.Rec()), old(state.Recs())[pick.value].load.resourcesRunning)]
    {
      pick := None;
      var members := state.GetBatchRunningSteps(batchId);
      if members == [] {
        failed := true;
        assert ValidPick(state.Recs(), batchId, None) by {
          forall k | k in state.Recs()
            ensures !InBatch(state.Recs()[k], batchId)
          {
            assert state.steps[k] in state.steps.Values && state.steps[k] !in members;
          }
        }
        return;
      }
      var first := members[0];
      assert first in members && first in state.steps.Values && state.Recs()[first.id] == first.Rec();
      pick := Some(first.id);
      if first.load.resourcesRunning.None? {
        failed := true;
        return;
      }
      failed := false;
      step.load := step.load.(resourcesRunning := first.load.resourcesRunning, sharedResources := false);
      state.OneUpdated(step);
    }

    method UnmarkStep(step: Step, a: AddArgs)
      requires state.Consistent() && state.Active(step)
      modifies step`info, step`life
      ensures state.Consistent()
      ensures state.Recs() == old(state.Recs())[step.id := Unmark(old(step.Rec()), a)]
    {
      if a.batchable.Some? {
        step.info := step.info.(batchable := a.batchable.value);
      }
      if step.life.remove.Some? {
        step.life := step.life.(remove := None);
      }
      state.OneUpdated(step);
    }

    method ReportStatus(step: Step, a: AddArgs, now: Time)
      requires state.Consistent() && state.Active(step)
      modifies state`statusSteps, state.steps.Values`life
      ensures state.Consistent()
      ensures state.Recs() == Report(old(state.Recs()), a.(id := step.id), now, cfg)
    {
      var stepIsNotRunning := step.life.status != RUNNING && step.life.status != BATCH_RUNNING;
      var stepStartedARun := a.status == DONE || a.status == FAILED || a.status == RUNNING;
      var runningOnThisWorker := step.load.workerRunning == Some(a.worker);
      hide SimpleStepState.Consistent, SchedulerModel.SetStatus;
      if stepIsNotRunning || (stepStartedARun && runningOnThisWorker) || (a.newDeps.Some? && a.newDeps.value != {}) {
        SetStepStatus(step, if a.status == SUSPENDED then PENDING else a.status, now);
      }
    }

    method RewireStep(step: Step, a: AddArgs)
      requires state.Consistent() && state.Active(step)
      modifies step`info, step`load
      ensures state.Consistent()
      ensures state.Recs() == old(state.Recs())[step.id := Rewire(old(step.Rec()), a)]
    {
      if a.deps.Some? {
        step.info := step.info.(deps := a.deps.value);
      }
      if a.newDeps.Some? {
        step.info := step.info.(deps := step.info.deps + a.newDeps.value);
      }
      step.load := step.load.(resources := a.resources, sharedResources := false);
      assert step.info.deps == GetOr(a.deps, old(step.info.deps)) + GetOr(a.newDeps, {});
      state.OneUpdated(step);
    }

    method Watch(step: Step, x: WorkerId)
      requires state.Consistent() && state.Active(step)
      modifies step`info
      ensures state.Consistent()
      ensures state.Recs() == old(state.Recs())[step.id := Watched(old(step.Rec()), x)]
    {
      step.info := step.info.(stakeholders := step.info.stakeholders + {x});
      state.OneUpdated(step);
    }

    /** The worker becomes a stakeholder of the step and of its dependencies, known or not. */
    method AddStakeholders(step: Step, x: WorkerId, priority: int, now: Time)
      requires state.Consistent() && state.Active(step)
      modifies state`steps, state`statusSteps, state.steps.Values`info
      ensures state.Consistent() && state.Active(step)
      ensures state.Recs() == AddStakeholder(old(state.Recs()), step.id, x, priority, now, cfg)
      ensures fresh(state.steps.Values - old(state.steps.Values))
      ensures forall k <- old(state.steps) :: k in state.steps && state.steps[k] == old(state.steps[k])
    {
      ghost var was := state.Recs();
      var deps := ListSet(step.info.deps);
      Watch(step, x);
      WatchedNone(was, step.id, x, priority, now, cfg);
      for i := 0 to |deps|
        invariant state.Consistent() && state.Active(step)
        invariant state.Recs() == WatchedSome(was, step.id, Elements(deps[..i]), x, priority, now, cfg)
        invariant fresh(state.steps.Values - old(state.steps.Values))
        invariant forall k <- old(state.steps) :: k in state.steps && state.steps[k] == old(state.steps[k])
      {
        OneMore(deps, i);
        WatchedNext(was, step.id, Elements(deps[..i]), x, priority, now, cfg, deps[i]);
        hide WatchedSome, Elements, SimpleStepState.Consistent;
        WatchDependency(deps[i], x, priority, now);
      }
      AllElements(deps, was[step.id].info.deps);
    }

    method WatchDependency(id: StepId, x: WorkerId, priority: int, now: Time)
      requires state.Consistent()
      modifies state`steps, state`statusSteps, state.steps.Values`info
      ensures state.Consistent() && fresh(state.steps.Values - old(state.steps.Values))
      ensures forall k <- old(state.steps) :: k in state.steps && state.steps[k] == old(state.steps[k])
      ensures var found := old(state.Recs())[id := if id in old(state.steps) then old(state.Recs())[id]
                                                     else Placeholder(id, priority, now, cfg)];
              state.Recs() == found[id := Watched(found[id], x)]
    {
      hide SimpleStepState.Consistent;
      var t := state.FindStep(id, Placeholder(id, priority, now, cfg));
      assert t.Rec() == state.Recs()[id];
      Watch(t, x);
    }

    /** `step.workers.add(worker_id)` and `worker.steps.add(step)`. */
    method Link(step: Step, worker: Worker)
      requires state.Consistent() && state.Active(step)
      requires worker.id in state.activeWorkers && state.activeWorkers[worker.id] == worker
      modifies step`info, worker`steps
      ensures state.Consistent() && state.WorkerRecs() == old(state.WorkerRecs()) && worker.steps == old(worker.steps) + {step}
      ensures step.info == old(step.info).(workers := AddLast(old(step.info.workers), worker.id))
      ensures state.Recs() == old(state.Recs())[step.id := step.Rec()]
    {
      hide SimpleStepState.IndexOk;
      step.info := step.info.(workers := AddLast(step.info.workers, worker.id));
      worker.steps := worker.steps + {step};
      state.StillIndexed();
      state.RecsAre(old(state.Recs())[step.id := step.Rec()]);
      state.WorkerRecsAre(old(state.WorkerRecs()));
      hide SimpleStepState.Indexed, SimpleStepState.WorkerRecs;
      state.LinkedMore((step, worker.id));
    }

    method EnlistStep(step: Step, a: AddArgs, worker: Worker)
      requires state.Consistent() && state.Active(step)
      requires a.worker in state.activeWorkers && state.activeWorkers[a.worker] == worker && worker.id == a.worker
      modifies step`info, worker`steps
      ensures state.Consistent()
      ensures state.WorkerRecs() == old(state.WorkerRecs())
      ensures state.Recs() == old(state.Recs())[step.id := Enlist(old(step.Rec()), a, !worker.info.disabled)]
      ensures old(worker.steps) <= worker.steps <= old(worker.steps) + {step}
    {
      hide SimpleStepState.Consistent, SimpleStepState.WorkerRecs;
      step.info := step.info.(policy := a.policy);
      state.OneUpdated(step);
      SameWorkerRecs();
      if a.runnable && a.status != FAILED && !worker.info.disabled {
        Link(step, worker);
        label Linked:
        step.info := step.info.(runnable := true);
        state.OneUpdated@Linked(step);
        SameWorkerRecs();
      }
      assert state.Recs() == old(state.Recs())[step.id := step.Rec()];
    }

    /** `_update_priority` as `add_step` calls it. */
    method RaisePriority(step: Step, priority: int)
      requires state.Consistent() && state.Active(step)
      modifies state.steps.Values`info
      ensures state.Consistent()
      ensures state.Recs() == SchedulerModel.UpdatePriority(old(state.Recs()), step.id, priority)
    {
      hide SimpleStepState.Indexed, SimpleStepState.Linked, SchedulerModel.UpdatePriority;
      ghost var was := state.Recs();
      UpdatePriority(step, priority);
      UpdatePriorityOk(was, step.id, priority);
      forall k | k in state.steps
        ensures state.steps[k].info.workers == old(state.steps[k].info.workers)
      {
        assert state.steps[k].Rec() == state.Recs()[k] && was[k] == old(state.steps[k].Rec());
      }
      state.StillLinked();
    }

    /** The part of `add_step` after the batch lookup. */
    method FinishReport(step: Step, a: AddArgs, worker: Worker, now: Time)
      requires state.Consistent() && state.Active(step) && step.id == a.id
      requires a.worker in state.activeWorkers && state.activeWorkers[a.worker] == worker && worker.id == a.worker
      modifies state`steps, state`statusSteps, state.steps.Values, worker`steps
      ensures state.Consistent()
      ensures state.WorkerRecs() == old(state.WorkerRecs())
      ensures state.Recs() == AddStepTail(old(state.Recs()), a, !worker.info.disabled, now, cfg)
      ensures fresh(state.steps.Values - old(state.steps.Values))
      ensures forall k <- old(state.steps) :: k in state.steps && state.steps[k] == old(state.steps[k])
      ensures old(worker.steps) <= worker.steps <= old(worker.steps) + {step}
    {
      hide SimpleStepState.Consistent, SimpleStepState.WorkerRecs, Unmark, Report, Rewire, AddStakeholder,
           SchedulerModel.UpdatePriority, Enlist;
      ChangeStatus(step, a, now);
      Spread(step, a, worker, now);
      assert step.Rec() == state.Recs()[a.id];
      EnlistStep(step, a, worker);
    }

    /** The status, the dependencies and the demand of the step. */
    method ChangeStatus(step: Step, a: AddArgs, now: Time)
      requires state.Consistent() && state.Active(step) && step.id == a.id
      modifies state`statusSteps, state.steps.Values
      ensures state.Consistent()
      ensures var unmarked := old(state.Recs())[a.id := Unmark(old(step.Rec()), a)];
              var reported := Report(unmarked, a, now, cfg);
              state.Recs() == reported[a.id := Rewire(reported[a.id], a)]
    {
      hide SimpleStepState.Consistent, SimpleStepState.WorkerRecs, Unmark, Report, Rewire;
      UnmarkStep(step, a);
      ReportStatus(step, a, now);
      assert step.Rec() == state.Recs()[a.id];
      RewireStep(step, a);
    }

    /** Stakeholders and priorities, of the step and along its dependencies. */
    method Spread(step: Step, a: AddArgs, worker: Worker, now: Time)
      requires state.Consistent() && state.Active(step) && step.id == a.id
      modifies state`steps, state`statusSteps, state.steps.Values`info
      ensures state.Consistent() && state.Active(step)
      ensures var watched := if !worker.info.disabled && !a.assistant
                             then AddStakeholder(old(state.Recs()), a.id, a.worker, a.priority, now, cfg) else old(state.Recs());
              a.id in watched && state.Recs() == SchedulerModel.UpdatePriority(watched, a.id, a.priority)
      ensures fresh(state.steps.Values - old(state.steps.Values))
      ensures forall k <- old(state.steps) :: k in state.steps && state.steps[k] == old(state.steps[k])
    {
      hide SimpleStepState.Consistent, SimpleStepState.WorkerRecs, AddStakeholder, SchedulerModel.UpdatePriority;
      if !worker.info.disabled && !a.assistant {
        AddStakeholders(step, a.worker, a.priority, now);
      }
      assert a.id in state.Recs();
      RaisePriority(step, a.priority);
    }

    method AddStep(a: AddArgs, now: Time) returns (failed: bool, ghost pick: Option<StepId>)
      requires Valid()
      modifies state, state.steps.Values, state.activeWorkers.Values
      ensures Valid() && Possible(old(Full()).w, OnAddStep(a, pick), now, cfg)
      ensures (Full().w, failed) == SchedulerModel.AddStep(old(Full()).w, a, pick, now, cfg)
      ensures NewObjects(old(Full()), Full().w.steps, state.steps)
      ensures Full() == EventSystem(old(Full()), OnAddStep(a, pick), state.steps, now, cfg)
      ensures fresh(state.steps.Values - old(state.steps.Values))
      ensures fresh(state.activeWorkers.Values - old(state.activeWorkers.Values))
    {
      hide SimpleStepState.Linked, Inv, SchedulerModel.AddStep, AddStepHead, ValidPick, SystemOk, SimpleStepState.WorkerRecs;
      ghost var before := Full();
      KnownWorkers();
      failed, pick := HandleReport(a, now);
      state.HeldStays();
      NewSteps();
      FullIs();
      assert Next(before.w, OnAddStep(a, pick), now, cfg) == World();
      AddIsEvent(before, Full(), OnAddStep(a, pick), now, cfg);
      EventSystemOk(before, OnAddStep(a, pick), state.steps, now, cfg);
    }

    /** Steps that have come into the table are new objects. */
    twostate lemma NewSteps()
      requires old(state.Indexed()) && state.Indexed() && state.LinksGrow()
      ensures NewObjects(old(Full()), World().steps, state.steps)
    {
      forall x, it | x in old(state.Held()) && it in old(state.Held())[x]
        ensures allocated(it.obj) && !fresh(it.obj)
      {
      }
    }

    method HandleReport(a: AddArgs, now: Time) returns (failed: bool, ghost pick: Option<StepId>)
      requires state.Consistent()
      requires forall k <- state.steps :: forall y <- state.steps[k].info.workers :: y in state.activeWorkers
      modifies state, state.steps.Values, state.activeWorkers.Values
      ensures state.Consistent()
      ensures ValidPick(AddStepHead(old(state.Recs()), a, now, cfg), a.batchId, pick)
      ensures (World(), failed) == SchedulerModel.AddStep(old(World()), a, pick, now, cfg)
      ensures state.LinksGrow() && fresh(state.steps.Values - old(state.steps.Values))
      ensures fresh(state.activeWorkers.Values - old(state.activeWorkers.Values))
    {
      hide SimpleStepState.Indexed, SimpleStepState.Linked, SimpleStepState.WorkerRecs, SchedulerModel.ApplyReport, Ignored, Touch,
           AddStepHead, ValidPick, SimpleStepState.LinksGrow, SchedulerModel.AddStep, World, SimpleStepState.Recs;
      WorldHas();
      ghost var w := World();
      var worker := UpdateWorker(a.worker, false, now);
      failed, pick := ReportTo(a, worker, now);
      AddStepIs(w, a, pick, state.Recs(), failed, now, cfg);
      WorldHas();
      state.WorkersFiled();
      state.HaveGrown(a.worker);
    }

    /** `add_step` once the worker is known. */
    method ReportTo(a: AddArgs, worker: Worker, now: Time) returns (failed: bool, ghost pick: Option<StepId>)
      requires state.Consistent()
      requires a.worker in state.activeWorkers && state.activeWorkers[a.worker] == worker && worker.id == a.worker
      modifies state`steps, state`statusSteps, state.steps.Values, worker`steps
      ensures state.Consistent() && state.WorkerRecs() == old(state.WorkerRecs())
      ensures ValidPick(AddStepHead(old(state.Recs()), a, now, cfg), a.batchId, pick)
      ensures (state.Recs(), failed) == if Ignored(old(state.Recs()), a, !worker.info.disabled, now, cfg) then (old(state.Recs()), false)
                else SchedulerModel.ApplyReport(old(state.Recs()), a, !worker.info.disabled, pick, now, cfg)
      ensures fresh(state.steps.Values - old(state.steps.Values))
      ensures forall k <- old(state.steps) :: k in state.steps && state.steps[k] == old(state.steps[k])
      ensures old(worker.steps) <= worker.steps && forall s <- worker.steps :: s in old(worker.steps) || state.Active(s)
    {
      hide SimpleStepState.Consistent, SimpleStepState.WorkerRecs, SchedulerModel.ApplyReport, Ignored, AddStepHead, ValidPick;
      pick := SomePick(AddStepHead(state.Recs(), a, now, cfg), a.batchId);
      failed := false;
      var ignored := IsIgnored(a, !worker.info.disabled, now);
      if !ignored {
        failed, pick := ApplyReport(a, worker, now);
      }
    }

    /** The conditions under which `add_step` returns at once. */
    method IsIgnored(a: AddArgs, enabled: bool, now: Time) returns (ignored: bool)
      ensures ignored == Ignored(state.Recs(), a, enabled, now, cfg)
    {
      if !enabled && (a.id !in state.steps || state.steps[a.id].life.status != RUNNING) {
        return true;
      }
      // a claim that the step is PENDING, very soon after it was DONE
      ignored := a.status == PENDING && a.id in state.steps && state.steps[a.id].life.status == DONE
                 && now - state.steps[a.id].life.updated < cfg.stableDoneCooldown;
    }

    /** `add_step` from the creation of the step on. */
    method ApplyReport(a: AddArgs, worker: Worker, now: Time) returns (failed: bool, ghost pick: Option<StepId>)
      requires state.Consistent()
      requires a.worker in state.activeWorkers && state.activeWorkers[a.worker] == worker && worker.id == a.worker
      modifies state`steps, state`statusSteps, state.steps.Values, worker`steps
      ensures state.Consistent()
      ensures ValidPick(AddStepHead(old(state.Recs()), a, now, cfg), a.batchId, pick)
      ensures state.WorkerRecs() == old(state.WorkerRecs())
      ensures (state.Recs(), failed) == SchedulerModel.ApplyReport(old(state.Recs()), a, !worker.info.disabled, pick, now, cfg)
      ensures fresh(state.steps.Values - old(state.steps.Values))
      ensures forall k <- old(state.steps) :: k in state.steps && state.steps[k] == old(state.steps[k])
      ensures old(worker.steps) <= worker.steps && forall s <- worker.steps :: s in old(worker.steps) || state.Active(s)
    {
      hide SimpleStepState.Consistent, SimpleStepState.WorkerRecs, AddStepTail, AddStepStart, AddStepHead, ValidPick;
      var step;
      step, failed, pick := StartReport(a, now);
      if !failed {
        FinishReport(step, a, worker, now);
      }
    }

    /** The part of `add_step` up to the batch lookup. */
    method StartReport(a: AddArgs, now: Time) returns (step: Step, failed: bool, ghost pick: Option<StepId>)
      requires state.Consistent()
      modifies state`steps, state`statusSteps, state.steps.Values
      ensures state.Consistent() && state.Active(step) && step.id == a.id
      ensures ValidPick(AddStepHead(old(state.Recs()), a, now, cfg), a.batchId, pick)
      ensures var start := AddStepStart(old(state.Recs()), a, pick, now, cfg);
              if failed then start == None && state.Recs() == AddStepHead(old(state.Recs()), a, now, cfg)
              else start == Some(state.Recs())
      ensures fresh(state.steps.Values - old(state.steps.Values))
      ensures forall k <- old(state.steps) :: k in state.steps && state.steps[k] == old(state.steps[k])
    {
      hide SimpleStepState.Consistent, SchedulerModel.Describe, DefaultStep, ValidPick, Equipped, AddStepStart, CopiesResources, PickFails;
      assert DefaultStep(a, now, cfg).id == a.id && DefaultStep(a, now, cfg).info.workers == [] by {
        DefaultStepIsNew(a, now, cfg);
      }
      step := state.FindStep(a.id, DefaultStep(a, now, cfg));
      assert step.Rec() == state.Recs()[a.id] == Found(old(state.Recs()), a, now, cfg);
      var copies := a.status == RUNNING && step.load.workerRunning.None? && a.batchId.Some? && a.batchId.value != [];
      assert copies == CopiesResources(Found(old(state.Recs()), a, now, cfg), a) by {
        CopiesJust(Found(old(state.Recs()), a, now, cfg), a);
      }
      DescribeStep(step, a);
      ghost var head := AddStepHead(old(state.Recs()), a, now, cfg);
      assert state.Recs() == head;
      failed := false;
      pick := SomePick(head, a.batchId);
      if copies {
        failed, pick := CopyBatchResources(step, a.batchId);
      }
      StartIs(old(state.Recs()), a, pick, failed, state.Recs(), now, cfg);
    }

    // -------------------------------------------------------------- get_work

    /** `_reset_orphaned_batch_running_steps`. */
    method ResetOrphanedSteps(x: WorkerId, now: Time)
      requires state.Consistent()
      modifies state`statusSteps, state.steps.Values`life
      ensures state.Consistent()
      ensures state.Recs() == ResetOrphans(old(state.Recs()), x, now, cfg)
    {
      hide SimpleStepState.IndexOk, SimpleStepState.Linked, OrphanedMember, ResetOrphans;
      var orphans := FindOrphans(state, x);
      ghost var ids := set s | s in orphans :: s.id;
      assert forall k <- state.steps :: k in ids <==> state.steps[k] in orphans;
      AllReset(state.Recs(), ids, x, now, cfg);
      ResetEach(orphans, x, now);
      state.StillLinked();
    }

    method ResetEach(orphans: set<Step>, ghost x: WorkerId, now: Time)
      requires state.Indexed() && (forall s <- orphans :: state.Active(s) && OrphanedMember(state.Recs(), state.Recs()[s.id], x))
      modifies state`statusSteps, state.steps.Values`life
      ensures state.Indexed()
      ensures state.Recs() == ResetIds(old(state.Recs()), set s | s in orphans :: s.id, now, cfg)
    {
      hide SimpleStepState.Indexed, SetOne, OrphanedMember, SchedulerModel.SetStatus;
      ghost var before := state.Recs();
      ghost var done: set<StepId> := {};
      var rest := orphans;
      while rest != {}
        invariant rest <= orphans && done == set s | s in orphans - rest :: s.id
        invariant state.Indexed() && state.Recs() == ResetIds(before, done, now, cfg)
        decreases rest
      {
        var step :| step in rest;
        assert step.id !in done;
        ResetNext(before, done, step.id, x, now, cfg);
        state.SetStatus(step, PENDING, now, cfg);
        assert orphans - (rest - {step}) == orphans - rest + {step};
        rest := rest - {step};
        done := done + {step.id};
      }
      assert orphans - rest == orphans;
    }

    /** An assistant is recorded as one, and orphans of batches go back into the pool. */
    method AnnounceWorker(a: WorkArgs, worker: Worker, now: Time)
      requires state.Consistent() && worker.id == a.worker && a.worker in state.activeWorkers && state.activeWorkers[a.worker] == worker
      modifies state`statusSteps, state.steps.Values`life, worker`info
      ensures state.Consistent()
      ensures Full() == WithWorld(old(Full()), Announce(old(Full()).w, a, now, cfg))
    {
      hide SimpleStepState.Linked, World, Full, WithWorld, Announce;
      FullIs();
      ChangeAnnounced(a, worker, now);
      Stays();
    }

    method ChangeAnnounced(a: WorkArgs, worker: Worker, now: Time)
      requires state.Consistent() && worker.id == a.worker && a.worker in state.activeWorkers && state.activeWorkers[a.worker] == worker
      modifies state`statusSteps, state.steps.Values`life, worker`info
      ensures state.Consistent() && World() == Announce(old(World()), a, now, cfg)
    {
      hide SimpleStepState.Indexed, SimpleStepState.Linked, ResetOrphans;
      if a.assistant {
        PutInfo(worker, worker.info.(assistant := true));
      }
      if a.current.Some? {
        ResetOrphanedSteps(a.worker, now);
      }
    }

    /** `_upstream_status` as `count_pending` calls it. */
    method LookUpStatus(id: StepId, table0: US.Table) returns (raised: bool, skip: bool, table: US.Table)
      requires US.EntriesOk(state.Recs(), table0)
      ensures raised == LookupRaises(state.Recs(), id) && (skip ==> MaySkip(state.Recs(), id))
      ensures US.EntriesOk(state.Recs(), table)
    {
      var recs := map k | k in state.steps :: state.steps[k].Rec();
      assert recs == state.Recs();
      var lookup;
      lookup, table := US.UpstreamStatus(recs, id, table0, _ => 0);
      raised, skip := lookup.KeyError?, lookup.Found? && lookup.value == US.UpstreamDisabled;
    }

    /** The owner of a running step becomes active. */
    method LookUpOwner(x: WorkerId, now: Time)
      requires forall y <- state.activeWorkers :: state.activeWorkers[y].id == y
      modifies state`activeWorkers
      ensures state.WorkerRecs() == GetWorker(old(state.WorkerRecs()), x, now) && state.SameLinks()
      ensures forall y <- old(state.activeWorkers) :: y in state.activeWorkers && state.activeWorkers[y] == old(state.activeWorkers[y])
      ensures forall y <- state.activeWorkers :: state.activeWorkers[y].id == y && (y !in old(state.activeWorkers) ==> fresh(state.activeWorkers[y]))
    {
      var _ := state.FindWorker(x, now);
      state.WorkerRecsAre(GetWorker(old(state.WorkerRecs()), x, now));
    }

    /** The first loop of `count_pending`: it looks up the owners of the running steps, and so makes them active. */
    method CountRunning(running: set<Step>, now: Time) returns (raised: bool, table: US.Table, ghost owners: set<WorkerId>)
      requires forall y <- state.activeWorkers :: state.activeWorkers[y].id == y
      modifies state`activeWorkers
      ensures raised == SomeRaises(state.Recs(), running) && US.EntriesOk(state.Recs(), table)
      ensures OwnersAmong(running, owners) && (!raised ==> AllOwners(state.Recs(), running, owners))
      ensures state.WorkerRecs() == WithWorkers(old(state.WorkerRecs()), owners, now) && state.SameLinks()
      ensures forall y <- old(state.activeWorkers) :: y in state.activeWorkers && state.activeWorkers[y] == old(state.activeWorkers[y])
      ensures forall y <- state.activeWorkers :: state.activeWorkers[y].id == y && (y !in old(state.activeWorkers) ==> fresh(state.activeWorkers[y]))
    {
      hide SimpleStepState.WorkerRecs, GetWorker, WithWorkers, Counting, SimpleStepState.Recs, US.EntriesOk;
      ghost var steps, workers := state.Recs(), state.WorkerRecs();
      var rest := running;
      table, owners := map[], {};
      StartCounting(steps, running, workers, now);
      while rest != {}
        invariant Counting(steps, running, rest, table, owners) && state.Recs() == steps
        invariant state.WorkerRecs() == WithWorkers(workers, owners, now) && state.SameLinks()
        invariant forall y <- old(state.activeWorkers) :: y in state.activeWorkers && state.activeWorkers[y] == old(state.activeWorkers[y])
        invariant forall y <- state.activeWorkers :: state.activeWorkers[y].id == y && (y !in old(state.activeWorkers) ==> fresh(state.activeWorkers[y]))
        decreases rest
      {
        CountingSoFar(steps, running, rest, table, owners);
        var step :| step in rest;
        var failed, skip;
        ghost var before := table;
        failed, skip, table := LookUpStatus(step.id, table);
        if failed {
          CountingFails(steps, running, rest, before, owners, step);
          return true, table, owners;
        }
        CountOne(steps, running, rest, before, owners, step, skip, table);
        if !skip && step.load.workerRunning.Some? {
          WithOneMore(workers, owners, step.load.workerRunning.value, now);
          LookUpOwner(step.load.workerRunning.value, now);
          owners := owners + {step.load.workerRunning.value};
        }
        rest := rest - {step};
      }
      CountingEnds(steps, running, table, owners);
      raised := false;
    }

    /** The second loop, which only counts. */
    method CountWaiting(waiting: set<Step>, table0: US.Table) returns (raised: bool)
      requires US.EntriesOk(state.Recs(), table0)
      ensures raised == SomeRaises(state.Recs(), waiting) && Full() == old(Full())
    {
      hide US.EntriesOk, LookupRaises, MaySkip;
      var rest, table := waiting, table0;
      assert waiting - rest == {};
      while rest != {}
        invariant rest <= waiting && US.EntriesOk(state.Recs(), table) && !SomeRaises(state.Recs(), waiting - rest)
        decreases rest
      {
        var step :| step in rest;
        var failed, skip;
        failed, skip, table := LookUpStatus(step.id, table);
        if failed {
          return true;
        }
        assert waiting - (rest - {step}) == waiting - rest + {step};
        rest := rest - {step};
      }
      assert waiting - rest == waiting;
      raised := false;
    }

    /** The first loop, on the whole state. */
    method LookUpOwners(running: set<Step>, now: Time) returns (raised: bool, table: US.Table, ghost owners: set<WorkerId>)
      requires Valid()
      modifies state`activeWorkers
      ensures state.Consistent() && Full() == Counted(old(Full()), owners, now) && state.Recs() == old(Full()).w.steps
      ensures var steps := old(Full()).w.steps;
              && raised == SomeRaises(steps, running) && US.EntriesOk(steps, table)
              && OwnersAmong(running, owners) && (!raised ==> AllOwners(steps, running, owners))
      ensures forall y <- old(state.activeWorkers) :: y in state.activeWorkers && state.activeWorkers[y] == old(state.activeWorkers[y])
      ensures fresh(state.activeWorkers.Values - old(state.activeWorkers.Values))
    {
      hide SimpleStepState.Indexed, SimpleStepState.Linked, SystemOk, SomeRaises, OwnersAmong, AllOwners, WithWorkers, US.EntriesOk,
           SimpleStepState.WorkerRecs, WithWorld;
      KnownWorkers();
      state.WorkersFiled();
      raised, table, owners := CountRunning(running, now);
      state.LinkedWithNew();
      state.StillIndexed();
      Stays();
    }

    /** The effect of `count_pending`, and whether it raises an exception. */
    method CountSteps(worker: Worker, now: Time) returns (raised: bool, ghost owners: set<WorkerId>)
      requires Valid() && worker.id in state.activeWorkers && state.activeWorkers[worker.id] == worker
      modifies state`activeWorkers
      ensures state.Consistent() && state.Recs() == old(Full()).w.steps
      ensures raised == CountRaises(old(Full()), worker.id) && LooksUp(old(Full()), worker.id, owners)
      ensures Full() == Counted(old(Full()), owners, now)
      ensures worker.id in state.activeWorkers && state.activeWorkers[worker.id] == worker
      ensures fresh(state.activeWorkers.Values - old(state.activeWorkers.Values))
    {
      hide Full, World, SystemOk, RemovedSteps.GetSteps, SomeRaises, OwnersAmong, AllOwners, US.EntriesOk, CountRaises, LooksUp,
           ItemsOfSteps, Counted, SimpleStepState.Indexed, SimpleStepState.Linked;
      ghost var s := Full();
      var running := StepsOfWorkerWith(worker, {RUNNING});
      FullIs();
      label Found:
      var table;
      raised, table, owners := LookUpOwners(running, now);
      SameItems@Found(running);
      if !raised {
        CountedSees(s, owners, now, worker.id, {PENDING, FAILED});
        var waiting := StepsOfWorkerWith(worker, {PENDING, FAILED});
        raised := CountWaiting(waiting, table);
        CountIsRight(s, worker.id, running, waiting, owners);
      } else {
        CountHasRaised(s, worker.id, running, owners);
      }
    }

    /** `worker.get_steps`. */
    method StepsOfWorkerWith(worker: Worker, statuses: set<Status>) returns (found: set<Step>)
      requires state.Consistent() && worker.id in state.activeWorkers && state.activeWorkers[worker.id] == worker
      ensures Full() == old(Full()) && ItemsOfSteps(found) == RemovedSteps.GetSteps(Full(), worker.id, statuses)
    {
      hide SimpleStepState.Indexed, SimpleStepState.Linked, RemovedSteps.GetSteps, ItemsOfSteps;
      found := WorkSearch.GetSteps(state, worker, statuses, Full());
      assert Full() == old(Full());
    }

    twostate lemma SameItems(found: set<Step>)
      requires forall s <- found :: s.Rec() == old(s.Rec())
      ensures ItemsOfSteps(found) == old(ItemsOfSteps(found))
    {
    }

    /** The best step starts to run. */
    method GrantStep(step: Step, x: WorkerId, now: Time)
      requires state.Consistent() && state.Active(step)
      modifies state`statusSteps, state.steps.Values`life, step`load
      ensures state.Consistent()
      ensures state.Recs() == Grant(old(state.Recs()), step.id, x, now, cfg)
    {
      hide SimpleStepState.Indexed, SimpleStepState.Linked, SchedulerModel.SetStatus;
      state.SetStatus(step, RUNNING, now, cfg);
      state.StillLinked();
      label Set:
      assert step.Rec() == state.Recs()[step.id];
      step.load := step.load.(workerRunning := Some(x), resourcesRunning := Some(step.load.resources), sharedResources := false);
      state.OneUpdated@Set(step);
    }

    /** `set_batch_running`. */
    method SetStepBatchRunning(step: Step, b: BatchId, x: WorkerId, now: Time)
      requires state.Consistent() && state.Active(step)
      modifies state`statusSteps, state.steps.Values`life, step`load
      ensures state.Consistent()
      ensures state.Recs() == SetBatchRunning(old(state.Recs()), step.id, b, x, now, cfg)
    {
      hide SimpleStepState.Indexed, SimpleStepState.Linked, SchedulerModel.SetStatus;
      state.SetStatus(step, BATCH_RUNNING, now, cfg);
      state.StillLinked();
      label Set:
      assert step.Rec() == state.Recs()[step.id];
      step.life := step.life.(batchId := Some(b));
      step.load := step.load.(workerRunning := Some(x), resourcesRunning := Some(step.load.resources), sharedResources := true);
      state.OneUpdated@Set(step);
    }

    /** `_status_steps[step.status].pop(step.id)` finds the step itself, no key, or another step. */
    method CheckKey(step: Step) returns (outcome: Outcome)
      requires state.Consistent()
      ensures state.Active(step) <==> outcome == Finished
      ensures !state.Active(step) && step.life.status == PENDING ==> outcome == PopOf(state.Recs(), step.id)
    {
      assert state.IndexOk(step.life.status);
      assert step.id in state.steps ==> state.Recs()[step.id] == state.steps[step.id].Rec();
      var filed := state.WithStatus(step.life.status);
      if step.id !in filed {
        return MissingKey;
      }
      return if filed[step.id] == step then Finished else ForeignKey;
    }

    lemma GoneIsNotFiled(step: Step)
      requires state.Consistent() && !state.Active(step)
      ensures step !in state.steps.Values
    {
    }

    /** Removed steps are pending, and those in front of `i` are active. */
    ghost predicate UpToGone(batch: seq<Step>, i: nat)
      reads state`steps, batch
    {
      && i <= |batch| && (forall j :: 0 <= j < i ==> state.Active(batch[j]))
      && forall t <- batch :: !state.Active(t) ==> t.life.status == PENDING
    }

    /** The steps of the batch start one after the other, up to the first that has been removed. */
    method StartBatchSteps(batch: seq<Step>, x: WorkerId, now: Time) returns (outcome: Outcome, ghost n: nat)
      requires state.Consistent() && UpToGone(batch, 0)
      modifies state`statusSteps, state.steps.Values`life, state.steps.Values`load
      ensures state.Consistent()
      ensures n <= |batch| && (forall j :: 0 <= j < n ==> state.Active(batch[j])) && (n < |batch| ==> !state.Active(batch[n]))
      ensures forall id <- IdsOfSteps(batch)[..n] :: id in old(state.Recs())
      ensures state.Recs() == StartBatch(old(state.Recs()), IdsOfSteps(batch)[..n], IdsOfSteps(batch), x, now, cfg)
      ensures outcome == if n == |batch| then Replied(BatchGranted(IdsOfSteps(batch))) else PopOf(state.Recs(), batch[n].id)
    {
      hide SimpleStepState.Consistent, SimpleStepState.Recs, SetBatchRunning, StartBatch, PopOf;
      var batchId := IdsOfSteps(batch);
      ghost var before := state.Recs();
      NoneStarted(before, batchId, x, now, cfg);
      n := 0;
      for i := 0 to |batch|
        invariant state.Consistent() && UpToGone(batch, i) && n == i
        invariant forall id <- batchId[..i] :: id in before
        invariant state.Recs() == StartBatch(before, batchId[..i], batchId, x, now, cfg)
      {
        assert batch[i] in batch;
        outcome := CheckKey(batch[i]);
        if outcome != Finished {
          return outcome, i;
        }
        assert batchId[..i+1] == batchId[..i] + [batchId[i]];
        assert batch[i].id in state.Recs() by {
          RecordOf(batch[i].id);
        }
        OneMoreStarted(before, batchId, i, x, now, cfg);
        forall t | t in batch && !state.Active(t)
          ensures t !in state.steps.Values
        {
          GoneIsNotFiled(t);
        }
        SetStepBatchRunning(batch[i], batchId, x, now);
        n := i + 1;
      }
      assert batchId[..|batch|] == batchId;
      return Replied(BatchGranted(batchId)), |batch|;
    }

    method HandOutWork(work: seq<Step>, x: WorkerId, now: Time, ghost s: System<Step>) returns (outcome: Outcome)
      requires state.Consistent() && UpToGone(work, 0) && s.who == state.steps && s.w.steps == state.Recs()
      modifies state`statusSteps, state.steps.Values`life, state.steps.Values`load
      ensures state.Consistent()
      ensures forall it <- old(ItemsIn(work)) :: Gone(s, it) || it.rec.id in s.w.steps
      ensures (state.Recs(), outcome) == HandOutItems(s, old(ItemsIn(work)), x, now, cfg)
    {
      hide SimpleStepState.Linked, StartBatch, Grant;
      ghost var items := ItemsIn(work);
      ItemsAreKnown(s, items);
      ghost var ids := IdsIn(items);
      assert ids == IdsOfSteps(work);
      if |work| == 0 {
        return Replied(NoWork);
      }
      if |work| == 1 {
        outcome := CheckKey(work[0]);
        if outcome == Finished {
          GrantStep(work[0], x, now);
          outcome := Replied(Granted(work[0].id));
        }
        return;
      }
      hide SimpleStepState.Indexed;
      ghost var n;
      outcome, n := StartBatchSteps(work, x, now);
      FirstGone(s, items, n);
    }

    /** What `get_work` is going to hand out; `resend` is a step that the worker should run already. */
    method Choose(a: WorkArgs, worker: Worker, resend: Option<Step>, now: Time) returns (work: seq<Step>, ghost scan: seq<Item<Step>>)
      requires Valid() && worker.id == a.worker && a.worker in state.activeWorkers && state.activeWorkers[a.worker] == worker
      requires resend.Some? ==> state.Active(resend.value)
      ensures Valid() && Full() == old(Full()) && UpToGone(work, 0)
      ensures a.worker in Full().w.workers && IsScan(Full(), a.worker, scan)
      ensures ItemsIn(work) == Decision(Full(), a, if resend.Some? then Some(resend.value.id) else None, scan, now, cfg)
    {
      hide SimpleStepState.Linked, SystemOk, Chosen, IsScan;
      ghost var s := Full();
      work, scan := Search(state, worker, a, s, totals, paused, now, cfg);
      assert Full() == s;
      ChosenArePending(s, a, scan, now, cfg);
      assert forall i :: 0 <= i < |work| ==> ItemsIn(work)[i] in ItemsIn(work);
      if resend.Some? {
        work := [resend.value];
      }
    }

    /** `get_work` from the scan on. */
    method Serve(a: WorkArgs, worker: Worker, resend: Option<Step>, now: Time)
        returns (outcome: Outcome, ghost scan: seq<Item<Step>>, ghost owners: set<WorkerId>)
      requires Valid() && worker.id == a.worker && a.worker in state.activeWorkers && state.activeWorkers[a.worker] == worker
      requires resend.Some? ==> state.Active(resend.value)
      modifies state`activeWorkers, state`statusSteps, state.steps.Values`life, state.steps.Values`load
      ensures state.Consistent()
      ensures Served(old(Full()), a, if resend.Some? then Some(resend.value.id) else None, scan, owners, Full(), outcome, now, cfg)
      ensures fresh(state.activeWorkers.Values - old(state.activeWorkers.Values))
    {
      hide SystemOk, IsScan, LooksUp, CountRaises, Counted, Decision, Served, Full, World, UpToGone;
      ghost var s := Full();
      ghost var resent := if resend.Some? then Some(resend.value.id) else None;
      var work;
      work, scan := Choose(a, worker, resend, now);
      ValidSystem();
      FullIs();
      var raised;
      raised, owners := CountSteps(worker, now);
      if raised {
        ServedFailing(s, a, resent, scan, owners, now, cfg);
        return LookupFailed, scan, owners;
      }
      outcome := FinishWork(work, a.worker, now, s);
      ServedWell(s, a, resent, scan, owners, Full(), outcome, now, cfg);
    }

    /** The end of `get_work`, after the count in state `s`. */
    method FinishWork(work: seq<Step>, x: WorkerId, now: Time, ghost s: System<Step>) returns (outcome: Outcome)
      requires state.Consistent() && UpToGone(work, 0) && s.who == state.steps && s.w.steps == state.Recs()
      modifies state`statusSteps, state.steps.Values`life, state.steps.Values`load
      ensures state.Consistent() && Full() == WithWorld(old(Full()), old(Full()).w.(steps := Full().w.steps))
      ensures forall it <- old(ItemsIn(work)) :: Gone(s, it) || it.rec.id in s.w.steps
      ensures (Full().w.steps, outcome) == HandOutItems(s, old(ItemsIn(work)), x, now, cfg)
    {
      hide SimpleStepState.Linked, HandOutItems, Gone;
      outcome := HandOutWork(work, x, now, s);
      Stays();
    }

    /** `get_work` up to the check that the worker is enabled. */
    method PrepareWork(a: WorkArgs, now: Time) returns (worker: Worker, ghost order: seq<StepId>)
      requires Valid()
      modifies state, state.steps.Values, state.activeWorkers.Values
      ensures state.Consistent() && worker.id == a.worker && a.worker in state.activeWorkers && state.activeWorkers[a.worker] == worker
      ensures (cfg.pruneOnGetWork ==> Lists(order, old(Full()).w.steps.Keys))
      ensures Full() == PreparedSystem(old(Full()), a, order, now, cfg)
      ensures state.steps.Values <= old(state.steps.Values)
      ensures fresh(state.activeWorkers.Values - old(state.activeWorkers.Values))
    {
      hide SimpleStepState.Consistent, SimpleStepState.WorkerRecs, SystemOk, PruneSystem, Touch, Lists;
      ghost var s := Full();
      order := MaybePrune(now);
      ghost var mid := Full();
      worker := RegisterWorker(a.worker, now);
      PreparedIs(s, mid, a, order, now, cfg);
    }

    /** `_update_worker` for a worker that asks for work. */
    method RegisterWorker(x: WorkerId, now: Time) returns (worker: Worker)
      requires Valid()
      modifies state`activeWorkers, state.activeWorkers.Values`info
      ensures state.Consistent() && worker.id == x && x in state.activeWorkers && state.activeWorkers[x] == worker
      ensures Full() == WithWorld(old(Full()), old(Full()).w.(workers := Touch(old(Full()).w.workers, x, true, now)))
      ensures fresh(state.activeWorkers.Values - old(state.activeWorkers.Values))
    {
      hide SimpleStepState.Linked, SimpleStepState.WorkerRecs, SystemOk, Touch;
      KnownWorkers();
      worker := UpdateWorker(x, true, now);
      Stays();
    }

    method MaybePrune(now: Time) returns (ghost order: seq<StepId>)
      requires Valid()
      modifies state, state.steps.Values
      ensures Valid() && (cfg.pruneOnGetWork ==> Lists(order, old(Full()).w.steps.Keys))
      ensures Full() == if cfg.pruneOnGetWork then PruneSystem(old(Full()), order, now, cfg) else old(Full())
      ensures state.steps.Values <= old(state.steps.Values) && state.activeWorkers.Values <= old(state.activeWorkers.Values)
    {
      hide SimpleStepState.Consistent, SimpleStepState.WorkerRecs, SystemOk, PruneSystem, Lists;
      FullIs();
      order := [];
      if cfg.pruneOnGetWork {
        order := Prune(now);
      }
    }

    /** `get_work` from there on. */
    method FindWork(a: WorkArgs, worker: Worker, now: Time)
        returns (outcome: Outcome, ghost resend: Option<StepId>, ghost scan: seq<Item<Step>>, ghost owners: set<WorkerId>)
      requires Valid() && worker.id == a.worker && a.worker in state.activeWorkers && state.activeWorkers[a.worker] == worker
      modifies state`activeWorkers, state`statusSteps, state.steps.Values`life, state.steps.Values`load, worker`info
      ensures state.Consistent()
      ensures GivesWork(old(Full()), a, resend, scan, owners, Full(), outcome, now, cfg)
      ensures fresh(state.activeWorkers.Values - old(state.activeWorkers.Values))
    {
      hide SimpleStepState.Indexed, SimpleStepState.Linked, SimpleStepState.WorkerRecs, SystemOk, ValidResend, Announce, Unclaimed, Served,
           IsScan, LooksUp, WithWorld;
      ghost var s := Full();
      WorkerRecordOf(worker);
      FullIs();
      var claimed := FindUnclaimed(state, a);
      assert Full() == s;
      resend := if claimed.Some? then Some(claimed.value.id) else None;
      AnnounceWorker(a, worker, now);
      AnnouncedIsOk(s, a, now, cfg);
      outcome, scan, owners := Serve(a, worker, claimed, now);
    }

    /** `get_work`, with its choices; it can raise an exception. */
    method GetWork(a: WorkArgs, now: Time) returns (outcome: Outcome, ghost turn: Turn<Step>)
      requires Valid()
      modifies state, state.steps.Values, state.activeWorkers.Values
      ensures Valid() && turn.OnWork? && turn.args == a
      ensures Takes(old(Full()), turn, now, Full(), outcome, cfg)
      ensures fresh(state.activeWorkers.Values - old(state.activeWorkers.Values))
      ensures state.steps.Values <= old(state.steps.Values)
    {
      hide SimpleStepState.Consistent, Full, SystemOk, PreparedSystem, GivesWork, Takes, Lists;
      ghost var before := Full();
      var worker;
      ghost var order;
      worker, order := PrepareWork(a, now);
      PreparedIsValid(before, a, order, now);
      assert Full().w.workers[a.worker].disabled == worker.info.disabled by {
        FullIs();
        WorkerRecordOf(worker);
      }
      ghost var s1 := Full();
      if worker.info.disabled {
        turn := OnWork(a, order, None, [], {});
        NoWorkForDisabled(before, a, order, now, cfg);
        return Replied(WorkerDisabled), turn;
      }
      ghost var resend, scan, owners;
      outcome, resend, scan, owners := FindWork(a, worker, now);
      turn := OnWork(a, order, resend, scan, owners);
      WorkIsGiven(before, s1, a, order, resend, scan, owners, Full(), outcome, now, cfg);
      TakesToOk(before, turn, now, Full(), outcome, cfg);
    }

    lemma PreparedIsValid(before: System<Step>, a: WorkArgs, order: seq<StepId>, now: Time)
      requires SystemOk(before) && (cfg.pruneOnGetWork ==> Lists(order, before.w.steps.Keys))
      requires state.Consistent() && Full() == PreparedSystem(before, a, order, now, cfg)
      ensures Valid()
    {
      ScanSystemOk(before, a, order, now, cfg);
      hide SystemOk, PreparedSystem, Lists, SimpleStepState.Consistent, Full;
    }

    // -------------------------------------------------------------- the remaining calls

    /** `set_status` on an active step, seen from outside. */
    method SetStepStatus(step: Step, target: Status, now: Time)
      requires state.Consistent() && state.Active(step)
      modifies state`statusSteps, state.steps.Values`life
      ensures state.Consistent()
      ensures state.Recs() == SchedulerModel.SetStatus(old(state.Recs()), step.id, target, now, cfg)
    {
      hide SimpleStepState.Indexed, SimpleStepState.Linked, SchedulerModel.SetStatus;
      state.SetStatus(step, target, now, cfg);
      state.StillLinked();
    }

    method MarkAsDone(id: StepId, now: Time)
      requires Valid()
      modifies state`statusSteps, state.steps.Values`life
      ensures Valid() && World() == SchedulerModel.MarkAsDone(old(World()), id, now, cfg) && Full() == WithWorld(old(Full()), World())
    {
      hide SimpleStepState.Linked, SimpleStepState.WorkerRecs, SchedulerModel.SetStatus, Inv, SystemOk;
      ValidInv();
      StatusCallsOk(World(), id, now, cfg);
      RecordOf(id);
      if id in state.steps {
        var step := state.steps[id];
        if step.life.status == RUNNING || step.life.status == FAILED || step.life.status == DISABLED {
          SetStepStatus(step, DONE, now);
        }
      }
      Stays();
    }

    method ForgiveFailures(id: StepId, now: Time)
      requires Valid()
      modifies state`statusSteps, state.steps.Values`life
      ensures Valid() && World() == SchedulerModel.ForgiveFailures(old(World()), id, now, cfg) && Full() == WithWorld(old(Full()), World())
    {
      hide SimpleStepState.Linked, SimpleStepState.WorkerRecs, SchedulerModel.SetStatus, Inv, SystemOk;
      ValidInv();
      StatusCallsOk(World(), id, now, cfg);
      RecordOf(id);
      if id in state.steps && state.steps[id].life.status == FAILED {
        SetStepStatus(state.steps[id], PENDING, now);
      }
      Stays();
    }

    method ReEnableStep(id: StepId, now: Time)
      requires Valid()
      modifies state`statusSteps, state.steps.Values`life
      ensures Valid() && World() == SchedulerModel.ReEnableStep(old(World()), id, now, cfg) && Full() == WithWorld(old(Full()), World())
    {
      hide SimpleStepState.Linked, SimpleStepState.WorkerRecs, SchedulerModel.ReEnable, Inv, SystemOk;
      ValidInv();
      StatusCallsOk(World(), id, now, cfg);
      RecordOf(id);
      if id in state.steps && state.steps[id].life.status == DISABLED && Truthy(state.steps[id].life.disableTime) {
        EnableAgain(state.steps[id], now);
      }
      Stays();
    }

    method EnableAgain(step: Step, now: Time)
      requires state.Consistent() && state.Active(step)
      modifies state`statusSteps, state.steps.Values`life
      ensures state.Consistent()
      ensures state.Recs() == SchedulerModel.ReEnable(old(state.Recs()), step.id, now, cfg)
    {
      hide SimpleStepState.Indexed, SimpleStepState.Linked, SchedulerModel.ReEnable;
      state.ReEnable(step, now, cfg);
      state.StillLinked();
    }

    /** `decrease` on the running resources, which may be the same object as the demand; it raises an exception
        if the step has no running resources. */
    method DecreaseStep(step: Step, d: Amounts) returns (raised: bool)
      modifies step`load
      ensures raised == old(step.load.resourcesRunning).None? && step.load == DecreaseOne(old(step.Rec()), d).load
    {
      if step.load.resourcesRunning.None? {
        return true;
      }
      var amounts := step.load.resourcesRunning.value;
      var rest := d.Keys;
      while rest != {}
        invariant rest <= d.Keys && amounts.Keys == step.load.resourcesRunning.value.Keys
        invariant forall r <- amounts ::
          amounts[r] == (if r !in rest then Decreased(step.load.resourcesRunning.value, d)[r] else step.load.resourcesRunning.value[r])
        decreases rest
      {
        var r :| r in rest;
        if d[r] > 0 && r in amounts {
          amounts := amounts[r := Max(0, amounts[r] - d[r])];
        }
        rest := rest - {r};
      }
      assert amounts == Decreased(step.load.resourcesRunning.value, d);
      step.load := step.load.(resourcesRunning := Some(amounts),
                              resources := if step.load.sharedResources then amounts else step.load.resources);
      raised := false;
    }

    method DecreaseRunningStepResources(id: StepId, d: Amounts) returns (raised: bool, ghost done: set<StepId>)
      requires Valid()
      modifies state.steps.Values`load
      ensures Valid() && ValidDecrease(old(World()).steps, id, done) && raised == DecreaseRaises(old(World()).steps, id)
      ensures World() == DecreaseRunning(old(World()), id, d, done) && Full() == WithWorld(old(Full()), World())
    {
      hide SimpleStepState.Linked, SimpleStepState.WorkerRecs, DecreaseSteps, Inv, SystemOk, MemberOf;
      ValidInv();
      ghost var before := World();
      RecordOf(id);
      if id in state.steps && state.steps[id].life.status == RUNNING {
        raised, done := DecreaseAll(state.steps[id], d);
      } else {
        done := SomeMembers(before.steps, id);
        raised := false;
      }
      DecreaseOk(before, id, d, done);
      Stays();
    }

    method DecreaseAll(step: Step, d: Amounts) returns (raised: bool, ghost done: set<StepId>)
      requires state.Consistent() && state.Active(step) && step.life.status == RUNNING
      modifies state.steps.Values`load
      ensures state.Consistent()
      ensures ValidDecrease(old(state.Recs()), step.id, done) && raised == DecreaseRaises(old(state.Recs()), step.id)
      ensures state.Recs() == if old(step.load.resourcesRunning).None? then old(state.Recs()) else DecreaseSteps(old(state.Recs()), step.id, d, done)
    {
      hide SimpleStepState.Consistent, DecreaseOne, ValidDecrease, DecreaseRaises, DecreaseSteps;
      ghost var before := state.Recs();
      raised := DecreaseStep(step, d);
      OnlyLoadDecreases(before[step.id], d);
      state.OneUpdated(step);
      if raised {
        NothingDecreases(before[step.id], d);
        RaisesAtOnce(before, step.id);
        assert before[step.id := before[step.id]] == before;
        return true, {};
      }
      raised, done := DecreaseMembers(step, d, before);
    }

    /** The loop over the batch, after the step itself. */
    method DecreaseMembers(step: Step, d: Amounts, ghost before: Steps) returns (raised: bool, ghost done: set<StepId>)
      requires state.Consistent() && state.Active(step) && step.life.status == RUNNING
      requires step.id in before && before[step.id].load.resourcesRunning.Some? && before[step.id].life == step.life
      requires state.Recs() == before[step.id := DecreaseOne(before[step.id], d)]
      modifies state.steps.Values`load
      ensures state.Consistent()
      ensures ValidDecrease(before, step.id, done) && raised == DecreaseRaises(before, step.id)
      ensures state.Recs() == DecreaseSteps(before, step.id, d, done)
    {
      hide DecreaseOne, ValidDecrease, DecreaseRaises, MemberOf, DecreaseSteps, SimpleStepState.Indexed, SimpleStepState.Linked,
           SimpleStepState.Recs;
      var members: seq<Step> := [];
      if step.life.batchId.Some? {
        members := state.GetBatchRunningSteps(step.life.batchId);
      }
      AreMembers(before, step, members, d);
      ghost var n;
      raised, n := DecreaseEach(members, d, before);
      state.StillConsistent();
      done := set s | s in members[..n] :: s.id;
      DoneIds(members, n, done);
      DecreasedUpTo(before, step.id, IdsOfSteps(members), n, done);
      DecreasedAre(before, step.id, d, members[..n], done);
    }

    lemma DecreasedAre(before: Steps, id: StepId, d: Amounts, decreased: seq<Step>, done: set<StepId>)
      requires before.Keys == state.steps.Keys && id in before && done == set s | s in decreased :: s.id
      requires forall s <- decreased :: state.Active(s) && s.Rec() == DecreaseOne(before[s.id], d)
      requires forall k <- state.steps :: state.steps[k].id == k && (state.steps[k] !in decreased ==>
        state.steps[k].Rec() == if k == id then DecreaseOne(before[k], d) else before[k])
      ensures state.Recs() == DecreaseSteps(before, id, d, done)
    {
      hide DecreaseOne;
      forall k | k in state.steps
        ensures k in done <==> state.steps[k] in decreased
      {
      }
      state.RecsAre(DecreaseSteps(before, id, d, done));
    }

    lemma AreMembers(before: Steps, step: Step, members: seq<Step>, d: Amounts)
      requires state.Indexed() && state.Active(step) && step.life.status == RUNNING && step.id in before
      requires before[step.id].life == step.life && state.Recs() == before[step.id := DecreaseOne(before[step.id], d)]
      requires forall s :: s in members <==> step.life.batchId.Some? && s in state.steps.Values && InBatch(s.Rec(), step.life.batchId)
      ensures forall k :: k in IdsOfSteps(members) <==> k in before && MemberOf(before, step.id, k)
      ensures before.Keys == state.steps.Keys && forall k <- state.steps ::
        state.steps[k].id == k && state.steps[k].Rec() == if k == step.id then DecreaseOne(before[k], d) else before[k]
      ensures forall s <- members :: s != step && state.Active(s) && s.Rec() == before[s.id]
    {
      hide DecreaseOne;
      assert state.Recs().Keys == state.steps.Keys && forall k <- state.steps :: state.Recs()[k] == state.steps[k].Rec();
      forall k
        ensures k in IdsOfSteps(members) <==> k in before && MemberOf(before, step.id, k)
      {
        if k in before && MemberOf(before, step.id, k) {
          assert state.steps[k] in members;
          var i :| 0 <= i < |members| && members[i] == state.steps[k];
          assert IdsOfSteps(members)[i] == k;
        }
        if k in IdsOfSteps(members) {
          var i :| 0 <= i < |members| && IdsOfSteps(members)[i] == k;
          assert members[i] in members;
        }
      }
    }

    /** The members of the batch one after the other, up to one without running resources. */
    method DecreaseEach(members: seq<Step>, d: Amounts, ghost before: Steps) returns (raised: bool, ghost n: nat)
      requires Distinct(members) && forall s <- members :: s.id in before && s.Rec() == before[s.id]
      modifies (set s | s in members)`load
      ensures n <= |members| && raised == (n < |members|) && (raised ==> before[members[n].id].load.resourcesRunning.None?)
      ensures forall s <- members[..n] :: s.Rec() == DecreaseOne(before[s.id], d) && before[s.id].load.resourcesRunning.Some?
      ensures forall s <- members :: s in members[..n] || s.Rec() == before[s.id]
    {
      hide DecreaseOne;
      n := 0;
      for i := 0 to |members|
        invariant n == i
        invariant forall j :: 0 <= j < i ==> members[j].Rec() == DecreaseOne(before[members[j].id], d) && before[members[j].id].load.resourcesRunning.Some?
        invariant forall j :: i <= j < |members| ==> members[j].Rec() == before[members[j].id]
      {
        NothingDecreases(members[i].Rec(), d);
        OnlyLoadDecreases(members[i].Rec(), d);
        raised := DecreaseStep(members[i], d);
        if raised {
          return true, i;
        }
        n := i + 1;
      }
      return false, |members|;
    }

    /** `count_pending` as a call of its own. */
    method CountPendingSteps(x: WorkerId, now: Time) returns (outcome: Outcome, ghost owners: set<WorkerId>)
      requires Valid()
      modifies state`activeWorkers
      ensures Valid() && Takes(old(Full()), OnCount(x, owners), now, Full(), outcome, cfg)
      ensures fresh(state.activeWorkers.Values - old(state.activeWorkers.Values))
    {
      hide Valid, Full, World, Takes, CountRaises, LooksUp, SystemOk, Counted, KnownSystem;
      ghost var before := Full();
      ValidSystem();
      var worker := KnowWorker(x, now);
      var raised;
      raised, owners := CountSteps(worker, now);
      outcome := if raised then LookupFailed else Finished;
      CountIsTurn(before, x, owners, outcome, now, cfg);
      TakesToOk(before, OnCount(x, owners), now, Full(), outcome, cfg);
      assert Valid() by {
        OkIsValid();
      }
    }

    lemma OkIsValid()
      requires state.Consistent() && SystemOk(Full())
      ensures Valid()
    {
    }

    /** `get_worker`, on the whole state. */
    method KnowWorker(x: WorkerId, now: Time) returns (worker: Worker)
      requires Valid()
      modifies state`activeWorkers
      ensures Valid() && Full() == KnownSystem(old(Full()), x, now)
      ensures x in state.activeWorkers && state.activeWorkers[x] == worker && worker.id == x
      ensures fresh(state.activeWorkers.Values - old(state.activeWorkers.Values))
    {
      hide SimpleStepState.Linked, Inv, GetWorker, SystemOk, SimpleStepState.WorkerRecs;
      ghost var before := Full();
      ValidInv();
      KnownWorkers();
      WorkerCallsOk(before.w, x, WorkerInfo(None, None), now);
      worker := LookUpWorker(x, now);
      Stays();
    }

    /** `get_worker`. */
    method LookUpWorker(x: WorkerId, now: Time) returns (worker: Worker)
      requires state.Consistent()
      requires forall k <- state.steps :: forall y <- state.steps[k].info.workers :: y in state.activeWorkers
      modifies state`activeWorkers
      ensures state.Consistent()
      ensures x in state.activeWorkers && state.activeWorkers[x] == worker && worker.id == x
      ensures state.Recs() == old(state.Recs()) && state.WorkerRecs() == GetWorker(old(state.WorkerRecs()), x, now)
      ensures state.SameLinks() && fresh(state.activeWorkers.Values - old(state.activeWorkers.Values))
    {
      hide SimpleStepState.Indexed, SimpleStepState.Linked;
      state.WorkersFiled();
      worker := state.FindWorker(x, now);
      state.LinkedWithNew();
      state.StillIndexed();
      state.WorkerRecsAre(GetWorker(old(state.WorkerRecs()), x, now));
    }

    method AddWorker(x: WorkerId, info: WorkerInfo, now: Time)
      requires Valid()
      modifies state`activeWorkers, state.activeWorkers.Values`info
      ensures Valid() && World() == SchedulerModel.AddWorker(old(World()), x, info, now) && Full() == WithWorld(old(Full()), World())
      ensures fresh(state.activeWorkers.Values - old(state.activeWorkers.Values))
    {
      hide SimpleStepState.Linked, SimpleStepState.WorkerRecs, Inv, GetWorker, SystemOk;
      ValidInv();
      KnownWorkers();
      WorkerCallsOk(World(), x, info, now);
      var worker := LookUpWorker(x, now);
      WorkerRecordOf(worker);
      PutInfo(worker, AddInfo(worker.info, info));
      Stays();
    }

    method PutInfo(worker: Worker, info: WorkerRec)
      requires state.Consistent() && worker.id in state.activeWorkers && state.activeWorkers[worker.id] == worker
      modifies worker`info
      ensures state.Consistent()
      ensures state.Recs() == old(state.Recs()) && state.WorkerRecs() == old(state.WorkerRecs())[worker.id := info]
    {
      hide SimpleStepState.Indexed, SimpleStepState.Linked;
      state.WorkersFiled();
      worker.info := info;
      state.WorkerRecsAre(old(state.WorkerRecs())[worker.id := info]);
      state.StillConsistent();
    }

    /** The worker also lets go of the removed steps. */
    method DisableWorker(x: WorkerId, now: Time)
      requires Valid()
      modifies state`activeWorkers, state.steps.Values`info, state.activeWorkers.Values
      ensures Valid() && World() == SchedulerModel.DisableWorker(old(World()), x, now)
      ensures Full() == EventSystem(old(Full()), OnDisableWorker(x), map[], now, cfg)
      ensures fresh(state.activeWorkers.Values - old(state.activeWorkers.Values))
    {
      hide SimpleStepState.Linked, SimpleStepState.WorkerRecs, Inv, RemoveWorkers, GetWorker, SystemOk;
      ghost var before := Full();
      state.DisableWorkers(x, now);
      HeldWhenDisabled(x);
      FullIs();
      assert World() == SchedulerModel.DisableWorker(before.w, x, now);
      DisableIsEvent(before, Full(), x, now, cfg);
      EventSystemOk(before, OnDisableWorker(x), map[], now, cfg);
    }

    twostate lemma HeldWhenDisabled(x: WorkerId)
      requires old(state.Indexed()) && state.steps == old(state.steps) && x in state.activeWorkers && state.activeWorkers[x].steps == {}
      requires forall y <- state.activeWorkers :: y != x ==>
        y in old(state.activeWorkers) && state.activeWorkers[y] == old(state.activeWorkers[y])
        && state.activeWorkers[y].steps == old(state.activeWorkers[y].steps)
      requires forall s <- old(state.WorkerSteps()) :: s !in state.steps.Values ==> s.Rec() == old(s.Rec())
      ensures state.Held() == map y | y in state.activeWorkers :: if y == x then {} else old(state.Held())[y]
    {
      forall y | y in state.activeWorkers
        ensures state.RemovedOf(state.activeWorkers[y]) == if y == x then {} else old(state.RemovedOf(state.activeWorkers[y]))
      {
        assert y != x ==> forall s <- old(state.activeWorkers[y].steps) :: s in old(state.WorkerSteps());
      }
    }

    method Ping(x: WorkerId, now: Time)
      requires Valid()
      modifies state`activeWorkers, state.activeWorkers.Values`info
      ensures Valid() && World() == SchedulerModel.Ping(old(World()), x, now) && Full() == WithWorld(old(Full()), World())
      ensures fresh(state.activeWorkers.Values - old(state.activeWorkers.Values))
    {
      hide SimpleStepState.Linked, SimpleStepState.WorkerRecs, Inv, Touch, SystemOk;
      ValidInv();
      WorkerCallsOk(World(), x, WorkerInfo(None, None), now);
      KnownWorkers();
      var _ := UpdateWorker(x, false, now);
      Stays();
    }

    method AddStepBatcher(x: WorkerId, family: string, batcher: Batcher)
      requires Valid()
      modifies state`batchers
      ensures Valid() && World() == AddBatcher(old(World()), x, family, batcher) && Full() == WithWorld(old(Full()), World())
    {
      hide SimpleStepState.Indexed, SimpleStepState.Linked, SimpleStepState.Recs, SimpleStepState.WorkerRecs, Inv, SystemOk;
      ValidInv();
      OtherFieldsOk(World());
      state.batchers := state.batchers[(x, family) := batcher];
      state.StillConsistent();
      Stays();
    }

    method UpdateResource(r: Resource, amount: int) returns (ok: bool)
      requires Valid()
      modifies this`totals
      ensures Valid() && World() == SchedulerModel.UpdateResource(old(World()), r, amount) && ok == (amount >= 0)
      ensures Full() == WithWorld(old(Full()), World())
    {
      hide SimpleStepState.Linked, Inv, SystemOk;
      ValidInv();
      OtherFieldsOk(World());
      ok := amount >= 0;
      if ok {
        totals := totals[r := amount];
      }
      Stays();
    }

    /** `update_resources`, which does not look at the amounts. */
    method UpdateResources(amounts: Amounts)
      requires Valid()
      modifies this`totals
      ensures Valid() && World() == SchedulerModel.UpdateResources(old(World()), amounts) && Full() == WithWorld(old(Full()), World())
    {
      hide SimpleStepState.Linked, Inv, SystemOk;
      ValidInv();
      OtherFieldsOk(World());
      totals := totals + amounts;
      Stays();
    }

    method Pause()
      requires Valid()
      modifies this`paused
      ensures Valid() && World() == SetPaused(old(World()), true, cfg) && Full() == WithWorld(old(Full()), World())
    {
      hide SimpleStepState.Linked, Inv, SystemOk;
      ValidInv();
      OtherFieldsOk(World());
      if cfg.pauseEnabled {
        paused := true;
      }
      Stays();
    }

    method Unpause()
      requires Valid()
      modifies this`paused
      ensures Valid() && World() == SetPaused(old(World()), false, cfg) && Full() == WithWorld(old(Full()), World())
    {
      hide SimpleStepState.Linked, Inv, SystemOk;
      ValidInv();
      OtherFieldsOk(World());
      if cfg.pauseEnabled {
        paused := false;
      }
      Stays();
    }

    // -------------------------------------------------------------- runs

    predicate IsOther(rpc: Rpc) {
      !rpc.DoAddStep? && !rpc.DoGetWork? && !rpc.DoCountPending? && !rpc.DoPrune? && !rpc.DoDisableWorker?
    }

    predicate IsOnStep(rpc: Rpc) {
      rpc.DoMarkAsDone? || rpc.DoForgive? || rpc.DoReEnable? || rpc.DoDecrease?
    }

    /** The calls that concern neither steps nor choices. */
    method PerformOther(rpc: Rpc, now: Time) returns (ghost event: Event)
      requires Valid() && IsOther(rpc) && !IsOnStep(rpc)
      modifies this`totals, this`paused, state`batchers, state`activeWorkers, state.activeWorkers.Values`info
      ensures Valid() && Serves(rpc, event) && OutcomeOf(old(World()), event, now, cfg) == Finished
      ensures Possible(old(World()), event, now, cfg) && World() == Next(old(World()), event, now, cfg)
      ensures Full() == WithWorld(old(Full()), World())
      ensures fresh(state.activeWorkers.Values - old(state.activeWorkers.Values))
    {
      hide Valid, Inv, World, Full, SchedulerModel.AddWorker, SchedulerModel.Ping, WithWorld, SchedulerModel.UpdateResource;
      match rpc {
        case DoAddWorker(x, info) => AddWorker(x, info, now); event := OnAddWorker(x, info);
        case DoPing(x) => Ping(x, now); event := OnPing(x);
        case DoAddBatcher(x, family, batcher) => AddStepBatcher(x, family, batcher); event := OnAddBatcher(x, family, batcher);
        case DoUpdateResource(r, amount) => var _ := UpdateResource(r, amount); event := OnUpdateResource(r, amount);
        case DoUpdateResources(amounts) => UpdateResources(amounts); event := OnUpdateResources(amounts);
        case DoPause => Pause(); event := OnSetPaused(true);
        case DoUnpause => Unpause(); event := OnSetPaused(false);
      }
    }

    /** The calls that concern one step. */
    method PerformOnStep(rpc: Rpc, now: Time) returns (outcome: Outcome, ghost event: Event)
      requires Valid() && IsOnStep(rpc)
      modifies state`statusSteps, state.steps.Values`life, state.steps.Values`load
      ensures Valid() && Serves(rpc, event) && outcome == OutcomeOf(old(World()), event, now, cfg)
      ensures Possible(old(World()), event, now, cfg) && World() == Next(old(World()), event, now, cfg)
      ensures Full() == WithWorld(old(Full()), World())
    {
      hide Valid, Inv, World, Full, DecreaseRunning, ValidDecrease, DecreaseRaises, WithWorld,
           SchedulerModel.MarkAsDone, SchedulerModel.ForgiveFailures, SchedulerModel.ReEnableStep;
      outcome := Finished;
      match rpc {
        case DoMarkAsDone(id) => MarkAsDone(id, now); event := OnMarkAsDone(id);
        case DoForgive(id) => ForgiveFailures(id, now); event := OnForgive(id);
        case DoReEnable(id) => ReEnableStep(id, now); event := OnReEnable(id);
        case DoDecrease(id, amounts) =>
          var raised;
          ghost var members;
          raised, members := DecreaseRunningStepResources(id, amounts);
          outcome := if raised then NoRunningResources else Finished;
          event := OnDecrease(id, amounts, members);
      }
    }

    /** Any call is a turn with the steps that have been removed, with the outcome of that turn.  If the outcome is
        `ForeignKey`, the state is the one in which the source takes another step out of the index. */
    method Perform(rpc: Rpc, now: Time) returns (outcome: Outcome, ghost turn: Turn<Step>)
      requires Valid()
      modifies this`totals, this`paused, state, state.steps.Values, state.activeWorkers.Values
      ensures Valid() && Serves(rpc, EventOf(turn))
      ensures Takes(old(Full()), turn, now, Full(), outcome, cfg)
      ensures fresh(state.steps.Values - old(state.steps.Values)) && fresh(state.activeWorkers.Values - old(state.activeWorkers.Values))
    {
      hide Valid, Full, World, SystemOk, Takes;
      outcome := Finished;
      match rpc {
        case DoGetWork(a) => outcome, turn := GetWork(a, now);
        case DoCountPending(x) =>
          ghost var owners;
          outcome, owners := CountPendingSteps(x, now);
          turn := OnCount(x, owners);
        case _ => outcome, turn := PerformEvent(rpc, now);
      }
    }

    method PerformEvent(rpc: Rpc, now: Time) returns (outcome: Outcome, ghost turn: Turn<Step>)
      requires Valid() && !rpc.DoGetWork? && !rpc.DoCountPending?
      modifies this`totals, this`paused, state, state.steps.Values, state.activeWorkers.Values
      ensures Valid() && Serves(rpc, EventOf(turn))
      ensures Takes(old(Full()), turn, now, Full(), outcome, cfg)
      ensures fresh(state.steps.Values - old(state.steps.Values)) && fresh(state.activeWorkers.Values - old(state.activeWorkers.Values))
    {
      hide Valid, Full, World, SystemOk, Possible, Takes, EventSystem, NewObjects, Next, PruneSystem, Lists, SchedulerModel.AddStep;
      ghost var before := Full();
      ValidSystem();
      outcome := Finished;
      if rpc.DoAddStep? {
        var failed;
        ghost var pick;
        failed, pick := AddStep(rpc.add, now);
        outcome := if failed then NoBatchResources else Finished;
        turn := OnEvent(OnAddStep(rpc.add, pick), state.steps);
        AddIsTurn(before, rpc.add, pick, failed, Full(), state.steps, now, cfg);
      } else if rpc.DoPrune? {
        ghost var order := Prune(now);
        turn := OnEvent(OnPrune(order), map[]);
        PruneIsTurn(before, order, now, cfg);
      } else if rpc.DoDisableWorker? {
        DisableWorker(rpc.worker, now);
        turn := OnEvent(OnDisableWorker(rpc.worker), map[]);
        DisableIsTurn(before, rpc.worker, now, cfg);
      } else {
        outcome, turn := PerformPlain(rpc, now);
      }
    }

    /** The calls that neither add nor remove steps or links. */
    method PerformPlain(rpc: Rpc, now: Time) returns (outcome: Outcome, ghost turn: Turn<Step>)
      requires Valid() && IsOther(rpc)
      modifies this`totals, this`paused, state, state.steps.Values, state.activeWorkers.Values
      ensures Valid() && Serves(rpc, EventOf(turn)) && state.steps == old(state.steps)
      ensures Takes(old(Full()), turn, now, Full(), outcome, cfg)
      ensures fresh(state.activeWorkers.Values - old(state.activeWorkers.Values))
    {
      hide Valid, Full, World, SystemOk, Possible, Takes, Next, Serves;
      ghost var before := Full();
      FullIs();
      ValidSystem();
      ghost var event;
      if IsOnStep(rpc) {
        outcome, event := PerformOnStep(rpc, now);
      } else {
        outcome := Finished;
        event := PerformOther(rpc, now);
      }
      turn := OnEvent(event, map[]);
      FullIs();
      OtherIsTurn(before, rpc, event, Full(), outcome, now, cfg);
    }

    /** Any sequence of calls takes the scheduler through a run with removed steps, up to the first call, if any,
        that takes another step out of the index.  Without batches and reports of assistants, there is no such
        call, the run is a run of the value model, and a call raises an exception just if it decreases the resources
        of a running step that has none; without reports of running steps there is no exception at all. */
    method Run(rpcs: seq<(Rpc, Time)>)
        returns (done: bool, ghost systems: seq<System<Step>>, ghost calls: seq<SystemCall<Step>>, ghost last: Turn<Step>)
      requires Valid() && Full() == Start(totals)
      modifies this`totals, this`paused, state, state.steps.Values, state.activeWorkers.Values
      ensures Valid() && IsSystemRun(systems, calls, cfg) && |systems| == |calls| + 1
      ensures |calls| <= |rpcs| && forall i :: 0 <= i < |calls| ==> Serves(rpcs[i].0, EventOf(calls[i].turn)) && calls[i].now == rpcs[i].1
      ensures done ==> |calls| == |rpcs| && systems[|calls|] == Full()
      ensures !done ==> |calls| < |rpcs| && Serves(rpcs[|calls|].0, EventOf(last))
                        && Takes(systems[|calls|], last, rpcs[|calls|].1, Full(), ForeignKey, cfg)
      ensures (forall r <- rpcs :: IsQuiet(r.0)) ==>
        && done && IsRun(WorldsOf(systems), EventsOf(calls), cfg) && OnlyDecreasesRaise(systems, calls, cfg)
      ensures (forall r <- rpcs :: !IsReportOfRun(r.0)) ==> OnlyDisturbedRaise(systems, calls, cfg)
      ensures (forall r <- rpcs :: IsQuiet(r.0) && !IsReportOfRun(r.0)) ==> RaisesNothing(systems, calls, cfg)
    {
      hide Valid, Full, SystemOk, Takes, Serves, EventOf, LeadsTo, IsQuiet, IsRun, RaisesNothing, OnlyDecreasesRaise, OnlyDisturbedRaise,
           IsReportOfRun;
      systems, calls, last := [Full()], [], OnCount(0, {});
      assert Full().w.totals == totals by {
        FullIs();
      }
      done := true;
      for i := 0 to |rpcs|
        invariant Valid() && IsSystemRun(systems, calls, cfg) && |calls| == i && systems[i] == Full()
        invariant forall j :: 0 <= j < i ==> Serves(rpcs[j].0, EventOf(calls[j].turn)) && calls[j].now == rpcs[j].1
        invariant fresh(state.steps.Values - old(state.steps.Values)) && fresh(state.activeWorkers.Values - old(state.activeWorkers.Values))
        invariant done
      {
        ValidSystem();
        ghost var before := Full();
        var outcome;
        ghost var turn;
        outcome, turn := Perform(rpcs[i].0, rpcs[i].1);
        if outcome == ForeignKey {
          NotQuiet(systems, calls, rpcs, turn, Full(), cfg);
          RunOutcomes(systems, calls, rpcs, cfg);
          return false, systems, calls, turn;
        }
        LongerSystemRun(systems, calls, turn, rpcs[i].1, Full(), outcome, cfg);
        systems, calls := systems + [Full()], calls + [SystemCall(turn, rpcs[i].1)];
      }
      if forall r <- rpcs :: IsQuiet(r.0) {
        QuietCalls(systems, calls, rpcs, cfg);
      }
      RunOutcomes(systems, calls, rpcs, cfg);
    }

    lemma ValidSystem()
      requires Valid()
      ensures SystemOk(Full())
    {
    }

    lemma WorkerRecordOf(worker: Worker)
      requires worker.id in state.activeWorkers && state.activeWorkers[worker.id] == worker
      ensures worker.id in state.WorkerRecs() && state.WorkerRecs()[worker.id] == worker.info
      ensures World().workers == state.WorkerRecs()
    {
    }

    lemma RecordOf(id: StepId)
      requires state.Consistent()
      ensures id in state.steps ==>
        && state.Active(state.steps[id]) && state.steps[id].id == id
        && id in state.Recs() && state.Recs()[id] == state.steps[id].Rec()
    {
    }

    /** The workers of a step are known to the scheduler. */
    lemma KnownWorkers()
      requires Valid()
      ensures forall k <- state.steps :: forall y <- state.steps[k].info.workers :: y in state.activeWorkers
    {
      ValidInv();
      FullIs();
      forall k | k in state.steps
        ensures forall y <- state.steps[k].info.workers :: y in state.activeWorkers
      {
        assert RosterOk(state.Recs()[k].info, state.WorkerRecs());
      }
    }
  }

  lemma OnlyLoadDecreases(s: StepRec, d: Amounts)
    ensures DecreaseOne(s, d) == s.(load := DecreaseOne(s, d).load)
  {
  }

  lemma AddStepIs(w: World, a: AddArgs, pick: Option<StepId>, steps: Steps, failed: bool, now: Time, cfg: Config)
    requires var enabled := !Touch(w.workers, a.worker, false, now)[a.worker].disabled;
             (steps, failed) == if Ignored(w.steps, a, enabled, now, cfg) then (w.steps, false)
                                else ApplyReport(w.steps, a, enabled, pick, now, cfg)
    ensures AddStep(w, a, pick, now, cfg) == (w.(workers := Touch(w.workers, a.worker, false, now), steps := steps), failed)
  {
    hide Ignored, Touch, ApplyReport;
  }

  lemma StepsStayOk(s: System<Step>, now: Time, cfg: Config)
    requires SystemOk(s)
    ensures StepsOk(PruneWorkers(s.w, now, cfg).steps)
  {
    PruneWorkersOk(s.w, now, cfg);
    hide PruneWorkers;
  }

  lemma NothingDecreases(s: StepRec, d: Amounts)
    ensures s.load.resourcesRunning.None? ==> DecreaseOne(s, d) == s
  {
  }

  lemma RaisesAtOnce(steps: Steps, id: StepId)
    requires id in steps && steps[id].life.status == RUNNING && steps[id].load.resourcesRunning.None?
    ensures ValidDecrease(steps, id, {}) && DecreaseRaises(steps, id)
  {
  }

  lemma DoneIds(members: seq<Step>, n: nat, done: set<StepId>)
    requires n <= |members| && done == set s | s in members[..n] :: s.id
    ensures done == set k | k in IdsOfSteps(members)[..n]
  {
    forall k | k in IdsOfSteps(members)[..n]
      ensures k in done
    {
      var i :| 0 <= i < n && IdsOfSteps(members)[i] == k;
      assert members[..n][i] in members[..n];
    }
    forall s | s in members[..n]
      ensures s.id in IdsOfSteps(members)[..n]
    {
      var i :| 0 <= i < n && members[i] == s;
      assert IdsOfSteps(members)[..n][i] == s.id;
    }
  }

  lemma SomeMembers(steps: Steps, id: StepId) returns (done: set<StepId>)
    requires id in steps ==> steps[id].life.status != RUNNING
    ensures ValidDecrease(steps, id, done) && !DecreaseRaises(steps, id)
  {
    done := {};
  }

  /** The members in front of the first one without running resources have been decreased. */
  lemma DecreasedUpTo(steps: Steps, id: StepId, members: seq<StepId>, n: nat, done: set<StepId>)
    requires id in steps && steps[id].life.status == RUNNING && steps[id].load.resourcesRunning.Some?
    requires forall k :: k in members <==> k in steps && MemberOf(steps, id, k)
    requires n <= |members| && done == set k | k in members[..n]
    requires forall j :: 0 <= j < n ==> steps[members[j]].load.resourcesRunning.Some?
    requires n < |members| ==> steps[members[n]].load.resourcesRunning.None?
    ensures ValidDecrease(steps, id, done) && DecreaseRaises(steps, id) == (n < |members|)
  {
    hide MemberOf;
    if n < |members| {
      assert members[n] in members;
    } else {
      assert members[..n] == members;
    }
  }

  lemma OtherFieldsOk(w: World)
    requires Inv(w)
    ensures forall v: World :: v.steps == w.steps && v.workers == w.workers ==> Inv(v)
  {
  }

  // ---------------------------------------------------------------- counting

  function IdsOfSteps(q: seq<Step>): (ids: seq<StepId>)
    ensures |ids| == |q| && forall i :: 0 <= i < |q| ==> ids[i] == q[i].id
  {
    seq(|q|, i requires 0 <= i < |q| => q[i].id)
  }

  ghost predicate SomeRaises(steps: Steps, among: set<Step>) {
    exists s <- among :: LookupRaises(steps, s.id)
  }

  ghost predicate OwnersAmong(among: set<Step>, owners: set<WorkerId>)
    reads among
  {
    forall y <- owners :: exists s <- among :: s.load.workerRunning == Some(y)
  }

  ghost predicate AllOwners(steps: Steps, among: set<Step>, owners: set<WorkerId>)
    reads among
  {
    forall s <- among :: !MaySkip(steps, s.id) && s.load.workerRunning.Some? ==> s.load.workerRunning.value in owners
  }

  /** The first loop has handled all but `rest`. */
  ghost predicate Counting(steps: Steps, running: set<Step>, rest: set<Step>, table: US.Table, owners: set<WorkerId>)
    reads running
  {
    && rest <= running && US.EntriesOk(steps, table)
    && !SomeRaises(steps, running - rest) && OwnersAmong(running, owners) && AllOwners(steps, running - rest, owners)
  }

  lemma StartCounting(steps: Steps, running: set<Step>, workers: Workers, now: Time)
    ensures Counting(steps, running, running, map[], {}) && WithWorkers(workers, {}, now) == workers
  {
    assert running - running == {};
  }

  lemma CountingSoFar(steps: Steps, running: set<Step>, rest: set<Step>, table: US.Table, owners: set<WorkerId>)
    requires Counting(steps, running, rest, table, owners)
    ensures rest <= running && US.EntriesOk(steps, table) && OwnersAmong(running, owners)
  {
  }

  lemma CountOne(steps: Steps, running: set<Step>, rest: set<Step>, table: US.Table, owners: set<WorkerId>, step: Step, skip: bool, next: US.Table)
    requires Counting(steps, running, rest, table, owners) && step in rest && US.EntriesOk(steps, next)
    requires !LookupRaises(steps, step.id) && (skip ==> MaySkip(steps, step.id))
    ensures Counting(steps, running, rest - {step}, next,
                     if !skip && step.load.workerRunning.Some? then owners + {step.load.workerRunning.value} else owners)
  {
    hide US.EntriesOk, LookupRaises, MaySkip;
    assert running - (rest - {step}) == running - rest + {step};
  }

  lemma CountingFails(steps: Steps, running: set<Step>, rest: set<Step>, table: US.Table, owners: set<WorkerId>, step: Step)
    requires Counting(steps, running, rest, table, owners) && step in rest && LookupRaises(steps, step.id)
    ensures SomeRaises(steps, running) && OwnersAmong(running, owners)
  {
    assert step in running;
  }

  lemma CountingEnds(steps: Steps, running: set<Step>, table: US.Table, owners: set<WorkerId>)
    requires Counting(steps, running, {}, table, owners)
    ensures !SomeRaises(steps, running) && US.EntriesOk(steps, table) && OwnersAmong(running, owners) && AllOwners(steps, running, owners)
  {
    assert running - {} == running;
  }

  lemma CountedSees(s: System<Step>, owners: set<WorkerId>, now: Time, x: WorkerId, statuses: set<Status>)
    requires x in s.w.workers
    ensures RemovedSteps.GetSteps(Counted(s, owners, now), x, statuses) == RemovedSteps.GetSteps(s, x, statuses)
  {
    SameGetSteps(s, Counted(s, owners, now), x, statuses);
    hide RemovedSteps.GetSteps;
  }

  lemma WithOneMore(workers: Workers, owners: set<WorkerId>, x: WorkerId, now: Time)
    ensures GetWorker(WithWorkers(workers, owners, now), x, now) == WithWorkers(workers, owners + {x}, now)
  {
  }

  lemma SameGetSteps(s: System<Step>, t: System<Step>, x: WorkerId, statuses: set<Status>)
    requires s.w.steps == t.w.steps && s.who == t.who && HeldBy(s, x) == HeldBy(t, x)
    ensures RemovedSteps.GetSteps(s, x, statuses) == RemovedSteps.GetSteps(t, x, statuses)
  {
    assert OwnIds(s.w, x) == OwnIds(t.w, x) && StatusIds(s.w, statuses) == StatusIds(t.w, statuses);
    assert forall ids :: ItemsOf(s, ids) == ItemsOf(t, ids) && RemovedSteps.Objects(s, ids) == RemovedSteps.Objects(t, ids);
  }

  lemma RaisesAmong(steps: Steps, found: set<Step>, items: set<Item<Step>>)
    requires ItemsOfSteps(found) == items
    ensures SomeRaises(steps, found) <==> exists it <- items :: LookupRaises(steps, it.rec.id)
  {
    hide LookupRaises;
    if s :| s in found && LookupRaises(steps, s.id) {
      assert Item(s, s.Rec()) in items;
    }
  }

  lemma LookedUp(s: System<Step>, x: WorkerId, running: set<Step>, owners: set<WorkerId>)
    requires ItemsOfSteps(running) == RemovedSteps.GetSteps(s, x, {RUNNING})
    requires OwnersAmong(running, owners) && (CountRaises(s, x) || AllOwners(s.w.steps, running, owners))
    ensures LooksUp(s, x, owners)
  {
    hide CountRaises, RemovedSteps.GetSteps, MaySkip;
    forall y | y in owners
      ensures exists it <- RemovedSteps.GetSteps(s, x, {RUNNING}) :: it.rec.load.workerRunning == Some(y)
    {
      var t :| t in running && t.load.workerRunning == Some(y);
      assert Item(t, t.Rec()) in ItemsOfSteps(running);
    }
  }

  lemma CountIsRight(s: System<Step>, x: WorkerId, running: set<Step>, waiting: set<Step>, owners: set<WorkerId>)
    requires ItemsOfSteps(running) == RemovedSteps.GetSteps(s, x, {RUNNING})
    requires ItemsOfSteps(waiting) == RemovedSteps.GetSteps(s, x, {PENDING, FAILED})
    requires OwnersAmong(running, owners) && AllOwners(s.w.steps, running, owners) && !SomeRaises(s.w.steps, running)
    ensures SomeRaises(s.w.steps, waiting) == CountRaises(s, x) && LooksUp(s, x, owners)
  {
    hide RemovedSteps.GetSteps, LookupRaises, LooksUp, OwnersAmong, AllOwners, SomeRaises, ItemsOfSteps;
    RaisesAmong(s.w.steps, running, RemovedSteps.GetSteps(s, x, {RUNNING}));
    RaisesAmong(s.w.steps, waiting, RemovedSteps.GetSteps(s, x, {PENDING, FAILED}));
    LookedUp(s, x, running, owners);
  }

  lemma CountHasRaised(s: System<Step>, x: WorkerId, running: set<Step>, owners: set<WorkerId>)
    requires ItemsOfSteps(running) == RemovedSteps.GetSteps(s, x, {RUNNING})
    requires OwnersAmong(running, owners) && SomeRaises(s.w.steps, running)
    ensures CountRaises(s, x) && LooksUp(s, x, owners)
  {
    hide RemovedSteps.GetSteps, LookupRaises, LooksUp, OwnersAmong, SomeRaises, ItemsOfSteps;
    RaisesAmong(s.w.steps, running, RemovedSteps.GetSteps(s, x, {RUNNING}));
    LookedUp(s, x, running, owners);
  }

  // ---------------------------------------------------------------- handing out

  lemma ItemsAreKnown(s: System<Step>, items: seq<Item<Step>>)
    requires s.who.Keys == s.w.steps.Keys
    ensures forall it <- items :: Gone(s, it) || it.rec.id in s.w.steps
  {
  }

  lemma FirstGone(s: System<Step>, items: seq<Item<Step>>, n: nat)
    requires n <= |items| && (forall j :: 0 <= j < n ==> !Gone(s, items[j])) && (n < |items| ==> Gone(s, items[n]))
    ensures BeforeGone(s, items) == n
  {
    hide Gone;
  }

  /** `get_work` from the scan on, on values. */
  ghost predicate Served(s: System<Step>, a: WorkArgs, resend: Option<StepId>, scan: seq<Item<Step>>, owners: set<WorkerId>,
                         next: System<Step>, outcome: Outcome, now: Time, cfg: Config) {
    && a.worker in s.w.workers && IsScan(s, a.worker, scan) && LooksUp(s, a.worker, owners)
    && (forall it <- Decision(s, a, resend, scan, now, cfg) :: Gone(s, it) || it.rec.id in s.w.steps)
    && (next, outcome) == ServeSystem(s, a, resend, scan, owners, now, cfg)
  }

  lemma ServedFailing(s: System<Step>, a: WorkArgs, resend: Option<StepId>, scan: seq<Item<Step>>, owners: set<WorkerId>, now: Time, cfg: Config)
    requires SystemOk(s) && a.worker in s.w.workers && IsScan(s, a.worker, scan) && LooksUp(s, a.worker, owners) && CountRaises(s, a.worker)
    ensures Served(s, a, resend, scan, owners, Counted(s, owners, now), LookupFailed, now, cfg)
  {
    hide SystemOk, IsScan, LooksUp, CountRaises, Decision, Gone;
    DecisionIsSeen(s, a, resend, scan, now, cfg);
  }

  lemma ServedWell(s: System<Step>, a: WorkArgs, resend: Option<StepId>, scan: seq<Item<Step>>, owners: set<WorkerId>,
                   next: System<Step>, outcome: Outcome, now: Time, cfg: Config)
    requires a.worker in s.w.workers && IsScan(s, a.worker, scan) && LooksUp(s, a.worker, owners) && !CountRaises(s, a.worker)
    requires forall it <- Decision(s, a, resend, scan, now, cfg) :: Gone(s, it) || it.rec.id in s.w.steps
    requires (next.w.steps, outcome) == HandOutItems(s, Decision(s, a, resend, scan, now, cfg), a.worker, now, cfg)
    requires var counted := Counted(s, owners, now); next == WithWorld(counted, counted.w.(steps := next.w.steps))
    ensures Served(s, a, resend, scan, owners, next, outcome, now, cfg)
  {
    hide IsScan, LooksUp, CountRaises, Decision, Gone, HandOutItems;
    var counted := Counted(s, owners, now);
    assert next.held == counted.held && next == counted.(w := counted.w.(steps := next.w.steps));
  }

  /** `get_work` for an enabled worker, on values. */
  ghost predicate GivesWork(s1: System<Step>, a: WorkArgs, resend: Option<StepId>, scan: seq<Item<Step>>, owners: set<WorkerId>,
                            next: System<Step>, outcome: Outcome, now: Time, cfg: Config) {
    && a.worker in s1.w.workers && ValidResend(s1.w.steps, a, resend)
    && Served(WithWorld(s1, Announce(s1.w, a, now, cfg)), a, resend, scan, owners, next, outcome, now, cfg)
  }

  lemma WorkIsGiven(s: System<Step>, s1: System<Step>, a: WorkArgs, order: seq<StepId>, resend: Option<StepId>, scan: seq<Item<Step>>,
                    owners: set<WorkerId>, next: System<Step>, outcome: Outcome, now: Time, cfg: Config)
    requires SystemOk(s) && (cfg.pruneOnGetWork ==> Lists(order, s.w.steps.Keys))
    requires s1 == PreparedSystem(s, a, order, now, cfg) && !s1.w.workers[a.worker].disabled
    requires GivesWork(s1, a, resend, scan, owners, next, outcome, now, cfg)
    ensures var turn := OnWork(a, order, resend, scan, owners);
            Takes(s, turn, now, next, outcome, cfg)
  {
    hide SystemOk, PreparedSystem, Announce, IsScan, LooksUp, ValidResend, ServeSystem, Decision, Lists, Gone;
  }

  lemma PreparedIs(s: System<Step>, mid: System<Step>, a: WorkArgs, order: seq<StepId>, now: Time, cfg: Config)
    requires cfg.pruneOnGetWork ==> Lists(order, s.w.steps.Keys)
    requires mid == if cfg.pruneOnGetWork then PruneSystem(s, order, now, cfg) else s
    ensures WithWorld(mid, mid.w.(workers := Touch(mid.w.workers, a.worker, true, now))) == PreparedSystem(s, a, order, now, cfg)
  {
    hide Prune, Lists, PruneLoop, Touch;
  }

  lemma AnnouncedIsOk(s: System<Step>, a: WorkArgs, now: Time, cfg: Config)
    requires SystemOk(s) && a.worker in s.w.workers
    ensures SystemOk(WithWorld(s, Announce(s.w, a, now, cfg)))
  {
    WorldOk(s);
    AnnounceOk(s.w, a, now, cfg);
    hide SystemOk, Inv, Announce;
    WithWorldOk(s, Announce(s.w, a, now, cfg));
  }

  lemma NoWorkForDisabled(s: System<Step>, a: WorkArgs, order: seq<StepId>, now: Time, cfg: Config)
    requires SystemOk(s) && (cfg.pruneOnGetWork ==> Lists(order, s.w.steps.Keys))
    requires PreparedSystem(s, a, order, now, cfg).w.workers[a.worker].disabled
    ensures var turn := OnWork(a, order, None, [], {});
            Takes(s, turn, now, PreparedSystem(s, a, order, now, cfg), Replied(WorkerDisabled), cfg)
  {
    hide SystemOk, PreparedSystem, Lists;
  }

  // ---------------------------------------------------------------- calls as turns

  /** The turn is possible, and leads to that state and that outcome. */
  ghost predicate Takes(s: System<Step>, turn: Turn<Step>, now: Time, next: System<Step>, outcome: Outcome, cfg: Config) {
    SystemOk(s) && PossibleTurn(s, turn, now, cfg) && SystemNext(s, turn, now, cfg) == (next, outcome)
  }

  lemma TakesToOk(s: System<Step>, turn: Turn<Step>, now: Time, next: System<Step>, outcome: Outcome, cfg: Config)
    requires Takes(s, turn, now, next, outcome, cfg)
    ensures SystemOk(next)
  {
    hide SystemOk, PossibleTurn, SystemNext;
    SystemNextOk(s, turn, now, cfg);
  }

  lemma DisableIsEvent(s: System<Step>, next: System<Step>, x: WorkerId, now: Time, cfg: Config)
    requires SystemOk(s) && next.w == DisableWorker(s.w, x, now) && next.who == s.who
    requires next.held.Keys == next.w.workers.Keys
    requires forall y <- next.held :: if y == x then next.held[y] == {} else y in s.held && next.held[y] == s.held[y]
    ensures NewObjects(s, Next(s.w, OnDisableWorker(x), now, cfg).steps, map[])
    ensures next == EventSystem(s, OnDisableWorker(x), map[], now, cfg)
  {
    hide Inv;
  }

  /** The effect of `prune`, part by part. */
  ghost predicate PrunedTo(s: System<Step>, next: System<Step>, order: seq<StepId>, now: Time, cfg: Config)
    requires Lists(order, s.w.steps.Keys)
  {
    var w1 := PruneWorkers(s.w, now, cfg);
    var r := PruneLoop(w1.steps, order, now, cfg, Assistants(w1.workers), {});
    && next.w == Prune(s.w, order, now, cfg) && next.who == s.who - r.1 && next.held.Keys == w1.workers.Keys
    && forall x <- next.held :: x in s.held && next.held[x] == s.held[x] + RemovedFrom(s, r.0, r.1, x)
  }

  lemma PrunedInto(s: System<Step>, w1: World, r: (Steps, set<StepId>), next: System<Step>, order: seq<StepId>, now: Time, cfg: Config)
    requires Lists(order, s.w.steps.Keys) && w1 == PruneWorkers(s.w, now, cfg)
    requires r == PruneLoop(w1.steps, order, now, cfg, Assistants(w1.workers), {}) && next.w == PruneSteps(w1, order, now, cfg)
    requires next.who == s.who - r.1 && next.held.Keys == next.w.workers.Keys
    requires forall x <- next.held :: x in s.held && next.held[x] == s.held[x] + RemovedFrom(s, r.0, r.1, x)
    ensures PrunedTo(s, next, order, now, cfg)
  {
    assert PruneSteps(w1, order, now, cfg).workers == w1.workers;
    hide PruneWorkers, PruneLoop, PruneSteps, RemovedFrom, Lists;
  }

  lemma PruneIs(s: System<Step>, next: System<Step>, order: seq<StepId>, now: Time, cfg: Config)
    requires Lists(order, s.w.steps.Keys) && PrunedTo(s, next, order, now, cfg)
    ensures next == PruneSystem(s, order, now, cfg)
  {
    hide PruneWorkers, PruneLoop, Prune, RemovedFrom, Lists;
  }

  lemma AddIsEvent(s: System<Step>, next: System<Step>, e: Event, now: Time, cfg: Config)
    requires SystemOk(s) && e.OnAddStep? && Possible(s.w, e, now, cfg) && next.w == Next(s.w, e, now, cfg)
    requires NewObjects(s, next.w.steps, next.who) && next.who.Keys == next.w.steps.Keys
    requires forall k <- s.who :: k in next.who && next.who[k] == s.who[k]
    requires next.held.Keys == next.w.workers.Keys
    requires forall x <- next.held :: next.held[x] == if x in s.held then s.held[x] else {}
    ensures next == EventSystem(s, e, next.who, now, cfg)
  {
    hide SystemOk, Next, Possible, NewObjects;
    assert EventSystem(s, e, next.who, now, cfg).who == next.who;
  }

  lemma CopiesJust(s: StepRec, a: AddArgs)
    ensures CopiesResources(s, a) <==>
              a.status == RUNNING && s.load.workerRunning.None? && a.batchId.Some? && a.batchId.value != []
  {
  }

  lemma StartIs(steps: Steps, a: AddArgs, pick: Option<StepId>, failed: bool, next: Steps, now: Time, cfg: Config)
    requires var head := AddStepHead(steps, a, now, cfg);
             if !CopiesResources(Found(steps, a, now, cfg), a) then !failed && next == head
             else failed == PickFails(head, pick) &&
                  next == if failed then head else head[a.id := Equipped(head[a.id], head[pick.value].load.resourcesRunning)]
    ensures var start := AddStepStart(steps, a, pick, now, cfg);
            if failed then start == None && next == AddStepHead(steps, a, now, cfg) else start == Some(next)
  {
  }

  lemma NoneStarted(steps: Steps, b: BatchId, x: WorkerId, now: Time, cfg: Config)
    ensures StartBatch(steps, b[..0], b, x, now, cfg) == steps
  {
  }

  lemma OneMoreStarted(steps: Steps, b: BatchId, i: nat, x: WorkerId, now: Time, cfg: Config)
    requires i < |b| && (forall id <- b[..i] :: id in steps) && b[i] in StartBatch(steps, b[..i], b, x, now, cfg)
    ensures forall id <- b[..i+1] :: id in steps
    ensures StartBatch(steps, b[..i+1], b, x, now, cfg) == SetBatchRunning(StartBatch(steps, b[..i], b, x, now, cfg), b[i], b, x, now, cfg)
  {
    assert b[..i+1][..i] == b[..i] && b[..i+1] == b[..i] + [b[i]];
    hide SetBatchRunning;
  }

  lemma CountIsTurn(s: System<Step>, x: WorkerId, owners: set<WorkerId>, outcome: Outcome, now: Time, cfg: Config)
    requires SystemOk(s) && LooksUp(KnownSystem(s, x, now), x, owners)
    requires outcome == if CountRaises(KnownSystem(s, x, now), x) then LookupFailed else Finished
    ensures Takes(s, OnCount(x, owners), now, Counted(KnownSystem(s, x, now), owners, now), outcome, cfg)
  {
    hide SystemOk, LooksUp, CountRaises, Counted, KnownSystem;
  }

  lemma EventIsTurn(s: System<Step>, e: Event, born: map<StepId, Step>, now: Time, cfg: Config)
    requires SystemOk(s) && !e.OnGetWork? && !e.OnCountPending?
    requires Possible(s.w, e, now, cfg) && NewObjects(s, Next(s.w, e, now, cfg).steps, born)
    ensures Takes(s, OnEvent(e, born), now, EventSystem(s, e, born, now, cfg), OutcomeOf(s.w, e, now, cfg), cfg)
  {
    hide SystemOk, Possible, NewObjects, Next, EventSystem;
  }

  lemma AddIsTurn(s: System<Step>, a: AddArgs, pick: Option<StepId>, failed: bool, next: System<Step>,
                  born: map<StepId, Step>, now: Time, cfg: Config)
    requires SystemOk(s) && Possible(s.w, OnAddStep(a, pick), now, cfg) && NewObjects(s, next.w.steps, born)
    requires (next.w, failed) == AddStep(s.w, a, pick, now, cfg) && next == EventSystem(s, OnAddStep(a, pick), born, now, cfg)
    ensures Takes(s, OnEvent(OnAddStep(a, pick), born), now, next, if failed then NoBatchResources else Finished, cfg)
  {
    assert Next(s.w, OnAddStep(a, pick), now, cfg) == next.w;
    hide SystemOk, Possible, NewObjects, Next, EventSystem, AddStep;
    EventIsTurn(s, OnAddStep(a, pick), born, now, cfg);
  }

  lemma PruneIsTurn(s: System<Step>, order: seq<StepId>, now: Time, cfg: Config)
    requires SystemOk(s) && Lists(order, s.w.steps.Keys)
    ensures Takes(s, OnEvent(OnPrune(order), map[]), now, PruneSystem(s, order, now, cfg), Finished, cfg)
  {
    hide Inv, HeldOk, PruneSystem, PruneLoop;
    assert Prune(s.w, order, now, cfg).steps.Keys <= s.who.Keys;
    hide SystemOk, Prune, PruneWorkers, Lists;
  }

  lemma DisableIsTurn(s: System<Step>, x: WorkerId, now: Time, cfg: Config)
    requires SystemOk(s)
    ensures Takes(s, OnEvent(OnDisableWorker(x), map[]), now, EventSystem(s, OnDisableWorker(x), map[], now, cfg), Finished, cfg)
  {
    hide Inv;
  }

  lemma OtherIsTurn(s: System<Step>, rpc: Rpc, e: Event, next: System<Step>, outcome: Outcome, now: Time, cfg: Config)
    requires SystemOk(s) && Serves(rpc, e) && Possible(s.w, e, now, cfg) && next == WithWorld(s, Next(s.w, e, now, cfg))
    requires !rpc.DoAddStep? && !rpc.DoGetWork? && !rpc.DoCountPending? && !rpc.DoPrune? && !rpc.DoDisableWorker?
    requires next.w.steps.Keys == s.w.steps.Keys && outcome == OutcomeOf(s.w, e, now, cfg)
    ensures Takes(s, OnEvent(e, map[]), now, next, outcome, cfg)
  {
    hide Next, Possible, Inv, HeldOk, EventSystem, WithWorld;
    OtherEvent(s, e, next, now, cfg);
  }

  lemma OtherEvent(s: System<Step>, e: Event, next: System<Step>, now: Time, cfg: Config)
    requires s.who.Keys == s.w.steps.Keys && !e.OnPrune? && !e.OnDisableWorker? && Possible(s.w, e, now, cfg)
    requires next == WithWorld(s, Next(s.w, e, now, cfg)) && next.w.steps.Keys == s.w.steps.Keys
    ensures NewObjects(s, Next(s.w, e, now, cfg).steps, map[]) && EventSystem(s, e, map[], now, cfg) == next
  {
    hide Next, Possible;
    var after := EventSystem(s, e, map[], now, cfg);
    assert after.who == next.who && after.held == next.held;
  }

  function ResetIds(steps: Steps, ids: set<StepId>, now: Time, cfg: Config): Steps {
    map k | k in steps :: if k in ids then SetOne(steps[k], PENDING, now, cfg) else steps[k]
  }

  lemma ResetNext(steps: Steps, ids: set<StepId>, k: StepId, x: WorkerId, now: Time, cfg: Config)
    requires k in steps && k !in ids && OrphanedMember(steps, steps[k], x)
    ensures SchedulerModel.SetStatus(ResetIds(steps, ids, now, cfg), k, PENDING, now, cfg) == ResetIds(steps, ids + {k}, now, cfg)
  {
    Orphan(steps, k, x);
    hide SetOne, OrphanedMember, SchedulerModel.SetStatus;
    StatusOfOne(ResetIds(steps, ids, now, cfg), k, PENDING, now, cfg);
  }

  lemma AllReset(steps: Steps, ids: set<StepId>, x: WorkerId, now: Time, cfg: Config)
    requires forall k <- steps :: k in ids <==> OrphanedMember(steps, steps[k], x)
    ensures ResetIds(steps, ids, now, cfg) == ResetOrphans(steps, x, now, cfg)
  {
    hide SetOne, OrphanedMember;
  }

  lemma Orphan(steps: Steps, k: StepId, x: WorkerId)
    requires k in steps && OrphanedMember(steps, steps[k], x)
    ensures !LeavesBatch(steps[k].life, PENDING)
  {
  }

  lemma DefaultStepIsNew(a: AddArgs, now: Time, cfg: Config)
    ensures DefaultStep(a, now, cfg).id == a.id && DefaultStep(a, now, cfg).info.workers == []
  {
  }

  lemma SomePick(steps: Steps, b: Option<BatchId>) returns (pick: Option<StepId>)
    ensures ValidPick(steps, b, pick)
  {
    if k :| k in steps && InBatch(steps[k], b) {
      pick := Some(k);
    } else {
      pick := None;
    }
  }

  /** The effect of `AddStakeholder` when the dependencies in `seen` have been handled. */
  function WatchedSome(steps: Steps, id: StepId, seen: set<StepId>, x: WorkerId, priority: int, now: Time, cfg: Config): Steps {
    map k | k in steps.Keys + seen ::
      var s := if k in steps then steps[k] else Placeholder(k, priority, now, cfg);
      if k == id || k in seen then Watched(s, x) else s
  }

  lemma WatchedNone(steps: Steps, id: StepId, x: WorkerId, priority: int, now: Time, cfg: Config)
    requires id in steps
    ensures WatchedSome(steps, id, Elements([]), x, priority, now, cfg) == steps[id := Watched(steps[id], x)]
  {
  }

  lemma WatchedNext(steps: Steps, id: StepId, seen: set<StepId>, x: WorkerId, priority: int, now: Time, cfg: Config, d: StepId)
    ensures var some := WatchedSome(steps, id, seen, x, priority, now, cfg);
            var found := some[d := if d in some then some[d] else Placeholder(d, priority, now, cfg)];
            WatchedSome(steps, id, seen + {d}, x, priority, now, cfg) == found[d := Watched(found[d], x)]
  {
    forall s: StepRec
      ensures Watched(Watched(s, x), x) == Watched(s, x)
    {
      assert s.info.stakeholders + {x} + {x} == s.info.stakeholders + {x};
    }
  }

  /** The loop of `_prune_steps` has handled the first `i` steps. */
  ghost predicate Pruning(was: Steps, steps: Steps, order: seq<StepId>, i: nat, now: Time, cfg: Config,
                          assistants: set<WorkerId>, doomed: set<StepId>) {
    && i <= |order| && steps.Keys == was.Keys && Lists(order, was.Keys) && StepsOk(steps) && doomed <= steps.Keys
    && (forall id <- order[i..] :: id in order)
    && PruneLoop(was, order, now, cfg, assistants, {}) == PruneLoop(steps, order[i..], now, cfg, assistants, doomed)
  }

  lemma StartPruning(was: Steps, order: seq<StepId>, now: Time, cfg: Config, assistants: set<WorkerId>)
    requires Lists(order, was.Keys) && StepsOk(was)
    ensures Pruning(was, was, order, 0, now, cfg, assistants, {})
  {
    assert order[0..] == order;
  }

  lemma PruneNext(was: Steps, steps: Steps, order: seq<StepId>, i: nat, now: Time, cfg: Config,
                  assistants: set<WorkerId>, doomed: set<StepId>)
    requires Pruning(was, steps, order, i, now, cfg, assistants, doomed) && i < |order|
    ensures StepsOk(steps) && order[i] in steps
    ensures var next := PruneStep(steps, order[i], now, cfg, assistants);
            order[i] in next &&
            Pruning(was, next, order, i + 1, now, cfg, assistants,
                    if MayPrune(next[order[i]], now) then doomed + {order[i]} else doomed)
  {
    var rest := order[i..];
    assert rest[0] == order[i] && rest[0] in rest && rest[1..] == order[i+1..];
    PruneStepOk(steps, order[i], now, cfg, assistants);
    hide PruneStep;
    forall id | id in order[i+1..]
      ensures id in order
    {
      assert id in rest;
    }
  }

  lemma EndPruning(was: Steps, steps: Steps, order: seq<StepId>, now: Time, cfg: Config,
                   assistants: set<WorkerId>, doomed: set<StepId>)
    requires Pruning(was, steps, order, |order|, now, cfg, assistants, doomed)
    ensures PruneLoop(was, order, now, cfg, assistants, {}) == (steps, doomed) && doomed <= steps.Keys
  {
    assert order[|order|..] == [];
  }

  ghost function Elements(q: seq<StepId>): set<StepId> {
    set x | x in q
  }

  lemma AllElements(q: seq<StepId>, s: set<StepId>)
    requires Lists(q, s)
    ensures Elements(q[..|q|]) == s
  {
    assert q[..|q|] == q;
  }

  lemma ListsMember(q: seq<StepId>, s: set<StepId>, i: nat)
    requires Lists(q, s) && i < |q|
    ensures q[i] in s
  {
    assert q[i] in q;
  }

  lemma OneMore(q: seq<StepId>, i: nat)
    requires i < |q|
    ensures Elements(q[..i+1]) == Elements(q[..i]) + {q[i]}
  {
    assert q[..i+1] == q[..i] + [q[i]];
  }

  lemma LongerSystemRun(systems: seq<System<Step>>, calls: seq<SystemCall<Step>>, turn: Turn<Step>, now: Time, next: System<Step>,
                        outcome: Outcome, cfg: Config)
    requires IsSystemRun(systems, calls, cfg) && |systems| == |calls| + 1
    requires Takes(systems[|calls|], turn, now, next, outcome, cfg) && outcome != ForeignKey
    ensures IsSystemRun(systems + [next], calls + [SystemCall(turn, now)], cfg)
  {
    hide SystemOk, PossibleTurn, SystemNext;
    assert LeadsTo(systems[|calls|], SystemCall(turn, now), next, cfg);
    hide LeadsTo;
  }

  ghost predicate AllServed(rpcs: seq<(Rpc, Time)>, calls: seq<SystemCall<Step>>) {
    |calls| <= |rpcs| && forall i :: 0 <= i < |calls| ==> Serves(rpcs[i].0, EventOf(calls[i].turn))
  }

  lemma QuietServes(rpc: Rpc, e: Event)
    requires IsQuiet(rpc) && Serves(rpc, e)
    ensures QuietEvent(e)
  {
  }

  /** Quiet calls are quiet turns. */
  lemma QuietCalls(systems: seq<System<Step>>, calls: seq<SystemCall<Step>>, rpcs: seq<(Rpc, Time)>, cfg: Config)
    requires IsSystemRun(systems, calls, cfg) && |systems| == |calls| + 1
    requires AllServed(rpcs, calls) && forall r <- rpcs :: IsQuiet(r.0)
    ensures IsRun(WorldsOf(systems), EventsOf(calls), cfg)
    ensures OnlyDecreasesRaise(systems, calls, cfg)
    ensures QuietWorld(systems[|calls|].w) && NothingHeld(systems[|calls|])
  {
    hide IsQuiet, Serves, EventOf, QuietEvent, IsSystemRun, IsRun, OnlyDecreasesRaise, QuietWorld, NothingHeld;
    forall i | 0 <= i < |calls|
      ensures QuietTurn(calls[i].turn)
    {
      assert rpcs[i] in rpcs;
      QuietServes(rpcs[i].0, EventOf(calls[i].turn));
    }
    QuietRunsAreRuns(systems, calls, cfg);
  }

  lemma NoReportServes(rpc: Rpc, e: Event)
    requires !IsReportOfRun(rpc) && Serves(rpc, e)
    ensures !ReportsRun(e)
  {
  }

  /** What the calls say about the exceptions of the run. */
  lemma RunOutcomes(systems: seq<System<Step>>, calls: seq<SystemCall<Step>>, rpcs: seq<(Rpc, Time)>, cfg: Config)
    requires IsSystemRun(systems, calls, cfg) && |systems| == |calls| + 1 && AllServed(rpcs, calls)
    ensures (forall r <- rpcs :: !IsReportOfRun(r.0)) ==> OnlyDisturbedRaise(systems, calls, cfg)
    ensures (forall r <- rpcs :: IsQuiet(r.0) && !IsReportOfRun(r.0)) ==> RaisesNothing(systems, calls, cfg)
  {
    hide IsQuiet, IsReportOfRun, Serves, EventOf, QuietEvent, ReportsRun, IsSystemRun, OnlyDisturbedRaise, RaisesNothing;
    forall i | 0 <= i < |calls|
      ensures IsQuiet(rpcs[i].0) ==> QuietTurn(calls[i].turn)
      ensures !IsReportOfRun(rpcs[i].0) ==> !ReportsRun(EventOf(calls[i].turn))
    {
      if IsQuiet(rpcs[i].0) {
        QuietServes(rpcs[i].0, EventOf(calls[i].turn));
      }
      if !IsReportOfRun(rpcs[i].0) {
        NoReportServes(rpcs[i].0, EventOf(calls[i].turn));
      }
    }
    assert forall i :: 0 <= i < |calls| ==> rpcs[i] in rpcs;
    if forall r <- rpcs :: !IsReportOfRun(r.0) {
      OnlyRemovedStepsRaise(systems, calls, cfg);
    }
    if forall r <- rpcs :: IsQuiet(r.0) && !IsReportOfRun(r.0) {
      QuietRunsRaiseNothing(systems, calls, cfg);
    }
  }

  lemma NotQuiet(systems: seq<System<Step>>, calls: seq<SystemCall<Step>>, rpcs: seq<(Rpc, Time)>, turn: Turn<Step>,
                 next: System<Step>, cfg: Config)
    requires IsSystemRun(systems, calls, cfg) && |systems| == |calls| + 1 && |calls| < |rpcs|
    requires AllServed(rpcs, calls) && Serves(rpcs[|calls|].0, EventOf(turn))
    requires Takes(systems[|calls|], turn, rpcs[|calls|].1, next, ForeignKey, cfg)
    ensures exists r <- rpcs :: !IsQuiet(r.0)
  {
    hide IsQuiet, Serves, EventOf, QuietEvent, IsSystemRun, IsRun, OnlyDecreasesRaise, QuietWorld, NothingHeld, PossibleTurn, SystemNext,
         SystemOk;
    if forall r <- rpcs :: IsQuiet(r.0) {
      QuietCalls(systems, calls, rpcs, cfg);
      assert rpcs[|calls|] in rpcs;
      QuietServes(rpcs[|calls|].0, EventOf(turn));
      QuietTurnIsEvent(systems[|calls|], turn, rpcs[|calls|].1, cfg);
    }
  }
}
