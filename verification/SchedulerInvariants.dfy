/**
 Runs of the scheduler and what every reachable state satisfies.
 */
module SchedulerInvariants {
  import opened Options
  import opened Sequences
  import opened SchedulerModel

  // ---------------------------------------------------------------- events and runs

  datatype Event =
    | OnAddStep(add: AddArgs, pick: Option<StepId>)
    | OnGetWork(work: WorkArgs, choices: Choices)
    | OnCountPending(worker: WorkerId)
    | OnPrune(order: seq<StepId>)
    | OnMarkAsDone(id: StepId)
    | OnForgive(id: StepId)
    | OnReEnable(id: StepId)
    | OnDecrease(id: StepId, amounts: Amounts, done: set<StepId>)
    | OnDisableWorker(worker: WorkerId)
    | OnAddWorker(worker: WorkerId, info: WorkerInfo)
    | OnPing(worker: WorkerId)
    | OnAddBatcher(worker: WorkerId, family: string, batcher: Batcher)
    | OnUpdateResource(resource: Resource, amount: int)
    | OnUpdateResources(resources: Amounts)
    | OnSetPaused(paused: bool)

  /** The choices in the event are among those the source could make. */
  ghost predicate Possible(w: World, e: Event, now: Time, cfg: Config) {
    match e
    case OnAddStep(a, pick) => ValidPick(AddStepHead(w.steps, a, now, cfg), a.batchId, pick)
    case OnGetWork(a, c) => ValidChoices(w, a, c, now, cfg)
    case OnPrune(order) => Lists(order, w.steps.Keys)
    case OnDecrease(id, d, done) => ValidDecrease(w.steps, id, done)
    case _ => true
  }

  ghost function Next(w: World, e: Event, now: Time, cfg: Config): World
    requires Possible(w, e, now, cfg)
  {
    match e
    case OnAddStep(a, pick) => AddStep(w, a, pick, now, cfg).0
    case OnGetWork(a, c) => GetWork(w, a, c, now, cfg).0
    case OnCountPending(x) => CountPending(w.(workers := GetWorker(w.workers, x, now)), x, now)
    case OnPrune(order) => Prune(w, order, now, cfg)
    case OnMarkAsDone(id) => MarkAsDone(w, id, now, cfg)
    case OnForgive(id) => ForgiveFailures(w, id, now, cfg)
    case OnReEnable(id) => ReEnableStep(w, id, now, cfg)
    case OnDecrease(id, d, done) => DecreaseRunning(w, id, d, done)
    case OnDisableWorker(x) => DisableWorker(w, x, now)
    case OnAddWorker(x, info) => AddWorker(w, x, info, now)
    case OnPing(x) => Ping(w, x, now)
    case OnAddBatcher(x, family, b) => AddBatcher(w, x, family, b)
    case OnUpdateResource(r, amount) => UpdateResource(w, r, amount)
    case OnUpdateResources(amounts) => UpdateResources(w, amounts)
    case OnSetPaused(paused) => SetPaused(w, paused, cfg)
  }

  function Initial(totals: Amounts): World {
    World(map[], map[], map[], totals, false)
  }

  datatype Call = Call(event: Event, now: Time)

  /** The scheduler passes through `worlds` while it serves `calls`. */
  ghost predicate IsRun(worlds: seq<World>, calls: seq<Call>, cfg: Config) {
    && |worlds| == |calls| + 1
    && worlds[0] == Initial(worlds[0].totals)
    && forall i :: 0 <= i < |calls| ==>
         Possible(worlds[i], calls[i].event, calls[i].now, cfg) &&
         worlds[i+1] == Next(worlds[i], calls[i].event, calls[i].now, cfg)
  }

  // ---------------------------------------------------------------- the invariant

  predicate LifeOk(l: Life) {
    && (l.disableTime.Some? ==> l.status == DISABLED)
    && (l.status == FAILED ==> l.retry.Some?)
    && l.status != SUSPENDED
  }

  predicate RecOk(s: StepRec) {
    LifeOk(s.life) && (s.life.status == RUNNING ==> s.load.workerRunning.Some?)
  }

  /** Workers that may run the step are active and enabled; stakeholders are active. */
  predicate RosterOk(info: Info, workers: Workers) {
    && Distinct(info.workers)
    && (forall x <- info.workers :: x in workers && !workers[x].disabled)
    && (forall x <- info.stakeholders :: x in workers)
  }

  predicate StepsOk(steps: Steps) {
    forall k <- steps :: steps[k].id == k && RecOk(steps[k])
  }

  predicate Inv(w: World) {
    StepsOk(w.steps) && forall k <- w.steps :: RosterOk(w.steps[k].info, w.workers)
  }

  // ---------------------------------------------------------------- operations that only move statuses

  predicate Evolves(steps: Steps, next: Steps) {
    && next.Keys == steps.Keys
    && (forall k <- steps :: next[k].id == steps[k].id && next[k].info == steps[k].info)
    && (StepsOk(steps) ==> StepsOk(next))
  }

  lemma SetLifeOk(l: Life, batchable: bool, policy: RetryPolicy, target: Status, now: Time, cfg: Config)
    ensures var m := SetLife(l, batchable, policy, target, now, cfg);
            && (LifeOk(l) && target != SUSPENDED ==> LifeOk(m))
            && (m.status == RUNNING ==> l.status == RUNNING || target == RUNNING)
            && (m.status == l.status || m.status == target || m.status == DISABLED)
            && (m.status == DISABLED ==> l.status == DISABLED || target == FAILED || target == DISABLED)
            && (l.status.Runs() && !target.Runs() && target != DISABLED
                ==> m.status == target || (target == FAILED && m.status == DISABLED))
  {
  }

  /** `SetStatus` changes nothing but the lives of steps, and it changes each of them by `SetLife`. */
  lemma SetStatusAt(steps: Steps, id: StepId, target: Status, now: Time, cfg: Config, k: StepId)
    requires id in steps && k in steps
    ensures var r := SetStatus(steps, id, target, now, cfg);
            r.Keys == steps.Keys && r[k].id == steps[k].id && r[k].info == steps[k].info && r[k].load == steps[k].load
    ensures var life := SetStatus(steps, id, target, now, cfg)[k].life;
            var set1 := SetOne(steps[k], target, now, cfg).life;
            life == if k == id then set1
                    else if !Refused(steps[id].life, target) && LeavesBatch(steps[id].life, target) &&
                            InBatch(steps[k], steps[id].life.batchId) then set1.(batchId := None)
                    else steps[k].life
  {
  }

  lemma SetStatusOk(steps: Steps, id: StepId, target: Status, now: Time, cfg: Config)
    requires id in steps && target != SUSPENDED
    requires StepsOk(steps) ==> target == RUNNING ==> steps[id].load.workerRunning.Some?
    ensures Evolves(steps, SetStatus(steps, id, target, now, cfg))
  {
    var r := SetStatus(steps, id, target, now, cfg);
    forall k | k in steps
      ensures r[k].id == steps[k].id && r[k].info == steps[k].info
      ensures StepsOk(steps) ==> RecOk(r[k])
    {
      SetStatusAt(steps, id, target, now, cfg, k);
      SetLifeOk(steps[k].life, steps[k].info.batchable, steps[k].info.policy, target, now, cfg);
    }
  }

  lemma ReEnableOk(steps: Steps, id: StepId, now: Time, cfg: Config)
    requires id in steps
    ensures Evolves(steps, ReEnable(steps, id, now, cfg))
  {
    var cleared := steps[id := Forgiven(steps[id])];
    SetStatusOk(cleared, id, FAILED, now, cfg);
  }

  lemma FailDeadOk(steps: Steps, id: StepId, now: Time, cfg: Config, assistants: set<WorkerId>)
    requires id in steps
    ensures Evolves(steps, FailDead(steps, id, now, cfg, assistants))
  {
    if Orphaned(steps[id], assistants) {
      var freed := steps[id := Freed(steps[id])];
      var r := FailDead(steps, id, now, cfg, assistants);
      forall k | k in steps
        ensures r[k].id == steps[k].id && r[k].info == steps[k].info
        ensures StepsOk(steps) ==> RecOk(r[k])
      {
        SetStatusAt(freed, id, FAILED, now, cfg, k);
        SetLifeOk(freed[k].life, freed[k].info.batchable, freed[k].info.policy, FAILED, now, cfg);
      }
    }
  }

  lemma UpdateStatusOk(steps: Steps, id: StepId, now: Time, cfg: Config)
    requires id in steps
    ensures Evolves(steps, UpdateStatus(steps, id, now, cfg))
  {
    hide SetStatus, ReEnable;
    var marked := steps[id := MarkUnwanted(steps[id], now, cfg)];
    assert Evolves(steps, marked);
    ReEnableOk(marked, id, now, cfg);
    var enabled := if DisableExpired(marked[id], now, cfg) then ReEnable(marked, id, now, cfg) else marked;
    SetStatusOk(enabled, id, PENDING, now, cfg);
  }

  lemma PruneStepOk(steps: Steps, id: StepId, now: Time, cfg: Config, assistants: set<WorkerId>)
    requires id in steps
    ensures Evolves(steps, PruneStep(steps, id, now, cfg, assistants))
  {
    FailDeadOk(steps, id, now, cfg, assistants);
    UpdateStatusOk(FailDead(steps, id, now, cfg, assistants), id, now, cfg);
  }

  lemma {:induction false} PruneLoopOk(steps: Steps, order: seq<StepId>, now: Time, cfg: Config,
                                       assistants: set<WorkerId>, doomed: set<StepId>)
    requires forall id <- order :: id in steps
    ensures Evolves(steps, PruneLoop(steps, order, now, cfg, assistants, doomed).0)
    decreases |order|
  {
    if order != [] {
      var next := PruneStep(steps, order[0], now, cfg, assistants);
      PruneStepOk(steps, order[0], now, cfg, assistants);
      PruneLoopOk(next, order[1..], now, cfg, assistants,
                  if MayPrune(next[order[0]], now) then doomed + {order[0]} else doomed);
    }
  }

  // ---------------------------------------------------------------- nothing starts to run in prune

  /** Targets that really take a running step out of RUNNING. */
  predicate TakesOut(target: Status) {
    !target.Runs() && target != DISABLED && target != SUSPENDED
  }

  /** `t` runs only if `s` ran, and then still for the same batch and the same owner. */
  predicate Settles(s: StepRec, t: StepRec) {
    && t.id == s.id && t.info == s.info
    && t.load.(workerRunning := None) == s.load.(workerRunning := None)
    && (t.life.status.Runs() ==>
          t.life.status == s.life.status && t.life.batchId == s.life.batchId && t.load == s.load)
  }

  predicate AllSettle(steps: Steps, next: Steps) {
    next.Keys == steps.Keys && forall k <- steps :: Settles(steps[k], next[k])
  }

  lemma SetStatusSettles(steps: Steps, id: StepId, target: Status, now: Time, cfg: Config)
    requires id in steps && TakesOut(target)
    ensures AllSettle(steps, SetStatus(steps, id, target, now, cfg))
  {
    var r := SetStatus(steps, id, target, now, cfg);
    forall k | k in steps
      ensures Settles(steps[k], r[k])
    {
      SetStatusAt(steps, id, target, now, cfg, k);
      SetLifeOk(steps[k].life, steps[k].info.batchable, steps[k].info.policy, target, now, cfg);
    }
  }

  lemma ReEnableSettles(steps: Steps, id: StepId, now: Time, cfg: Config)
    requires id in steps
    ensures AllSettle(steps, ReEnable(steps, id, now, cfg))
  {
    var cleared := steps[id := Forgiven(steps[id])];
    SetStatusSettles(cleared, id, FAILED, now, cfg);
    var failed := SetStatus(cleared, id, FAILED, now, cfg);
    forall k | k in steps
      ensures Settles(steps[k], ReEnable(steps, id, now, cfg)[k])
    {
      assert Settles(cleared[k], failed[k]);
    }
  }

  lemma FailDeadSettles(steps: Steps, id: StepId, now: Time, cfg: Config, assistants: set<WorkerId>)
    requires id in steps
    ensures AllSettle(steps, FailDead(steps, id, now, cfg, assistants))
  {
    if Orphaned(steps[id], assistants) {
      var freed := steps[id := Freed(steps[id])];
      SetStatusSettles(freed, id, FAILED, now, cfg);
      SetStatusAt(freed, id, FAILED, now, cfg, id);
      SetLifeOk(freed[id].life, steps[id].info.batchable, steps[id].info.policy, FAILED, now, cfg);
    }
  }

  lemma UpdateStatusSettles(steps: Steps, id: StepId, now: Time, cfg: Config)
    requires id in steps
    ensures AllSettle(steps, UpdateStatus(steps, id, now, cfg))
  {
    var marked := steps[id := MarkUnwanted(steps[id], now, cfg)];
    assert AllSettle(steps, marked);
    ReEnableSettles(marked, id, now, cfg);
    var enabled := if DisableExpired(marked[id], now, cfg) then ReEnable(marked, id, now, cfg) else marked;
    assert AllSettle(marked, enabled);
    SetStatusSettles(enabled, id, PENDING, now, cfg);
    assert AllSettle(enabled, UpdateStatus(steps, id, now, cfg));
  }

  lemma PruneStepSettles(steps: Steps, id: StepId, now: Time, cfg: Config, assistants: set<WorkerId>)
    requires id in steps
    ensures AllSettle(steps, PruneStep(steps, id, now, cfg, assistants))
  {
    FailDeadSettles(steps, id, now, cfg, assistants);
    UpdateStatusSettles(FailDead(steps, id, now, cfg, assistants), id, now, cfg);
  }

  lemma {:induction false} PruneLoopSettles(steps: Steps, order: seq<StepId>, now: Time, cfg: Config,
                                            assistants: set<WorkerId>, doomed: set<StepId>)
    requires forall id <- order :: id in steps
    ensures AllSettle(steps, PruneLoop(steps, order, now, cfg, assistants, doomed).0)
    decreases |order|
  {
    if order != [] {
      var next := PruneStep(steps, order[0], now, cfg, assistants);
      PruneStepSettles(steps, order[0], now, cfg, assistants);
      PruneLoopSettles(next, order[1..], now, cfg, assistants,
                       if MayPrune(next[order[0]], now) then doomed + {order[0]} else doomed);
    }
  }

  // ---------------------------------------------------------------- steps that prune leaves alone

  lemma NobodySilent(w: World, now: Time, cfg: Config)
    requires SilentWorkers(w.workers, now, cfg) == {}
    ensures PruneWorkers(w, now, cfg) == w
  {
    forall k | k in w.steps
      ensures Deserted(w.steps[k], {}, true) == w.steps[k]
    {
      WithoutNothing(w.steps[k].info.workers);
    }
    assert w.workers - {} == w.workers;
  }

  predicate Idle(s: StepRec, now: Time, cfg: Config, assistants: set<WorkerId>) {
    && !Orphaned(s, assistants) && MarkUnwanted(s, now, cfg) == s
    && !DisableExpired(s, now, cfg) && !RetryDue(s, now, cfg)
  }

  lemma IdleStep(steps: Steps, j: StepId, now: Time, cfg: Config, assistants: set<WorkerId>)
    requires j in steps && Idle(steps[j], now, cfg, assistants)
    ensures PruneStep(steps, j, now, cfg, assistants) == steps
  {
    assert steps[j := steps[j]] == steps;
    hide SetStatus, ReEnable;
  }

  /** If no step has anything to be done, the loop only finds the steps whose stamp is due. */
  lemma {:induction false} IdleLoop(steps: Steps, order: seq<StepId>, now: Time, cfg: Config,
                                    assistants: set<WorkerId>, doomed: set<StepId>)
    requires forall j <- order :: j in steps && Idle(steps[j], now, cfg, assistants)
    ensures var due := set j | j in order && MayPrune(steps[j], now);
            PruneLoop(steps, order, now, cfg, assistants, doomed) == (steps, doomed + due)
    decreases |order|
  {
    hide Idle, MayPrune;
    if order == [] {
      assert doomed + (set j | j in order && MayPrune(steps[j], now)) == doomed;
    } else {
      IdleStep(steps, order[0], now, cfg, assistants);
      hide PruneStep;
      var more := if MayPrune(steps[order[0]], now) then doomed + {order[0]} else doomed;
      IdleLoop(steps, order[1..], now, cfg, assistants, more);
      assert forall j :: j in order <==> j == order[0] || j in order[1..];
      assert doomed + (set j | j in order && MayPrune(steps[j], now)) == more + set j | j in order[1..] && MayPrune(steps[j], now);
    }
  }

  // ---------------------------------------------------------------- operations that start steps

  lemma GrantOk(steps: Steps, id: StepId, x: WorkerId, now: Time, cfg: Config)
    requires id in steps
    ensures Evolves(steps, Grant(steps, id, x, now, cfg))
  {
    forall k | k in steps {
      SetLifeOk(steps[k].life, steps[k].info.batchable, steps[k].info.policy, RUNNING, now, cfg);
    }
  }

  lemma SetBatchRunningOk(steps: Steps, id: StepId, b: BatchId, x: WorkerId, now: Time, cfg: Config)
    requires id in steps
    ensures Evolves(steps, SetBatchRunning(steps, id, b, x, now, cfg))
  {
    SetStatusOk(steps, id, BATCH_RUNNING, now, cfg);
  }

  lemma {:induction false} StartBatchOk(steps: Steps, todo: seq<StepId>, b: BatchId, x: WorkerId, now: Time, cfg: Config)
    requires forall id <- todo :: id in steps
    ensures Evolves(steps, StartBatch(steps, todo, b, x, now, cfg))
  {
    if todo != [] {
      var n := |todo| - 1;
      StartBatchOk(steps, todo[..n], b, x, now, cfg);
      SetBatchRunningOk(StartBatch(steps, todo[..n], b, x, now, cfg), todo[n], b, x, now, cfg);
    }
  }

  lemma ResetOrphansOk(steps: Steps, x: WorkerId, now: Time, cfg: Config)
    ensures Evolves(steps, ResetOrphans(steps, x, now, cfg))
  {
    forall k | k in steps {
      SetLifeOk(steps[k].life, steps[k].info.batchable, steps[k].info.policy, PENDING, now, cfg);
    }
  }

  lemma HandOutOk(steps: Steps, r: Reply, x: WorkerId, now: Time, cfg: Config)
    requires Known(steps, r)
    ensures Evolves(steps, HandOut(steps, r, x, now, cfg))
  {
    match r
    case Granted(id) => GrantOk(steps, id, x, now, cfg);
    case BatchGranted(ids) => StartBatchOk(steps, ids, ids, x, now, cfg);
    case _ =>
  }

  // ---------------------------------------------------------------- operations that change the workers

  /** No worker is lost or disabled. */
  predicate KeepsWorkers(before: Workers, after: Workers) {
    forall x <- before :: x in after && after[x].disabled == before[x].disabled
  }

  lemma KeepInv(w: World, next: World)
    requires Inv(w) && Evolves(w.steps, next.steps) && KeepsWorkers(w.workers, next.workers)
    ensures Inv(next)
  {
  }

  lemma RemoveWorkersOk(w: World, gone: set<WorkerId>, next: World, removeStakeholders: bool)
    requires Inv(w)
    requires next.steps == RemoveWorkers(w.steps, gone, removeStakeholders)
    requires forall x <- w.workers :: x !in gone ==> x in next.workers && next.workers[x].disabled == w.workers[x].disabled
    requires !removeStakeholders ==> forall x <- w.workers :: x in next.workers
    ensures Inv(next)
  {
    forall k | k in w.steps
      ensures RosterOk(next.steps[k].info, next.workers)
    {
      WithoutFilters(w.steps[k].info.workers, gone);
    }
  }

  lemma PruneWorkersOk(w: World, now: Time, cfg: Config)
    requires Inv(w)
    ensures Inv(PruneWorkers(w, now, cfg))
  {
    RemoveWorkersOk(w, SilentWorkers(w.workers, now, cfg), PruneWorkers(w, now, cfg), true);
  }

  lemma PruneOk(w: World, order: seq<StepId>, now: Time, cfg: Config)
    requires Inv(w) && Lists(order, w.steps.Keys)
    ensures Inv(Prune(w, order, now, cfg))
  {
    var w1 := PruneWorkers(w, now, cfg);
    PruneWorkersOk(w, now, cfg);
    PruneLoopOk(w1.steps, order, now, cfg, Assistants(w1.workers), {});
  }

  lemma DisableWorkerOk(w: World, x: WorkerId, now: Time)
    requires Inv(w)
    ensures Inv(DisableWorker(w, x, now))
  {
    RemoveWorkersOk(w, {x}, DisableWorker(w, x, now), false);
  }

  lemma CountPendingOk(w: World, x: WorkerId, now: Time)
    requires Inv(w)
    ensures Inv(CountPending(w, x, now))
  {
  }

  // ---------------------------------------------------------------- add_step

  lemma UpdatePriorityOk(steps: Steps, root: StepId, priority: int)
    requires root in steps
    ensures var r := UpdatePriority(steps, root, priority);
            r.Keys == steps.Keys && forall k <- steps :: r[k] == Lifted(steps[k], r[k].info.priority)
  {
  }

  /** What `AddStepTail` needs of its argument. */
  predicate ReadyForTail(steps: Steps, a: AddArgs, enabled: bool, workers: Workers) {
    && a.id in steps && StepsOk(steps) && (forall k <- steps :: RosterOk(steps[k].info, workers))
    && (a.status == RUNNING ==> steps[a.id].load.workerRunning.Some?)
    && a.worker in workers && enabled == !workers[a.worker].disabled
  }

  lemma ReportOk(steps: Steps, a: AddArgs, enabled: bool, workers: Workers, now: Time, cfg: Config)
    requires ReadyForTail(steps, a, enabled, workers)
    ensures Evolves(steps, Report(steps, a, now, cfg))
    ensures StepsOk(Report(steps, a, now, cfg))
  {
    SetStatusOk(steps, a.id, if a.status == SUSPENDED then PENDING else a.status, now, cfg);
  }

  lemma AddStakeholderOk(steps: Steps, id: StepId, x: WorkerId, priority: int, workers: Workers, now: Time, cfg: Config)
    requires id in steps && StepsOk(steps) && (forall k <- steps :: RosterOk(steps[k].info, workers)) && x in workers
    ensures var r := AddStakeholder(steps, id, x, priority, now, cfg);
            id in r && StepsOk(r) && forall k <- r :: RosterOk(r[k].info, workers)
  {
  }

  predicate PlacesOk(steps: Steps, workers: Workers) {
    StepsOk(steps) && forall k <- steps :: RosterOk(steps[k].info, workers)
  }

  lemma EnlistOk(steps: Steps, a: AddArgs, enabled: bool, workers: Workers)
    requires a.id in steps && PlacesOk(steps, workers)
    requires a.worker in workers && enabled == !workers[a.worker].disabled
    ensures PlacesOk(steps[a.id := Enlist(steps[a.id], a, enabled)], workers)
  {
  }

  lemma RaiseOk(steps: Steps, root: StepId, priority: int, workers: Workers)
    requires root in steps && PlacesOk(steps, workers)
    ensures PlacesOk(UpdatePriority(steps, root, priority), workers)
  {
    UpdatePriorityOk(steps, root, priority);
    var r := UpdatePriority(steps, root, priority);
    forall k | k in r
      ensures RosterOk(r[k].info, workers)
    {
      assert RosterOk(steps[k].info, workers);
    }
  }

  lemma AddStepTailOk(steps: Steps, a: AddArgs, enabled: bool, workers: Workers, now: Time, cfg: Config)
    requires ReadyForTail(steps, a, enabled, workers)
    ensures PlacesOk(AddStepTail(steps, a, enabled, now, cfg), workers)
  {
    var unmarked := steps[a.id := Unmark(steps[a.id], a)];
    var reported := Report(unmarked, a, now, cfg);
    ReportOk(unmarked, a, enabled, workers, now, cfg);
    var rewired := reported[a.id := Rewire(reported[a.id], a)];
    assert PlacesOk(rewired, workers);
    AddStakeholderOk(rewired, a.id, a.worker, a.priority, workers, now, cfg);
    var watched := if enabled && !a.assistant
                   then AddStakeholder(rewired, a.id, a.worker, a.priority, now, cfg) else rewired;
    RaiseOk(watched, a.id, a.priority, workers);
    EnlistOk(UpdatePriority(watched, a.id, a.priority), a, enabled, workers);
  }

  lemma HeadOk(w: World, a: AddArgs, now: Time, cfg: Config)
    requires Inv(w)
    ensures var workers := Touch(w.workers, a.worker, false, now);
            var head := AddStepHead(w.steps, a, now, cfg);
            ReadyForTail(head, a, !workers[a.worker].disabled, workers)
  {
  }

  lemma EquippedOk(steps: Steps, a: AddArgs, enabled: bool, workers: Workers, amounts: Option<Amounts>)
    requires ReadyForTail(steps, a, enabled, workers)
    ensures ReadyForTail(steps[a.id := Equipped(steps[a.id], amounts)], a, enabled, workers)
  {
  }

  lemma ApplyReportOk(w: World, a: AddArgs, pick: Option<StepId>, now: Time, cfg: Config)
    requires Inv(w)
    ensures var workers := Touch(w.workers, a.worker, false, now);
            PlacesOk(ApplyReport(w.steps, a, !workers[a.worker].disabled, pick, now, cfg).0, workers)
  {
    var workers := Touch(w.workers, a.worker, false, now);
    var enabled := !workers[a.worker].disabled;
    var head := AddStepHead(w.steps, a, now, cfg);
    HeadOk(w, a, now, cfg);
    if pick.Some? && pick.value in head {
      EquippedOk(head, a, enabled, workers, head[pick.value].load.resourcesRunning);
    }
    var start := AddStepStart(w.steps, a, pick, now, cfg);
    if start.Some? {
      AddStepTailOk(start.value, a, enabled, workers, now, cfg);
    }
  }

  lemma AddStepOk(w: World, a: AddArgs, pick: Option<StepId>, now: Time, cfg: Config)
    requires Inv(w)
    ensures Inv(AddStep(w, a, pick, now, cfg).0)
  {
    ApplyReportOk(w, a, pick, now, cfg);
    WorkerCallsOk(w, a.worker, WorkerInfo(None, None), now);
  }

  /** What `AddStepTail` leaves of each step: the life that the report gives it, and its load. */
  lemma AddStepTailAt(steps: Steps, a: AddArgs, enabled: bool, now: Time, cfg: Config, k: StepId)
    requires a.id in steps
    ensures var r := AddStepTail(steps, a, enabled, now, cfg);
            var reported := Report(steps[a.id := Unmark(steps[a.id], a)], a, now, cfg);
            && (k in steps ==>
                  && k in r && r[k].life == reported[k].life
                  && r[k].load == if k == a.id then Rewire(reported[k], a).load else reported[k].load)
            && (k in r && k !in steps ==> r[k].life.status == UNKNOWN && r[k].load == Load(None, map[], None, false))
  {
    var reported := Report(steps[a.id := Unmark(steps[a.id], a)], a, now, cfg);
    var rewired := reported[a.id := Rewire(reported[a.id], a)];
    var watched := if enabled && !a.assistant
                   then AddStakeholder(rewired, a.id, a.worker, a.priority, now, cfg) else rewired;
    assert k in steps ==> k in watched && watched[k].life == reported[k].life && watched[k].load == rewired[k].load;
    var raised := UpdatePriority(watched, a.id, a.priority);
    UpdatePriorityOk(watched, a.id, a.priority);
    assert AddStepTail(steps, a, enabled, now, cfg) == raised[a.id := Enlist(raised[a.id], a, enabled)];
  }

  /** The three ways in which `add_step` ends. */
  lemma AddStepShape(w: World, a: AddArgs, pick: Option<StepId>, now: Time, cfg: Config)
    ensures var r := AddStep(w, a, pick, now, cfg).0.steps;
            var enabled := !Touch(w.workers, a.worker, false, now)[a.worker].disabled;
            var start := AddStepStart(w.steps, a, pick, now, cfg);
            || r == w.steps
            || r == AddStepHead(w.steps, a, now, cfg)
            || (start.Some? && r == AddStepTail(start.value, a, enabled, now, cfg))
  {
    hide AddStepTail, AddStepHead, AddStepStart, Ignored, Touch;
  }

  // ---------------------------------------------------------------- get_work

  lemma PrepareOk(w: World, a: WorkArgs, pruneOrder: seq<StepId>, now: Time, cfg: Config)
    requires Inv(w) && (cfg.pruneOnGetWork ==> Lists(pruneOrder, w.steps.Keys))
    ensures Inv(Prepare(w, a, pruneOrder, now, cfg))
  {
    if cfg.pruneOnGetWork {
      PruneOk(w, pruneOrder, now, cfg);
    }
  }

  lemma AnnounceOk(w: World, a: WorkArgs, now: Time, cfg: Config)
    requires Inv(w) && a.worker in w.workers
    ensures Inv(Announce(w, a, now, cfg))
    ensures Evolves(w.steps, Announce(w, a, now, cfg).steps)
  {
    ResetOrphansOk(w.steps, a.worker, now, cfg);
    KeepInv(w, Announce(w, a, now, cfg));
  }

  /** In a reachable state of this model, without removed steps, `get_work` only hands out steps that exist. */
  lemma DecisionIsKnown(w: World, a: WorkArgs, c: Choices, now: Time, cfg: Config)
    requires Inv(w) && ValidChoices(w, a, c, now, cfg)
    requires !Prepare(w, a, c.pruneOrder, now, cfg).workers[a.worker].disabled
    ensures var w2 := AtScan(w, a, c, now, cfg);
            && Inv(w2) && (forall id <- c.scan :: id in w2.steps)
            && (c.resend.Some? ==> c.resend.value in w2.steps)
            && Known(w2.steps, Decide(w2, a, c, now, cfg))
  {
    var w1 := Prepare(w, a, c.pruneOrder, now, cfg);
    PrepareOk(w, a, c.pruneOrder, now, cfg);
    AnnounceOk(w1, a, now, cfg);
    var w2 := AtScan(w, a, c, now, cfg);
    DecideKnown(w2, a, c, now, cfg);
  }

  /** The two ways in which `get_work` ends. */
  lemma GetWorkShape(w: World, a: WorkArgs, c: Choices, now: Time, cfg: Config) returns (reply: Reply)
    requires Inv(w) && ValidChoices(w, a, c, now, cfg)
    ensures var w1 := Prepare(w, a, c.pruneOrder, now, cfg);
            var w2 := AtScan(w, a, c, now, cfg);
            var r := GetWork(w, a, c, now, cfg);
            if w1.workers[a.worker].disabled then r == (w1, WorkerDisabled)
            else Known(w2.steps, reply) && r.1 == reply &&
                 r.0 == CountPending(w2, a.worker, now).(steps := HandOut(w2.steps, reply, a.worker, now, cfg))
    ensures !Prepare(w, a, c.pruneOrder, now, cfg).workers[a.worker].disabled ==>
              && ValidScan(AtScan(w, a, c, now, cfg), Relevant(AtScan(w, a, c, now, cfg), a.worker), c.scan)
              && reply == Decide(AtScan(w, a, c, now, cfg), a, c, now, cfg)
    ensures GetWork(w, a, c, now, cfg).0.steps.Keys == Prepare(w, a, c.pruneOrder, now, cfg).steps.Keys
  {
    reply := WorkerDisabled;
    var w1 := Prepare(w, a, c.pruneOrder, now, cfg);
    if !w1.workers[a.worker].disabled {
      DecisionIsKnown(w, a, c, now, cfg);
      var w2 := AtScan(w, a, c, now, cfg);
      reply := Decide(w2, a, c, now, cfg);
      PrepareOk(w, a, c.pruneOrder, now, cfg);
      AnnounceOk(w1, a, now, cfg);
      HandOutOk(w2.steps, reply, a.worker, now, cfg);
    }
  }

  lemma GetWorkOk(w: World, a: WorkArgs, c: Choices, now: Time, cfg: Config)
    requires Inv(w) && ValidChoices(w, a, c, now, cfg)
    ensures Inv(GetWork(w, a, c, now, cfg).0)
  {
    var reply := GetWorkShape(w, a, c, now, cfg);
    PrepareOk(w, a, c.pruneOrder, now, cfg);
    if !Prepare(w, a, c.pruneOrder, now, cfg).workers[a.worker].disabled {
      DecisionIsKnown(w, a, c, now, cfg);
      var w2 := AtScan(w, a, c, now, cfg);
      CountPendingOk(w2, a.worker, now);
      HandOutOk(w2.steps, reply, a.worker, now, cfg);
      KeepInv(CountPending(w2, a.worker, now), GetWork(w, a, c, now, cfg).0);
    }
  }

  // ---------------------------------------------------------------- all runs

  lemma DecreaseOk(w: World, id: StepId, d: Amounts, done: set<StepId>)
    requires Inv(w)
    ensures Inv(DecreaseRunning(w, id, d, done))
  {
    if id in w.steps {
      DecreaseStepsOk(w.steps, id, d, done);
      hide DecreaseSteps, Inv, Evolves;
      KeepInv(w, w.(steps := DecreaseSteps(w.steps, id, d, done)));
    }
  }

  lemma DecreaseStepsOk(steps: Steps, id: StepId, d: Amounts, done: set<StepId>)
    ensures Evolves(steps, DecreaseSteps(steps, id, d, done))
  {
    forall k | k in steps
      ensures var t := DecreaseOne(steps[k], d);
              t.id == steps[k].id && t.info == steps[k].info && (RecOk(steps[k]) ==> RecOk(t))
    {
    }
    hide DecreaseOne, RecOk;
  }

  lemma StatusCallsOk(w: World, id: StepId, now: Time, cfg: Config)
    requires Inv(w)
    ensures Inv(MarkAsDone(w, id, now, cfg)) && Inv(ForgiveFailures(w, id, now, cfg)) && Inv(ReEnableStep(w, id, now, cfg))
  {
    hide SetStatus, ReEnable, Inv, Evolves, StepsOk;
    if id in w.steps {
      SetStatusOk(w.steps, id, DONE, now, cfg);
      KeepInv(w, w.(steps := SetStatus(w.steps, id, DONE, now, cfg)));
      SetStatusOk(w.steps, id, PENDING, now, cfg);
      KeepInv(w, w.(steps := SetStatus(w.steps, id, PENDING, now, cfg)));
      ReEnableOk(w.steps, id, now, cfg);
      KeepInv(w, w.(steps := ReEnable(w.steps, id, now, cfg)));
    }
  }

  lemma WorkerCallsOk(w: World, x: WorkerId, info: WorkerInfo, now: Time)
    requires Inv(w)
    ensures Inv(w.(workers := GetWorker(w.workers, x, now)))
    ensures Inv(AddWorker(w, x, info, now)) && Inv(Ping(w, x, now))
  {
    KeepInv(w, w.(workers := GetWorker(w.workers, x, now)));
    KeepInv(w, AddWorker(w, x, info, now));
    KeepInv(w, Ping(w, x, now));
  }

  lemma NextKeepsInv(w: World, e: Event, now: Time, cfg: Config)
    requires Inv(w) && Possible(w, e, now, cfg)
    ensures Inv(Next(w, e, now, cfg))
  {
    match e
    case OnAddStep(a, pick) => AddStepOk(w, a, pick, now, cfg);
    case OnGetWork(a, c) => GetWorkOk(w, a, c, now, cfg);
    case OnCountPending(x) =>
      WorkerCallsOk(w, x, WorkerInfo(None, None), now);
      CountPendingOk(w.(workers := GetWorker(w.workers, x, now)), x, now);
    case OnPrune(order) => PruneOk(w, order, now, cfg);
    case OnMarkAsDone(id) => StatusCallsOk(w, id, now, cfg);
    case OnForgive(id) => StatusCallsOk(w, id, now, cfg);
    case OnReEnable(id) => StatusCallsOk(w, id, now, cfg);
    case OnDecrease(id, d, done) => DecreaseOk(w, id, d, done);
    case OnDisableWorker(x) => DisableWorkerOk(w, x, now);
    case OnAddWorker(x, info) => WorkerCallsOk(w, x, info, now);
    case OnPing(x) => WorkerCallsOk(w, x, WorkerInfo(None, None), now);
    case OnAddBatcher(x, family, b) =>
    case OnUpdateResource(r, amount) =>
    case OnUpdateResources(amounts) =>
    case OnSetPaused(paused) =>
  }

  /** Every state of every run satisfies the invariant. */
  lemma {:induction false} ReachableStatesAreOk(worlds: seq<World>, calls: seq<Call>, cfg: Config)
    requires IsRun(worlds, calls, cfg)
    ensures forall w <- worlds :: Inv(w)
  {
    var n := |calls|;
    if n > 0 {
      ReachableStatesAreOk(worlds[..n], calls[..n-1], cfg);
      assert worlds[n-1] in worlds[..n];
      NextKeepsInv(worlds[n-1], calls[n-1].event, calls[n-1].now, cfg);
      assert worlds == worlds[..n] + [worlds[n]];
    }
  }

  lemma LongerRun(worlds: seq<World>, calls: seq<Call>, call: Call, w: World, cfg: Config)
    requires IsRun(worlds, calls, cfg)
    requires Possible(worlds[|calls|], call.event, call.now, cfg) && w == Next(worlds[|calls|], call.event, call.now, cfg)
    ensures IsRun(worlds + [w], calls + [call], cfg)
  {
    hide Possible, Next;
  }
}
