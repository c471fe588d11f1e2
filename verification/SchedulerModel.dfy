/**
 The central scheduler as a state machine on values: one record per step and per worker,
 and one function per operation of `SimpleStepState` and `Scheduler`.

 Every operation receives the current time as an argument.  Wherever the source walks over a
 dictionary or a set whose order does not matter to the result, the model is given that order
 (or that choice) as an argument, constrained by a predicate; a theorem that quantifies over
 the argument then covers every order the source could use.
 */
module SchedulerModel {
  import opened Options
  import opened Sequences

  type StepId = nat
  type WorkerId = nat
  type Resource = nat
  type Time = int
  type Amounts = map<Resource, int>
  type BatchId = seq<StepId>  // the joined ids that the source hashes

  datatype Status = PENDING | RUNNING | BATCH_RUNNING | FAILED | DONE | DISABLED | UNKNOWN | SUSPENDED {
    predicate Runs() {
      RUNNING? || BATCH_RUNNING?
    }
  }

  datatype RetryPolicy = RetryPolicy(retryCount: int, hardTimeout: int, window: int)

  datatype Config = Config(
    retryDelay: int, removeDelay: int, disconnectDelay: int, disablePersist: int,
    stableDoneCooldown: int, pruneOnGetWork: bool, pauseEnabled: bool, policy: RetryPolicy)

  /** What `set_status` and its callers read and write. */
  datatype Life = Life(
    status: Status, updated: Time, retry: Option<Time>, remove: Option<Time>, batchId: Option<BatchId>,
    failures: seq<Time>, firstFailure: Option<Time>, disableTime: Option<Time>)

  /** Who may run the step, and where it stands in the graph and in the ranking. */
  datatype Info = Info(
    deps: set<StepId>, stakeholders: set<WorkerId>, workers: seq<WorkerId>, priority: int, time: Time,
    family: string, params: map<string, string>, runnable: bool, batchable: bool, policy: RetryPolicy)

  /** Who runs the step, and what that costs. */
  datatype Load = Load(
    workerRunning: Option<WorkerId>, resources: Amounts, resourcesRunning: Option<Amounts>,
    sharedResources: bool)  // resources_running is the very dictionary object `resources`

  /** The fields of a `Step`, in three groups. */
  datatype StepRec = StepRec(id: StepId, life: Life, info: Info, load: Load)

  datatype WorkerRec = WorkerRec(
    lastActive: Time, lastGetWork: Option<Time>, assistant: bool, processes: int, disabled: bool)

  datatype Batcher = Batcher(names: seq<string>, maxSize: Option<nat>)  // no maximum: infinity

  type Steps = map<StepId, StepRec>
  type Workers = map<WorkerId, WorkerRec>

  datatype World = World(
    steps: Steps, workers: Workers, batchers: map<(WorkerId, string), Batcher>, totals: Amounts, paused: bool)

  /** Python's truth value of an optional time stamp. */
  predicate Truthy(t: Option<Time>) {
    t.Some? && t.value != 0
  }

  // ---------------------------------------------------------------- failures of one step

  function AddFailure(l: Life, now: Time): Life {
    l.(failures := l.failures + [now],
       firstFailure := if Truthy(l.firstFailure) then l.firstFailure else Some(now))
  }

  /** What is left of the failure queue after popping old entries from its front. */
  function DropOld(failures: seq<Time>, minTime: Time): seq<Time> {
    if failures != [] && failures[0] < minTime then DropOld(failures[1..], minTime) else failures
  }

  predicate TimedOut(l: Life, policy: RetryPolicy, now: Time) {
    l.firstFailure.Some? && now >= l.firstFailure.value + policy.hardTimeout
  }

  /** The failure queue after `num_failures` has pruned it. */
  function RecentFailures(l: Life, policy: RetryPolicy, now: Time): seq<Time> {
    DropOld(l.failures, now - policy.window)
  }

  predicate Excessive(l: Life, policy: RetryPolicy, now: Time) {
    TimedOut(l, policy, now) || |RecentFailures(l, policy, now)| >= policy.retryCount
  }

  /** The effect of `has_excessive_failures`: it counts only when there is no hard timeout. */
  function CheckFailures(l: Life, policy: RetryPolicy, now: Time): Life {
    if TimedOut(l, policy, now) then l else l.(failures := RecentFailures(l, policy, now))
  }

  function ClearFailures(l: Life): Life {
    l.(failures := [], firstFailure := None)
  }

  // ---------------------------------------------------------------- set_status and its callers

  /** Status changes that `set_status` refuses. */
  predicate Refused(l: Life, target: Status) {
    || (target == DISABLED && l.status.Runs())
    || (l.status == DISABLED && l.disableTime.Some? && target != DONE && target != DISABLED)
  }

  predicate LeavesBatch(l: Life, target: Status) {
    l.status == RUNNING && l.batchId.Some? && target != RUNNING
  }

  function MoveTo(l: Life, target: Status, now: Time): Life {
    if l.status == target then l else l.(status := target, updated := now)
  }

  function MoveToFailed(l: Life, removeOnFailure: bool, now: Time, cfg: Config): Life {
    MoveTo(l, FAILED, now).(retry := Some(now + cfg.retryDelay), remove := if removeOnFailure then Some(now) else l.remove)
  }

  /** A failure is recorded; one too many disables the step. */
  function Fail(l: Life, policy: RetryPolicy, removeOnFailure: bool, now: Time, cfg: Config): Life {
    var failed := AddFailure(l, now);
    var checked := CheckFailures(failed, policy, now);
    if Excessive(failed, policy, now) then MoveTo(checked.(disableTime := Some(now)), DISABLED, now)
    else MoveToFailed(checked, removeOnFailure, now, cfg)
  }

  /** `set_status` on one step, without its effect on the other steps of a batch. */
  function SetLife(l: Life, batchable: bool, policy: RetryPolicy, target: Status, now: Time, cfg: Config): Life {
    if Refused(l, target) then l else
    var removeOnFailure := l.batchId.Some? && !batchable;
    var unbatched := if LeavesBatch(l, target) then l.(batchId := None) else l;
    match target
    case FAILED =>
      if l.status == DISABLED then MoveToFailed(unbatched, removeOnFailure, now, cfg)
      else Fail(unbatched, policy, removeOnFailure, now, cfg)
    case DISABLED => MoveTo(unbatched.(disableTime := None), DISABLED, now)
    case DONE =>
      MoveTo(if l.status == DISABLED then ClearFailures(unbatched.(disableTime := None)) else unbatched, DONE, now)
    case _ => MoveTo(unbatched, target, now)
  }

  function SetOne(s: StepRec, target: Status, now: Time, cfg: Config): StepRec {
    s.(life := SetLife(s.life, s.info.batchable, s.info.policy, target, now, cfg))
  }

  predicate InBatch(s: StepRec, b: Option<BatchId>) {
    s.life.status == BATCH_RUNNING && s.life.batchId == b
  }

  /** `set_status`: a running step that leaves its batch takes the members of the batch along. */
  function SetStatus(steps: Steps, id: StepId, target: Status, now: Time, cfg: Config): Steps
    requires id in steps
  {
    var s := steps[id];
    if !Refused(s.life, target) && LeavesBatch(s.life, target) then
      SetMembers(steps, s.life.batchId, target, now, cfg)[id := SetOne(s, target, now, cfg)]
    else
      steps[id := SetOne(s, target, now, cfg)]
  }

  function Unbatched(s: StepRec): StepRec {
    s.(life := s.life.(batchId := None))
  }

  function SetMembers(steps: Steps, b: Option<BatchId>, target: Status, now: Time, cfg: Config): Steps {
    map k | k in steps ::
      if InBatch(steps[k], b) then Unbatched(SetOne(steps[k], target, now, cfg)) else steps[k]
  }

  function ReEnable(steps: Steps, id: StepId, now: Time, cfg: Config): Steps
    requires id in steps
  {
    var cleared := steps[id := Forgiven(steps[id])];
    var failed := SetStatus(cleared, id, FAILED, now, cfg);
    failed[id := failed[id].(life := ClearFailures(failed[id].life))]
  }

  function Forgiven(s: StepRec): StepRec {
    s.(life := ClearFailures(s.life.(disableTime := None)))
  }

  /** A step that runs on a worker that is neither a stakeholder nor an assistant. */
  predicate Orphaned(s: StepRec, assistants: set<WorkerId>) {
    s.life.status.Runs() && s.load.workerRunning.Some? &&
    s.load.workerRunning.value !in s.info.stakeholders + assistants
  }

  function FailDead(steps: Steps, id: StepId, now: Time, cfg: Config, assistants: set<WorkerId>): Steps
    requires id in steps
  {
    if Orphaned(steps[id], assistants) then
      var failed := SetStatus(steps[id := Freed(steps[id])], id, FAILED, now, cfg);
      failed[id := failed[id].(life := failed[id].life.(retry := Some(now + cfg.retryDelay)))]
    else
      steps
  }

  function Freed(s: StepRec): StepRec {
    s.(load := s.load.(workerRunning := None))
  }

  function MarkUnwanted(s: StepRec, now: Time, cfg: Config): StepRec {
    if s.info.stakeholders == {} && s.life.remove.None? && s.life.status != RUNNING
    then s.(life := s.life.(remove := Some(now + cfg.removeDelay)))
    else s
  }

  predicate DisableExpired(s: StepRec, now: Time, cfg: Config) {
    s.life.status == DISABLED && s.life.disableTime.Some? && now - s.life.disableTime.value > cfg.disablePersist
  }

  predicate RetryDue(s: StepRec, now: Time, cfg: Config) {
    s.life.status == FAILED && cfg.retryDelay >= 0 && s.life.retry.Some? && s.life.retry.value < now
  }

  function UpdateStatus(steps: Steps, id: StepId, now: Time, cfg: Config): Steps
    requires id in steps
  {
    var marked := steps[id := MarkUnwanted(steps[id], now, cfg)];
    var enabled := if DisableExpired(marked[id], now, cfg) then ReEnable(marked, id, now, cfg) else marked;
    if RetryDue(enabled[id], now, cfg) then SetStatus(enabled, id, PENDING, now, cfg) else enabled
  }

  predicate MayPrune(s: StepRec, now: Time) {
    Truthy(s.life.remove) && now >= s.life.remove.value
  }

  // ---------------------------------------------------------------- prune

  predicate Silent(w: WorkerRec, now: Time, cfg: Config) {
    w.lastActive + cfg.disconnectDelay < now
  }

  function RemoveWorkers(steps: Steps, gone: set<WorkerId>, removeStakeholders: bool): Steps {
    map k | k in steps :: Deserted(steps[k], gone, removeStakeholders)
  }

  function Deserted(s: StepRec, gone: set<WorkerId>, removeStakeholders: bool): StepRec {
    s.(info := s.info.(
      stakeholders := if removeStakeholders then s.info.stakeholders - gone else s.info.stakeholders,
      workers := Without(s.info.workers, gone)))
  }

  function SilentWorkers(workers: Workers, now: Time, cfg: Config): set<WorkerId> {
    set x | x in workers && Silent(workers[x], now, cfg)
  }

  function PruneWorkers(w: World, now: Time, cfg: Config): World {
    var gone := SilentWorkers(w.workers, now, cfg);
    w.(workers := w.workers - gone, steps := RemoveWorkers(w.steps, gone, true))
  }

  function Assistants(workers: Workers): set<WorkerId> {
    set x | x in workers && workers[x].assistant
  }

  function PruneStep(steps: Steps, id: StepId, now: Time, cfg: Config, assistants: set<WorkerId>): Steps
    requires id in steps
  {
    UpdateStatus(FailDead(steps, id, now, cfg, assistants), id, now, cfg)
  }

  /** The loop of `_prune_steps` over the steps in `order`; the steps to remove are collected. */
  function PruneLoop(steps: Steps, order: seq<StepId>, now: Time, cfg: Config, assistants: set<WorkerId>,
                     doomed: set<StepId>): (r: (Steps, set<StepId>))
    requires forall id <- order :: id in steps
    ensures r.0.Keys == steps.Keys
    decreases |order|
  {
    if order == [] then (steps, doomed) else
    var next := PruneStep(steps, order[0], now, cfg, assistants);
    PruneLoop(next, order[1..], now, cfg, assistants,
              if MayPrune(next[order[0]], now) then doomed + {order[0]} else doomed)
  }

  function PruneSteps(w: World, order: seq<StepId>, now: Time, cfg: Config): World
    requires Lists(order, w.steps.Keys)
  {
    var (steps, doomed) := PruneLoop(w.steps, order, now, cfg, Assistants(w.workers), {});
    w.(steps := steps - doomed)
  }

  function Prune(w: World, order: seq<StepId>, now: Time, cfg: Config): World
    requires Lists(order, w.steps.Keys)
  {
    PruneSteps(PruneWorkers(w, now, cfg), order, now, cfg)
  }

  // ---------------------------------------------------------------- workers

  function NewWorker(now: Time): WorkerRec {
    WorkerRec(now, None, false, 1, false)
  }

  function GetWorker(workers: Workers, x: WorkerId, now: Time): Workers {
    if x in workers then workers else workers[x := NewWorker(now)]
  }

  function Touch(workers: Workers, x: WorkerId, getWork: bool, now: Time): Workers {
    var known := GetWorker(workers, x, now);
    var w := known[x].(lastActive := now);
    known[x := if getWork then w.(lastGetWork := Some(now)) else w]
  }

  function DisableWorker(w: World, x: WorkerId, now: Time): World {
    var known := GetWorker(w.workers, x, now);
    w.(steps := RemoveWorkers(w.steps, {x}, false), workers := known[x := known[x].(disabled := true)])
  }

  datatype WorkerInfo = WorkerInfo(assistant: Option<bool>, processes: Option<int>)

  function AddInfo(w: WorkerRec, info: WorkerInfo): WorkerRec {
    w.(assistant := if info.assistant.Some? then info.assistant.value else w.assistant,
       processes := if info.processes.Some? then info.processes.value else w.processes)
  }

  function AddWorker(w: World, x: WorkerId, info: WorkerInfo, now: Time): World {
    var known := GetWorker(w.workers, x, now);
    w.(workers := known[x := AddInfo(known[x], info)])
  }

  // ---------------------------------------------------------------- add_step

  datatype AddArgs = AddArgs(
    worker: WorkerId, id: StepId, status: Status, runnable: bool, deps: Option<set<StepId>>,
    newDeps: Option<set<StepId>>, resources: Amounts, priority: int, family: string,
    params: Option<map<string, string>>, assistant: bool, batchable: Option<bool>,
    batchId: Option<BatchId>, policy: RetryPolicy)

  function NewStep(id: StepId, status: Status, deps: set<StepId>, resources: Amounts, priority: int,
                   family: string, params: map<string, string>, policy: RetryPolicy, now: Time): StepRec {
    StepRec(id, Life(status, now, None, None, None, [], None, None),
            Info(deps, {}, [], priority, now, family, params, false, false, policy),
            Load(None, resources, None, false))
  }

  function DefaultStep(a: AddArgs, now: Time, cfg: Config): StepRec {
    NewStep(a.id, PENDING, GetOr(a.deps, {}), a.resources, a.priority, a.family, GetOr(a.params, map[]), cfg.policy, now)
  }

  /** `add_step` returns without touching the step. */
  predicate Ignored(steps: Steps, a: AddArgs, enabled: bool, now: Time, cfg: Config) {
    || (!enabled && (a.id !in steps || steps[a.id].life.status != RUNNING))
    || (a.status == PENDING && a.id in steps && steps[a.id].life.status == DONE
        && now - steps[a.id].life.updated < cfg.stableDoneCooldown)
  }

  /** Family, parameters, batch id and owner, before the resources of a batch are looked up. */
  function Describe(s: StepRec, a: AddArgs): StepRec {
    s.(info := s.info.(
         family := if s.info.family == "" then a.family else s.info.family,
         params := if s.info.params == map[] then GetOr(a.params, map[]) else s.info.params),
       life := s.life.(batchId := if a.batchId.Some? then a.batchId else s.life.batchId),
       load := s.load.(workerRunning :=
         if a.status == RUNNING && s.load.workerRunning.None? then Some(a.worker) else s.load.workerRunning))
  }

  /** The report makes an unowned step run as a batch, so it copies the resources of a member. */
  predicate CopiesResources(s: StepRec, a: AddArgs) {
    a.status == RUNNING && s.load.workerRunning.None? && a.batchId.Some? && a.batchId.value != []
  }

  /** The member that `batch_steps[0]` denotes, if there is one. */
  predicate ValidPick(steps: Steps, b: Option<BatchId>, pick: Option<StepId>) {
    if pick.None? then forall k <- steps :: !InBatch(steps[k], b)
    else pick.value in steps && InBatch(steps[pick.value], b)
  }

  /** The lookup of `batch_steps[0].resources_running` raises an exception. */
  predicate PickFails(steps: Steps, pick: Option<StepId>) {
    pick.None? || pick.value !in steps || steps[pick.value].load.resourcesRunning.None?
  }

  predicate HasNewDeps(a: AddArgs) {
    a.newDeps.Some? && a.newDeps.value != {}
  }

  /** The report is allowed to change the status. */
  predicate MayReport(s: StepRec, a: AddArgs) {
    || !s.life.status.Runs()
    || ((a.status == DONE || a.status == FAILED || a.status == RUNNING) && s.load.workerRunning == Some(a.worker))
    || HasNewDeps(a)
  }

  function Rewire(s: StepRec, a: AddArgs): StepRec {
    s.(info := s.info.(deps := GetOr(a.deps, s.info.deps) + GetOr(a.newDeps, {})),
       load := s.load.(resources := a.resources, sharedResources := false))
  }

  function Placeholder(id: StepId, priority: int, now: Time, cfg: Config): StepRec {
    NewStep(id, UNKNOWN, {}, map[], priority, "", map[], cfg.policy, now)
  }

  /** The reporting worker becomes a stakeholder of the step and of its dependencies,
      which are created where they do not exist yet. */
  function AddStakeholder(steps: Steps, id: StepId, x: WorkerId, priority: int, now: Time, cfg: Config): Steps
    requires id in steps
  {
    var deps := steps[id].info.deps;
    map k | k in steps.Keys + deps ::
      var s := if k in steps then steps[k] else Placeholder(k, priority, now, cfg);
      if k == id || k in deps then Watched(s, x) else s
  }

  function Watched(s: StepRec, x: WorkerId): StepRec {
    s.(info := s.info.(stakeholders := s.info.stakeholders + {x}))
  }

  function Enlist(s: StepRec, a: AddArgs, enabled: bool): StepRec {
    var info := s.info.(policy := a.policy);
    s.(info := if a.runnable && a.status != FAILED && enabled
               then info.(workers := AddLast(info.workers, a.worker), runnable := true) else info)
  }

  /** The step as `add_step` finds it or makes it. */
  function Found(steps: Steps, a: AddArgs, now: Time, cfg: Config): StepRec {
    if a.id in steps then steps[a.id] else DefaultStep(a, now, cfg)
  }

  /** The part of `add_step` before the batch lookup. */
  function AddStepHead(steps: Steps, a: AddArgs, now: Time, cfg: Config): Steps {
    steps[a.id := Describe(Found(steps, a, now, cfg), a)]
  }

  /** The steps after the batch lookup, unless that raised an exception. */
  function AddStepStart(steps: Steps, a: AddArgs, pick: Option<StepId>, now: Time, cfg: Config): (r: Option<Steps>)
    ensures r.Some? ==> a.id in r.value
  {
    var head := AddStepHead(steps, a, now, cfg);
    if !CopiesResources(Found(steps, a, now, cfg), a) then Some(head)
    else if PickFails(head, pick) then None
    else Some(head[a.id := Equipped(head[a.id], head[pick.value].load.resourcesRunning)])
  }

  function Unmark(s: StepRec, a: AddArgs): StepRec {
    s.(info := s.info.(batchable := GetOr(a.batchable, s.info.batchable)), life := s.life.(remove := None))
  }

  function Report(steps: Steps, a: AddArgs, now: Time, cfg: Config): (r: Steps)
    requires a.id in steps
    ensures r.Keys == steps.Keys
  {
    if MayReport(steps[a.id], a)
    then SetStatus(steps, a.id, if a.status == SUSPENDED then PENDING else a.status, now, cfg)
    else steps
  }

  /** The part of `add_step` after the batch lookup. */
  ghost function AddStepTail(steps: Steps, a: AddArgs, enabled: bool, now: Time, cfg: Config): Steps
    requires a.id in steps
  {
    var unmarked := steps[a.id := Unmark(steps[a.id], a)];
    var reported := Report(unmarked, a, now, cfg);
    var rewired := reported[a.id := Rewire(reported[a.id], a)];
    var watched := if enabled && !a.assistant
                   then AddStakeholder(rewired, a.id, a.worker, a.priority, now, cfg) else rewired;
    var raised := UpdatePriority(watched, a.id, a.priority);
    raised[a.id := Enlist(raised[a.id], a, enabled)]
  }

  /** `add_step` on the steps, once the report is not ignored; the second result says that
      the lookup of the batch resources raised an exception half way. */
  ghost function ApplyReport(steps: Steps, a: AddArgs, enabled: bool, pick: Option<StepId>, now: Time, cfg: Config): (Steps, bool) {
    match AddStepStart(steps, a, pick, now, cfg)
    case None => (AddStepHead(steps, a, now, cfg), true)
    case Some(start) => (AddStepTail(start, a, enabled, now, cfg), false)
  }

  /** `add_step`; the second result says that it raised an exception. */
  ghost function AddStep(w: World, a: AddArgs, pick: Option<StepId>, now: Time, cfg: Config): (World, bool) {
    var workers := Touch(w.workers, a.worker, false, now);
    var enabled := !workers[a.worker].disabled;
    if Ignored(w.steps, a, enabled, now, cfg) then (w.(workers := workers), false) else
    var (steps, failed) := ApplyReport(w.steps, a, enabled, pick, now, cfg);
    (w.(workers := workers, steps := steps), failed)
  }

  function Equipped(s: StepRec, amounts: Option<Amounts>): StepRec {
    s.(load := s.load.(resourcesRunning := amounts, sharedResources := false))
  }

  // ---------------------------------------------------------------- priorities

  function Max(a: int, b: int): int {
    if a >= b then a else b
  }

  /** A path along dependencies whose steps, after the first, all have priority below `prio`. */
  predicate RaisingPath(steps: Steps, path: seq<StepId>, prio: int) {
    && path != []
    && (forall x <- path :: x in steps)
    && (forall i :: 0 < i < |path| ==> path[i] in steps[path[i-1]].info.deps && steps[path[i]].info.priority < prio)
  }

  ghost predicate RaisedBy(steps: Steps, root: StepId, prio: int, k: StepId) {
    exists path :: RaisingPath(steps, path, prio) && path[0] == root && path[|path| - 1] == k
  }

  function Lifted(s: StepRec, prio: int): StepRec {
    s.(info := s.info.(priority := prio))
  }

  /** `_update_priority`: everything that the recursion reaches is lifted to the new priority. */
  ghost function UpdatePriority(steps: Steps, root: StepId, priority: int): Steps
    requires root in steps
  {
    var prio := Max(priority, steps[root].info.priority);
    map k | k in steps :: if RaisedBy(steps, root, prio, k) then Lifted(steps[k], prio) else steps[k]
  }

  // ---------------------------------------------------------------- resources and the scan of get_work

  function At(m: Amounts, r: Resource): int {
    if r in m then m[r] else 0
  }

  function Plus(m: Amounts, d: Amounts): Amounts {
    map r | r in m.Keys + d.Keys :: At(m, r) + At(d, r)
  }

  function TotalOf(totals: Amounts, r: Resource): int {
    if r in totals then totals[r] else 1
  }

  predicate HasResources(needed: Amounts, used: Amounts, totals: Amounts) {
    forall r <- needed :: needed[r] + At(used, r) <= TotalOf(totals, r)
  }

  /** The amounts a running step is charged with. */
  function Charge(s: StepRec): Amounts {
    if s.load.resourcesRunning.Some? then s.load.resourcesRunning.value else s.load.resources
  }

  predicate HigherOrEqual(s: StepRec, t: StepRec) {
    s.info.priority > t.info.priority || (s.info.priority == t.info.priority && s.info.time <= t.info.time)
  }

  predicate Ranked(q: seq<StepRec>) {
    forall i, j :: 0 <= i < j < |q| ==> HigherOrEqual(q[i], q[j])
  }

  predicate Schedulable(steps: Steps, s: StepRec) {
    s.life.status == PENDING && forall d <- s.info.deps :: d in steps && steps[d].life.status == DONE
  }

  /** What the greedy simulation has left of each worker, and what it has reserved. */
  datatype Greedy = Greedy(slots: map<WorkerId, int>, reserved: Amounts)

  function TakeSlot(g: Greedy, x: WorkerId, amounts: Amounts): Greedy
    requires x in g.slots
  {
    Greedy(g.slots[x := g.slots[x] - 1], Plus(g.reserved, amounts))
  }

  function ChargeRunning(g: Greedy, s: StepRec): Greedy {
    if s.life.status == RUNNING && s.load.workerRunning.Some? && s.load.workerRunning.value in g.slots
    then TakeSlot(g, s.load.workerRunning.value, Charge(s)) else g
  }

  predicate HasSlot(g: Greedy, x: WorkerId) {
    x in g.slots && g.slots[x] > 0
  }

  /** The first candidate with a free slot pays for the step. */
  function Reserve(g: Greedy, candidates: seq<WorkerId>, amounts: Amounts): Greedy {
    if candidates == [] then g
    else if HasSlot(g, candidates[0]) then TakeSlot(g, candidates[0], amounts)
    else Reserve(g, candidates[1..], amounts)
  }

  /** What stays the same during one scan. */
  datatype Request = Request(worker: WorkerId, assistant: bool, used: Amounts, totals: Amounts)

  predicate MayRun(req: Request, s: StepRec) {
    (req.assistant && s.info.runnable) || req.worker in s.info.workers
  }

  predicate Grantable(steps: Steps, req: Request, g: Greedy, s: StepRec) {
    && Schedulable(steps, s) && HasResources(s.load.resources, g.reserved, req.totals)
    && MayRun(req, s) && HasResources(s.load.resources, req.used, req.totals)
  }

  function Candidates(req: Request, s: StepRec): seq<WorkerId> {
    if req.assistant then s.info.workers + [req.worker] else s.info.workers
  }

  /** The greedy state after the scan has passed over one step. */
  function PassOver(steps: Steps, req: Request, g: Greedy, s: StepRec): Greedy {
    var g1 := ChargeRunning(g, s);
    if Schedulable(steps, s) && HasResources(s.load.resources, g1.reserved, req.totals)
    then Reserve(g1, Candidates(req, s), s.load.resources) else g1
  }

  function PassAll(steps: Steps, req: Request, g: Greedy, q: seq<StepRec>): Greedy {
    if q == [] then g else PassOver(steps, req, PassAll(steps, req, g, q[..|q|-1]), q[|q|-1])
  }

  /** The scan stops at position `i`. */
  predicate StopsAt(steps: Steps, req: Request, g: Greedy, q: seq<StepRec>, i: nat)
    requires i < |q|
  {
    Grantable(steps, req, ChargeRunning(PassAll(steps, req, g, q[..i]), q[i]), q[i])
  }

  /** The position of the best step, or the length of `q` if there is none. */
  function Pick(steps: Steps, req: Request, g: Greedy, q: seq<StepRec>, from: nat): (i: nat)
    requires from <= |q|
    ensures from <= i <= |q|
    ensures i < |q| ==> StopsAt(steps, req, g, q, i)
    ensures forall j :: from <= j < i ==> !StopsAt(steps, req, g, q, j)
    decreases |q| - from
  {
    if from == |q| || StopsAt(steps, req, g, q, from) then from else Pick(steps, req, g, q, from + 1)
  }

  // ---------------------------------------------------------------- batches

  function GetBatcher(w: World, x: WorkerId, family: string): Batcher {
    if (x, family) in w.batchers then w.batchers[(x, family)] else Batcher([], Some(1))
  }

  predicate StartsBatch(b: Batcher, s: StepRec) {
    b.names != [] && s.info.batchable && forall n <- b.names :: n in s.info.params
  }

  predicate JoinsBatch(steps: Steps, b: Batcher, best: StepRec, s: StepRec) {
    && s.info.family == best.info.family && s.info.batchable
    && (forall n <- best.info.params :: n in b.names || (n in s.info.params && s.info.params[n] == best.info.params[n]))
    && s.load.resources == best.load.resources && Schedulable(steps, s)
  }

  predicate BelowMax(size: nat, b: Batcher) {
    b.maxSize.Some? ==> size < b.maxSize.value
  }

  function IdsOf(q: seq<StepRec>): set<StepId> {
    set s | s in q :: s.id
  }

  /** The batch that the rest of the scan collects behind the best step. */
  function Collect(steps: Steps, b: Batcher, best: StepRec, batch: seq<StepId>, q: seq<StepRec>): (r: seq<StepId>)
    ensures batch <= r
    ensures forall id <- r :: id in batch || id in IdsOf(q)
    decreases |q|
  {
    if q == [] then batch else
    assert IdsOf(q) == {q[0].id} + IdsOf(q[1..]);
    if BelowMax(|batch|, b) && JoinsBatch(steps, b, best, q[0])
    then Collect(steps, b, best, batch + [q[0].id], q[1..])
    else Collect(steps, b, best, batch, q[1..])
  }

  function SetBatchRunning(steps: Steps, id: StepId, b: BatchId, x: WorkerId, now: Time, cfg: Config): Steps
    requires id in steps
  {
    var moved := SetStatus(steps, id, BATCH_RUNNING, now, cfg);
    moved[id := Batched(moved[id], b, x)]
  }

  function Batched(s: StepRec, b: BatchId, x: WorkerId): StepRec {
    s.(life := s.life.(batchId := Some(b)),
       load := Load(Some(x), s.load.resources, Some(s.load.resources), true))
  }

  function StartBatch(steps: Steps, todo: seq<StepId>, b: BatchId, x: WorkerId, now: Time, cfg: Config): (r: Steps)
    requires forall id <- todo :: id in steps
    ensures r.Keys == steps.Keys
  {
    if todo == [] then steps
    else SetBatchRunning(StartBatch(steps, todo[..|todo|-1], b, x, now, cfg), todo[|todo|-1], b, x, now, cfg)
  }

  predicate OrphanedMember(steps: Steps, s: StepRec, x: WorkerId) {
    && s.life.status == BATCH_RUNNING && s.load.workerRunning == Some(x)
    && forall k <- steps :: steps[k].life.status == RUNNING && steps[k].load.workerRunning == Some(x) ==> steps[k].life.batchId != s.life.batchId
  }

  function ResetOrphans(steps: Steps, x: WorkerId, now: Time, cfg: Config): Steps {
    map k | k in steps ::
      if OrphanedMember(steps, steps[k], x) then SetOne(steps[k], PENDING, now, cfg) else steps[k]
  }

  // ---------------------------------------------------------------- get_work

  datatype WorkArgs = WorkArgs(worker: WorkerId, assistant: bool, current: Option<set<StepId>>)

  /** The orders and choices that the source leaves to dictionaries and sets. */
  datatype Choices = Choices(pruneOrder: seq<StepId>, resend: Option<StepId>, scan: seq<StepId>)

  datatype Reply = WorkerDisabled | NoWork | Granted(id: StepId) | BatchGranted(batchId: BatchId)

  /** A step that the scheduler believes to run on the worker, which does not know about it. */
  predicate Unclaimed(s: StepRec, a: WorkArgs) {
    a.current.Some? && s.life.status == RUNNING && s.load.workerRunning == Some(a.worker) && s.id !in a.current.value
  }

  predicate ValidResend(steps: Steps, a: WorkArgs, resend: Option<StepId>) {
    if resend.None? then forall k <- steps :: !Unclaimed(steps[k], a)
    else resend.value in steps && Unclaimed(steps[resend.value], a) &&
         forall k <- steps :: Unclaimed(steps[k], a) ==> HigherOrEqual(steps[resend.value], steps[k])
  }

  predicate Trivial(w: World, x: WorkerId)
    requires x in w.workers
  {
    !w.workers[x].assistant &&
    forall k <- w.steps :: w.steps[k].life.status == PENDING && x in w.steps[k].info.workers ==> w.steps[k].load.resources == map[]
  }

  function Open(steps: Steps): set<StepId> {
    set k | k in steps && (steps[k].life.status == PENDING || steps[k].life.status == RUNNING)
  }

  function OpenFor(steps: Steps, x: WorkerId): set<StepId> {
    set k | k in Open(steps) && x in steps[k].info.workers
  }

  function Relevant(w: World, x: WorkerId): set<StepId>
    requires x in w.workers
  {
    if w.paused then {} else if Trivial(w, x) then OpenFor(w.steps, x) else Open(w.steps)
  }

  function RecsOf(steps: Steps, ids: seq<StepId>): (q: seq<StepRec>)
    requires forall id <- ids :: id in steps
    ensures |q| == |ids|
  {
    seq(|ids|, i requires 0 <= i < |ids| => assert ids[i] in ids; steps[ids[i]])
  }

  predicate ValidScan(w: World, relevant: set<StepId>, scan: seq<StepId>) {
    Lists(scan, relevant) && relevant <= w.steps.Keys && Ranked(RecsOf(w.steps, scan))
  }

  ghost function UsedResources(steps: Steps): Amounts {
    map r | r in UsedKeys(steps) :: UsedAt(steps, Running(steps), r)
  }

  function Running(steps: Steps): set<StepId> {
    set k | k in steps && steps[k].life.status == RUNNING
  }

  function UsedKeys(steps: Steps): set<Resource> {
    set k, r | k in Running(steps) && r in Charge(steps[k]) :: r
  }

  /** The sum of what the steps in `ids` are charged for one resource. */
  ghost function UsedAt(steps: Steps, ids: set<StepId>, r: Resource): int
    requires ids <= steps.Keys
  {
    if ids == {} then 0 else
    var k :| k in ids;
    At(Charge(steps[k]), r) + UsedAt(steps, ids - {k}, r)
  }

  function ActiveSlots(workers: Workers, now: Time, cfg: Config): map<WorkerId, int> {
    map x | x in workers && workers[x].lastGetWork.Some? && workers[x].lastGetWork.value > now - cfg.disconnectDelay
      :: workers[x].processes
  }

  ghost function RequestOf(w: World, a: WorkArgs): Request
    requires a.worker in w.workers
  {
    Request(a.worker, a.assistant, if Trivial(w, a.worker) then map[] else UsedResources(w.steps), w.totals)
  }

  function GreedyOf(w: World, a: WorkArgs, now: Time, cfg: Config): Greedy
    requires a.worker in w.workers
  {
    Greedy(if Trivial(w, a.worker) then map[] else ActiveSlots(w.workers, now, cfg), map[])
  }

  /** `get_work` up to the scan: prune, register the worker, put orphans of batches back. */
  function Prepare(w: World, a: WorkArgs, pruneOrder: seq<StepId>, now: Time, cfg: Config): (r: World)
    requires cfg.pruneOnGetWork ==> Lists(pruneOrder, w.steps.Keys)
    ensures a.worker in r.workers
  {
    var w0 := if cfg.pruneOnGetWork then Prune(w, pruneOrder, now, cfg) else w;
    w0.(workers := Touch(w0.workers, a.worker, true, now))
  }

  function Announce(w: World, a: WorkArgs, now: Time, cfg: Config): (r: World)
    requires a.worker in w.workers
    ensures a.worker in r.workers
  {
    var w1 := if a.assistant then w.(workers := w.workers[a.worker := w.workers[a.worker].(assistant := true)]) else w;
    if a.current.Some? then w1.(steps := ResetOrphans(w1.steps, a.worker, now, cfg)) else w1
  }

  /** `count_pending` looks up, and so creates, the workers that own running steps. */
  function Owners(steps: Steps, x: WorkerId): set<WorkerId> {
    set k | k in steps && steps[k].life.status == RUNNING && x in steps[k].info.workers && steps[k].load.workerRunning.Some?
      :: steps[k].load.workerRunning.value
  }

  function WithWorkers(workers: Workers, ids: set<WorkerId>, now: Time): Workers {
    map y | y in workers.Keys + ids :: if y in workers then workers[y] else NewWorker(now)
  }

  function CountPending(w: World, x: WorkerId, now: Time): World {
    w.(workers := WithWorkers(w.workers, Owners(w.steps, x), now))
  }

  function Grant(steps: Steps, id: StepId, x: WorkerId, now: Time, cfg: Config): Steps
    requires id in steps
  {
    var moved := SetStatus(steps, id, RUNNING, now, cfg);
    moved[id := Started(moved[id], x)]
  }

  function Started(s: StepRec, x: WorkerId): StepRec {
    s.(load := Load(Some(x), s.load.resources, Some(s.load.resources), false))
  }

  predicate ValidChoices(w: World, a: WorkArgs, c: Choices, now: Time, cfg: Config) {
    && (cfg.pruneOnGetWork ==> Lists(c.pruneOrder, w.steps.Keys))
    && var w1 := Prepare(w, a, c.pruneOrder, now, cfg);
       !w1.workers[a.worker].disabled ==>
         && ValidResend(w1.steps, a, c.resend)
         && var w2 := Announce(w1, a, now, cfg);
            ValidScan(w2, Relevant(w2, a.worker), c.scan)
  }

  /** The batch that the scan collects, starting with the step at position `i`. */
  function BatchAt(w: World, x: WorkerId, q: seq<StepRec>, i: nat): (batch: seq<StepId>)
    requires i < |q|
    ensures forall id <- batch :: id in IdsOf(q)
  {
    var b := GetBatcher(w, x, q[i].info.family);
    if StartsBatch(b, q[i]) then Collect(w.steps, b, q[i], [q[i].id], q[i+1..]) else []
  }

  function ReplyFor(id: StepId, batch: seq<StepId>): Reply {
    if |batch| > 1 then BatchGranted(batch) else Granted(id)
  }

  /** What `get_work` decides to hand out. */
  ghost function Decide(w: World, a: WorkArgs, c: Choices, now: Time, cfg: Config): (r: Reply)
    requires a.worker in w.workers && forall id <- c.scan :: id in w.steps
  {
    if c.resend.Some? then Granted(c.resend.value) else
    var q := RecsOf(w.steps, c.scan);
    var i := Pick(w.steps, RequestOf(w, a), GreedyOf(w, a, now, cfg), q, 0);
    if i == |q| then NoWork else ReplyFor(q[i].id, BatchAt(w, a.worker, q, i))
  }

  predicate Known(steps: Steps, r: Reply) {
    match r
    case Granted(id) => id in steps
    case BatchGranted(ids) => forall id <- ids :: id in steps
    case _ => true
  }

  function HandOut(steps: Steps, r: Reply, x: WorkerId, now: Time, cfg: Config): Steps
    requires Known(steps, r)
  {
    match r
    case Granted(id) => Grant(steps, id, x, now, cfg)
    case BatchGranted(ids) => StartBatch(steps, ids, ids, x, now, cfg)
    case _ => steps
  }

  predicate Keyed(steps: Steps) {
    forall k <- steps :: steps[k].id == k
  }

  lemma DecideKnown(w: World, a: WorkArgs, c: Choices, now: Time, cfg: Config)
    requires a.worker in w.workers && (forall id <- c.scan :: id in w.steps) && Keyed(w.steps)
    requires c.resend.Some? ==> c.resend.value in w.steps
    ensures Known(w.steps, Decide(w, a, c, now, cfg))
  {
    var q := RecsOf(w.steps, c.scan);
    forall id | id in IdsOf(q)
      ensures id in w.steps
    {
      var i :| 0 <= i < |q| && q[i].id == id;
      assert c.scan[i] in c.scan;
    }
    forall i | 0 <= i < |q|
      ensures q[i].id in IdsOf(q)
    {
      assert q[i] in q;
    }
  }

  /** The scheduler at the moment of the scan. */
  function AtScan(w: World, a: WorkArgs, c: Choices, now: Time, cfg: Config): (r: World)
    requires cfg.pruneOnGetWork ==> Lists(c.pruneOrder, w.steps.Keys)
    ensures a.worker in r.workers
  {
    Announce(Prepare(w, a, c.pruneOrder, now, cfg), a, now, cfg)
  }

  /** `get_work`.  The reply is `Known` by `DecideKnown`. */
  ghost function GetWork(w: World, a: WorkArgs, c: Choices, now: Time, cfg: Config): (World, Reply)
    requires ValidChoices(w, a, c, now, cfg)
  {
    var w1 := Prepare(w, a, c.pruneOrder, now, cfg);
    if w1.workers[a.worker].disabled then (w1, WorkerDisabled) else
    var w2 := AtScan(w, a, c, now, cfg);
    var reply := Decide(w2, a, c, now, cfg);
    var w3 := CountPending(w2, a.worker, now);
    if Known(w3.steps, reply) then (w3.(steps := HandOut(w3.steps, reply, a.worker, now, cfg)), reply) else (w3, reply)
  }

  // ---------------------------------------------------------------- the remaining operations

  function MarkAsDone(w: World, id: StepId, now: Time, cfg: Config): World {
    if id in w.steps && (w.steps[id].life.status == RUNNING || w.steps[id].life.status == FAILED || w.steps[id].life.status == DISABLED)
    then w.(steps := SetStatus(w.steps, id, DONE, now, cfg)) else w
  }

  function ForgiveFailures(w: World, id: StepId, now: Time, cfg: Config): World {
    if id in w.steps && w.steps[id].life.status == FAILED
    then w.(steps := SetStatus(w.steps, id, PENDING, now, cfg)) else w
  }

  function ReEnableStep(w: World, id: StepId, now: Time, cfg: Config): World {
    if id in w.steps && w.steps[id].life.status == DISABLED && Truthy(w.steps[id].life.disableTime)
    then w.(steps := ReEnable(w.steps, id, now, cfg)) else w
  }

  function Decreased(m: Amounts, d: Amounts): Amounts {
    map r | r in m :: if r in d && d[r] > 0 then Max(0, m[r] - d[r]) else m[r]
  }

  function DecreaseOne(s: StepRec, d: Amounts): StepRec {
    if s.load.resourcesRunning.None? then s else
    var m := Decreased(s.load.resourcesRunning.value, d);
    s.(load := s.load.(resourcesRunning := Some(m), resources := if s.load.sharedResources then m else s.load.resources))
  }

  predicate MemberOf(steps: Steps, id: StepId, k: StepId)
    requires id in steps && k in steps
  {
    steps[id].life.batchId.Some? && InBatch(steps[k], steps[id].life.batchId)
  }

  /** The running step and the members of its batch in `done`. */
  function DecreaseSteps(steps: Steps, id: StepId, d: Amounts, done: set<StepId>): Steps {
    map k | k in steps :: if k == id || k in done then DecreaseOne(steps[k], d) else steps[k]
  }

  /** A step that should be decreased has no running resources, which raises an exception. */
  predicate DecreaseRaises(steps: Steps, id: StepId) {
    id in steps && steps[id].life.status == RUNNING &&
    (steps[id].load.resourcesRunning.None? || exists k <- steps :: MemberOf(steps, id, k) && steps[k].load.resourcesRunning.None?)
  }

  /** The members that are decreased: all of them, or those in front of the one that raises the exception. */
  predicate ValidDecrease(steps: Steps, id: StepId, done: set<StepId>) {
    id in steps && steps[id].life.status == RUNNING ==>
      && (forall k <- done :: k in steps && MemberOf(steps, id, k) && steps[k].load.resourcesRunning.Some?)
      && (!DecreaseRaises(steps, id) ==> forall k <- steps :: MemberOf(steps, id, k) ==> k in done)
  }

  function DecreaseRunning(w: World, id: StepId, d: Amounts, done: set<StepId>): World {
    if id in w.steps && w.steps[id].life.status == RUNNING && w.steps[id].load.resourcesRunning.Some?
    then w.(steps := DecreaseSteps(w.steps, id, d, done)) else w
  }

  function AddBatcher(w: World, x: WorkerId, family: string, b: Batcher): World {
    w.(batchers := w.batchers[(x, family) := b])
  }

  function UpdateResource(w: World, r: Resource, amount: int): World {
    if amount < 0 then w else w.(totals := w.totals[r := amount])
  }

  function UpdateResources(w: World, amounts: Amounts): World {
    w.(totals := w.totals + amounts)
  }

  function SetPaused(w: World, paused: bool, cfg: Config): World {
    if cfg.pauseEnabled then w.(paused := paused) else w
  }

  function Ping(w: World, x: WorkerId, now: Time): World {
    w.(workers := Touch(w.workers, x, false, now))
  }
}
