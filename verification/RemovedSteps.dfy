/**
 The scheduler with the step objects that a worker still holds after they have been removed.

 `inactivate_steps` takes a step out of the table and out of the index of its status, but not out of
 `worker.steps`.  The shortcut in `Worker.get_steps` can come upon such a step later.  A state of this module
 therefore says which object each active step is, and which removed objects each worker holds; the outcome of
 a call says which exception it raised, if any.  `O` is the type of the identities of step objects.
 */
module RemovedSteps {
  import opened Options
  import opened Sequences
  import opened SchedulerModel
  import opened SchedulerInvariants

  /** A step object and its fields. */
  datatype Item<O> = Item(obj: O, rec: StepRec)

  datatype System<O(==)> = System(w: World, who: map<StepId, O>, held: map<WorkerId, set<Item<O>>>)

  datatype Outcome =
    | Finished
    | Replied(reply: Reply)
    | LookupFailed  // a KeyError for a step that is DONE, in `_upstream_status`
    | MissingKey    // a KeyError for a step that is not in the index of its status, in `set_status`
    | ForeignKey    // `set_status` took another step out of the index
    | NoBatchResources    // `add_step` finds no running resources to copy from its batch
    | NoRunningResources  // `decrease_running_step_resources` comes upon a step that has none
  {
    predicate Raises() {
      !Finished? && !Replied?
    }
  }

  /** The object is not the active step with its id. */
  ghost predicate Gone<O>(s: System<O>, it: Item<O>) {
    it.rec.id !in s.who || s.who[it.rec.id] != it.obj
  }

  ghost predicate HeldOk<O>(s: System<O>, x: WorkerId) {
    x in s.held ==> forall it <- s.held[x] :: Gone(s, it) && x in it.rec.info.workers && RecOk(it.rec)
  }

  ghost predicate SystemOk<O>(s: System<O>) {
    && Inv(s.w) && s.who.Keys == s.w.steps.Keys && s.held.Keys == s.w.workers.Keys
    && forall x <- s.held :: HeldOk(s, x)
  }

  // ---------------------------------------------------------------- what a worker sees

  ghost function StatusIds(w: World, statuses: set<Status>): set<StepId> {
    set k | k in w.steps && w.steps[k].life.status in statuses
  }

  ghost function OwnIds(w: World, x: WorkerId): set<StepId> {
    set k | k in w.steps && x in w.steps[k].info.workers
  }

  ghost function Objects<O>(s: System<O>, ids: set<StepId>): set<O> {
    set k | k in ids && k in s.who :: s.who[k]
  }

  ghost function ItemsOf<O>(s: System<O>, ids: set<StepId>): set<Item<O>> {
    set k | k in ids && k in s.who && k in s.w.steps :: Item(s.who[k], s.w.steps[k])
  }

  ghost function HeldBy<O>(s: System<O>, x: WorkerId): set<Item<O>> {
    if x in s.held then s.held[x] else {}
  }

  /** `worker.steps`. */
  ghost function StepsOfWorker<O>(s: System<O>, x: WorkerId): set<O> {
    Objects(s, OwnIds(s.w, x)) + set it | it in HeldBy(s, x) :: it.obj
  }

  /** `get_steps` walks over the worker's own steps, because the index lists more. */
  ghost predicate WalksOwn<O>(s: System<O>, x: WorkerId, statuses: set<Status>) {
    |StepsOfWorker(s, x)| < |Objects(s, StatusIds(s.w, statuses))|
  }

  ghost function HeldWith<O>(s: System<O>, x: WorkerId, statuses: set<Status>): set<Item<O>> {
    set it | it in HeldBy(s, x) && it.rec.life.status in statuses
  }

  /** `Worker.get_steps`. */
  ghost function GetSteps<O>(s: System<O>, x: WorkerId, statuses: set<Status>): set<Item<O>> {
    ItemsOf(s, OwnIds(s.w, x) * StatusIds(s.w, statuses)) + if WalksOwn(s, x, statuses) then HeldWith(s, x, statuses) else {}
  }

  /** `is_trivial_worker`. */
  ghost predicate TrivialFor<O>(s: System<O>, x: WorkerId)
    requires x in s.w.workers
  {
    !s.w.workers[x].assistant && forall it <- GetSteps(s, x, {PENDING}) :: it.rec.load.resources == map[]
  }

  /** What the scan looks at. */
  ghost function Scanned<O>(s: System<O>, x: WorkerId): set<Item<O>>
    requires x in s.w.workers
  {
    if s.w.paused then {}
    else if TrivialFor(s, x) then GetSteps(s, x, {PENDING, RUNNING})
    else ItemsOf(s, StatusIds(s.w, {PENDING, RUNNING}))
  }

  function RecsIn<O>(q: seq<Item<O>>): (r: seq<StepRec>)
    ensures |r| == |q| && forall i :: 0 <= i < |q| ==> r[i] == q[i].rec
  {
    seq(|q|, i requires 0 <= i < |q| => q[i].rec)
  }

  function IdsIn<O>(q: seq<Item<O>>): (r: seq<StepId>)
    ensures |r| == |q| && forall i :: 0 <= i < |q| ==> r[i] == q[i].rec.id
  {
    seq(|q|, i requires 0 <= i < |q| => q[i].rec.id)
  }

  ghost predicate IsScan<O>(s: System<O>, x: WorkerId, scan: seq<Item<O>>)
    requires x in s.w.workers
  {
    Lists(scan, Scanned(s, x)) && Ranked(RecsIn(scan))
  }

  ghost function RequestFor<O>(s: System<O>, a: WorkArgs): Request
    requires a.worker in s.w.workers
  {
    Request(a.worker, a.assistant, if TrivialFor(s, a.worker) then map[] else UsedResources(s.w.steps), s.w.totals)
  }

  ghost function GreedyFor<O>(s: System<O>, a: WorkArgs, now: Time, cfg: Config): Greedy
    requires a.worker in s.w.workers
  {
    Greedy(if TrivialFor(s, a.worker) then map[] else ActiveSlots(s.w.workers, now, cfg), map[])
  }

  /** The batch that the rest of the scan collects behind the best step. */
  function CollectItems<O>(steps: Steps, b: Batcher, best: StepRec, batch: seq<Item<O>>, q: seq<Item<O>>): seq<Item<O>>
    decreases |q|
  {
    if q == [] then batch
    else if BelowMax(|batch|, b) && JoinsBatch(steps, b, best, q[0].rec)
    then CollectItems(steps, b, best, batch + [q[0]], q[1..])
    else CollectItems(steps, b, best, batch, q[1..])
  }

  function BatchFrom<O>(w: World, x: WorkerId, q: seq<Item<O>>, i: nat): seq<Item<O>>
    requires i < |q|
  {
    var b := GetBatcher(w, x, q[i].rec.info.family);
    if StartsBatch(b, q[i].rec) then CollectItems(w.steps, b, q[i].rec, [q[i]], q[i+1..]) else []
  }

  /** The steps that `get_work` hands out: none, a single one, or a batch. */
  ghost function Chosen<O>(s: System<O>, a: WorkArgs, scan: seq<Item<O>>, now: Time, cfg: Config): seq<Item<O>>
    requires a.worker in s.w.workers
  {
    var i := Pick(s.w.steps, RequestFor(s, a), GreedyFor(s, a, now, cfg), RecsIn(scan), 0);
    if i == |scan| then []
    else if |BatchFrom(s.w, a.worker, scan, i)| > 1 then BatchFrom(s.w, a.worker, scan, i) else [scan[i]]
  }

  ghost function Decision<O>(s: System<O>, a: WorkArgs, resend: Option<StepId>, scan: seq<Item<O>>, now: Time, cfg: Config): seq<Item<O>>
    requires a.worker in s.w.workers
  {
    if resend.Some? && resend.value in s.who && resend.value in s.w.steps
    then [Item(s.who[resend.value], s.w.steps[resend.value])] else Chosen(s, a, scan, now, cfg)
  }

  // ---------------------------------------------------------------- count_pending

  /** The lookup of the step in `_upstream_status` raises an exception. */
  predicate LookupRaises(steps: Steps, id: StepId) {
    id in steps && steps[id].life.status == DONE
  }

  /** One of the two loops of `count_pending` comes upon such a step. */
  ghost predicate CountRaises<O>(s: System<O>, x: WorkerId) {
    exists it <- GetSteps(s, x, {RUNNING}) + GetSteps(s, x, {PENDING, FAILED}) :: LookupRaises(s.w.steps, it.rec.id)
  }

  /** The first loop leaves out a step whose upstream status is disabled.  An active step with that id is then
      disabled, or waits for its dependencies; so only a removed RUNNING step can be left out. */
  predicate MaySkip(steps: Steps, id: StepId) {
    id in steps && (steps[id].life.status == DISABLED
                    || (steps[id].info.deps != {} && steps[id].life.status in {PENDING, UNKNOWN, SUSPENDED}))
  }

  /** The owners that the first loop looks up.  If there is an exception, it is some of them. */
  ghost predicate LooksUp<O>(s: System<O>, x: WorkerId, owners: set<WorkerId>) {
    && (forall y <- owners :: exists it <- GetSteps(s, x, {RUNNING}) :: it.rec.load.workerRunning == Some(y))
    && (!CountRaises(s, x) ==> forall it <- GetSteps(s, x, {RUNNING}) ::
          !MaySkip(s.w.steps, it.rec.id) && it.rec.load.workerRunning.Some? ==> it.rec.load.workerRunning.value in owners)
  }

  /** The workers change, and new ones hold nothing. */
  ghost function WithWorld<O>(s: System<O>, w: World): System<O> {
    System(w, s.who, map x | x in w.workers :: HeldBy(s, x))
  }

  ghost function Counted<O>(s: System<O>, owners: set<WorkerId>, now: Time): System<O> {
    WithWorld(s, s.w.(workers := WithWorkers(s.w.workers, owners, now)))
  }

  // ---------------------------------------------------------------- handing out

  /** `set_status` of a removed PENDING step pops its id from the index of the pending steps. */
  function PopOf(steps: Steps, id: StepId): Outcome {
    if id in steps && steps[id].life.status == PENDING then ForeignKey else MissingKey
  }

  /** The number of steps in front of the first removed one. */
  ghost function BeforeGone<O>(s: System<O>, q: seq<Item<O>>): (n: nat)
    ensures n <= |q| && (forall i :: 0 <= i < n ==> !Gone(s, q[i])) && (n < |q| ==> Gone(s, q[n]))
  {
    if q == [] || Gone(s, q[0]) then 0 else 1 + BeforeGone(s, q[1..])
  }

  /** The end of `get_work`; a batch is started up to its first removed step. */
  ghost function HandOutItems<O>(s: System<O>, q: seq<Item<O>>, x: WorkerId, now: Time, cfg: Config): (Steps, Outcome)
    requires forall it <- q :: Gone(s, it) || it.rec.id in s.w.steps
  {
    var ids := IdsIn(q);
    if q == [] then (s.w.steps, Replied(NoWork))
    else if |q| == 1 then
      assert q[0] in q;
      if Gone(s, q[0]) then (s.w.steps, PopOf(s.w.steps, ids[0])) else (Grant(s.w.steps, ids[0], x, now, cfg), Replied(Granted(ids[0])))
    else
      var n := BeforeGone(s, q);
      assert forall i :: 0 <= i < n ==> q[i] in q && ids[..n][i] in s.w.steps;
      var started := StartBatch(s.w.steps, ids[..n], ids, x, now, cfg);
      (started, if n == |q| then Replied(BatchGranted(ids)) else PopOf(started, ids[n]))
  }

  // ---------------------------------------------------------------- the calls

  /** The calls, with the orders and choices of the source. */
  datatype Turn<O(==)> =
    | OnEvent(event: Event, born: map<StepId, O>)
    | OnWork(args: WorkArgs, order: seq<StepId>, resend: Option<StepId>, scan: seq<Item<O>>, owners: set<WorkerId>)
    | OnCount(worker: WorkerId, owners: set<WorkerId>)

  /** The worker keeps the removed steps it may run. */
  ghost function RemovedFrom<O>(s: System<O>, steps: Steps, doomed: set<StepId>, x: WorkerId): set<Item<O>> {
    set k | k in doomed && k in s.who && k in steps && x in steps[k].info.workers :: Item(s.who[k], steps[k])
  }

  ghost function PruneSystem<O>(s: System<O>, order: seq<StepId>, now: Time, cfg: Config): System<O>
    requires Lists(order, s.w.steps.Keys)
  {
    var w1 := PruneWorkers(s.w, now, cfg);
    var (steps, doomed) := PruneLoop(w1.steps, order, now, cfg, Assistants(w1.workers), {});
    System(Prune(s.w, order, now, cfg), s.who - doomed,
           map x | x in w1.workers :: HeldBy(s, x) + RemovedFrom(s, steps, doomed, x))
  }

  /** New steps are new objects. */
  ghost predicate NewObjects<O>(s: System<O>, next: Steps, born: map<StepId, O>) {
    forall k <- next :: k !in s.who ==>
      && k in born && born[k] !in s.who.Values
      && (forall x <- s.held :: forall it <- s.held[x] :: it.obj != born[k])
      && (forall j <- next :: j !in s.who && j in born && born[j] == born[k] ==> j == k)
  }

  ghost function EventSystem<O>(s: System<O>, e: Event, born: map<StepId, O>, now: Time, cfg: Config): System<O>
    requires Possible(s.w, e, now, cfg) && NewObjects(s, Next(s.w, e, now, cfg).steps, born)
  {
    var w := Next(s.w, e, now, cfg);
    if e.OnPrune? then PruneSystem(s, e.order, now, cfg) else
    System(w, map k | k in w.steps :: if k in s.who then s.who[k] else born[k],
           map x | x in w.workers :: if e == OnDisableWorker(x) then {} else HeldBy(s, x))
  }

  ghost function PreparedSystem<O>(s: System<O>, a: WorkArgs, order: seq<StepId>, now: Time, cfg: Config): (r: System<O>)
    requires cfg.pruneOnGetWork ==> Lists(order, s.w.steps.Keys)
    ensures r.w == Prepare(s.w, a, order, now, cfg)
  {
    WithWorld(if cfg.pruneOnGetWork then PruneSystem(s, order, now, cfg) else s, Prepare(s.w, a, order, now, cfg))
  }

  /** The scheduler at the moment of the scan. */
  ghost function ScanSystem<O>(s: System<O>, a: WorkArgs, order: seq<StepId>, now: Time, cfg: Config): (r: System<O>)
    requires cfg.pruneOnGetWork ==> Lists(order, s.w.steps.Keys)
    ensures a.worker in r.w.workers
  {
    var s1 := PreparedSystem(s, a, order, now, cfg);
    WithWorld(s1, Announce(s1.w, a, now, cfg))
  }

  ghost function KnownSystem<O>(s: System<O>, x: WorkerId, now: Time): System<O> {
    WithWorld(s, s.w.(workers := GetWorker(s.w.workers, x, now)))
  }

  /** The choices of the turn are among those the source could make. */
  ghost predicate PossibleTurn<O>(s: System<O>, t: Turn<O>, now: Time, cfg: Config) {
    match t
    case OnEvent(e, born) =>
      && !e.OnGetWork? && !e.OnCountPending?
      && Possible(s.w, e, now, cfg) && NewObjects(s, Next(s.w, e, now, cfg).steps, born)
    case OnWork(a, order, resend, scan, owners) =>
      && (cfg.pruneOnGetWork ==> Lists(order, s.w.steps.Keys))
      && var s1 := PreparedSystem(s, a, order, now, cfg);
         !s1.w.workers[a.worker].disabled ==>
           && ValidResend(s1.w.steps, a, resend)
           && var s2 := ScanSystem(s, a, order, now, cfg);
              IsScan(s2, a.worker, scan) && LooksUp(s2, a.worker, owners)
    case OnCount(x, owners) => LooksUp(KnownSystem(s, x, now), x, owners)
  }

  /** `get_work` from the scan on. */
  ghost function ServeSystem<O>(s: System<O>, a: WorkArgs, resend: Option<StepId>, scan: seq<Item<O>>, owners: set<WorkerId>,
                                now: Time, cfg: Config): (System<O>, Outcome)
    requires a.worker in s.w.workers && forall it <- Decision(s, a, resend, scan, now, cfg) :: Gone(s, it) || it.rec.id in s.w.steps
  {
    var counted := Counted(s, owners, now);
    if CountRaises(s, a.worker) then (counted, LookupFailed) else
    var (steps, outcome) := HandOutItems(s, Decision(s, a, resend, scan, now, cfg), a.worker, now, cfg);
    (counted.(w := counted.w.(steps := steps)), outcome)
  }

  /** How a call that walks over no worker's steps ends. */
  ghost function OutcomeOf(w: World, e: Event, now: Time, cfg: Config): Outcome {
    if e.OnAddStep? && AddStep(w, e.add, e.pick, now, cfg).1 then NoBatchResources
    else if e.OnDecrease? && DecreaseRaises(w.steps, e.id) then NoRunningResources
    else Finished
  }

  /** One call, with its outcome.  After `ForeignKey` the index by status is no longer right; the state is
      then the one in which the foreign key is popped. */
  ghost function SystemNext<O>(s: System<O>, t: Turn<O>, now: Time, cfg: Config): (System<O>, Outcome)
    requires SystemOk(s) && PossibleTurn(s, t, now, cfg)
  {
    match t
    case OnEvent(e, born) => (EventSystem(s, e, born, now, cfg), OutcomeOf(s.w, e, now, cfg))
    case OnWork(a, order, resend, scan, owners) =>
      var s1 := PreparedSystem(s, a, order, now, cfg);
      if s1.w.workers[a.worker].disabled then (s1, Replied(WorkerDisabled)) else
      var s2 := ScanSystem(s, a, order, now, cfg);
      ScanSystemOk(s, a, order, now, cfg);
      DecisionIsSeen(s2, a, resend, scan, now, cfg);
      ServeSystem(s2, a, resend, scan, owners, now, cfg)
    case OnCount(x, owners) =>
      var known := KnownSystem(s, x, now);
      (Counted(known, owners, now), if CountRaises(known, x) then LookupFailed else Finished)
  }

  // ---------------------------------------------------------------- the invariant

  /** The steps and their objects stay, the workers too. */
  lemma WithWorldOk<O>(s: System<O>, w: World)
    requires SystemOk(s) && Inv(w) && w.steps.Keys == s.w.steps.Keys
    ensures SystemOk(WithWorld(s, w))
  {
    var r := WithWorld(s, w);
    forall x | x in r.held
      ensures HeldOk(r, x)
    {
      assert x in s.held ==> HeldOk(s, x);
    }
    hide HeldOk, Inv;
  }

  lemma PruneSystemOk<O>(s: System<O>, order: seq<StepId>, now: Time, cfg: Config)
    requires SystemOk(s) && Lists(order, s.w.steps.Keys)
    ensures SystemOk(PruneSystem(s, order, now, cfg)) && PruneSystem(s, order, now, cfg).w == Prune(s.w, order, now, cfg)
  {
    var w1 := PruneWorkers(s.w, now, cfg);
    PruneOk(s.w, order, now, cfg);
    PruneWorkersOk(s.w, now, cfg);
    PruneLoopOk(w1.steps, order, now, cfg, Assistants(w1.workers), {});
    hide PruneLoop, RosterOk, RecOk, Lists, Assistants, SilentWorkers, RemoveWorkers;
    var (steps, doomed) := PruneLoop(w1.steps, order, now, cfg, Assistants(w1.workers), {});
    var r := PruneSystem(s, order, now, cfg);
    forall x | x in r.held
      ensures HeldOk(r, x)
    {
      assert x in s.held ==> HeldOk(s, x);
      RemovedAreHeld(s, steps, doomed, x);
    }
    hide HeldOk, Inv, RemovedFrom, HeldBy;
  }

  lemma RemovedAreHeld<O>(s: System<O>, steps: Steps, doomed: set<StepId>, x: WorkerId)
    requires StepsOk(steps) && HeldOk(s, x)
    ensures forall it <- HeldBy(s, x) + RemovedFrom(s, steps, doomed, x) ::
      && (it.rec.id !in s.who - doomed || (s.who - doomed)[it.rec.id] != it.obj) && x in it.rec.info.workers && RecOk(it.rec)
  {
    hide RecOk;
  }

  lemma EventSystemOk<O>(s: System<O>, e: Event, born: map<StepId, O>, now: Time, cfg: Config)
    requires SystemOk(s) && Possible(s.w, e, now, cfg) && NewObjects(s, Next(s.w, e, now, cfg).steps, born)
    ensures SystemOk(EventSystem(s, e, born, now, cfg)) && EventSystem(s, e, born, now, cfg).w == Next(s.w, e, now, cfg)
  {
    hide SystemOk, NewObjects, Inv;
    if e.OnPrune? {
      PruneSystemOk(s, e.order, now, cfg);
    } else {
      OtherEventOk(s, e, born, now, cfg);
    }
  }

  lemma OtherEventOk<O>(s: System<O>, e: Event, born: map<StepId, O>, now: Time, cfg: Config)
    requires SystemOk(s) && Possible(s.w, e, now, cfg) && NewObjects(s, Next(s.w, e, now, cfg).steps, born) && !e.OnPrune?
    ensures SystemOk(EventSystem(s, e, born, now, cfg))
  {
    hide Next, Possible, Inv;
    NextKeepsInv(s.w, e, now, cfg);
    var r := EventSystem(s, e, born, now, cfg);
    forall x | x in r.held
      ensures HeldOk(r, x)
    {
      assert x in s.held ==> HeldOk(s, x);
    }
  }

  lemma ScanSystemOk<O>(s: System<O>, a: WorkArgs, order: seq<StepId>, now: Time, cfg: Config)
    requires SystemOk(s) && (cfg.pruneOnGetWork ==> Lists(order, s.w.steps.Keys))
    ensures SystemOk(PreparedSystem(s, a, order, now, cfg))
    ensures SystemOk(ScanSystem(s, a, order, now, cfg))
            && ScanSystem(s, a, order, now, cfg).w == Announce(Prepare(s.w, a, order, now, cfg), a, now, cfg)
  {
    PrepareOk(s.w, a, order, now, cfg);
    if cfg.pruneOnGetWork {
      PruneSystemOk(s, order, now, cfg);
    }
    var s0 := if cfg.pruneOnGetWork then PruneSystem(s, order, now, cfg) else s;
    assert Prepare(s.w, a, order, now, cfg).steps == s0.w.steps;
    hide SystemOk, Prepare, PruneSystem, Announce;
    WithWorldOk(s0, Prepare(s.w, a, order, now, cfg));
    var s1 := PreparedSystem(s, a, order, now, cfg);
    AnnounceOk(s1.w, a, now, cfg);
    WithWorldOk(s1, Announce(s1.w, a, now, cfg));
  }

  /** What a worker sees is active, or one of the removed steps it holds. */
  lemma SeenIsKnown<O>(s: System<O>, x: WorkerId, it: Item<O>)
    requires SystemOk(s) && x in s.w.workers && it in Scanned(s, x)
    ensures Gone(s, it) ==> it in HeldBy(s, x) && it.rec.life.status in {PENDING, RUNNING}
    ensures !Gone(s, it) ==> it.rec.id in s.w.steps && s.w.steps[it.rec.id] == it.rec && s.who[it.rec.id] == it.obj
  {
    assert HeldOk(s, x);
    hide WalksOwn, TrivialFor, RosterOk;
  }

  lemma {:induction false} CollectedAreSeen<O>(steps: Steps, b: Batcher, best: StepRec, batch: seq<Item<O>>, q: seq<Item<O>>, all: seq<Item<O>>)
    requires (forall it <- batch :: it in all) && forall it <- q :: it in all
    ensures forall it <- CollectItems(steps, b, best, batch, q) :: it in all
    decreases |q|
  {
    if q != [] {
      assert q[0] in all && forall it <- q[1..] :: it in q;
      CollectedAreSeen(steps, b, best, batch + [q[0]], q[1..], all);
      CollectedAreSeen(steps, b, best, batch, q[1..], all);
    }
  }

  lemma ChosenAreSeen<O>(s: System<O>, a: WorkArgs, scan: seq<Item<O>>, now: Time, cfg: Config)
    requires a.worker in s.w.workers
    ensures forall it <- Chosen(s, a, scan, now, cfg) :: it in scan
  {
    hide Pick, StartsBatch, GetBatcher;
    var i := Pick(s.w.steps, RequestFor(s, a), GreedyFor(s, a, now, cfg), RecsIn(scan), 0);
    if i < |scan| {
      assert scan[i] in scan;
      CollectedAreSeen(s.w.steps, GetBatcher(s.w, a.worker, scan[i].rec.info.family), scan[i].rec, [scan[i]], scan[i+1..], scan);
    }
  }

  lemma {:induction false} CollectedArePending<O>(steps: Steps, b: Batcher, best: StepRec, batch: seq<Item<O>>, q: seq<Item<O>>)
    requires forall it <- batch :: it.rec.life.status == PENDING
    ensures forall it <- CollectItems(steps, b, best, batch, q) :: it.rec.life.status == PENDING
    decreases |q|
  {
    if q != [] {
      CollectedArePending(steps, b, best, batch, q[1..]);
      if q[0].rec.life.status == PENDING {
        CollectedArePending(steps, b, best, batch + [q[0]], q[1..]);
      }
    }
  }

  /** Whatever is chosen is pending, so a removed step among it would be taken from the index of pending steps. */
  lemma ChosenArePending<O>(s: System<O>, a: WorkArgs, scan: seq<Item<O>>, now: Time, cfg: Config)
    requires a.worker in s.w.workers
    ensures forall it <- Chosen(s, a, scan, now, cfg) :: it.rec.life.status == PENDING
  {
    var i := Pick(s.w.steps, RequestFor(s, a), GreedyFor(s, a, now, cfg), RecsIn(scan), 0);
    if i < |scan| {
      assert StopsAt(s.w.steps, RequestFor(s, a), GreedyFor(s, a, now, cfg), RecsIn(scan), i);
      hide Pick;
      CollectedArePending(s.w.steps, GetBatcher(s.w, a.worker, scan[i].rec.info.family), scan[i].rec, [scan[i]], scan[i+1..]);
    }
  }

  lemma DecisionIsSeen<O>(s: System<O>, a: WorkArgs, resend: Option<StepId>, scan: seq<Item<O>>, now: Time, cfg: Config)
    requires SystemOk(s) && a.worker in s.w.workers && IsScan(s, a.worker, scan)
    ensures forall it <- Decision(s, a, resend, scan, now, cfg) :: Gone(s, it) || (it.rec.id in s.w.steps && s.w.steps[it.rec.id] == it.rec)
    ensures forall it <- Decision(s, a, resend, scan, now, cfg) :: it in scan || !Gone(s, it)
  {
    ChosenAreSeen(s, a, scan, now, cfg);
    hide Chosen, Scanned, HeldOk, RosterOk, Ranked;
    forall it | it in scan
      ensures Gone(s, it) || (it.rec.id in s.w.steps && s.w.steps[it.rec.id] == it.rec)
    {
      assert it in Scanned(s, a.worker);
      SeenIsKnown(s, a.worker, it);
    }
  }

  lemma HandOutItemsOk<O>(s: System<O>, q: seq<Item<O>>, x: WorkerId, now: Time, cfg: Config)
    requires forall it <- q :: Gone(s, it) || it.rec.id in s.w.steps
    ensures Evolves(s.w.steps, HandOutItems(s, q, x, now, cfg).0)
  {
    var ids := IdsIn(q);
    hide Evolves, Grant, StartBatch, Gone;
    if q == [] {
      SameEvolves(s.w.steps);
    } else if |q| == 1 {
      assert q[0] in q;
      SameEvolves(s.w.steps);
      if !Gone(s, q[0]) {
        GrantOk(s.w.steps, ids[0], x, now, cfg);
      }
    } else {
      var n := BeforeGone(s, q);
      assert forall i :: 0 <= i < n ==> q[i] in q && ids[..n][i] in s.w.steps;
      StartBatchOk(s.w.steps, ids[..n], ids, x, now, cfg);
    }
  }

  lemma SameEvolves(steps: Steps)
    ensures Evolves(steps, steps)
  {
  }

  lemma ServeSystemOk<O>(s: System<O>, a: WorkArgs, resend: Option<StepId>, scan: seq<Item<O>>, owners: set<WorkerId>, now: Time, cfg: Config)
    requires SystemOk(s) && a.worker in s.w.workers && IsScan(s, a.worker, scan)
    ensures forall it <- Decision(s, a, resend, scan, now, cfg) :: Gone(s, it) || it.rec.id in s.w.steps
    ensures SystemOk(ServeSystem(s, a, resend, scan, owners, now, cfg).0)
  {
    DecisionIsSeen(s, a, resend, scan, now, cfg);
    CountedOk(s, owners, now);
    var counted := Counted(s, owners, now);
    var q := Decision(s, a, resend, scan, now, cfg);
    HandOutItemsOk(s, q, a.worker, now, cfg);
    var next := counted.w.(steps := HandOutItems(s, q, a.worker, now, cfg).0);
    KeepInv(counted.w, next);
    hide Decision, HandOutItems, Inv, CountRaises, LooksUp, IsScan;
    WithWorldOk(counted, next);
    assert WithWorld(counted, next) == counted.(w := next);
  }

  lemma CountedOk<O>(s: System<O>, owners: set<WorkerId>, now: Time)
    requires SystemOk(s)
    ensures SystemOk(Counted(s, owners, now))
  {
    var w := s.w.(workers := WithWorkers(s.w.workers, owners, now));
    KeepInv(s.w, w);
    hide Inv;
    WithWorldOk(s, w);
  }

  /** Every call keeps the invariant, whether it raises an exception or not. */
  lemma SystemNextOk<O>(s: System<O>, t: Turn<O>, now: Time, cfg: Config)
    requires SystemOk(s) && PossibleTurn(s, t, now, cfg)
    ensures SystemOk(SystemNext(s, t, now, cfg).0)
  {
    match t
    case OnEvent(e, born) => EventSystemOk(s, e, born, now, cfg);
    case OnWork(a, order, resend, scan, owners) =>
      ScanSystemOk(s, a, order, now, cfg);
      if !PreparedSystem(s, a, order, now, cfg).w.workers[a.worker].disabled {
        ServeSystemOk(ScanSystem(s, a, order, now, cfg), a, resend, scan, owners, now, cfg);
      }
    case OnCount(x, owners) =>
      WorkerCallsOk(s.w, x, WorkerInfo(None, None), now);
      WithWorldOk(s, s.w.(workers := GetWorker(s.w.workers, x, now)));
      CountedOk(KnownSystem(s, x, now), owners, now);
  }

  // ---------------------------------------------------------------- exactly when a call raises

  /** The step has been added again and is DONE, and the shortcut of `get_steps` shows the removed one. */
  ghost predicate HeldRaises<O>(s: System<O>, x: WorkerId, it: Item<O>) {
    && LookupRaises(s.w.steps, it.rec.id)
    && ((it.rec.life.status == RUNNING && WalksOwn(s, x, {RUNNING}))
        || (it.rec.life.status in {PENDING, FAILED} && WalksOwn(s, x, {PENDING, FAILED})))
  }

  /** `count_pending` raises just if the worker holds such a step. */
  lemma CountRaisesJust<O>(s: System<O>, x: WorkerId)
    requires SystemOk(s) && x in s.w.workers
    ensures CountRaises(s, x) <==> exists it <- HeldBy(s, x) :: HeldRaises(s, x, it)
  {
    hide WalksOwn, SystemOk, GetSteps, LookupRaises, HeldBy, HeldRaises;
    if CountRaises(s, x) {
      var it: Item<O> :| it in GetSteps(s, x, {RUNNING}) + GetSteps(s, x, {PENDING, FAILED}) && LookupRaises(s.w.steps, it.rec.id);
      SeenThatRaises(s, x, it);
    }
    forall it: Item<O> | it in HeldBy(s, x) && HeldRaises(s, x, it)
      ensures CountRaises(s, x)
    {
      HeldIsSeen(s, x, it);
    }
  }

  lemma SeenThatRaises<O>(s: System<O>, x: WorkerId, it: Item<O>)
    requires SystemOk(s) && x in s.w.workers && LookupRaises(s.w.steps, it.rec.id)
    requires it in GetSteps(s, x, {RUNNING}) + GetSteps(s, x, {PENDING, FAILED})
    ensures it in HeldBy(s, x) && HeldRaises(s, x, it)
  {
    OnlyHeldRaise(s, x, {RUNNING});
    OnlyHeldRaise(s, x, {PENDING, FAILED});
    hide WalksOwn, SystemOk, GetSteps, LookupRaises, HeldBy;
  }

  lemma HeldIsSeen<O>(s: System<O>, x: WorkerId, it: Item<O>)
    requires SystemOk(s) && x in s.w.workers && it in HeldBy(s, x) && HeldRaises(s, x, it)
    ensures it in GetSteps(s, x, {RUNNING}) + GetSteps(s, x, {PENDING, FAILED}) && LookupRaises(s.w.steps, it.rec.id)
  {
    hide WalksOwn, SystemOk, LookupRaises, HeldBy, ItemsOf;
  }

  lemma OnlyHeldRaise<O>(s: System<O>, x: WorkerId, statuses: set<Status>)
    requires SystemOk(s) && x in s.w.workers && DONE !in statuses
    ensures forall it <- GetSteps(s, x, statuses) :: LookupRaises(s.w.steps, it.rec.id) ==>
              WalksOwn(s, x, statuses) && it in HeldBy(s, x) && it.rec.life.status in statuses
  {
    hide WalksOwn, RosterOk, RecOk, HeldOk;
  }

  /** `get_work` raises just if the worker is enabled, and either the count raises, or the scan (which is not
      overruled by a step to resend) chooses a removed step. */
  lemma GetWorkRaisesJust<O>(s: System<O>, a: WorkArgs, order: seq<StepId>, resend: Option<StepId>, scan: seq<Item<O>>,
                             owners: set<WorkerId>, now: Time, cfg: Config)
    requires SystemOk(s) && PossibleTurn(s, OnWork(a, order, resend, scan, owners), now, cfg)
    ensures var s2 := ScanSystem(s, a, order, now, cfg);
            SystemNext(s, OnWork(a, order, resend, scan, owners), now, cfg).1.Raises() <==>
              && !Prepare(s.w, a, order, now, cfg).workers[a.worker].disabled
              && (CountRaises(s2, a.worker) || (resend.None? && exists it <- Chosen(s2, a, scan, now, cfg) :: Gone(s2, it)))
  {
    hide PreparedSystem, ScanSystem, Prepare, CountRaises, Chosen, LooksUp, IsScan, ServeSystem, ValidResend, SystemOk, Decision;
    ScanSystemOk(s, a, order, now, cfg);
    var s2 := ScanSystem(s, a, order, now, cfg);
    if !PreparedSystem(s, a, order, now, cfg).w.workers[a.worker].disabled {
      DecisionIsSeen(s2, a, resend, scan, now, cfg);
      ResendIsActive(s, a, order, resend, now, cfg);
      ServeRaisesJust(s2, a, resend, scan, owners, now, cfg);
    }
  }

  lemma ServeRaisesJust<O>(s: System<O>, a: WorkArgs, resend: Option<StepId>, scan: seq<Item<O>>, owners: set<WorkerId>,
                           now: Time, cfg: Config)
    requires a.worker in s.w.workers && forall it <- Decision(s, a, resend, scan, now, cfg) :: Gone(s, it) || it.rec.id in s.w.steps
    requires resend.Some? ==> resend.value in s.who && resend.value in s.w.steps && s.w.steps[resend.value].id == resend.value
    ensures ServeSystem(s, a, resend, scan, owners, now, cfg).1.Raises() <==>
              CountRaises(s, a.worker) || (resend.None? && exists it <- Chosen(s, a, scan, now, cfg) :: Gone(s, it))
  {
    hide CountRaises, Chosen, HandOutItems;
    HandOutRaisesJust(s, Decision(s, a, resend, scan, now, cfg), a.worker, now, cfg);
    if resend.Some? {
      var it := Item(s.who[resend.value], s.w.steps[resend.value]);
      assert Decision(s, a, resend, scan, now, cfg) == [it] && !Gone(s, it);
    }
  }

  lemma ResendIsActive<O>(s: System<O>, a: WorkArgs, order: seq<StepId>, resend: Option<StepId>, now: Time, cfg: Config)
    requires SystemOk(s) && (cfg.pruneOnGetWork ==> Lists(order, s.w.steps.Keys))
    requires ValidResend(PreparedSystem(s, a, order, now, cfg).w.steps, a, resend)
    ensures var s2 := ScanSystem(s, a, order, now, cfg);
            resend.Some? ==> resend.value in s2.who && resend.value in s2.w.steps && s2.w.steps[resend.value].id == resend.value
  {
    ScanSystemOk(s, a, order, now, cfg);
    var s1 := PreparedSystem(s, a, order, now, cfg);
    assert ScanSystem(s, a, order, now, cfg).w.steps.Keys == s1.w.steps.Keys by {
      AnnounceOk(s1.w, a, now, cfg);
    }
    hide PreparedSystem, Prepare, Announce, ScanSystem;
  }

  lemma HandOutRaisesJust<O>(s: System<O>, q: seq<Item<O>>, x: WorkerId, now: Time, cfg: Config)
    requires forall it <- q :: Gone(s, it) || it.rec.id in s.w.steps
    ensures HandOutItems(s, q, x, now, cfg).1.Raises() <==> exists it <- q :: Gone(s, it)
  {
    hide Gone, Grant, StartBatch;
    var n := BeforeGone(s, q);
    if n < |q| {
      assert q[n] in q;
    }
  }

  // ---------------------------------------------------------------- when no removed step is in the way

  ghost predicate Shows<O>(s: System<O>, x: WorkerId, statuses: set<Status>) {
    WalksOwn(s, x, statuses) && HeldWith(s, x, statuses) != {}
  }

  /** One of the walks over the steps of the worker comes upon a removed step. */
  ghost predicate InTheWay<O>(s: System<O>, x: WorkerId) {
    Shows(s, x, {PENDING}) || Shows(s, x, {RUNNING}) || Shows(s, x, {PENDING, RUNNING}) || Shows(s, x, {PENDING, FAILED})
  }

  /** What the worker sees is then what the steps and their statuses say. */
  lemma SeesActiveSteps<O>(s: System<O>, x: WorkerId, statuses: set<Status>)
    requires SystemOk(s) && x in s.w.workers && !Shows(s, x, statuses)
    ensures GetSteps(s, x, statuses) == ItemsOf(s, OwnIds(s.w, x) * StatusIds(s.w, statuses))
  {
  }

  lemma SameTrivial<O>(s: System<O>, x: WorkerId)
    requires SystemOk(s) && x in s.w.workers && !Shows(s, x, {PENDING})
    ensures TrivialFor(s, x) == Trivial(s.w, x)
  {
    SeesActiveSteps(s, x, {PENDING});
    hide GetSteps, Shows, Inv;
    var items := GetSteps(s, x, {PENDING});
    forall k | k in s.w.steps && s.w.steps[k].life.status == PENDING && x in s.w.steps[k].info.workers
      ensures Item(s.who[k], s.w.steps[k]) in items
    {
    }
  }

  lemma SameScanned<O>(s: System<O>, x: WorkerId)
    requires SystemOk(s) && x in s.w.workers && !Shows(s, x, {PENDING}) && !Shows(s, x, {PENDING, RUNNING})
    ensures Relevant(s.w, x) <= s.w.steps.Keys && Scanned(s, x) == ItemsOf(s, Relevant(s.w, x))
  {
    SameTrivial(s, x);
    SeesActiveSteps(s, x, {PENDING, RUNNING});
    SameOpen(s.w, x);
    hide GetSteps, Shows, Inv, TrivialFor, Trivial, OwnIds, StatusIds, OpenFor, SchedulerModel.Open, ItemsOf;
  }

  lemma SameOpen(w: World, x: WorkerId)
    ensures OwnIds(w, x) * StatusIds(w, {PENDING, RUNNING}) == OpenFor(w.steps, x) <= w.steps.Keys
    ensures StatusIds(w, {PENDING, RUNNING}) == SchedulerModel.Open(w.steps) <= w.steps.Keys
  {
  }

  lemma SameScan<O>(s: System<O>, x: WorkerId, scan: seq<Item<O>>)
    requires SystemOk(s) && x in s.w.workers && !Shows(s, x, {PENDING}) && !Shows(s, x, {PENDING, RUNNING}) && IsScan(s, x, scan)
    ensures ValidScan(s.w, Relevant(s.w, x), IdsIn(scan)) && (forall id <- IdsIn(scan) :: id in s.w.steps)
    ensures RecsOf(s.w.steps, IdsIn(scan)) == RecsIn(scan)
  {
    SameScanned(s, x);
    hide Scanned, Shows, Relevant, RosterOk, RecOk, Ranked, HeldOk;
    ListsTheirIds(s, Relevant(s.w, x), scan);
  }

  lemma ListsTheirIds<O>(s: System<O>, ids: set<StepId>, scan: seq<Item<O>>)
    requires StepsOk(s.w.steps) && s.who.Keys == s.w.steps.Keys && ids <= s.w.steps.Keys && Lists(scan, ItemsOf(s, ids))
    ensures Lists(IdsIn(scan), ids) && (forall id <- IdsIn(scan) :: id in s.w.steps)
    ensures RecsOf(s.w.steps, IdsIn(scan)) == RecsIn(scan)
  {
    hide RecOk;
    var q := IdsIn(scan);
    forall i | 0 <= i < |scan|
      ensures q[i] in ids && s.w.steps[q[i]] == scan[i].rec && s.who[q[i]] == scan[i].obj
    {
      assert scan[i] in scan;
    }
    forall k | k in ids
      ensures k in q
    {
      assert Item(s.who[k], s.w.steps[k]) in ItemsOf(s, ids);
      var i :| 0 <= i < |scan| && scan[i] == Item(s.who[k], s.w.steps[k]);
      assert q[i] == k;
    }
  }

  lemma {:induction false} SameCollect<O>(steps: Steps, b: Batcher, best: StepRec, batch: seq<Item<O>>, q: seq<Item<O>>)
    ensures IdsIn(CollectItems(steps, b, best, batch, q)) == Collect(steps, b, best, IdsIn(batch), RecsIn(q))
    decreases |q|
  {
    hide JoinsBatch;
    if q != [] {
      assert RecsIn(q)[1..] == RecsIn(q[1..]) && IdsIn(batch + [q[0]]) == IdsIn(batch) + [q[0].rec.id];
      SameCollect(steps, b, best, batch + [q[0]], q[1..]);
      SameCollect(steps, b, best, batch, q[1..]);
    } else {
      assert RecsIn(q) == [];
    }
  }

  lemma SameBatch<O>(w: World, x: WorkerId, q: seq<Item<O>>, i: nat)
    requires i < |q|
    ensures IdsIn(BatchFrom(w, x, q, i)) == BatchAt(w, x, RecsIn(q), i)
  {
    assert RecsIn(q)[i+1..] == RecsIn(q[i+1..]) && IdsIn([q[i]]) == [q[i].rec.id];
    SameCollect(w.steps, GetBatcher(w, x, q[i].rec.info.family), q[i].rec, [q[i]], q[i+1..]);
  }

  lemma SameDecision<O>(s: System<O>, a: WorkArgs, resend: Option<StepId>, scan: seq<Item<O>>, order: seq<StepId>, now: Time, cfg: Config)
    requires SystemOk(s) && a.worker in s.w.workers && !InTheWay(s, a.worker) && IsScan(s, a.worker, scan)
    requires resend.Some? ==> resend.value in s.w.steps
    ensures forall it <- Decision(s, a, resend, scan, now, cfg) :: !Gone(s, it) && it.rec.id in s.w.steps
    ensures var ids := IdsIn(Decision(s, a, resend, scan, now, cfg));
            (forall id <- IdsIn(scan) :: id in s.w.steps) &&
            Decide(s.w, a, Choices(order, resend, IdsIn(scan)), now, cfg) ==
              if ids == [] then NoWork else if |ids| == 1 then Granted(ids[0]) else BatchGranted(ids)
  {
    var x := a.worker;
    SameTrivial(s, x);
    SameScan(s, x, scan);
    DecisionIsSeen(s, a, resend, scan, now, cfg);
    forall it | it in scan
      ensures !Gone(s, it)
    {
      ScanIsActive(s, x, scan, it);
    }
    hide Inv, IsScan, Pick, BatchAt, BatchFrom, TrivialFor, Trivial, Shows, ActiveSlots, UsedResources, HeldOk, Gone;
    var i := Pick(s.w.steps, RequestFor(s, a), GreedyFor(s, a, now, cfg), RecsIn(scan), 0);
    if i < |scan| {
      SameBatch(s.w, x, scan, i);
    }
  }

  lemma ScanIsActive<O>(s: System<O>, x: WorkerId, scan: seq<Item<O>>, it: Item<O>)
    requires SystemOk(s) && x in s.w.workers && !InTheWay(s, x) && IsScan(s, x, scan) && it in scan
    ensures !Gone(s, it)
  {
    SameScanned(s, x);
    hide Scanned, Shows, Relevant, RosterOk, RecOk;
  }

  lemma SameHandOut<O>(s: System<O>, q: seq<Item<O>>, x: WorkerId, now: Time, cfg: Config)
    requires forall it <- q :: !Gone(s, it) && it.rec.id in s.w.steps
    ensures var ids := IdsIn(q);
            var reply := if ids == [] then NoWork else if |ids| == 1 then Granted(ids[0]) else BatchGranted(ids);
            Known(s.w.steps, reply) && HandOutItems(s, q, x, now, cfg) == (HandOut(s.w.steps, reply, x, now, cfg), Replied(reply))
  {
    hide Gone, Grant, StartBatch;
    var ids := IdsIn(q);
    assert forall i :: 0 <= i < |q| ==> q[i] in q && ids[i] in s.w.steps;
    assert BeforeGone(s, q) == |q| && ids[..|q|] == ids;
  }

  /** The count then looks up exactly the owners of the running steps, and does not raise. */
  lemma SameCount<O>(s: System<O>, x: WorkerId, owners: set<WorkerId>)
    requires SystemOk(s) && x in s.w.workers && !InTheWay(s, x) && LooksUp(s, x, owners)
    ensures !CountRaises(s, x) && owners == Owners(s.w.steps, x)
  {
    NotInTheWay(s, x);
    hide CountRaises, GetSteps;
    assert GetSteps(s, x, {RUNNING}) == ItemsOf(s, OwnIds(s.w, x) * StatusIds(s.w, {RUNNING})) by {
      SeesActiveSteps(s, x, {RUNNING});
    }
    OwnersAreSeen(s, x, owners, GetSteps(s, x, {RUNNING}));
  }

  lemma OwnersAreSeen<O>(s: System<O>, x: WorkerId, owners: set<WorkerId>, running: set<Item<O>>)
    requires StepsOk(s.w.steps) && s.who.Keys == s.w.steps.Keys && running == ItemsOf(s, OwnIds(s.w, x) * StatusIds(s.w, {RUNNING}))
    requires forall y <- owners :: exists it <- running :: it.rec.load.workerRunning == Some(y)
    requires forall it <- running :: !MaySkip(s.w.steps, it.rec.id) && it.rec.load.workerRunning.Some? ==> it.rec.load.workerRunning.value in owners
    ensures owners == Owners(s.w.steps, x)
  {
    hide RecOk;
    forall y | y in Owners(s.w.steps, x)
      ensures y in owners
    {
      var k :| k in s.w.steps && s.w.steps[k].life.status == RUNNING && x in s.w.steps[k].info.workers && s.w.steps[k].load.workerRunning == Some(y);
      assert Item(s.who[k], s.w.steps[k]) in running;
    }
  }

  lemma NotInTheWay<O>(s: System<O>, x: WorkerId)
    requires SystemOk(s) && x in s.w.workers
    ensures CountRaises(s, x) ==> InTheWay(s, x)
  {
    CountRaisesJust(s, x);
    hide CountRaises, HeldRaises, SystemOk, HeldBy, Shows;
    if CountRaises(s, x) {
      var it :| it in HeldBy(s, x) && HeldRaises(s, x, it);
      ShowsThatRaises(s, x, it);
    }
  }

  lemma ShowsThatRaises<O>(s: System<O>, x: WorkerId, it: Item<O>)
    requires it in HeldBy(s, x) && HeldRaises(s, x, it)
    ensures Shows(s, x, {RUNNING}) || Shows(s, x, {PENDING, FAILED})
  {
    hide WalksOwn;
    assert it in HeldWith(s, x, {it.rec.life.status}) && it.rec.life.status in {RUNNING, PENDING, FAILED};
    assert WalksOwn(s, x, {RUNNING}) ==> it.rec.life.status == RUNNING ==> it in HeldWith(s, x, {RUNNING});
    assert WalksOwn(s, x, {PENDING, FAILED}) ==> it.rec.life.status in {PENDING, FAILED} ==> it in HeldWith(s, x, {PENDING, FAILED});
  }

  /** The event of the value model that the turn amounts to. */
  ghost function EventOf<O>(t: Turn<O>): Event {
    match t
    case OnEvent(e, born) => e
    case OnWork(a, order, resend, scan, owners) => OnGetWork(a, Choices(order, resend, IdsIn(scan)))
    case OnCount(x, owners) => OnCountPending(x)
  }

  /** A removed step is in the way of the turn. */
  ghost predicate Disturbed<O>(s: System<O>, t: Turn<O>, now: Time, cfg: Config)
    requires PossibleTurn(s, t, now, cfg)
  {
    match t
    case OnEvent(e, born) => false
    case OnWork(a, order, resend, scan, owners) =>
      !Prepare(s.w, a, order, now, cfg).workers[a.worker].disabled && InTheWay(ScanSystem(s, a, order, now, cfg), a.worker)
    case OnCount(x, owners) => InTheWay(KnownSystem(s, x, now), x)
  }

  lemma SameServe<O>(s: System<O>, a: WorkArgs, order: seq<StepId>, resend: Option<StepId>, scan: seq<Item<O>>, owners: set<WorkerId>,
                     now: Time, cfg: Config)
    requires SystemOk(s) && a.worker in s.w.workers && !InTheWay(s, a.worker) && IsScan(s, a.worker, scan) && LooksUp(s, a.worker, owners)
    requires resend.Some? ==> resend.value in s.w.steps
    ensures ValidScan(s.w, Relevant(s.w, a.worker), IdsIn(scan)) && forall id <- IdsIn(scan) :: id in s.w.steps
    ensures forall it <- Decision(s, a, resend, scan, now, cfg) :: Gone(s, it) || it.rec.id in s.w.steps
    ensures var reply := Decide(s.w, a, Choices(order, resend, IdsIn(scan)), now, cfg);
            var counted := CountPending(s.w, a.worker, now);
            var r := ServeSystem(s, a, resend, scan, owners, now, cfg);
            && Known(counted.steps, reply) && r.1 == Replied(reply)
            && r.0.w == counted.(steps := HandOut(counted.steps, reply, a.worker, now, cfg))
  {
    SameCount(s, a.worker, owners);
    SameDecision(s, a, resend, scan, order, now, cfg);
    SameScan(s, a.worker, scan);
    hide SystemOk, InTheWay, IsScan, LooksUp, CountRaises, Decide, Decision, HandOutItems, HandOut, Known, ValidScan;
    SameHandOut(s, Decision(s, a, resend, scan, now, cfg), a.worker, now, cfg);
  }

  /** A turn that no removed step is in the way of is an event of the value model, with its reply or exception. */
  lemma UndisturbedIsEvent<O>(s: System<O>, t: Turn<O>, now: Time, cfg: Config)
    requires SystemOk(s) && PossibleTurn(s, t, now, cfg) && !Disturbed(s, t, now, cfg)
    ensures Possible(s.w, EventOf(t), now, cfg)
    ensures var (next, outcome) := SystemNext(s, t, now, cfg);
            && next.w == Next(s.w, EventOf(t), now, cfg)
            && outcome == if t.OnWork? then Replied(GetWork(s.w, t.args, EventOf(t).choices, now, cfg).1)
                          else OutcomeOf(s.w, EventOf(t), now, cfg)
  {
    match t
    case OnEvent(e, born) => EventSystemOk(s, e, born, now, cfg);
    case OnWork(a, order, resend, scan, owners) => UndisturbedWork(s, t, now, cfg);
    case OnCount(x, owners) => UndisturbedCount(s, x, owners, now, cfg);
  }

  lemma UndisturbedCount<O>(s: System<O>, x: WorkerId, owners: set<WorkerId>, now: Time, cfg: Config)
    requires SystemOk(s) && LooksUp(KnownSystem(s, x, now), x, owners) && !InTheWay(KnownSystem(s, x, now), x)
    ensures var known := KnownSystem(s, x, now);
            !CountRaises(known, x) && Counted(known, owners, now).w == CountPending(s.w.(workers := GetWorker(s.w.workers, x, now)), x, now)
  {
    hide SystemOk, InTheWay, LooksUp, CountRaises, Inv;
    assert Inv(s.w) by {
      WorldOk(s);
    }
    WorkerCallsOk(s.w, x, WorkerInfo(None, None), now);
    WithWorldOk(s, s.w.(workers := GetWorker(s.w.workers, x, now)));
    SameCount(KnownSystem(s, x, now), x, owners);
  }

  lemma WorldOk<O>(s: System<O>)
    requires SystemOk(s)
    ensures Inv(s.w)
  {
  }

  lemma UndisturbedWork<O>(s: System<O>, t: Turn<O>, now: Time, cfg: Config)
    requires SystemOk(s) && PossibleTurn(s, t, now, cfg) && !Disturbed(s, t, now, cfg) && t.OnWork?
    ensures Possible(s.w, EventOf(t), now, cfg)
    ensures var (next, outcome) := SystemNext(s, t, now, cfg);
            var (w, reply) := GetWork(s.w, t.args, EventOf(t).choices, now, cfg);
            next.w == w && outcome == Replied(reply)
  {
    hide SystemOk, InTheWay, IsScan, LooksUp, Prepare, Announce, Decide, HandOut, Known, ValidScan, ServeSystem, PreparedSystem, ScanSystem,
         ValidResend, Relevant, Lists, CountPending, Decision;
    var OnWork(a, order, resend, scan, owners) := t;
    ScanSystemOk(s, a, order, now, cfg);
    if !PreparedSystem(s, a, order, now, cfg).w.workers[a.worker].disabled {
      ResendIsActive(s, a, order, resend, now, cfg);
      SameServe(ScanSystem(s, a, order, now, cfg), a, order, resend, scan, owners, now, cfg);
    }
  }
}
