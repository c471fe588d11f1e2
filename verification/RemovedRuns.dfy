/**
 Runs of the scheduler with removed steps: whole runs in which none is ever held, and runs in which one is
 in the way.
 */
module RemovedRuns {
  import opened Options
  import opened Sequences
  import opened SchedulerModel
  import opened SchedulerInvariants
  import opened RemovedSteps
  import opened RunningResources

  datatype SystemCall<O(==)> = SystemCall(turn: Turn<O>, now: Time)

  function Start<O>(totals: Amounts): System<O> {
    System(Initial(totals), map[], map[])
  }

  /** The call leads from one state to the next, and leaves the indexes right. */
  ghost predicate LeadsTo<O>(s: System<O>, call: SystemCall<O>, next: System<O>, cfg: Config) {
    SystemOk(s) ==>
      && PossibleTurn(s, call.turn, call.now, cfg)
      && SystemNext(s, call.turn, call.now, cfg).0 == next
      && !SystemNext(s, call.turn, call.now, cfg).1.ForeignKey?
  }

  ghost predicate IsSystemRun<O>(systems: seq<System<O>>, calls: seq<SystemCall<O>>, cfg: Config) {
    && |systems| == |calls| + 1
    && systems[0] == Start(systems[0].w.totals)
    && forall i :: 0 <= i < |calls| ==> LeadsTo(systems[i], calls[i], systems[i+1], cfg)
  }

  /** Every state of every run satisfies the invariant, whatever exceptions were raised before. */
  lemma {:induction false} ReachableSystemsAreOk<O>(systems: seq<System<O>>, calls: seq<SystemCall<O>>, cfg: Config)
    requires IsSystemRun(systems, calls, cfg)
    ensures forall s <- systems :: SystemOk(s)
  {
    hide SystemNext, PossibleTurn;
    var n := |calls|;
    if n == 0 {
      assert SystemOk(Start<O>(systems[0].w.totals));
    } else {
      hide SystemOk;
      ReachableSystemsAreOk(systems[..n], calls[..n-1], cfg);
      assert systems[n-1] in systems[..n];
      assert LeadsTo(systems[n-1], calls[n-1], systems[n], cfg);
      SystemNextOk(systems[n-1], calls[n-1].turn, calls[n-1].now, cfg);
      assert systems == systems[..n] + [systems[n]];
    }
  }

  // ---------------------------------------------------------------- quiet runs

  /** No batches and no reports of assistants. */
  predicate QuietEvent(e: Event) {
    match e
    case OnAddStep(a, pick) => !a.assistant && a.batchId.None?
    case OnAddBatcher(x, family, b) => false
    case _ => true
  }

  ghost predicate QuietTurn<O>(t: Turn<O>) {
    QuietEvent(EventOf(t))
  }

  /** Only stakeholders may run the step, and a step that is marked for removal has none. */
  predicate Wanted(s: StepRec) {
    && s.life.batchId.None? && (forall x <- s.info.workers :: x in s.info.stakeholders)
    && (s.life.remove.Some? ==> s.info.workers == [])
  }

  predicate AllWanted(steps: Steps) {
    forall k <- steps :: Wanted(steps[k])
  }

  predicate QuietWorld(w: World) {
    w.batchers == map[] && AllWanted(w.steps)
  }

  lemma SetOneWanted(s: StepRec, target: Status, now: Time, cfg: Config)
    requires Wanted(s)
    ensures Wanted(SetOne(s, target, now, cfg)) && SetOne(s, target, now, cfg).info == s.info
    ensures SetOne(s, target, now, cfg).life.remove == s.life.remove
  {
  }

  lemma SetStatusWanted(steps: Steps, id: StepId, target: Status, now: Time, cfg: Config)
    requires id in steps && AllWanted(steps)
    ensures SetStatus(steps, id, target, now, cfg) == steps[id := SetOne(steps[id], target, now, cfg)]
    ensures AllWanted(SetStatus(steps, id, target, now, cfg))
  {
    SetOneWanted(steps[id], target, now, cfg);
    hide SetOne, SetMembers;
  }

  lemma ReEnableWanted(steps: Steps, id: StepId, now: Time, cfg: Config)
    requires id in steps && AllWanted(steps)
    ensures AllWanted(ReEnable(steps, id, now, cfg))
  {
    SetStatusWanted(steps[id := Forgiven(steps[id])], id, FAILED, now, cfg);
    hide SetStatus;
  }

  lemma FailDeadWanted(steps: Steps, id: StepId, now: Time, cfg: Config, assistants: set<WorkerId>)
    requires id in steps && AllWanted(steps)
    ensures AllWanted(FailDead(steps, id, now, cfg, assistants))
  {
    SetStatusWanted(steps[id := Freed(steps[id])], id, FAILED, now, cfg);
    hide SetStatus;
  }

  lemma UpdateStatusWanted(steps: Steps, id: StepId, now: Time, cfg: Config)
    requires id in steps && AllWanted(steps)
    ensures AllWanted(UpdateStatus(steps, id, now, cfg))
  {
    hide SetStatus, ReEnable;
    var marked := steps[id := MarkUnwanted(steps[id], now, cfg)];
    assert AllWanted(marked) by {
      MarkedIsWanted(steps[id], now, cfg);
      hide MarkUnwanted, Wanted;
    }
    hide Wanted, DisableExpired, RetryDue, MarkUnwanted;
    ReEnableWanted(marked, id, now, cfg);
    var enabled := if DisableExpired(marked[id], now, cfg) then ReEnable(marked, id, now, cfg) else marked;
    assert id in enabled by {
      ReEnableOk(marked, id, now, cfg);
    }
    SetStatusWanted(enabled, id, PENDING, now, cfg);
  }

  lemma MarkedIsWanted(s: StepRec, now: Time, cfg: Config)
    requires Wanted(s)
    ensures Wanted(MarkUnwanted(s, now, cfg))
  {
    if s.info.workers != [] {
      assert s.info.workers[0] in s.info.stakeholders;
    }
  }

  predicate Unassigned(steps: Steps, ids: set<StepId>) {
    forall k <- ids :: k in steps && steps[k].info.workers == []
  }

  /** The steps that the loop removes have no workers. */
  lemma {:induction false} PruneLoopWanted(steps: Steps, order: seq<StepId>, now: Time, cfg: Config,
                                           assistants: set<WorkerId>, doomed: set<StepId>)
    requires (forall id <- order :: id in steps) && AllWanted(steps)
    requires Unassigned(steps, doomed)
    ensures var r := PruneLoop(steps, order, now, cfg, assistants, doomed);
            AllWanted(r.0) && Unassigned(r.0, r.1)
    decreases |order|
  {
    if order != [] {
      var id := order[0];
      var next := PruneStep(steps, id, now, cfg, assistants);
      assert AllWanted(next) && Evolves(steps, next) by {
        PruneStepOk(steps, id, now, cfg, assistants);
        FailDeadWanted(steps, id, now, cfg, assistants);
        assert id in FailDead(steps, id, now, cfg, assistants) by {
          FailDeadOk(steps, id, now, cfg, assistants);
        }
        UpdateStatusWanted(FailDead(steps, id, now, cfg, assistants), id, now, cfg);
        hide FailDead, UpdateStatus;
      }
      hide PruneStep;
      PruneLoopWanted(next, order[1..], now, cfg, assistants, if MayPrune(next[id], now) then doomed + {id} else doomed);
    }
  }

  lemma DesertedWanted(steps: Steps, gone: set<WorkerId>, removeStakeholders: bool)
    requires AllWanted(steps)
    ensures AllWanted(RemoveWorkers(steps, gone, removeStakeholders))
  {
    var r := RemoveWorkers(steps, gone, removeStakeholders);
    forall k | k in steps
      ensures Wanted(r[k])
    {
      WithoutFilters(steps[k].info.workers, gone);
    }
  }

  lemma PruneWanted(w: World, order: seq<StepId>, now: Time, cfg: Config)
    requires QuietWorld(w) && Lists(order, w.steps.Keys)
    ensures QuietWorld(Prune(w, order, now, cfg))
    ensures var w1 := PruneWorkers(w, now, cfg);
            var r := PruneLoop(w1.steps, order, now, cfg, Assistants(w1.workers), {});
            Unassigned(r.0, r.1)
  {
    var w1 := PruneWorkers(w, now, cfg);
    DesertedWanted(w.steps, SilentWorkers(w.workers, now, cfg), true);
    PruneLoopWanted(w1.steps, order, now, cfg, Assistants(w1.workers), {});
  }

  lemma AddStepWanted(w: World, a: AddArgs, pick: Option<StepId>, now: Time, cfg: Config)
    requires QuietWorld(w) && !a.assistant && a.batchId.None?
    ensures QuietWorld(AddStep(w, a, pick, now, cfg).0)
  {
    var workers := Touch(w.workers, a.worker, false, now);
    var enabled := !workers[a.worker].disabled;
    var head := AddStepHead(w.steps, a, now, cfg);
    assert AllWanted(head);
    assert AddStepStart(w.steps, a, pick, now, cfg) == Some(head);
    TailWanted(head, a, enabled, now, cfg);
    hide AddStepTail, AddStepHead, AddStepStart, AllWanted, Touch;
  }

  lemma TailWanted(steps: Steps, a: AddArgs, enabled: bool, now: Time, cfg: Config)
    requires a.id in steps && AllWanted(steps) && !a.assistant
    ensures AllWanted(AddStepTail(steps, a, enabled, now, cfg))
  {
    var unmarked := steps[a.id := Unmark(steps[a.id], a)];
    var reported := Report(unmarked, a, now, cfg);
    ReportedIsWanted(steps, a, now, cfg);
    hide Report, Unmark;
    var rewired := reported[a.id := Rewire(reported[a.id], a)];
    var watched := if enabled then AddStakeholder(rewired, a.id, a.worker, a.priority, now, cfg) else rewired;
    assert Ready(watched, a, enabled) by {
      WatchedIsWanted(rewired, a, now, cfg);
      hide AddStakeholder;
    }
    hide AddStakeholder, Rewire, Ready;
    var raised := UpdatePriority(watched, a.id, a.priority);
    RaisedIsWanted(watched, a, enabled);
    hide UpdatePriority;
    EnlistedIsWanted(raised, a, enabled);
  }

  /** The worker may join the step. */
  predicate Ready(steps: Steps, a: AddArgs, enabled: bool) {
    a.id in steps && AllWanted(steps) && steps[a.id].life.remove.None? && (enabled ==> a.worker in steps[a.id].info.stakeholders)
  }

  lemma ReportedIsWanted(steps: Steps, a: AddArgs, now: Time, cfg: Config)
    requires a.id in steps && AllWanted(steps)
    ensures var reported := Report(steps[a.id := Unmark(steps[a.id], a)], a, now, cfg);
            AllWanted(reported) && reported[a.id].life.remove.None?
  {
    var unmarked := steps[a.id := Unmark(steps[a.id], a)];
    var target := if a.status == SUSPENDED then PENDING else a.status;
    SetStatusWanted(unmarked, a.id, target, now, cfg);
    SetOneWanted(unmarked[a.id], target, now, cfg);
    hide SetStatus, SetOne;
  }

  lemma WatchedIsWanted(steps: Steps, a: AddArgs, now: Time, cfg: Config)
    requires a.id in steps && AllWanted(steps) && steps[a.id].life.remove.None?
    ensures Ready(AddStakeholder(steps, a.id, a.worker, a.priority, now, cfg), a, true)
  {
  }

  lemma RaisedIsWanted(steps: Steps, a: AddArgs, enabled: bool)
    requires Ready(steps, a, enabled)
    ensures Ready(UpdatePriority(steps, a.id, a.priority), a, enabled)
  {
    UpdatePriorityOk(steps, a.id, a.priority);
    hide UpdatePriority;
  }

  lemma EnlistedIsWanted(steps: Steps, a: AddArgs, enabled: bool)
    requires Ready(steps, a, enabled)
    ensures AllWanted(steps[a.id := Enlist(steps[a.id], a, enabled)])
  {
  }

  /** A quiet event keeps a quiet world. */
  lemma QuietNext(w: World, e: Event, now: Time, cfg: Config)
    requires Inv(w) && QuietWorld(w) && Possible(w, e, now, cfg) && QuietEvent(e)
    ensures QuietWorld(Next(w, e, now, cfg))
  {
    match e
    case OnAddStep(a, pick) => AddStepWanted(w, a, pick, now, cfg);
    case OnGetWork(a, c) => GetWorkWanted(w, a, c, now, cfg);
    case OnCountPending(x) =>
    case OnPrune(order) => PruneWanted(w, order, now, cfg);
    case OnMarkAsDone(id) => StatusCallsWanted(w, id, now, cfg);
    case OnForgive(id) => StatusCallsWanted(w, id, now, cfg);
    case OnReEnable(id) => StatusCallsWanted(w, id, now, cfg);
    case OnDecrease(id, d, done) =>
    case OnDisableWorker(x) => DesertedWanted(w.steps, {x}, false);
    case OnAddWorker(x, info) =>
    case OnPing(x) =>
    case OnUpdateResource(r, amount) =>
    case OnUpdateResources(amounts) =>
    case OnSetPaused(paused) =>
  }

  lemma StatusCallsWanted(w: World, id: StepId, now: Time, cfg: Config)
    requires QuietWorld(w)
    ensures QuietWorld(MarkAsDone(w, id, now, cfg)) && QuietWorld(ForgiveFailures(w, id, now, cfg)) && QuietWorld(ReEnableStep(w, id, now, cfg))
  {
    hide SetStatus, ReEnable;
    if id in w.steps {
      SetStatusWanted(w.steps, id, DONE, now, cfg);
      SetStatusWanted(w.steps, id, PENDING, now, cfg);
      ReEnableWanted(w.steps, id, now, cfg);
    }
  }

  lemma GetWorkWanted(w: World, a: WorkArgs, c: Choices, now: Time, cfg: Config)
    requires Inv(w) && QuietWorld(w) && ValidChoices(w, a, c, now, cfg)
    ensures QuietWorld(GetWork(w, a, c, now, cfg).0)
  {
    hide Inv;
    var reply := GetWorkShape(w, a, c, now, cfg);
    if cfg.pruneOnGetWork {
      PruneWanted(w, c.pruneOrder, now, cfg);
    }
    hide GetWork, ValidChoices, Prune, ValidScan, Decide;
    var w1, w2 := Prepare(w, a, c.pruneOrder, now, cfg), AtScan(w, a, c, now, cfg);
    assert QuietWorld(w1);
    assert QuietWorld(w2) by {
      ResetWanted(w1.steps, a.worker, now, cfg);
      hide ResetOrphans, Prepare, AllWanted;
    }
    if !w1.workers[a.worker].disabled {
      assert !reply.BatchGranted? by {
        NoBatchIsDecided(w2, a, c, now, cfg);
      }
      if reply.Granted? {
        GrantWanted(w2.steps, reply.id, a.worker, now, cfg);
      }
      hide Prepare, AtScan, AllWanted, Grant;
    }
  }

  lemma NoBatchIsDecided(w: World, a: WorkArgs, c: Choices, now: Time, cfg: Config)
    requires a.worker in w.workers && (forall id <- c.scan :: id in w.steps) && w.batchers == map[]
    ensures !Decide(w, a, c, now, cfg).BatchGranted?
  {
    hide Pick;
  }

  lemma ResetWanted(steps: Steps, x: WorkerId, now: Time, cfg: Config)
    requires AllWanted(steps)
    ensures AllWanted(ResetOrphans(steps, x, now, cfg))
  {
    forall k | k in steps {
      SetOneWanted(steps[k], PENDING, now, cfg);
    }
    hide SetOne, OrphanedMember, Wanted;
  }

  lemma GrantWanted(steps: Steps, id: StepId, x: WorkerId, now: Time, cfg: Config)
    requires id in steps && AllWanted(steps)
    ensures AllWanted(Grant(steps, id, x, now, cfg))
  {
    SetStatusWanted(steps, id, RUNNING, now, cfg);
    hide SetStatus;
  }

  /** Nobody holds a removed step. */
  ghost predicate NothingHeld<O>(s: System<O>) {
    forall x <- s.held :: s.held[x] == {}
  }

  lemma NothingInTheWay<O>(s: System<O>, x: WorkerId)
    requires NothingHeld(s)
    ensures !InTheWay(s, x)
  {
    hide WalksOwn;
  }

  lemma NothingHeldAfterPrune<O>(s: System<O>, order: seq<StepId>, now: Time, cfg: Config)
    requires QuietWorld(s.w) && NothingHeld(s) && Lists(order, s.w.steps.Keys)
    ensures NothingHeld(PruneSystem(s, order, now, cfg))
  {
    PruneWanted(s.w, order, now, cfg);
    hide PruneLoop, PruneWorkers, Prune, Lists, RemovedFrom, QuietWorld, Unassigned;
    var w1 := PruneWorkers(s.w, now, cfg);
    var (steps, doomed) := PruneLoop(w1.steps, order, now, cfg, Assistants(w1.workers), {});
    forall x
      ensures RemovedFrom(s, steps, doomed, x) == {}
    {
      NothingRemovedFrom(s, steps, doomed, x);
    }
  }

  lemma NothingRemovedFrom<O>(s: System<O>, steps: Steps, doomed: set<StepId>, x: WorkerId)
    requires Unassigned(steps, doomed)
    ensures RemovedFrom(s, steps, doomed, x) == {}
  {
  }

  lemma NothingHeldWithWorld<O>(s: System<O>, w: World)
    requires NothingHeld(s)
    ensures NothingHeld(WithWorld(s, w))
  {
  }

  lemma NothingHeldAtScan<O>(s: System<O>, a: WorkArgs, order: seq<StepId>, now: Time, cfg: Config)
    requires QuietWorld(s.w) && NothingHeld(s) && (cfg.pruneOnGetWork ==> Lists(order, s.w.steps.Keys))
    ensures NothingHeld(PreparedSystem(s, a, order, now, cfg)) && NothingHeld(ScanSystem(s, a, order, now, cfg))
  {
    if cfg.pruneOnGetWork {
      NothingHeldAfterPrune(s, order, now, cfg);
    }
    hide NothingHeld, PruneSystem, Prepare, Announce, WithWorld;
    NothingHeldWithWorld(if cfg.pruneOnGetWork then PruneSystem(s, order, now, cfg) else s, Prepare(s.w, a, order, now, cfg));
    var s1 := PreparedSystem(s, a, order, now, cfg);
    NothingHeldWithWorld(s1, Announce(s1.w, a, now, cfg));
  }

  /** A quiet turn is an event of the value model, and it raises an exception just if it decreases the resources of a
      running step that has none. */
  lemma QuietTurnIsEvent<O>(s: System<O>, t: Turn<O>, now: Time, cfg: Config)
    requires SystemOk(s) && QuietWorld(s.w) && NothingHeld(s) && PossibleTurn(s, t, now, cfg) && QuietTurn(t)
    ensures Possible(s.w, EventOf(t), now, cfg)
    ensures var (next, outcome) := SystemNext(s, t, now, cfg);
            && next.w == Next(s.w, EventOf(t), now, cfg)
            && (if DecreasesUnfurnished(s.w, EventOf(t)) then outcome == NoRunningResources else !outcome.Raises())
            && QuietWorld(next.w) && NothingHeld(next)
  {
    NothingDisturbs(s, t, now, cfg);
    UndisturbedIsEvent(s, t, now, cfg);
    StillNothingHeld(s, t, now, cfg);
    QuietOutcome(s.w, EventOf(t), now, cfg);
    hide SystemNext, PossibleTurn, QuietWorld, NothingHeld, Possible, Next, Inv, Disturbed;
    WorldOk(s);
    QuietNext(s.w, EventOf(t), now, cfg);
  }

  /** The call is to decrease the resources of a running step that has none. */
  predicate DecreasesUnfurnished(w: World, e: Event) {
    e.OnDecrease? && e.id in w.steps && w.steps[e.id].life.status == RUNNING && w.steps[e.id].load.resourcesRunning.None?
  }

  lemma QuietOutcome(w: World, e: Event, now: Time, cfg: Config)
    requires QuietWorld(w) && QuietEvent(e)
    ensures OutcomeOf(w, e, now, cfg) == if DecreasesUnfurnished(w, e) then NoRunningResources else Finished
  {
    hide AddStepTail, AddStepHead, Ignored;
    if e.OnDecrease? && e.id in w.steps {
      assert Wanted(w.steps[e.id]);
    }
  }

  lemma NothingDisturbs<O>(s: System<O>, t: Turn<O>, now: Time, cfg: Config)
    requires SystemOk(s) && QuietWorld(s.w) && NothingHeld(s) && PossibleTurn(s, t, now, cfg)
    ensures !Disturbed(s, t, now, cfg)
  {
    hide SystemOk, QuietWorld, NothingHeld, Prepare, InTheWay, Lists, IsScan, LooksUp, ValidResend, Possible, Next,
         NewObjects, PreparedSystem, ScanSystem;
    match t
    case OnEvent(e, born) =>
    case OnWork(a, order, resend, scan, owners) =>
      NothingHeldAtScan(s, a, order, now, cfg);
      NothingInTheWay(ScanSystem(s, a, order, now, cfg), a.worker);
    case OnCount(x, owners) =>
      NothingHeldWithWorld(s, s.w.(workers := GetWorker(s.w.workers, x, now)));
      NothingInTheWay(KnownSystem(s, x, now), x);
  }

  lemma StillNothingHeld<O>(s: System<O>, t: Turn<O>, now: Time, cfg: Config)
    requires SystemOk(s) && QuietWorld(s.w) && NothingHeld(s) && PossibleTurn(s, t, now, cfg)
    ensures NothingHeld(SystemNext(s, t, now, cfg).0)
  {
    match t
    case OnEvent(e, born) =>
      if e.OnPrune? {
        NothingHeldAfterPrune(s, e.order, now, cfg);
      }
      hide Next, PruneSystem, SystemOk, QuietWorld;
    case OnWork(a, order, resend, scan, owners) => StillNothingAfterWork(s, t, now, cfg);
    case OnCount(x, owners) => hide QuietWorld, LooksUp, CountRaises, Inv;
  }

  lemma StillNothingAfterWork<O>(s: System<O>, t: Turn<O>, now: Time, cfg: Config)
    requires SystemOk(s) && QuietWorld(s.w) && NothingHeld(s) && PossibleTurn(s, t, now, cfg) && t.OnWork?
    ensures NothingHeld(SystemNext(s, t, now, cfg).0)
  {
    hide SystemOk, QuietWorld, NothingHeld, Prepare, CountRaises, Lists, IsScan, LooksUp, ValidResend, HandOutItems, Decision,
         PreparedSystem, ScanSystem, WithWorld;
    var OnWork(a, order, resend, scan, owners) := t;
    NothingHeldAtScan(s, a, order, now, cfg);
    var s2 := ScanSystem(s, a, order, now, cfg);
    NothingHeldWithWorld(s2, s2.w.(workers := WithWorkers(s2.w.workers, owners, now)));
    SameHeld(Counted(s2, owners, now));
  }

  lemma SameHeld<O>(s: System<O>)
    requires NothingHeld(s)
    ensures forall w: World :: NothingHeld(s.(w := w))
  {
  }

  ghost function WorldsOf<O>(systems: seq<System<O>>): seq<World> {
    seq(|systems|, i requires 0 <= i < |systems| => systems[i].w)
  }

  ghost function EventsOf<O>(calls: seq<SystemCall<O>>): seq<Call> {
    seq(|calls|, i requires 0 <= i < |calls| => Call(EventOf(calls[i].turn), calls[i].now))
  }

  /** The outcome of a call of a run. */
  ghost predicate EndsIn<O>(s: System<O>, call: SystemCall<O>, outcome: Outcome, cfg: Config) {
    SystemOk(s) && PossibleTurn(s, call.turn, call.now, cfg) && SystemNext(s, call.turn, call.now, cfg).1 == outcome
  }

  ghost predicate Raises<O>(s: System<O>, call: SystemCall<O>, cfg: Config) {
    exists outcome :: EndsIn(s, call, outcome, cfg) && outcome.Raises()
  }

  /** A call raises an exception just if it decreases the resources of a running step that has none. */
  ghost predicate OnlyDecreasesRaise<O>(systems: seq<System<O>>, calls: seq<SystemCall<O>>, cfg: Config)
    requires |systems| == |calls| + 1
  {
    forall i :: 0 <= i < |calls| ==>
      (Raises(systems[i], calls[i], cfg) <==> DecreasesUnfurnished(systems[i].w, EventOf(calls[i].turn)))
  }

  /** An exception comes from a removed step that is in the way. */
  ghost predicate OnlyDisturbedRaise<O>(systems: seq<System<O>>, calls: seq<SystemCall<O>>, cfg: Config)
    requires |systems| == |calls| + 1
  {
    forall i :: 0 <= i < |calls| && Raises(systems[i], calls[i], cfg) ==>
      && PossibleTurn(systems[i], calls[i].turn, calls[i].now, cfg)
      && Disturbed(systems[i], calls[i].turn, calls[i].now, cfg)
  }

  ghost predicate RaisesNothing<O>(systems: seq<System<O>>, calls: seq<SystemCall<O>>, cfg: Config)
    requires |systems| == |calls| + 1
  {
    forall i :: 0 <= i < |calls| ==> exists outcome :: EndsIn(systems[i], calls[i], outcome, cfg) && !outcome.Raises()
  }

  /** A run without batches and without reports of assistants is a run of the value model.  A call of it raises an
      exception just if it decreases the resources of a running step that has none. */
  lemma {:induction false} QuietRunsAreRuns<O>(systems: seq<System<O>>, calls: seq<SystemCall<O>>, cfg: Config)
    requires IsSystemRun(systems, calls, cfg) && forall c <- calls :: QuietTurn(c.turn)
    ensures IsRun(WorldsOf(systems), EventsOf(calls), cfg)
    ensures OnlyDecreasesRaise(systems, calls, cfg)
    ensures QuietWorld(systems[|calls|].w) && NothingHeld(systems[|calls|])
  {
    hide Possible, Next, SystemOk, QuietTurn, EventOf, Raises, LeadsTo, QuietWorld, NothingHeld, DecreasesUnfurnished;
    var n := |calls|;
    if n == 0 {
      StartIsQuiet<O>(systems[0].w.totals);
    } else {
      assert forall c <- calls[..n-1] :: c in calls;
      QuietRunsAreRuns(systems[..n], calls[..n-1], cfg);
      ReachableSystemsAreOk(systems, calls, cfg);
      var s, call := systems[n-1], calls[n-1];
      assert s in systems && call in calls && LeadsTo(s, call, systems[n], cfg);
      QuietCall(s, call, systems[n], cfg);
      LongerRun(WorldsOf(systems[..n]), EventsOf(calls[..n-1]), Call(EventOf(call.turn), call.now), systems[n].w, cfg);
      assert WorldsOf(systems) == WorldsOf(systems[..n]) + [systems[n].w];
      assert EventsOf(calls) == EventsOf(calls[..n-1]) + [Call(EventOf(call.turn), call.now)];
    }
  }

  lemma StartIsQuiet<O>(totals: Amounts)
    ensures QuietWorld(Start<O>(totals).w) && NothingHeld(Start<O>(totals))
  {
  }

  lemma QuietCall<O>(s: System<O>, call: SystemCall<O>, next: System<O>, cfg: Config)
    requires SystemOk(s) && QuietWorld(s.w) && NothingHeld(s) && LeadsTo(s, call, next, cfg) && QuietTurn(call.turn)
    ensures Possible(s.w, EventOf(call.turn), call.now, cfg) && next.w == Next(s.w, EventOf(call.turn), call.now, cfg)
    ensures Raises(s, call, cfg) <==> DecreasesUnfurnished(s.w, EventOf(call.turn))
    ensures QuietWorld(next.w) && NothingHeld(next)
  {
    hide SystemNext, PossibleTurn, SystemOk, QuietWorld, NothingHeld, Possible, Next, QuietTurn, DecreasesUnfurnished;
    QuietTurnIsEvent(s, call.turn, call.now, cfg);
    assert EndsIn(s, call, SystemNext(s, call.turn, call.now, cfg).1, cfg);
  }

  // ---------------------------------------------------------------- runs without reports of running steps

  /** Whatever is handed out, up to the first removed step, is furnished. */
  lemma HandOutItemsFurnished<O>(s: System<O>, q: seq<Item<O>>, x: WorkerId, now: Time, cfg: Config)
    requires (forall it <- q :: Gone(s, it) || it.rec.id in s.w.steps) && Furnished(s.w.steps)
    ensures Furnished(HandOutItems(s, q, x, now, cfg).0)
  {
    hide Gone, Grant, StartBatch, Furnished;
    var ids := IdsIn(q);
    if |q| == 1 {
      assert q[0] in q;
      if !Gone(s, q[0]) {
        GrantFurnished(s.w.steps, ids[0], x, now, cfg);
      }
    } else if q != [] {
      var n := BeforeGone(s, q);
      assert forall i :: 0 <= i < n ==> q[i] in q && ids[..n][i] in s.w.steps;
      StartBatchFurnished(s.w.steps, ids[..n], ids, x, now, cfg);
    }
  }

  /** A turn that does not report a running step keeps every running step furnished, also if removed steps are in its
      way; and they are the only reason for an exception. */
  lemma FurnishedTurn<O>(s: System<O>, t: Turn<O>, now: Time, cfg: Config)
    requires SystemOk(s) && PossibleTurn(s, t, now, cfg) && Furnished(s.w.steps) && !ReportsRun(EventOf(t))
    ensures var (next, outcome) := SystemNext(s, t, now, cfg);
            Furnished(next.w.steps) && (outcome.Raises() ==> Disturbed(s, t, now, cfg))
  {
    if !Disturbed(s, t, now, cfg) {
      UndisturbedIsEvent(s, t, now, cfg);
      UnfurnishedOutcome(s.w, EventOf(t), now, cfg);
    }
    match t
    case OnEvent(e, born) =>
      EventSystemOk(s, e, born, now, cfg);
      hide Furnished, Next, EventSystem, Disturbed, SystemOk, Inv;
      WorldOk(s);
      NextFurnished(s.w, e, now, cfg);
    case OnWork(a, order, resend, scan, owners) =>
      FurnishedWork(s, t, now, cfg);
      hide SystemNext, Disturbed, Furnished;
    case OnCount(x, owners) =>
      hide LooksUp, CountRaises, Inv, Disturbed;
  }

  lemma UnfurnishedOutcome(w: World, e: Event, now: Time, cfg: Config)
    requires Furnished(w.steps) && !ReportsRun(e)
    ensures OutcomeOf(w, e, now, cfg) == Finished
  {
    hide AddStep;
    if e.OnAddStep? {
      AddStepFurnished(w, e.add, e.pick, now, cfg);
    } else if e.OnDecrease? && e.id in w.steps {
      assert FurnishedStep(w.steps[e.id]);
      assert forall k <- w.steps :: InBatch(w.steps[k], w.steps[e.id].life.batchId) ==> FurnishedStep(w.steps[k]);
    }
  }

  lemma FurnishedWork<O>(s: System<O>, t: Turn<O>, now: Time, cfg: Config)
    requires SystemOk(s) && PossibleTurn(s, t, now, cfg) && Furnished(s.w.steps) && t.OnWork?
    ensures Furnished(SystemNext(s, t, now, cfg).0.w.steps)
  {
    hide SystemOk, Furnished, Prepare, Announce, CountRaises, Lists, IsScan, LooksUp, ValidResend, HandOutItems, Decision,
         PreparedSystem, ScanSystem, Inv;
    var OnWork(a, order, resend, scan, owners) := t;
    var s1 := PreparedSystem(s, a, order, now, cfg);
    PrepareFurnished(s.w, a, order, now, cfg);
    if !s1.w.workers[a.worker].disabled {
      var s2 := ScanSystem(s, a, order, now, cfg);
      ScanSystemOk(s, a, order, now, cfg);
      AnnounceFurnished(s1.w, a, now, cfg);
      DecisionIsSeen(s2, a, resend, scan, now, cfg);
      HandOutItemsFurnished(s2, Decision(s2, a, resend, scan, now, cfg), a.worker, now, cfg);
    }
  }

  /** In a run without reports of running steps, every exception comes from a removed step that is in the way. */
  lemma {:induction false} OnlyRemovedStepsRaise<O>(systems: seq<System<O>>, calls: seq<SystemCall<O>>, cfg: Config)
    requires IsSystemRun(systems, calls, cfg) && forall c <- calls :: !ReportsRun(EventOf(c.turn))
    ensures Furnished(systems[|calls|].w.steps)
    ensures OnlyDisturbedRaise(systems, calls, cfg)
  {
    hide SystemOk, SystemNext, PossibleTurn, Disturbed, Furnished, ReportsRun, EventOf;
    var n := |calls|;
    if n == 0 {
      assert Furnished(systems[0].w.steps) by {
        NobodyUnfurnished<O>(systems[0].w.totals);
      }
    } else {
      assert forall c <- calls[..n-1] :: c in calls;
      OnlyRemovedStepsRaise(systems[..n], calls[..n-1], cfg);
      ReachableSystemsAreOk(systems, calls, cfg);
      assert systems[n-1] in systems && calls[n-1] in calls && LeadsTo(systems[n-1], calls[n-1], systems[n], cfg);
      FurnishedTurn(systems[n-1], calls[n-1].turn, calls[n-1].now, cfg);
    }
  }

  lemma NobodyUnfurnished<O>(totals: Amounts)
    ensures Furnished(Start<O>(totals).w.steps)
  {
  }

  /** So a run without batches, reports of assistants and reports of running steps raises no exception. */
  lemma {:induction false} QuietRunsRaiseNothing<O>(systems: seq<System<O>>, calls: seq<SystemCall<O>>, cfg: Config)
    requires IsSystemRun(systems, calls, cfg) && forall c <- calls :: QuietTurn(c.turn) && !ReportsRun(EventOf(c.turn))
    ensures RaisesNothing(systems, calls, cfg)
  {
    QuietRunsAreRuns(systems, calls, cfg);
    ReachableSystemsAreOk(systems, calls, cfg);
    hide SystemOk, SystemNext, PossibleTurn, Furnished, ReportsRun, EventOf, QuietTurn, IsRun, QuietWorld, NothingHeld;
    forall i | 0 <= i < |calls|
      ensures exists outcome :: EndsIn(systems[i], calls[i], outcome, cfg) && !outcome.Raises()
    {
      assert systems[i] in systems && calls[i] in calls && LeadsTo(systems[i], calls[i], systems[i+1], cfg);
      assert forall c <- calls[..i] :: c in calls;
      OnlyRemovedStepsRaise(systems[..i+1], calls[..i], cfg);
      assert EndsIn(systems[i], calls[i], SystemNext(systems[i], calls[i].turn, calls[i].now, cfg).1, cfg);
      NothingUnfurnished(systems[i].w, EventOf(calls[i].turn));
    }
  }

  lemma NothingUnfurnished(w: World, e: Event)
    requires Furnished(w.steps)
    ensures !DecreasesUnfurnished(w, e)
  {
    if e.OnDecrease? && e.id in w.steps {
      assert FurnishedStep(w.steps[e.id]);
    }
  }
}
