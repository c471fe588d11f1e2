/**
 No step is started before its dependencies are done, in any run of the scheduler, with removed steps in the way or not.
 */
module DependencyLaws {
  import opened Options
  import opened Sequences
  import opened SchedulerModel
  import opened SchedulerInvariants
  import opened StatusLaws
  import opened ReportLaws
  import opened GrantLaws
  import opened RemovedSteps
  import opened RemovedRuns
  import opened SystemTheorems

  // ---------------------------------------------------------------- dependencies stay

  /** The event reports a whole new set of dependencies of the step. */
  predicate Replaces(e: Event, k: StepId) {
    e.OnAddStep? && e.add.id == k && e.add.deps.Some?
  }

  predicate KeepsDeps(steps: Steps, next: Steps, k: StepId) {
    k in steps && k in next ==> steps[k].info.deps <= next[k].info.deps
  }

  lemma EvolvesKeepsDeps(steps: Steps, next: Steps, k: StepId)
    requires Evolves(steps, next)
    ensures KeepsDeps(steps, next, k)
  {
  }

  lemma PruneKeepsDeps(w: World, order: seq<StepId>, now: Time, cfg: Config, k: StepId)
    requires Lists(order, w.steps.Keys)
    ensures KeepsDeps(w.steps, Prune(w, order, now, cfg).steps, k)
  {
    var w1 := PruneWorkers(w, now, cfg);
    PruneLoopOk(w1.steps, order, now, cfg, Assistants(w1.workers), {});
    hide PruneLoop, Without;
  }

  lemma ReportKeepsDeps(w: World, a: AddArgs, pick: Option<StepId>, now: Time, cfg: Config, k: StepId)
    requires ValidPick(AddStepHead(w.steps, a, now, cfg), a.batchId, pick) && !(a.id == k && a.deps.Some?)
    ensures KeepsDeps(w.steps, AddStep(w, a, pick, now, cfg).0.steps, k)
  {
    hide AddStep, TurnedAway, MayChange, BreaksUp, IsSetTo, StaysAsIs;
    if TurnedAway(w, a, now, cfg) {
      TurnedAwayChangesNothing(w, a, pick, now, cfg);
    } else {
      ReportEnds(w, a, pick, now, cfg);
      if !AddStep(w, a, pick, now, cfg).1 {
        if k == a.id {
          ReportSetsPlaces(w, a, pick, now, cfg);
        } else {
          ReportReachesOthers(w, a, pick, now, cfg, k);
        }
      }
      hide AddStepTail, AddStepStart;
    }
  }

  lemma EventKeepsDeps(w: World, e: Event, now: Time, cfg: Config, k: StepId)
    requires Possible(w, e, now, cfg) && !e.OnGetWork? && !e.OnCountPending? && !Replaces(e, k)
    ensures KeepsDeps(w.steps, Next(w, e, now, cfg).steps, k)
  {
    hide AddStep, Prune, SetStatus, ReEnable, DecreaseSteps, Evolves, Without;
    match e
    case OnAddStep(a, pick) => ReportKeepsDeps(w, a, pick, now, cfg, k);
    case OnPrune(order) => PruneKeepsDeps(w, order, now, cfg, k);
    case OnMarkAsDone(id) => StatusCallKeepsDeps(w.steps, id, DONE, now, cfg, k);
    case OnForgive(id) => StatusCallKeepsDeps(w.steps, id, PENDING, now, cfg, k);
    case OnReEnable(id) =>
      if id in w.steps {
        ReEnableOk(w.steps, id, now, cfg);
        EvolvesKeepsDeps(w.steps, ReEnable(w.steps, id, now, cfg), k);
      }
    case OnDecrease(id, d, done) =>
      DecreaseStepsOk(w.steps, id, d, done);
      EvolvesKeepsDeps(w.steps, DecreaseSteps(w.steps, id, d, done), k);
    case _ =>
  }

  lemma StatusCallKeepsDeps(steps: Steps, id: StepId, target: Status, now: Time, cfg: Config, k: StepId)
    requires target != SUSPENDED && target != RUNNING
    ensures id in steps ==> KeepsDeps(steps, SetStatus(steps, id, target, now, cfg), k)
  {
    hide SetStatus;
    if id in steps {
      SetStatusOk(steps, id, target, now, cfg);
    }
  }

  lemma GrantsEvolve(steps: Steps, g: Grants, x: WorkerId, now: Time, cfg: Config, next: Steps)
    requires GrantsOf(steps, g, x, now, cfg, next)
    ensures Evolves(steps, next)
  {
    hide Grant, StartBatch;
    match g
    case NoGrant =>
    case OneGrant(id) => GrantOk(steps, id, x, now, cfg);
    case SomeOfBatch(ids, b) => StartBatchOk(steps, ids, b, x, now, cfg);
  }

  lemma WorkKeepsDeps<O>(s: System<O>, t: Turn<O>, now: Time, cfg: Config, k: StepId)
    requires SystemOk(s) && PossibleTurn(s, t, now, cfg) && t.OnWork?
    ensures var w1, s2 := Prepare(s.w, t.args, t.order, now, cfg), ScanSystem(s, t.args, t.order, now, cfg);
            var next := SystemNext(s, t, now, cfg).0.w;
            && next.steps.Keys == w1.steps.Keys == s2.w.steps.Keys <= s.w.steps.Keys
            && KeepsDeps(s.w.steps, next.steps, k) && KeepsDeps(s.w.steps, s2.w.steps, k)
            && (k in w1.steps && w1.steps[k].life.status == PENDING ==> s2.w.steps[k] == w1.steps[k])
  {
    hide SystemNext, SystemOk, Decision, IsScan, Lists, GrantsOf, Gone, Evolves, RosterOk, StepsOk;
    var g := WorkShape(s, t, now, cfg);
    WorkMarks(s, t, now, cfg, k);
    ScanSystemOk(s, t.args, t.order, now, cfg);
    var w1, next := Prepare(s.w, t.args, t.order, now, cfg), SystemNext(s, t, now, cfg).0.w;
    hide ScanSystem, PossibleTurn;
    PrepareKeepsDeps(s.w, t.args, t.order, now, cfg, k);
    hide Prepare;
    var w2 := Announce(w1, t.args, now, cfg);
    AnnounceKeepsPending(w1, t.args, now, cfg, k);
    hide Announce;
    if !w1.workers[t.args.worker].disabled {
      GrantsEvolve(w2.steps, g, t.args.worker, now, cfg, next.steps);
      GrantsKeys(w2.steps, g, t.args.worker, now, cfg, next.steps);
      EvolvesKeepsDeps(w2.steps, next.steps, k);
    }
  }

  lemma PrepareKeepsDeps(w: World, a: WorkArgs, order: seq<StepId>, now: Time, cfg: Config, k: StepId)
    requires cfg.pruneOnGetWork ==> Lists(order, w.steps.Keys)
    ensures var w1 := Prepare(w, a, order, now, cfg); w1.steps.Keys <= w.steps.Keys && KeepsDeps(w.steps, w1.steps, k)
  {
    if cfg.pruneOnGetWork {
      PruneKeepsDeps(w, order, now, cfg, k);
      PruneAddsNothing(w, order, now, cfg);
    }
    hide Prune, Touch;
  }

  lemma AnnounceKeepsPending(w: World, a: WorkArgs, now: Time, cfg: Config, k: StepId)
    requires a.worker in w.workers
    ensures var w2 := Announce(w, a, now, cfg);
            && w2.steps.Keys == w.steps.Keys
            && (k in w.steps ==> w2.steps[k].info == w.steps[k].info)
            && (k in w.steps && w.steps[k].life.status == PENDING ==> w2.steps[k] == w.steps[k])
  {
    hide SetLife;
  }

  /** A call keeps the dependencies of a step, and can only add to them, unless it reports a whole new set. */
  lemma TurnKeepsDeps<O>(s: System<O>, t: Turn<O>, now: Time, cfg: Config, k: StepId)
    requires SystemOk(s) && PossibleTurn(s, t, now, cfg) && !Replaces(EventOf(t), k)
    ensures KeepsDeps(s.w.steps, SystemNext(s, t, now, cfg).0.w.steps, k)
  {
    match t
    case OnEvent(e, born) =>
      EventSystemOk(s, e, born, now, cfg);
      hide Possible, Next, EventSystem, NewObjects, SystemOk, KeepsDeps;
      EventKeepsDeps(s.w, e, now, cfg, k);
    case OnWork(a, order, resend, scan, owners) =>
      hide SystemNext;
      WorkKeepsDeps(s, t, now, cfg, k);
    case OnCount(x, owners) => hide LooksUp, CountRaises, SystemOk;
  }

  // ---------------------------------------------------------------- steps start when they are ready

  lemma {:induction false} CollectedAreReady<O>(steps: Steps, b: Batcher, best: StepRec, batch: seq<Item<O>>, q: seq<Item<O>>)
    requires forall it <- batch :: ReadyToRun(steps, it.rec)
    ensures forall it <- CollectItems(steps, b, best, batch, q) :: ReadyToRun(steps, it.rec)
    decreases |q|
  {
    if q != [] {
      CollectedAreReady(steps, b, best, batch, q[1..]);
      if JoinsBatch(steps, b, best, q[0].rec) {
        assert ReadyToRun(steps, q[0].rec);
        hide ReadyToRun;
        CollectedAreReady(steps, b, best, batch + [q[0]], q[1..]);
      }
    }
  }

  /** Whatever the scan chooses is pending, and all its dependencies are done. */
  lemma ChosenAreReady<O>(s: System<O>, a: WorkArgs, scan: seq<Item<O>>, now: Time, cfg: Config)
    requires a.worker in s.w.workers
    ensures forall it <- Chosen(s, a, scan, now, cfg) :: ReadyToRun(s.w.steps, it.rec)
  {
    var q := RecsIn(scan);
    var i := Pick(s.w.steps, RequestFor(s, a), GreedyFor(s, a, now, cfg), q, 0);
    if i < |scan| {
      assert StopsAt(s.w.steps, RequestFor(s, a), GreedyFor(s, a, now, cfg), q, i);
      assert ReadyToRun(s.w.steps, scan[i].rec);
      hide Pick, ReadyToRun;
      CollectedAreReady(s.w.steps, GetBatcher(s.w, a.worker, scan[i].rec.info.family), scan[i].rec, [scan[i]], scan[i+1..]);
    }
  }

  lemma {:induction false} BatchLeavesPending(steps: Steps, todo: seq<StepId>, b: BatchId, x: WorkerId, now: Time, cfg: Config, k: StepId)
    requires (forall id <- todo :: id in steps) && k in steps && steps[k].life.status == PENDING && k !in todo
    ensures var next := StartBatch(steps, todo, b, x, now, cfg); k in next && next[k] == steps[k]
  {
    if todo != [] {
      var n := |todo| - 1;
      BatchLeavesPending(steps, todo[..n], b, x, now, cfg, k);
      SetStatusAt(StartBatch(steps, todo[..n], b, x, now, cfg), todo[n], BATCH_RUNNING, now, cfg, k);
      hide SetStatus, SetOne, StartBatch;
    }
  }

  /** A pending step that is not granted stays as it is. */
  lemma GrantsLeavePending(steps: Steps, g: Grants, x: WorkerId, now: Time, cfg: Config, next: Steps, k: StepId)
    requires GrantsOf(steps, g, x, now, cfg, next) && k in steps && steps[k].life.status == PENDING && k !in GrantedIds(g)
    ensures k in next && next[k] == steps[k]
  {
    hide StartBatch, SetStatus;
    match g
    case NoGrant =>
    case OneGrant(id) => SetStatusAt(steps, id, RUNNING, now, cfg, k);
    case SomeOfBatch(ids, b) => BatchLeavesPending(steps, ids, b, x, now, cfg, k);
  }

  /** `get_work` starts a pending step only if all its dependencies are done at the moment of the scan. */
  lemma StartsWhenReady<O>(s: System<O>, t: Turn<O>, now: Time, cfg: Config, k: StepId)
    requires SystemOk(s) && PossibleTurn(s, t, now, cfg) && t.OnWork?
    requires var w1 := Prepare(s.w, t.args, t.order, now, cfg); k in w1.steps && w1.steps[k].life.status == PENDING
    requires var next := SystemNext(s, t, now, cfg).0.w.steps; k in next && next[k].life.status in {RUNNING, BATCH_RUNNING}
    ensures var steps := ScanSystem(s, t.args, t.order, now, cfg).w.steps;
            k in steps && forall d <- steps[k].info.deps :: d in steps && steps[d].life.status == DONE
  {
    hide SystemNext, SystemOk, Decision, IsScan, Lists, GrantsOf, Gone, Prepare, ScanSystem, Announce, PossibleTurn, KeepsDeps;
    var g := WorkShape(s, t, now, cfg);
    WorkMarks(s, t, now, cfg, k);
    WorkKeepsDeps(s, t, now, cfg, k);
    var w1, next := Prepare(s.w, t.args, t.order, now, cfg), SystemNext(s, t, now, cfg).0.w;
    if !w1.workers[t.args.worker].disabled {
      var s2 := ScanSystem(s, t.args, t.order, now, cfg);
      if k !in GrantedIds(g) {
        GrantsLeavePending(s2.w.steps, g, t.args.worker, now, cfg, next.steps, k);
      }
      if t.resend.Some? {
        ResendIsRunning(s, t, now, cfg);
      }
      var it :| it in Decision(s2, t.args, t.resend, t.scan, now, cfg) && it.rec.id == k && !Gone(s2, it);
      DecidedIsReady(s2, t.args, t.resend, t.scan, it, now, cfg);
    }
  }

  lemma DecidedIsReady<O>(s: System<O>, a: WorkArgs, resend: Option<StepId>, scan: seq<Item<O>>, it: Item<O>, now: Time, cfg: Config)
    requires SystemOk(s) && a.worker in s.w.workers && IsScan(s, a.worker, scan)
    requires it in Decision(s, a, resend, scan, now, cfg) && !Gone(s, it)
    requires resend.Some? ==> resend.value in s.w.steps && resend.value != it.rec.id
    ensures it.rec.id in s.w.steps && ReadyToRun(s.w.steps, s.w.steps[it.rec.id])
  {
    DecisionIsSeen(s, a, resend, scan, now, cfg);
    ChosenAreReady(s, a, scan, now, cfg);
    hide Chosen, IsScan, HeldOk, RosterOk, ReadyToRun;
  }

  lemma ResendIsRunning<O>(s: System<O>, t: Turn<O>, now: Time, cfg: Config)
    requires SystemOk(s) && PossibleTurn(s, t, now, cfg) && t.OnWork? && t.resend.Some?
    requires !Prepare(s.w, t.args, t.order, now, cfg).workers[t.args.worker].disabled
    ensures var w1 := Prepare(s.w, t.args, t.order, now, cfg); t.resend.value in w1.steps && w1.steps[t.resend.value].life.status == RUNNING
  {
    hide Prepare, ScanSystem, SystemOk;
  }

  // ---------------------------------------------------------------- whole runs

  /** The dependencies that a report names. */
  function Reported(a: AddArgs): set<StepId> {
    (if a.deps.Some? then a.deps.value else {}) + (if a.newDeps.Some? then a.newDeps.value else {})
  }

  /** Call `i` is a report about the step that takes effect, the step stays active until call `j`, and no other report
      in between replaces its dependencies. */
  ghost predicate ReportHolds<O>(systems: seq<System<O>>, calls: seq<SystemCall<O>>, cfg: Config, i: nat, j: nat, a: AddArgs, pick: Option<StepId>)
    requires i < j < |calls| && |systems| == |calls| + 1
  {
    && EventOf(calls[i].turn) == OnAddStep(a, pick) && calls[i].turn.OnEvent?
    && !TurnedAway(systems[i].w, a, calls[i].now, cfg) && !AddStep(systems[i].w, a, pick, calls[i].now, cfg).1
    && (forall m :: i < m <= j ==> a.id in systems[m].w.steps)
    && (forall m :: i < m < j ==> !Replaces(EventOf(calls[m].turn), a.id))
  }

  lemma {:induction false} ReportedStay<O>(systems: seq<System<O>>, calls: seq<SystemCall<O>>, cfg: Config, i: nat, j: nat, m: nat,
                                           a: AddArgs, pick: Option<StepId>)
    requires IsSystemRun(systems, calls, cfg) && i < j < |calls| && ReportHolds(systems, calls, cfg, i, j, a, pick) && i < m <= j
    ensures Reported(a) <= systems[m].w.steps[a.id].info.deps
  {
    hide SystemNext, PossibleTurn, SystemOk, TurnedAway, AddStep, Replaces;
    ReachableSystemsAreOk(systems, calls, cfg);
    assert systems[m-1] in systems && LeadsTo(systems[m-1], calls[m-1], systems[m], cfg);
    if m == i + 1 {
      ReportTakesEffect(systems[i], calls[i], cfg, a, pick);
    } else {
      ReportedStay(systems, calls, cfg, i, j, m - 1, a, pick);
      TurnKeepsDeps(systems[m-1], calls[m-1].turn, calls[m-1].now, cfg, a.id);
    }
  }

  lemma ReportTakesEffect<O>(s: System<O>, call: SystemCall<O>, cfg: Config, a: AddArgs, pick: Option<StepId>)
    requires SystemOk(s) && PossibleTurn(s, call.turn, call.now, cfg)
    requires EventOf(call.turn) == OnAddStep(a, pick) && call.turn.OnEvent?
    requires !TurnedAway(s.w, a, call.now, cfg) && !AddStep(s.w, a, pick, call.now, cfg).1
    ensures var next := SystemNext(s, call.turn, call.now, cfg).0.w.steps; a.id in next && Reported(a) <= next[a.id].info.deps
  {
    EventSystemOk(s, EventOf(call.turn), call.turn.born, call.now, cfg);
    hide EventSystem, NewObjects, SystemOk, TurnedAway, AddStep;
    ReportSetsPlaces(s.w, a, pick, call.now, cfg);
  }

  /** In every run: a step that waits is started only when all the dependencies that were last reported of it, and all
      that were added since, are done. */
  lemma NothingStartsEarly<O>(systems: seq<System<O>>, calls: seq<SystemCall<O>>, cfg: Config, i: nat, j: nat, a: AddArgs, pick: Option<StepId>)
    requires IsSystemRun(systems, calls, cfg) && i < j < |calls| && ReportHolds(systems, calls, cfg, i, j, a, pick)
    requires var t, now := calls[j].turn, calls[j].now;
             && t.OnWork? && PossibleTurn(systems[j], t, now, cfg)
             && var w1 := Prepare(systems[j].w, t.args, t.order, now, cfg);
                && a.id in w1.steps && w1.steps[a.id].life.status == PENDING
                && a.id in systems[j+1].w.steps && systems[j+1].w.steps[a.id].life.status in {RUNNING, BATCH_RUNNING}
    ensures var steps := ScanSystem(systems[j], calls[j].turn.args, calls[j].turn.order, calls[j].now, cfg).w.steps;
            forall d <- Reported(a) :: d in steps && steps[d].life.status == DONE
  {
    hide SystemNext, SystemOk, ReportHolds, PossibleTurn, ScanSystem, Prepare;
    ReachableSystemsAreOk(systems, calls, cfg);
    assert systems[j] in systems && LeadsTo(systems[j], calls[j], systems[j+1], cfg);
    ReportedStay(systems, calls, cfg, i, j, j, a, pick);
    StartsWhenReady(systems[j], calls[j].turn, calls[j].now, cfg, a.id);
    WorkKeepsDeps(systems[j], calls[j].turn, calls[j].now, cfg, a.id);
  }
}
