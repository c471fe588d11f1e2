/**
 What a change of status means for the other steps of a batch, for steps whose worker is gone,
 and for steps that the scheduler has disabled.
 */
module SchedulerBatches {
  import opened Options
  import opened Sequences
  import opened SchedulerModel
  import opened SchedulerInvariants

  /** Targets that make a RUNNING step leave its batch, unless they are refused. */
  predicate LeavesFor(target: Status) {
    target != RUNNING && target != DISABLED
  }

  /** The status that `SetLife` gives to a running step. */
  function Landing(l: Life, policy: RetryPolicy, target: Status, now: Time): Status {
    if target == FAILED && Excessive(AddFailure(l, now), policy, now) then DISABLED else target
  }

  lemma LandingOk(l: Life, batchable: bool, policy: RetryPolicy, target: Status, now: Time, cfg: Config)
    requires l.status.Runs() && LeavesFor(target)
    ensures SetLife(l, batchable, policy, target, now, cfg).status == Landing(l, policy, target, now)
  {
    var unbatched := if LeavesBatch(l, target) then l.(batchId := None) else l;
    assert AddFailure(unbatched, now).failures == AddFailure(l, now).failures;
    assert Excessive(AddFailure(unbatched, now), policy, now) == Excessive(AddFailure(l, now), policy, now);
  }

  /** A running step that leaves its batch takes exactly the members of that batch along: each of them
      lands on the same status, or on DISABLED exactly when its own failures are excessive. */
  lemma BatchLeavesTogether(steps: Steps, id: StepId, target: Status, now: Time, cfg: Config, k: StepId)
    requires id in steps && k in steps
    requires steps[id].life.status == RUNNING && steps[id].life.batchId.Some? && LeavesFor(target)
    ensures var r := SetStatus(steps, id, target, now, cfg);
            if k == id || InBatch(steps[k], steps[id].life.batchId)
            then r[k].life.status == Landing(steps[k].life, steps[k].info.policy, target, now) && r[k].life.batchId == None
            else r[k] == steps[k]
  {
    SetStatusAt(steps, id, target, now, cfg, k);
    if k == id || InBatch(steps[k], steps[id].life.batchId) {
      LandingOk(steps[k].life, steps[k].info.batchable, steps[k].info.policy, target, now, cfg);
    }
  }

  // ---------------------------------------------------------------- a batch through a whole call

  /** Where the running step `id` of batch `b` and the members `m` of that batch can be. */
  predicate Together(steps: Steps, id: StepId, b: BatchId, m: set<StepId>) {
    && id in steps && m <= steps.Keys
    && if steps[id].life.status == RUNNING
       then steps[id].life.batchId == Some(b) &&
            forall k <- m :: InBatch(steps[k], Some(b)) || !steps[k].life.status.Runs()
       else forall k <- m :: !steps[k].life.status.Runs()
  }

  lemma SetStatusTogether(steps: Steps, j: StepId, target: Status, now: Time, cfg: Config,
                          id: StepId, b: BatchId, m: set<StepId>)
    requires Together(steps, id, b, m) && j in steps && TakesOut(target)
    ensures Together(SetStatus(steps, j, target, now, cfg), id, b, m)
  {
    var r := SetStatus(steps, j, target, now, cfg);
    forall k | k in m + {id}
      ensures !steps[k].life.status.Runs() ==> !r[k].life.status.Runs()
      ensures steps[k].life.status.Runs() ==>
                !r[k].life.status.Runs() || r[k].life == steps[k].life
      ensures k == j ==> !r[k].life.status.Runs()
    {
      SetStatusAt(steps, j, target, now, cfg, k);
      var s := steps[k];
      SetLifeOk(s.life, s.info.batchable, s.info.policy, target, now, cfg);
    }
  }

  lemma PruneStepTogether(steps: Steps, j: StepId, now: Time, cfg: Config, assistants: set<WorkerId>,
                          id: StepId, b: BatchId, m: set<StepId>)
    requires Together(steps, id, b, m) && j in steps
    ensures Together(PruneStep(steps, j, now, cfg, assistants), id, b, m)
  {
    FailDeadTogether(steps, j, now, cfg, assistants, id, b, m);
    UpdateStatusTogether(FailDead(steps, j, now, cfg, assistants), j, now, cfg, id, b, m);
  }

  lemma FailDeadTogether(steps: Steps, j: StepId, now: Time, cfg: Config, assistants: set<WorkerId>,
                         id: StepId, b: BatchId, m: set<StepId>)
    requires Together(steps, id, b, m) && j in steps
    ensures Together(FailDead(steps, j, now, cfg, assistants), id, b, m)
  {
    var freed := steps[j := Freed(steps[j])];
    SetStatusTogether(freed, j, FAILED, now, cfg, id, b, m);
    hide SetStatus;
  }

  lemma UpdateStatusTogether(alive: Steps, j: StepId, now: Time, cfg: Config, id: StepId, b: BatchId, m: set<StepId>)
    requires Together(alive, id, b, m) && j in alive
    ensures Together(UpdateStatus(alive, j, now, cfg), id, b, m)
  {
    hide SetStatus;
    var marked := alive[j := MarkUnwanted(alive[j], now, cfg)];
    assert Together(marked, id, b, m);
    if DisableExpired(marked[j], now, cfg) {
      var cleared := marked[j := Forgiven(marked[j])];
      SetStatusTogether(cleared, j, FAILED, now, cfg, id, b, m);
    }
    var enabled := if DisableExpired(marked[j], now, cfg) then ReEnable(marked, j, now, cfg) else marked;
    SetStatusTogether(enabled, j, PENDING, now, cfg, id, b, m);
  }

  lemma {:induction false} PruneLoopTogether(steps: Steps, order: seq<StepId>, now: Time, cfg: Config,
                                             assistants: set<WorkerId>, doomed: set<StepId>,
                                             id: StepId, b: BatchId, m: set<StepId>)
    requires Together(steps, id, b, m) && forall j <- order :: j in steps
    ensures Together(PruneLoop(steps, order, now, cfg, assistants, doomed).0, id, b, m)
    decreases |order|
  {
    if order != [] {
      var next := PruneStep(steps, order[0], now, cfg, assistants);
      PruneStepTogether(steps, order[0], now, cfg, assistants, id, b, m);
      PruneLoopTogether(next, order[1..], now, cfg, assistants,
                        if MayPrune(next[order[0]], now) then doomed + {order[0]} else doomed, id, b, m);
    }
  }

  // ---------------------------------------------------------------- a running step in prune

  /** A round of the loop leaves a RUNNING step alone, unless it is the round of a step whose owner is gone. */
  lemma PruneStepOfRunning(steps: Steps, j: StepId, now: Time, cfg: Config, assistants: set<WorkerId>, id: StepId)
    requires j in steps && id in steps && steps[id].life.status == RUNNING
    ensures var r := PruneStep(steps, j, now, cfg, assistants);
            if j == id && Orphaned(steps[id], assistants) then r[id].life.status != RUNNING else r[id] == steps[id]
  {
    FailDeadOfRunning(steps, j, now, cfg, assistants, id);
    var alive := FailDead(steps, j, now, cfg, assistants);
    hide FailDead, UpdateStatus;
    if alive[id].life.status == RUNNING {
      UpdateStatusOfRunning(alive, j, now, cfg, id);
    } else {
      UpdateStatusSettles(alive, j, now, cfg);
    }
  }

  lemma FailDeadOfRunning(steps: Steps, j: StepId, now: Time, cfg: Config, assistants: set<WorkerId>, id: StepId)
    requires j in steps && id in steps && steps[id].life.status == RUNNING
    ensures var r := FailDead(steps, j, now, cfg, assistants);
            id in r && if j == id && Orphaned(steps[id], assistants) then r[id].life.status != RUNNING else r[id] == steps[id]
  {
    if Orphaned(steps[j], assistants) {
      var freed := steps[j := Freed(steps[j])];
      SetStatusAt(freed, j, FAILED, now, cfg, id);
      SetLifeOk(freed[id].life, steps[id].info.batchable, steps[id].info.policy, FAILED, now, cfg);
      hide SetStatus, SetLife;
    }
  }

  lemma UpdateStatusOfRunning(steps: Steps, j: StepId, now: Time, cfg: Config, id: StepId)
    requires j in steps && id in steps && steps[id].life.status == RUNNING
    ensures UpdateStatus(steps, j, now, cfg)[id] == steps[id]
  {
    hide SetLife;
    var marked := steps[j := MarkUnwanted(steps[j], now, cfg)];
    assert marked[id] == steps[id];
    var cleared := marked[j := Forgiven(marked[j])];
    SetStatusAt(cleared, j, FAILED, now, cfg, id);
    var enabled := if DisableExpired(marked[j], now, cfg) then ReEnable(marked, j, now, cfg) else marked;
    assert enabled[id] == steps[id];
    SetStatusAt(enabled, j, PENDING, now, cfg, id);
  }

  /** What the loop of `_prune_steps` does to a RUNNING step: it fails it just if the owner is gone, and otherwise it
      leaves it alone and removes it just if a removal stamp from before the grant is due. */
  lemma {:induction false} PruneLoopOfRunning(steps: Steps, order: seq<StepId>, now: Time, cfg: Config,
                                              assistants: set<WorkerId>, doomed: set<StepId>, id: StepId)
    requires (forall j <- order :: j in steps) && id in steps && steps[id].life.status == RUNNING
    ensures var (end, gone) := PruneLoop(steps, order, now, cfg, assistants, doomed);
            if Orphaned(steps[id], assistants) && id in order then end[id].life.status != RUNNING
            else end[id] == steps[id] && (id in gone <==> id in doomed || (id in order && MayPrune(steps[id], now)))
    decreases |order|
  {
    if order != [] {
      var next := PruneStep(steps, order[0], now, cfg, assistants);
      var more := if MayPrune(next[order[0]], now) then doomed + {order[0]} else doomed;
      PruneStepOfRunning(steps, order[0], now, cfg, assistants, id);
      assert id in order <==> id == order[0] || id in order[1..];
      hide PruneStep, Orphaned, MayPrune;
      if next[id].life.status == RUNNING {
        PruneLoopOfRunning(next, order[1..], now, cfg, assistants, more, id);
      } else {
        PruneLoopSettles(next, order[1..], now, cfg, assistants, more);
      }
    }
  }

  /** The members of the batch. */
  function Members(steps: Steps, b: BatchId): set<StepId> {
    set k | k in steps && InBatch(steps[k], Some(b))
  }

  predicate NoneRuns(steps: Steps, ids: set<StepId>) {
    forall k <- ids :: k in steps ==> !steps[k].life.status.Runs()
  }

  /** The running step of a batch loses its owner in `prune`. */
  predicate LosesOwner(w: World, id: StepId, now: Time, cfg: Config)
    requires id in w.steps
  {
    var w1 := PruneWorkers(w, now, cfg);
    Orphaned(w1.steps[id], Assistants(w1.workers))
  }

  /** `prune` either leaves the running step of a batch alone or stops it together with all members of the batch,
      whether it then removes that step or not. */
  lemma PruneKeepsBatchesTogether(w: World, order: seq<StepId>, now: Time, cfg: Config, id: StepId, b: BatchId)
    requires Lists(order, w.steps.Keys)
    requires id in w.steps && w.steps[id].life.status == RUNNING && w.steps[id].life.batchId == Some(b)
    ensures var w1 := PruneWorkers(w, now, cfg);
            var (end, gone) := PruneLoop(w1.steps, order, now, cfg, Assistants(w1.workers), {});
            var r := Prune(w, order, now, cfg).steps;
            && r == end - gone
            && (end[id].life.status == RUNNING <==> !LosesOwner(w, id, now, cfg))
            && (LosesOwner(w, id, now, cfg) ==> NoneRuns(end, Members(w.steps, b)) && NoneRuns(r, Members(w.steps, b)))
            && (!LosesOwner(w, id, now, cfg) ==> end[id] == w1.steps[id])
  {
    var m := Members(w.steps, b);
    var w1 := PruneWorkers(w, now, cfg);
    assert Together(w1.steps, id, b, m);
    PruneLoopTogether(w1.steps, order, now, cfg, Assistants(w1.workers), {}, id, b, m);
    PruneLoopOfRunning(w1.steps, order, now, cfg, Assistants(w1.workers), {}, id);
    hide PruneLoop, Orphaned, Assistants, InBatch;
  }

  // ---------------------------------------------------------------- members that are left behind

  /** No step that runs the batch has lost its owner. */
  predicate BatchKept(steps: Steps, b: BatchId, assistants: set<WorkerId>) {
    forall j <- steps :: steps[j].life.status == RUNNING && steps[j].life.batchId == Some(b) ==> !Orphaned(steps[j], assistants)
  }

  predicate KeptMember(s: StepRec, b: BatchId, assistants: set<WorkerId>) {
    InBatch(s, Some(b)) && !Orphaned(s, assistants)
  }

  /** A round of the loop does no more to such a member than to stamp it in its own round. */
  lemma PruneStepOfMember(steps: Steps, j: StepId, now: Time, cfg: Config, assistants: set<WorkerId>, b: BatchId, k: StepId)
    requires j in steps && k in steps && KeptMember(steps[k], b, assistants) && BatchKept(steps, b, assistants)
    ensures var r := PruneStep(steps, j, now, cfg, assistants);
            r.Keys == steps.Keys && BatchKept(r, b, assistants) && r[k] == if j == k then MarkUnwanted(steps[k], now, cfg) else steps[k]
  {
    PruneStepSettles(steps, j, now, cfg, assistants);
    FailDeadOfMember(steps, j, now, cfg, assistants, b, k);
    UpdateStatusOfMember(FailDead(steps, j, now, cfg, assistants), j, now, cfg, k);
    hide FailDead, UpdateStatus;
  }

  lemma FailDeadOfMember(steps: Steps, j: StepId, now: Time, cfg: Config, assistants: set<WorkerId>, b: BatchId, k: StepId)
    requires j in steps && k in steps && KeptMember(steps[k], b, assistants) && BatchKept(steps, b, assistants)
    ensures var r := FailDead(steps, j, now, cfg, assistants); j in r && k in r && r[k] == steps[k]
  {
    if Orphaned(steps[j], assistants) {
      SetStatusAt(steps[j := Freed(steps[j])], j, FAILED, now, cfg, k);
      hide SetStatus, SetOne;
    }
  }

  lemma UpdateStatusOfMember(steps: Steps, j: StepId, now: Time, cfg: Config, k: StepId)
    requires j in steps && k in steps && steps[k].life.status == BATCH_RUNNING
    ensures var r := UpdateStatus(steps, j, now, cfg);
            k in r && r[k] == if j == k then MarkUnwanted(steps[k], now, cfg) else steps[k]
  {
    hide SetOne;
    var marked := steps[j := MarkUnwanted(steps[j], now, cfg)];
    SetStatusAt(marked[j := Forgiven(marked[j])], j, FAILED, now, cfg, k);
    var enabled := if DisableExpired(marked[j], now, cfg) then ReEnable(marked, j, now, cfg) else marked;
    assert enabled[k] == marked[k];
    SetStatusAt(enabled, j, PENDING, now, cfg, k);
  }

  lemma {:induction false} PruneLoopOfMember(steps: Steps, order: seq<StepId>, now: Time, cfg: Config,
                                             assistants: set<WorkerId>, doomed: set<StepId>, b: BatchId, k: StepId)
    requires (forall j <- order :: j in steps) && k in steps
    requires KeptMember(steps[k], b, assistants) && BatchKept(steps, b, assistants)
    ensures var (end, gone) := PruneLoop(steps, order, now, cfg, assistants, doomed);
            var marked := MarkUnwanted(steps[k], now, cfg);
            && end[k] == (if k in order then marked else steps[k])
            && (k in gone <==> k in doomed || (k in order && MayPrune(marked, now)))
    decreases |order|
  {
    hide PruneStep, MayPrune, MarkUnwanted, Orphaned, BatchKept, KeptMember;
    if order != [] {
      var next := PruneStep(steps, order[0], now, cfg, assistants);
      PruneStepOfMember(steps, order[0], now, cfg, assistants, b, k);
      var more := if MayPrune(next[order[0]], now) then doomed + {order[0]} else doomed;
      MarkedMember(steps[k], now, cfg, assistants, b);
      assert k in order <==> k == order[0] || k in order[1..];
      PruneLoopOfMember(next, order[1..], now, cfg, assistants, more, b, k);
    }
  }

  /** A stamp is put on once and leaves the member in its batch. */
  lemma MarkedMember(s: StepRec, now: Time, cfg: Config, assistants: set<WorkerId>, b: BatchId)
    requires KeptMember(s, b, assistants)
    ensures var marked := MarkUnwanted(s, now, cfg);
            MarkUnwanted(marked, now, cfg) == marked && KeptMember(marked, b, assistants)
  {
  }

  /** A member of a batch that is kept runs on just if it keeps its own owner. */
  lemma MemberOfKept(w: World, order: seq<StepId>, now: Time, cfg: Config, b: BatchId, k: StepId)
    requires Lists(order, w.steps.Keys) && k in w.steps && InBatch(w.steps[k], Some(b))
    requires BatchKept(w.steps, b, Assistants(w.workers))
    ensures var (end, gone) := PruneLoop(w.steps, order, now, cfg, Assistants(w.workers), {});
            k in end - gone && end[k].life.status.Runs() <==>
              !Orphaned(w.steps[k], Assistants(w.workers)) && !MayPrune(MarkUnwanted(w.steps[k], now, cfg), now)
  {
    var assistants := Assistants(w.workers);
    if Orphaned(w.steps[k], assistants) {
      OrphanStops(w.steps, order, now, cfg, assistants, {}, k);
    } else {
      PruneLoopOfMember(w.steps, order, now, cfg, assistants, {}, b, k);
    }
    hide PruneLoop, Orphaned, Assistants, MayPrune;
  }

  /** A running step without its owner has stopped at the end of the loop. */
  lemma {:induction false} OrphanStops(steps: Steps, order: seq<StepId>, now: Time, cfg: Config, assistants: set<WorkerId>,
                                       doomed: set<StepId>, k: StepId)
    requires (forall j <- order :: j in steps) && k in order && Orphaned(steps[k], assistants)
    ensures !PruneLoop(steps, order, now, cfg, assistants, doomed).0[k].life.status.Runs()
    decreases |order|
  {
    var next := PruneStep(steps, order[0], now, cfg, assistants);
    var more := if MayPrune(next[order[0]], now) then doomed + {order[0]} else doomed;
    PruneStepSettles(steps, order[0], now, cfg, assistants);
    PruneLoopSettles(next, order[1..], now, cfg, assistants, more);
    assert Settles(steps[k], next[k]);
    if k == order[0] {
      OrphanStopsNow(steps, now, cfg, assistants, k);
    } else if next[k].life.status.Runs() {
      assert Orphaned(next[k], assistants);
      OrphanStops(next, order[1..], now, cfg, assistants, more, k);
    }
    hide PruneStep, MayPrune, Orphaned;
  }

  lemma OrphanStopsNow(steps: Steps, now: Time, cfg: Config, assistants: set<WorkerId>, k: StepId)
    requires k in steps && Orphaned(steps[k], assistants)
    ensures !PruneStep(steps, k, now, cfg, assistants)[k].life.status.Runs()
  {
    var freed := steps[k := Freed(steps[k])];
    SetStatusAt(freed, k, FAILED, now, cfg, k);
    SetLifeOk(freed[k].life, steps[k].info.batchable, steps[k].info.policy, FAILED, now, cfg);
    UpdateStatusSettles(FailDead(steps, k, now, cfg, assistants), k, now, cfg);
    hide UpdateStatus, SetStatus, SetLife;
  }

  /** No step that runs the batch loses its owner in `prune`. */
  predicate BatchKeepsOwner(w: World, b: BatchId, now: Time, cfg: Config) {
    forall j <- w.steps :: w.steps[j].life.status == RUNNING && w.steps[j].life.batchId == Some(b) ==> !LosesOwner(w, j, now, cfg)
  }

  lemma RunsOnJust(w: World, order: seq<StepId>, now: Time, cfg: Config, id: StepId, b: BatchId)
    requires Lists(order, w.steps.Keys)
    requires id in w.steps && w.steps[id].life.status == RUNNING && w.steps[id].life.batchId == Some(b)
    ensures var r := Prune(w, order, now, cfg).steps;
            id in r && r[id].life.status == RUNNING <==> !LosesOwner(w, id, now, cfg) && !MayPrune(w.steps[id], now)
  {
    var w1 := PruneWorkers(w, now, cfg);
    assert MayPrune(w1.steps[id], now) == MayPrune(w.steps[id], now);
    hide PruneLoop, Orphaned, Assistants, PruneWorkers, MayPrune;
    PruneLoopOfRunning(w1.steps, order, now, cfg, Assistants(w1.workers), {}, id);
  }

  lemma MemberRunsOnJust(w: World, order: seq<StepId>, now: Time, cfg: Config, b: BatchId, k: StepId)
    requires Lists(order, w.steps.Keys) && k in w.steps && InBatch(w.steps[k], Some(b))
    ensures var r := Prune(w, order, now, cfg).steps;
            k in r && r[k].life.status.Runs() <==>
              && !LosesOwner(w, k, now, cfg) && BatchKeepsOwner(w, b, now, cfg)
              && !MayPrune(MarkUnwanted(PruneWorkers(w, now, cfg).steps[k], now, cfg), now)
  {
    hide PruneLoop, Orphaned, Assistants, MayPrune, MarkUnwanted;
    if j :| j in w.steps && w.steps[j].life.status == RUNNING && w.steps[j].life.batchId == Some(b) && LosesOwner(w, j, now, cfg) {
      PruneKeepsBatchesTogether(w, order, now, cfg, j, b);
      assert k in Members(w.steps, b);
    } else {
      var w1 := PruneWorkers(w, now, cfg);
      assert BatchKept(w1.steps, b, Assistants(w1.workers));
      MemberOfKept(w1, order, now, cfg, b, k);
    }
  }

  /** The one way in which `prune` leaves a member of a batch behind: it removes the running step while it runs, because
      a removal stamp from before the grant is due; neither the member nor a step that runs the batch has lost its
      owner; and the member itself is not removed. */
  lemma MemberLeftBehindJust(w: World, order: seq<StepId>, now: Time, cfg: Config, id: StepId, b: BatchId, k: StepId)
    requires Lists(order, w.steps.Keys)
    requires id in w.steps && w.steps[id].life.status == RUNNING && w.steps[id].life.batchId == Some(b)
    requires k in w.steps && InBatch(w.steps[k], Some(b))
    ensures var r := Prune(w, order, now, cfg).steps;
            !(id in r && r[id].life.status == RUNNING) && k in r && r[k].life.status.Runs() <==>
              && MayPrune(w.steps[id], now)
              && !LosesOwner(w, k, now, cfg) && BatchKeepsOwner(w, b, now, cfg)
              && !MayPrune(MarkUnwanted(PruneWorkers(w, now, cfg).steps[k], now, cfg), now)
  {
    hide LosesOwner, MayPrune, MarkUnwanted, Prune, PruneWorkers;
    RunsOnJust(w, order, now, cfg, id, b);
    MemberRunsOnJust(w, order, now, cfg, b, k);
  }

  // ---------------------------------------------------------------- the other calls

  /** The status change of a report. */
  lemma ReportKeepsBatchesTogether(steps: Steps, a: AddArgs, now: Time, cfg: Config, id: StepId, b: BatchId, k: StepId)
    requires a.id in steps && id in steps && k in steps && InBatch(steps[k], Some(b))
    requires steps[id].life.status == RUNNING && steps[id].life.batchId.Some?
    ensures var r := Report(steps, a, now, cfg);
            if r[id].life.status.Runs() then true
            else if steps[id].life.batchId == Some(b) then !r[k].life.status.Runs()
            else r[k].life == steps[k].life
  {
    var target := if a.status == SUSPENDED then PENDING else a.status;
    SetStatusAt(steps, a.id, target, now, cfg, k);
    SetStatusAt(steps, a.id, target, now, cfg, id);
    SetLifeOk(steps[id].life, steps[id].info.batchable, steps[id].info.policy, target, now, cfg);
    SetLifeOk(steps[k].life, steps[k].info.batchable, steps[k].info.policy, target, now, cfg);
  }

  /** The report puts another batch id on the running step before it changes the status. */
  predicate Overwrites(e: Event, id: StepId, b: BatchId) {
    e.OnAddStep? && e.add.id == id && e.add.batchId.Some? && e.add.batchId != Some(b)
  }

  lemma AddStepKeepsBatchesTogether(w: World, a: AddArgs, pick: Option<StepId>, now: Time, cfg: Config,
                                    id: StepId, b: BatchId, k: StepId)
    requires id in w.steps && w.steps[id].life.status == RUNNING && w.steps[id].life.batchId == Some(b)
    requires k in w.steps && InBatch(w.steps[k], Some(b))
    ensures var r := AddStep(w, a, pick, now, cfg).0.steps;
            && id in r && k in r
            && (!r[id].life.status.Runs() ==>
                  if Overwrites(OnAddStep(a, pick), id, b) then r[k].life == w.steps[k].life else !r[k].life.status.Runs())
  {
    hide AddStep, AddStepTail, Report, AddStepStart, AddStepHead;
    AddStepShape(w, a, pick, now, cfg);
    HeadKeepsLives(w.steps, a, pick, now, cfg, id);
    HeadKeepsLives(w.steps, a, pick, now, cfg, k);
    var enabled := !Touch(w.workers, a.worker, false, now)[a.worker].disabled;
    var start := AddStepStart(w.steps, a, pick, now, cfg);
    if start.Some? {
      AddStepTailAt(start.value, a, enabled, now, cfg, id);
      AddStepTailAt(start.value, a, enabled, now, cfg, k);
      TailStopsTogether(start.value, a, now, cfg, id, b, k);
    }
  }

  /** Before the status change, a report touches at most the batch id of the reported step. */
  lemma HeadKeepsLives(steps: Steps, a: AddArgs, pick: Option<StepId>, now: Time, cfg: Config, k: StepId)
    requires k in steps
    ensures var head, start := AddStepHead(steps, a, now, cfg), AddStepStart(steps, a, pick, now, cfg);
            && k in head && head[k].life == DescribedLife(steps[k].life, a, k)
            && (start.Some? ==> k in start.value && start.value[k].life == DescribedLife(steps[k].life, a, k))
  {
  }

  function DescribedLife(l: Life, a: AddArgs, k: StepId): Life {
    if k == a.id && a.batchId.Some? then l.(batchId := a.batchId) else l
  }

  lemma TailStopsTogether(start: Steps, a: AddArgs, now: Time, cfg: Config, id: StepId, b: BatchId, k: StepId)
    requires a.id in start && id in start && start[id].life.status == RUNNING && start[id].life.batchId.Some? && k in start
    requires k != a.id ==> InBatch(start[k], Some(b))
    ensures var r := Report(start[a.id := Unmark(start[a.id], a)], a, now, cfg);
            !r[id].life.status.Runs() ==>
              a.id == id && (k != id ==>
                if start[id].life.batchId == Some(b) then !r[k].life.status.Runs() else r[k].life == start[k].life)
  {
    var unmarked := start[a.id := Unmark(start[a.id], a)];
    if a.id == id {
      if k != id {
        ReportKeepsBatchesTogether(unmarked, a, now, cfg, id, b, k);
      }
    } else {
      SetStatusAt(unmarked, a.id, if a.status == SUSPENDED then PENDING else a.status, now, cfg, id);
    }
    hide SetStatus;
  }

  /** In every call other than `prune` and `get_work`, the members of a batch stop with its running step, exactly
      unless the call is a report that overwrites the batch id of that step. */
  lemma EventKeepsBatchesTogether(w: World, e: Event, now: Time, cfg: Config, id: StepId, b: BatchId, k: StepId)
    requires Possible(w, e, now, cfg) && !e.OnPrune? && !e.OnGetWork?
    requires id in w.steps && w.steps[id].life.status == RUNNING && w.steps[id].life.batchId == Some(b)
    requires k in w.steps && InBatch(w.steps[k], Some(b))
    ensures var r := Next(w, e, now, cfg).steps;
            && id in r && k in r
            && (!r[id].life.status.Runs() ==> (r[k].life.status.Runs() <==> Overwrites(e, id, b)))
  {
    hide AddStep;
    match e
    case OnAddStep(a, pick) => AddStepKeepsBatchesTogether(w, a, pick, now, cfg, id, b, k);
    case OnMarkAsDone(j) => MarkedTogether(w, j, now, cfg, id, b, k);
    case OnForgive(j) => MarkedTogether(w, j, now, cfg, id, b, k);
    case OnReEnable(j) => MarkedTogether(w, j, now, cfg, id, b, k);
    case _ =>
  }

  predicate StopTogether(r: Steps, id: StepId, k: StepId) {
    id in r && k in r && (!r[id].life.status.Runs() ==> !r[k].life.status.Runs())
  }

  lemma MarkedTogether(w: World, j: StepId, now: Time, cfg: Config, id: StepId, b: BatchId, k: StepId)
    requires id in w.steps && w.steps[id].life.status == RUNNING && w.steps[id].life.batchId == Some(b)
    requires k in w.steps && InBatch(w.steps[k], Some(b))
    ensures StopTogether(MarkAsDone(w, j, now, cfg).steps, id, k) && StopTogether(ForgiveFailures(w, j, now, cfg).steps, id, k)
    ensures StopTogether(ReEnableStep(w, j, now, cfg).steps, id, k)
  {
    hide SetStatus;
    if j in w.steps {
      var m := {k};
      assert Together(w.steps, id, b, m);
      SetStatusTogether(w.steps, j, DONE, now, cfg, id, b, m);
      SetStatusTogether(w.steps, j, PENDING, now, cfg, id, b, m);
      var cleared := w.steps[j := Forgiven(w.steps[j])];
      SetStatusTogether(cleared, j, FAILED, now, cfg, id, b, m);
    }
  }

  /** What `get_work` does after its `prune` never takes a step out of RUNNING, so for this call the theorem
      about `prune` says everything. */
  lemma GetWorkKeepsRunning(w: World, a: WorkArgs, c: Choices, now: Time, cfg: Config, id: StepId)
    requires Inv(w) && ValidChoices(w, a, c, now, cfg)
    requires var w1 := Prepare(w, a, c.pruneOrder, now, cfg); id in w1.steps && w1.steps[id].life.status == RUNNING
    ensures var r := GetWork(w, a, c, now, cfg).0.steps; id in r && r[id].life.status == RUNNING
  {
    assert cfg.pruneOnGetWork ==> Lists(c.pruneOrder, w.steps.Keys);
    hide Prepare, GetWork, CountPending, Announce, Inv, ValidChoices, HandOut, Decide, ValidScan, Known, Lists;
    var w1 := Prepare(w, a, c.pruneOrder, now, cfg);
    var reply := GetWorkShape(w, a, c, now, cfg);
    if !w1.workers[a.worker].disabled {
      var w2 := AtScan(w, a, c, now, cfg);
      DecisionIsKnown(w, a, c, now, cfg);
      AnnounceLeavesRunning(w1, a, now, cfg, id);
      DecisionOfRunning(w2, a, c, now, cfg, id);
      HandOutKeepsRunning(w2.steps, reply, a.worker, now, cfg, id);
    }
  }

  lemma AnnounceLeavesRunning(w: World, a: WorkArgs, now: Time, cfg: Config, id: StepId)
    requires a.worker in w.workers && id in w.steps && w.steps[id].life.status == RUNNING
    ensures id in Announce(w, a, now, cfg).steps && Announce(w, a, now, cfg).steps[id] == w.steps[id]
  {
    hide SetOne;
  }

  /** A running step is not put into a new batch. */
  lemma DecisionOfRunning(w: World, a: WorkArgs, c: Choices, now: Time, cfg: Config, id: StepId)
    requires Inv(w) && a.worker in w.workers && forall j <- c.scan :: j in w.steps
    requires id in w.steps && w.steps[id].life.status == RUNNING
    ensures var r := Decide(w, a, c, now, cfg); r.BatchGranted? ==> id !in r.batchId
  {
    hide Pick;
    if c.resend.None? {
      var q := RecsOf(w.steps, c.scan);
      var i := Pick(w.steps, RequestOf(w, a), GreedyOf(w, a, now, cfg), q, 0);
      forall s | s in q
        ensures s == w.steps[s.id]
      {
        var n :| 0 <= n < |q| && q[n] == s;
        assert c.scan[n] in c.scan;
      }
      if i < |q| {
        var b := GetBatcher(w, a.worker, q[i].info.family);
        assert q[i] in q;
        assert Schedulable(w.steps, q[i]);
        forall s | s in q[i+1..] ensures s in q {}
        CollectsPending(w.steps, b, q[i], [q[i].id], q[i+1..], id);
      }
    }
  }

  lemma {:induction false} CollectsPending(steps: Steps, b: Batcher, best: StepRec, batch: seq<StepId>, q: seq<StepRec>, id: StepId)
    requires (forall s <- q :: s.id in steps && s == steps[s.id]) && id in steps && steps[id].life.status == RUNNING
    requires id !in batch
    ensures id !in Collect(steps, b, best, batch, q)
    decreases |q|
  {
    if q != [] {
      assert q[0] in q;
      forall s | s in q[1..] ensures s in q {}
      CollectsPending(steps, b, best, batch, q[1..], id);
      if q[0].id != id {
        CollectsPending(steps, b, best, batch + [q[0].id], q[1..], id);
      }
    }
  }

  lemma HandOutKeepsRunning(steps: Steps, r: Reply, x: WorkerId, now: Time, cfg: Config, id: StepId)
    requires Known(steps, r) && id in steps && steps[id].life.status == RUNNING && (r.BatchGranted? ==> id !in r.batchId)
    ensures id in HandOut(steps, r, x, now, cfg) && HandOut(steps, r, x, now, cfg)[id].life.status == RUNNING
  {
    match r
    case Granted(j) => SetStatusAt(steps, j, RUNNING, now, cfg, id);
    case BatchGranted(ids) => StartBatchKeepsRunning(steps, ids, ids, x, now, cfg, id);
    case _ =>
  }

  lemma {:induction false} StartBatchKeepsRunning(steps: Steps, todo: seq<StepId>, b: BatchId, x: WorkerId, now: Time, cfg: Config,
                                                  id: StepId)
    requires (forall j <- todo :: j in steps) && id in steps && steps[id].life.status == RUNNING && id !in todo
    ensures StartBatch(steps, todo, b, x, now, cfg)[id].life.status == RUNNING
  {
    if todo != [] {
      var n := |todo| - 1;
      StartBatchKeepsRunning(steps, todo[..n], b, x, now, cfg, id);
      var mid := StartBatch(steps, todo[..n], b, x, now, cfg);
      assert todo[n] in todo;
      SetStatusAt(mid, todo[n], BATCH_RUNNING, now, cfg, id);
    }
  }

  // ---------------------------------------------------------------- owners after prune

  /** A step that runs is run by one of `workers`. */
  predicate Owned(s: StepRec, workers: set<WorkerId>) {
    s.life.status.Runs() && s.load.workerRunning.Some? ==> s.load.workerRunning.value in workers
  }

  /** Pruning one step leaves it owned. */
  lemma PruneStepOwned(steps: Steps, j: StepId, now: Time, cfg: Config, assistants: set<WorkerId>, workers: set<WorkerId>)
    requires j in steps && steps[j].info.stakeholders + assistants <= workers
    ensures Owned(PruneStep(steps, j, now, cfg, assistants)[j], workers)
  {
    var alive := FailDead(steps, j, now, cfg, assistants);
    if Orphaned(steps[j], assistants) {
      var freed := steps[j := Freed(steps[j])];
      SetStatusAt(freed, j, FAILED, now, cfg, j);
      SetLifeOk(freed[j].life, steps[j].info.batchable, steps[j].info.policy, FAILED, now, cfg);
    }
    assert Owned(alive[j], workers);
    UpdateStatusSettles(alive, j, now, cfg);
    assert Settles(alive[j], UpdateStatus(alive, j, now, cfg)[j]);
  }

  lemma {:induction false} PruneLoopOwned(steps: Steps, order: seq<StepId>, now: Time, cfg: Config,
                                          assistants: set<WorkerId>, doomed: set<StepId>, workers: set<WorkerId>)
    requires forall j <- order :: j in steps
    requires forall k <- steps :: steps[k].info.stakeholders + assistants <= workers
    ensures var r := PruneLoop(steps, order, now, cfg, assistants, doomed).0;
            forall k <- r :: k in order || Owned(steps[k], workers) ==> Owned(r[k], workers)
    decreases |order|
  {
    if order != [] {
      var next := PruneStep(steps, order[0], now, cfg, assistants);
      PruneStepSettles(steps, order[0], now, cfg, assistants);
      PruneStepOwned(steps, order[0], now, cfg, assistants, workers);
      PruneLoopOwned(next, order[1..], now, cfg, assistants,
                     if MayPrune(next[order[0]], now) then doomed + {order[0]} else doomed, workers);
    }
  }

  /** After `prune`, every step that runs with a recorded owner is owned by an active worker. */
  lemma OwnersAreActiveAfterPrune(w: World, order: seq<StepId>, now: Time, cfg: Config)
    requires Inv(w) && Lists(order, w.steps.Keys)
    ensures var r := Prune(w, order, now, cfg);
            forall k <- r.steps :: Owned(r.steps[k], r.workers.Keys)
  {
    var w1 := PruneWorkers(w, now, cfg);
    RemoveWorkersOk(w, SilentWorkers(w.workers, now, cfg), w1, true);
    forall k | k in w1.steps
      ensures w1.steps[k].info.stakeholders + Assistants(w1.workers) <= w1.workers.Keys
    {
      assert RosterOk(w1.steps[k].info, w1.workers);
    }
    PruneLoopOwned(w1.steps, order, now, cfg, Assistants(w1.workers), {}, w1.workers.Keys);
  }

  // ---------------------------------------------------------------- scheduler disables

  /** The step was disabled by the scheduler, not by a report. */
  predicate HeldBack(s: StepRec) {
    s.life.status == DISABLED && s.life.disableTime.Some?
  }

  /** No change of status gets past a scheduler disable, except to DONE.  (To DISABLED, only the time is lost.) */
  lemma OnlyDoneReleases(steps: Steps, id: StepId, target: Status, now: Time, cfg: Config, k: StepId)
    requires id in steps && k in steps && HeldBack(steps[k])
    ensures SetStatus(steps, id, target, now, cfg)[k].life.status == if k == id && target == DONE then DONE else DISABLED
    ensures k != id || (target != DONE && target != DISABLED) ==> SetStatus(steps, id, target, now, cfg)[k] == steps[k]
  {
    SetStatusAt(steps, id, target, now, cfg, k);
  }

  lemma PruneStepHoldsBack(steps: Steps, j: StepId, now: Time, cfg: Config, assistants: set<WorkerId>, k: StepId)
    requires j in steps && k in steps && HeldBack(steps[k]) && !DisableExpired(steps[k], now, cfg)
    ensures var r := PruneStep(steps, j, now, cfg, assistants);
            HeldBack(r[k]) && r[k].life.disableTime == steps[k].life.disableTime
  {
    if Orphaned(steps[j], assistants) {
      OnlyDoneReleases(steps[j := Freed(steps[j])], j, FAILED, now, cfg, k);
    }
    var alive := FailDead(steps, j, now, cfg, assistants);
    var marked := alive[j := MarkUnwanted(alive[j], now, cfg)];
    if DisableExpired(marked[j], now, cfg) {
      OnlyDoneReleases(marked[j := Forgiven(marked[j])], j, FAILED, now, cfg, k);
    }
    var enabled := if DisableExpired(marked[j], now, cfg) then ReEnable(marked, j, now, cfg) else marked;
    OnlyDoneReleases(enabled, j, PENDING, now, cfg, k);
  }

  lemma {:induction false} PruneLoopHoldsBack(steps: Steps, order: seq<StepId>, now: Time, cfg: Config,
                                              assistants: set<WorkerId>, doomed: set<StepId>, k: StepId)
    requires k in steps && HeldBack(steps[k]) && !DisableExpired(steps[k], now, cfg)
    requires forall j <- order :: j in steps
    ensures var r := PruneLoop(steps, order, now, cfg, assistants, doomed).0;
            HeldBack(r[k]) && r[k].life.disableTime == steps[k].life.disableTime
    decreases |order|
  {
    if order != [] {
      var next := PruneStep(steps, order[0], now, cfg, assistants);
      PruneStepHoldsBack(steps, order[0], now, cfg, assistants, k);
      PruneLoopHoldsBack(next, order[1..], now, cfg, assistants,
                         if MayPrune(next[order[0]], now) then doomed + {order[0]} else doomed, k);
    }
  }

  lemma PruneHoldsBack(w: World, order: seq<StepId>, now: Time, cfg: Config, k: StepId)
    requires Lists(order, w.steps.Keys) && k in w.steps && HeldBack(w.steps[k]) && !DisableExpired(w.steps[k], now, cfg)
    ensures var r := Prune(w, order, now, cfg);
            k in r.steps ==> HeldBack(r.steps[k])
  {
    var w1 := PruneWorkers(w, now, cfg);
    PruneLoopHoldsBack(w1.steps, order, now, cfg, Assistants(w1.workers), {}, k);
  }

  lemma {:induction false} StartBatchHoldsBack(steps: Steps, todo: seq<StepId>, b: BatchId, x: WorkerId,
                                               now: Time, cfg: Config, k: StepId)
    requires (forall id <- todo :: id in steps) && k in steps && HeldBack(steps[k])
    ensures HeldBack(StartBatch(steps, todo, b, x, now, cfg)[k])
  {
    if todo != [] {
      var n := |todo| - 1;
      StartBatchHoldsBack(steps, todo[..n], b, x, now, cfg, k);
      OnlyDoneReleases(StartBatch(steps, todo[..n], b, x, now, cfg), todo[n], BATCH_RUNNING, now, cfg, k);
    }
  }

  lemma HandOutHoldsBack(steps: Steps, r: Reply, x: WorkerId, now: Time, cfg: Config, k: StepId)
    requires Known(steps, r) && k in steps && HeldBack(steps[k])
    ensures HeldBack(HandOut(steps, r, x, now, cfg)[k])
  {
    match r
    case Granted(id) => OnlyDoneReleases(steps, id, RUNNING, now, cfg, k);
    case BatchGranted(ids) => StartBatchHoldsBack(steps, ids, ids, x, now, cfg, k);
    case _ =>
  }

  lemma PrepareHoldsBack(w: World, a: WorkArgs, pruneOrder: seq<StepId>, now: Time, cfg: Config, k: StepId)
    requires (cfg.pruneOnGetWork ==> Lists(pruneOrder, w.steps.Keys)) && k in w.steps && HeldBack(w.steps[k])
    requires cfg.pruneOnGetWork ==> !DisableExpired(w.steps[k], now, cfg)
    ensures var r := Prepare(w, a, pruneOrder, now, cfg);
            k in r.steps ==> HeldBack(r.steps[k])
  {
    if cfg.pruneOnGetWork {
      PruneHoldsBack(w, pruneOrder, now, cfg, k);
    }
  }

  lemma GetWorkHoldsBack(w: World, a: WorkArgs, c: Choices, now: Time, cfg: Config, k: StepId)
    requires Inv(w) && ValidChoices(w, a, c, now, cfg) && k in w.steps && HeldBack(w.steps[k])
    requires cfg.pruneOnGetWork ==> !DisableExpired(w.steps[k], now, cfg)
    ensures var r := GetWork(w, a, c, now, cfg).0;
            k in r.steps ==> HeldBack(r.steps[k])
  {
    hide Prepare, Announce, HandOut, GetWork;
    PrepareHoldsBack(w, a, c.pruneOrder, now, cfg, k);
    var reply := GetWorkShape(w, a, c, now, cfg);
    var w1 := Prepare(w, a, c.pruneOrder, now, cfg);
    if !w1.workers[a.worker].disabled && k in w1.steps {
      AnnounceHoldsBack(w1, a, now, cfg, k);
      HandOutHoldsBack(AtScan(w, a, c, now, cfg).steps, reply, a.worker, now, cfg, k);
    }
  }

  lemma AnnounceHoldsBack(w: World, a: WorkArgs, now: Time, cfg: Config, k: StepId)
    requires a.worker in w.workers && k in w.steps && HeldBack(w.steps[k])
    ensures k in Announce(w, a, now, cfg).steps && HeldBack(Announce(w, a, now, cfg).steps[k])
  {
  }

  lemma AddStepHoldsBack(w: World, a: AddArgs, pick: Option<StepId>, now: Time, cfg: Config, k: StepId)
    requires k in w.steps && HeldBack(w.steps[k])
    ensures var r := AddStep(w, a, pick, now, cfg).0;
            k in r.steps && (r.steps[k].life.status == DISABLED || (k == a.id && a.status == DONE))
  {
    AddStepShape(w, a, pick, now, cfg);
    var start := AddStepStart(w.steps, a, pick, now, cfg);
    if start.Some? {
      TailHoldsBack(start.value, a, !Touch(w.workers, a.worker, false, now)[a.worker].disabled, now, cfg, k);
    }
  }

  lemma TailHoldsBack(steps: Steps, a: AddArgs, enabled: bool, now: Time, cfg: Config, k: StepId)
    requires a.id in steps && k in steps && HeldBack(steps[k])
    ensures var r := AddStepTail(steps, a, enabled, now, cfg);
            k in r && (r[k].life.status == DISABLED || (k == a.id && a.status == DONE))
  {
    var unmarked := steps[a.id := Unmark(steps[a.id], a)];
    AddStepTailAt(steps, a, enabled, now, cfg, k);
    OnlyDoneReleases(unmarked, a.id, if a.status == SUSPENDED then PENDING else a.status, now, cfg, k);
  }

  /** The events that may end a scheduler disable of step `k`. */
  predicate MayRelease(e: Event, s: StepRec, k: StepId, now: Time, cfg: Config) {
    || (e.OnAddStep? && e.add.id == k && e.add.status == DONE)
    || e == OnMarkAsDone(k)
    || e == OnReEnable(k)
    || ((e.OnPrune? || (e.OnGetWork? && cfg.pruneOnGetWork)) && DisableExpired(s, now, cfg))
  }

  /** In a reachable state, a step that the scheduler has disabled keeps that status until it is
      reported or marked DONE, re-enabled by hand, or pruned after the disable has expired. */
  lemma DisableLasts(w: World, e: Event, now: Time, cfg: Config, k: StepId)
    requires Inv(w) && Possible(w, e, now, cfg)
    requires k in w.steps && HeldBack(w.steps[k]) && !MayRelease(e, w.steps[k], k, now, cfg)
    ensures var r := Next(w, e, now, cfg).steps;
            k in r ==> r[k].life.status == DISABLED
  {
    hide AddStep, GetWork, Prune, MarkAsDone, ForgiveFailures, ReEnableStep, Inv;
    match e
    case OnAddStep(a, pick) => AddStepHoldsBack(w, a, pick, now, cfg, k);
    case OnGetWork(a, c) => GetWorkHoldsBack(w, a, c, now, cfg, k);
    case OnPrune(order) => PruneHoldsBack(w, order, now, cfg, k);
    case OnMarkAsDone(id) => StatusCallsHoldBack(w, id, now, cfg, k);
    case OnForgive(id) => StatusCallsHoldBack(w, id, now, cfg, k);
    case OnReEnable(id) => StatusCallsHoldBack(w, id, now, cfg, k);
    case OnDecrease(id, d, done) =>
    case OnDisableWorker(x) =>
    case OnCountPending(x) =>
    case OnAddWorker(x, info) =>
    case OnPing(x) =>
    case OnAddBatcher(x, family, b) =>
    case OnUpdateResource(r, amount) =>
    case OnUpdateResources(amounts) =>
    case OnSetPaused(paused) =>
  }

  lemma StatusCallsHoldBack(w: World, id: StepId, now: Time, cfg: Config, k: StepId)
    requires k in w.steps && HeldBack(w.steps[k])
    ensures ForgiveFailures(w, id, now, cfg).steps.Keys == w.steps.Keys &&
            ForgiveFailures(w, id, now, cfg).steps[k].life.status == DISABLED
    ensures id != k ==>
              && MarkAsDone(w, id, now, cfg).steps.Keys == w.steps.Keys
              && MarkAsDone(w, id, now, cfg).steps[k].life.status == DISABLED
              && ReEnableStep(w, id, now, cfg).steps.Keys == w.steps.Keys
              && ReEnableStep(w, id, now, cfg).steps[k].life.status == DISABLED
  {
    if id in w.steps {
      OnlyDoneReleases(w.steps, id, PENDING, now, cfg, k);
      OnlyDoneReleases(w.steps, id, DONE, now, cfg, k);
      if id != k {
        OnlyDoneReleases(w.steps[id := Forgiven(w.steps[id])], id, FAILED, now, cfg, k);
      }
    }
  }
}
