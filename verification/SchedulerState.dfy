/**
 The objects of the scheduler: steps and workers that are updated in place, and the indexes that
 refer to them.  Every operation is proved to have exactly the effect of its counterpart in
 SchedulerModel, and to keep the indexes consistent.
 */
module SchedulerState {
  import opened Options
  import opened Sequences
  import opened SchedulerModel
  import opened SchedulerInvariants
  import opened RemovedSteps

  class Step {
    const id: StepId
    var life: Life
    var info: Info
    var load: Load

    constructor (rec: StepRec)
      ensures Rec() == rec
    {
      id, life, info, load := rec.id, rec.life, rec.info, rec.load;
    }

    function Rec(): StepRec
      reads this
    {
      StepRec(id, life, info, load)
    }

    method AddFailure(now: Time)
      modifies this`life
      ensures life == SchedulerModel.AddFailure(old(life), now)
    {
      if !Truthy(life.firstFailure) {
        life := life.(firstFailure := Some(now));
      }
      life := life.(failures := life.failures + [now]);
    }

    method NumFailures(now: Time) returns (n: nat)
      modifies this`life
      ensures life == old(life).(failures := RecentFailures(old(life), info.policy, now))
      ensures n == |RecentFailures(old(life), info.policy, now)|
    {
      var minTime := now - info.policy.window;
      while life.failures != [] && life.failures[0] < minTime
        invariant life == old(life).(failures := life.failures)
        invariant DropOld(life.failures, minTime) == DropOld(old(life).failures, minTime)
        decreases |life.failures|
      {
        life := life.(failures := life.failures[1..]);
      }
      n := |life.failures|;
    }

    method HasExcessiveFailures(now: Time) returns (excessive: bool)
      modifies this`life
      ensures excessive == Excessive(old(life), info.policy, now)
      ensures life == CheckFailures(old(life), info.policy, now) == old(life).(failures := life.failures)
    {
      if life.firstFailure.Some? && now >= life.firstFailure.value + info.policy.hardTimeout {
        return true;
      }
      var n := NumFailures(now);
      return n >= info.policy.retryCount;
    }

    method ClearFailures()
      modifies this`life
      ensures life == SchedulerModel.ClearFailures(old(life)) && life.status == old(life.status)
    {
      life := life.(failures := [], firstFailure := None);
    }

    /** The part of `add_step` that fills in what a placeholder did not know. */
    method Describe(a: AddArgs)
      modifies this
      ensures Rec() == SchedulerModel.Describe(old(Rec()), a)
      ensures life.status == old(life.status) && info.workers == old(info.workers)
    {
      if info.family == "" {
        info := info.(family := a.family);
      }
      if info.params == map[] {
        info := info.(params := GetOr(a.params, map[]));
      }
      if a.batchId.Some? {
        life := life.(batchId := a.batchId);
      }
      if a.status == RUNNING && load.workerRunning.None? {
        load := load.(workerRunning := Some(a.worker));
      }
    }
  }

  class Worker {
    const id: WorkerId
    var info: WorkerRec
    var steps: set<Step>

    constructor (id: WorkerId, now: Time)
      ensures this.id == id && info == NewWorker(now) && steps == {}
    {
      this.id, info, steps := id, NewWorker(now), {};
    }

    method Update(getWork: bool, now: Time)
      modifies this`info
      ensures info == old(info).(lastActive := now, lastGetWork := if getWork then Some(now) else old(info.lastGetWork))
    {
      info := info.(lastActive := now);
      if getWork {
        info := info.(lastGetWork := Some(now));
      }
    }
  }

  /** `SetStatus` is what happens to the step itself and to the members of its batch. */
  lemma StatusIsSet(before: Steps, after: Steps, id: StepId, target: Status, now: Time, cfg: Config)
    requires id in before && after.Keys == before.Keys && !Refused(before[id].life, target)
    requires after[id] == SetOne(before[id], target, now, cfg)
    requires forall k <- before :: k != id ==>
      after[k] == if LeavesBatch(before[id].life, target) && InBatch(before[k], before[id].life.batchId)
                  then Unbatched(SetOne(before[k], target, now, cfg)) else before[k]
    ensures after == SetStatus(before, id, target, now, cfg)
  {
    hide SetLife;
  }

  lemma StatusRefused(before: Steps, id: StepId, target: Status, now: Time, cfg: Config)
    requires id in before && Refused(before[id].life, target)
    ensures SetStatus(before, id, target, now, cfg) == before
  {
  }

  lemma StatusOfOne(before: Steps, id: StepId, target: Status, now: Time, cfg: Config)
    requires id in before && !LeavesBatch(before[id].life, target)
    ensures SetStatus(before, id, target, now, cfg) == before[id := SetOne(before[id], target, now, cfg)]
  {
  }

  lemma ReEnabledIsOk(steps: Steps, id: StepId, now: Time, cfg: Config)
    requires id in steps && LifeOk(steps[id].life)
    ensures id in ReEnable(steps, id, now, cfg) && LifeOk(ReEnable(steps, id, now, cfg)[id].life)
  {
    var cleared := steps[id := Forgiven(steps[id])];
    SetStatusAt(cleared, id, FAILED, now, cfg, id);
    SetLifeOk(cleared[id].life, cleared[id].info.batchable, cleared[id].info.policy, FAILED, now, cfg);
  }

  class SimpleStepState {
    var steps: map<StepId, Step>
    var statusSteps: map<Status, map<StepId, Step>>
    var activeWorkers: map<WorkerId, Worker>
    var batchers: map<(WorkerId, string), Batcher>

    constructor ()
      ensures Consistent() && steps == map[] && activeWorkers == map[] && batchers == map[]
    {
      steps, statusSteps, activeWorkers, batchers := map[], map[], map[], map[];
    }

    /** The records of the active steps. */
    ghost function Recs(): Steps
      reads this`steps, steps.Values
    {
      map k | k in steps :: steps[k].Rec()
    }

    ghost function WorkerRecs(): Workers
      reads this`activeWorkers, activeWorkers.Values
    {
      map x | x in activeWorkers :: activeWorkers[x].info
    }

    /** `_status_steps[status]`, which is empty by default. */
    function WithStatus(status: Status): map<StepId, Step>
      reads this`statusSteps
    {
      if status in statusSteps then statusSteps[status] else map[]
    }

    ghost predicate Active(step: Step)
      reads this`steps
    {
      step.id in steps && steps[step.id] == step
    }

    /** The index of one status lists exactly the active steps with that status. */
    ghost predicate IndexOk(status: Status)
      reads this`steps, this`statusSteps, steps.Values
    {
      forall k ::
        && (k in WithStatus(status) <==> k in steps && steps[k].life.status == status)
        && (k in WithStatus(status) ==> WithStatus(status)[k] == steps[k])
    }

    /** Each active step is filed under its id, and in the index under exactly its own status. */
    ghost predicate Indexed()
      reads this`steps, this`statusSteps, steps.Values
    {
      (forall k <- steps :: steps[k].id == k) && forall status :: IndexOk(status)
    }

    /** An active step is among the steps of an active worker just if the worker is among its workers. */
    ghost predicate Linked()
      reads this`steps, this`activeWorkers, steps.Values, activeWorkers.Values
    {
      && (forall x <- activeWorkers :: activeWorkers[x].id == x)
      && forall k <- steps :: forall x <- activeWorkers ::
           steps[k] in activeWorkers[x].steps <==> x in steps[k].info.workers
    }

    ghost predicate Consistent()
      reads this, steps.Values, activeWorkers.Values
    {
      Indexed() && Linked()
    }

    // -------------------------------------------------------------- removed steps

    ghost function WorkerSteps(): set<Step>
      reads this`activeWorkers, activeWorkers.Values
    {
      set x, s | x in activeWorkers && s in activeWorkers[x].steps :: s
    }

    /** The removed steps that the worker still holds. */
    ghost function RemovedOf(worker: Worker): set<Item<Step>>
      reads this`steps, worker`steps, worker.steps
    {
      set s | s in worker.steps && !Active(s) :: Item(s, s.Rec())
    }

    ghost function Held(): map<WorkerId, set<Item<Step>>>
      reads this`steps, this`activeWorkers, activeWorkers.Values, WorkerSteps()
    {
      map x | x in activeWorkers :: assert activeWorkers[x].steps <= WorkerSteps(); RemovedOf(activeWorkers[x])
    }

    /** Known workers keep their steps, and new ones have none. */
    twostate predicate SameLinks()
      reads this`activeWorkers, activeWorkers.Values
    {
      forall x <- activeWorkers ::
        if x in old(activeWorkers) then activeWorkers[x] == old(activeWorkers[x]) && activeWorkers[x].steps == old(activeWorkers[x].steps)
        else activeWorkers[x].steps == {}
    }

    twostate lemma SameHeld()
      requires old(Indexed()) && steps == old(steps) && SameLinks()
      requires forall s <- old(WorkerSteps()) :: s !in steps.Values ==> s.Rec() == old(s.Rec())
      ensures Held() == map x | x in activeWorkers :: if x in old(activeWorkers) then old(Held())[x] else {}
    {
      forall x | x in activeWorkers
        ensures RemovedOf(activeWorkers[x]) == if x in old(activeWorkers) then old(RemovedOf(activeWorkers[x])) else {}
      {
        assert x in old(activeWorkers) ==> forall s <- old(activeWorkers[x].steps) :: s in old(WorkerSteps());
      }
    }

    /** Active steps stay active, new ones are new objects, and the workers only gain active steps. */
    twostate predicate LinksGrow()
      reads this`steps, this`activeWorkers, activeWorkers.Values
    {
      && (forall k <- old(steps) :: k in steps && steps[k] == old(steps[k]))
      && (forall k <- steps :: k !in old(steps) ==> fresh(steps[k]))
      && forall x <- activeWorkers ::
           && (x in old(activeWorkers) ==> activeWorkers[x] == old(activeWorkers[x]) && old(activeWorkers[x].steps) <= activeWorkers[x].steps)
           && forall s <- activeWorkers[x].steps :: (x in old(activeWorkers) && s in old(activeWorkers[x].steps)) || Active(s)
    }

    twostate lemma HaveGrown(x: WorkerId)
      requires old(Indexed()) && Indexed() && fresh(steps.Values - old(steps.Values))
      requires forall k <- old(steps) :: k in steps && steps[k] == old(steps[k])
      requires forall y <- activeWorkers :: y in old(activeWorkers) ==> activeWorkers[y] == old(activeWorkers[y])
      requires forall y <- activeWorkers :: y != x ==>
        activeWorkers[y].steps == if y in old(activeWorkers) then old(activeWorkers[y].steps) else {}
      requires x in activeWorkers && (x in old(activeWorkers) ==> old(activeWorkers[x].steps) <= activeWorkers[x].steps)
      requires forall s <- activeWorkers[x].steps :: (x in old(activeWorkers) && s in old(activeWorkers[x].steps)) || Active(s)
      ensures LinksGrow()
    {
      forall k | k in steps && k !in old(steps)
        ensures fresh(steps[k])
      {
        assert steps[k] !in old(steps.Values);
      }
    }

    twostate lemma HeldStays()
      requires old(Indexed()) && Indexed() && LinksGrow()
      requires forall s <- old(WorkerSteps()) :: s !in old(steps.Values) ==> s.Rec() == old(s.Rec())
      ensures Held() == map x | x in activeWorkers :: if x in old(activeWorkers) then old(Held())[x] else {}
    {
      forall x | x in activeWorkers
        ensures RemovedOf(activeWorkers[x]) == if x in old(activeWorkers) then old(RemovedOf(activeWorkers[x])) else {}
      {
        assert x in old(activeWorkers) ==> forall s <- old(activeWorkers[x].steps) :: s in old(WorkerSteps());
      }
    }

    // -------------------------------------------------------------- moving between statuses

    /** `_status_steps[old].pop(id)` and `_status_steps[new][id] = step`. */
    method Refile(step: Step, from: Status, to: Status)
      requires from != to && step.id in WithStatus(from)  // the key that is popped is present
      modifies this`statusSteps
      ensures forall status :: WithStatus(status) == if status == from then old(WithStatus(from)) - {step.id}
                                                     else if status == to then old(WithStatus(to))[step.id := step]
                                                     else old(WithStatus(status))
    {
      statusSteps := statusSteps[from := WithStatus(from) - {step.id}];
      statusSteps := statusSteps[to := WithStatus(to)[step.id := step]];
    }

    method Move(step: Step, target: Status, now: Time)
      requires Active(step) && Indexed()
      modifies this`statusSteps, step`life
      ensures Indexed()
      ensures step.life == MoveTo(old(step.life), target, now)
    {
      if step.life.status != target {
        assert IndexOk(step.life.status);
        Refile(step, step.life.status, target);
        step.life := step.life.(status := target, updated := now);
        forall status
          ensures IndexOk(status)
        {
          assert old(IndexOk(status));
        }
      }
    }

    /** The indexes only depend on the statuses. */
    twostate lemma StillIndexed()
      requires old(Indexed()) && steps == old(steps) && statusSteps == old(statusSteps)
      requires forall k <- steps :: steps[k].life.status == old(steps[k].life.status)
      ensures Indexed()
    {
      forall status
        ensures IndexOk(status)
      {
        assert old(IndexOk(status));
      }
    }

    /** The links only depend on who may run what. */
    twostate lemma StillLinked()
      requires old(Linked()) && activeWorkers == old(activeWorkers)
      requires forall x <- activeWorkers :: activeWorkers[x].steps == old(activeWorkers[x].steps)
      requires forall k <- steps :: k in old(steps) && steps[k] == old(steps[k]) && steps[k].info.workers == old(steps[k].info.workers)
      ensures Linked()
    {
    }

    /** The records agree with `recs`, which is how a change of single steps is described. */
    lemma RecsAre(recs: Steps)
      requires recs.Keys == steps.Keys
      requires forall k <- steps :: steps[k].Rec() == recs[k]
      ensures Recs() == recs
    {
    }

    /** The last part of `set_status`, which handles one step only. */
    method SetOwnStatus(step: Step, target: Status, removeOnFailure: bool, now: Time, cfg: Config)
      requires Active(step) && Indexed()
      modifies this`statusSteps, step`life
      ensures Indexed()
      ensures step.life ==
        match target
        case FAILED =>
          if old(step.life.status) == DISABLED then MoveToFailed(old(step.life), removeOnFailure, now, cfg)
          else Fail(old(step.life), step.info.policy, removeOnFailure, now, cfg)
        case DISABLED => MoveTo(old(step.life).(disableTime := None), DISABLED, now)
        case _ => MoveTo(old(step.life), target, now)
    {
      var newStatus := target;
      hide Excessive, CheckFailures;
      if target == FAILED && step.life.status != DISABLED {
        step.AddFailure(now);
        var excessive := step.HasExcessiveFailures(now);
        if excessive {
          step.life := step.life.(disableTime := Some(now));
          newStatus := DISABLED;
        }
      } else if target == DISABLED {
        step.life := step.life.(disableTime := None);
      }
      StillIndexed();
      Move(step, newStatus, now);
      if newStatus == FAILED {
        label Moved:
        step.life := step.life.(retry := Some(now + cfg.retryDelay));
        if removeOnFailure {
          step.life := step.life.(remove := Some(now));
        }
        StillIndexed@Moved();
      }
    }

    method GetBatchRunningSteps(b: Option<BatchId>) returns (members: seq<Step>)
      requires Indexed()
      ensures Distinct(members)
      ensures forall s :: s in members <==> s in steps.Values && InBatch(s.Rec(), b)
    {
      assert IndexOk(BATCH_RUNNING);
      var running := WithStatus(BATCH_RUNNING);
      var ids := ListSet(running.Keys);
      members := [];
      for i := 0 to |ids|
        invariant Distinct(members)
        invariant forall s :: s in members <==> exists j :: 0 <= j < i && running[ids[j]] == s && s.life.batchId == b
      {
        assert ids[i] in ids;
        if running[ids[i]].life.batchId == b {
          members := members + [running[ids[i]]];
        }
      }
      forall s
        ensures s in members <==> s in steps.Values && InBatch(s.Rec(), b)
      {
        if s in steps.Values && InBatch(s.Rec(), b) {
          var k :| k in steps && steps[k] == s;
          assert k in running;
          var j :| 0 <= j < |ids| && ids[j] == k;
        }
      }
    }

    method SetStatus(step: Step, target: Status, now: Time, cfg: Config)
      requires Active(step) && Indexed()
      modifies this`statusSteps, steps.Values`life
      ensures Indexed()
      ensures Recs() == SchedulerModel.SetStatus(old(Recs()), step.id, target, now, cfg)
      decreases if step.life.status == RUNNING then 2 else 0, 0
    {
      hide SchedulerModel.SetStatus, Fail, MoveToFailed, MoveTo, SchedulerModel.ClearFailures, Unbatched;
      ghost var before := Recs();
      if target == DISABLED && step.life.status.Runs() {
        StatusRefused(before, step.id, target, now, cfg);
        return;
      }
      var removeOnFailure := step.life.batchId.Some? && !step.info.batchable;
      if step.life.status == DISABLED {
        if target == DONE {
          ForgetDisable(step);
        } else if step.life.disableTime.Some? && target != DISABLED {
          StatusRefused(before, step.id, target, now, cfg);
          return;
        }
      }
      if step.life.status == RUNNING && step.life.batchId.Some? && target != RUNNING {
        LeaveBatch(step, target, now, cfg);
      }
      SetOwnStatus(step, target, removeOnFailure, now, cfg);
      assert step.life == SetLife(before[step.id].life, step.info.batchable, step.info.policy, target, now, cfg);
      hide SetLife, InBatch, IndexOk;
      StatusIsSet(before, Recs(), step.id, target, now, cfg);
    }

    method ForgetDisable(step: Step)
      requires Active(step) && Indexed()
      modifies step`life
      ensures Indexed()
      ensures step.life == SchedulerModel.ClearFailures(old(step.life).(disableTime := None)) && step.life.status == old(step.life.status)
    {
      step.life := step.life.(disableTime := None);
      step.ClearFailures();
      StillIndexed();
    }

    /** The running step of a batch takes the members of the batch along. */
    method LeaveBatch(step: Step, target: Status, now: Time, cfg: Config)
      requires Active(step) && Indexed() && step.life.status == RUNNING && target != DISABLED
      modifies this`statusSteps, steps.Values`life
      ensures Indexed()
      ensures step.life == old(step.life).(batchId := None)
      ensures forall k <- steps :: steps[k] != step ==>
        steps[k].Rec() == if InBatch(old(steps[k].Rec()), old(step.life.batchId))
                          then Unbatched(SetOne(old(steps[k].Rec()), target, now, cfg)) else old(steps[k].Rec())
      decreases 1, 1
    {
      hide SetLife;
      SetMembersStatus(step, target, now, cfg);
      label Members:
      assert step.Rec() == old(step.Rec());
      step.life := step.life.(batchId := None);
      StillIndexed@Members();
    }

    method SetMembersStatus(step: Step, target: Status, now: Time, cfg: Config)
      requires Active(step) && Indexed() && step.life.status == RUNNING && target != DISABLED
      modifies this`statusSteps, steps.Values`life
      ensures Indexed()
      ensures forall k <- steps ::
        steps[k].Rec() == if InBatch(old(steps[k].Rec()), old(step.life.batchId))
                          then Unbatched(SetOne(old(steps[k].Rec()), target, now, cfg)) else old(steps[k].Rec())
      decreases 1, 0
    {
      var members := GetBatchRunningSteps(step.life.batchId);
      ghost var before := Recs();
      for i := 0 to |members|
        invariant Indexed()
        invariant forall k <- steps ::
          steps[k].Rec() == if steps[k] in members[..i] then Unbatched(SetOne(before[k], target, now, cfg)) else before[k]
      {
        var member := members[i];
        assert member in members && member !in members[..i] && members[..i+1] == members[..i] + [member];
        assert member.Rec() == before[member.id];
        SetStatusOfMember(member, target, now, cfg);
      }
      assert members[..|members|] == members;
    }

    method SetStatusOfMember(member: Step, target: Status, now: Time, cfg: Config)
      requires Active(member) && Indexed() && member.life.status == BATCH_RUNNING
      modifies this`statusSteps, steps.Values`life
      ensures Indexed()
      ensures member.Rec() == Unbatched(SetOne(old(member.Rec()), target, now, cfg))
      ensures forall k <- steps :: steps[k] != member ==> steps[k].Rec() == old(steps[k].Rec())
      decreases 0, 1
    {
      hide SchedulerModel.SetStatus, SetOne;
      StatusOfOne(Recs(), member.id, target, now, cfg);
      SetStatus(member, target, now, cfg);
      label Moved:
      assert forall k <- steps :: steps[k].Rec() == Recs()[k];
      member.life := member.life.(batchId := None);
      StillIndexed@Moved();
    }

    // -------------------------------------------------------------- the callers of set_status

    /** An update of one step that does not touch its status. */
    method PutLife(step: Step, life: Life)
      requires Active(step) && Indexed() && life.status == step.life.status
      modifies step`life
      ensures Indexed()
      ensures Recs() == old(Recs())[step.id := old(step.Rec()).(life := life)]
    {
      step.life := life;
      StillIndexed();
      RecsAre(old(Recs())[step.id := old(step.Rec()).(life := life)]);
    }

    method ForgetFailures(step: Step)
      requires Active(step) && Indexed()
      modifies step`life
      ensures Indexed()
      ensures Recs() == old(Recs())[step.id := old(step.Rec()).(life := SchedulerModel.ClearFailures(old(step.life)))]
    {
      step.ClearFailures();
      StillIndexed();
      RecsAre(old(Recs())[step.id := old(step.Rec()).(life := SchedulerModel.ClearFailures(old(step.life)))]);
    }

    method ReEnable(step: Step, now: Time, cfg: Config)
      requires Active(step) && Indexed()
      modifies this`statusSteps, steps.Values`life
      ensures Indexed()
      ensures Recs() == SchedulerModel.ReEnable(old(Recs()), step.id, now, cfg)
    {
      hide SchedulerModel.SetStatus, SchedulerModel.ClearFailures, Indexed;
      PutLife(step, step.life.(disableTime := None));
      ForgetFailures(step);
      assert Recs() == old(Recs())[step.id := Forgiven(old(step.Rec()))];
      SetStatus(step, FAILED, now, cfg);
      assert step.Rec() == Recs()[step.id];
      ForgetFailures(step);
    }

    method FailDeadWorkerStep(step: Step, now: Time, cfg: Config, assistants: set<WorkerId>)
      requires Active(step) && Indexed()
      modifies this`statusSteps, steps.Values`life, step`load
      ensures Indexed()
      ensures Recs() == FailDead(old(Recs()), step.id, now, cfg, assistants)
    {
      hide SchedulerModel.SetStatus, Indexed;
      if step.life.status.Runs() && step.load.workerRunning.Some? &&
         step.load.workerRunning.value !in step.info.stakeholders + assistants {
        FreeStep(step);
        SetStatus(step, FAILED, now, cfg);
        assert step.Rec() == Recs()[step.id];
        PutLife(step, step.life.(retry := Some(now + cfg.retryDelay)));
      }
    }

    method FreeStep(step: Step)
      requires Active(step) && Indexed()
      modifies step`load
      ensures Indexed()
      ensures Recs() == old(Recs())[step.id := Freed(old(step.Rec()))]
    {
      step.load := step.load.(workerRunning := None);
      StillIndexed();
      RecsAre(old(Recs())[step.id := Freed(old(step.Rec()))]);
    }

    method UpdateStatus(step: Step, now: Time, cfg: Config)
      requires Active(step) && Indexed() && LifeOk(step.life)
      modifies this`statusSteps, steps.Values`life
      ensures Indexed()
      ensures Recs() == SchedulerModel.UpdateStatus(old(Recs()), step.id, now, cfg)
    {
      hide SchedulerModel.SetStatus, SchedulerModel.ReEnable, Indexed;
      ghost var marked := old(Recs())[step.id := MarkUnwanted(old(step.Rec()), now, cfg)];
      if step.info.stakeholders == {} && step.life.remove.None? && step.life.status != RUNNING {
        PutLife(step, step.life.(remove := Some(now + cfg.removeDelay)));
      }
      assert Recs() == marked && step.Rec() == marked[step.id];
      if step.life.status == DISABLED && step.life.disableTime.Some? {
        if now - step.life.disableTime.value > cfg.disablePersist {
          ReEnable(step, now, cfg);
          ReEnabledIsOk(marked, step.id, now, cfg);
        }
      }
      assert step.Rec() == Recs()[step.id];
      if step.life.status == FAILED && cfg.retryDelay >= 0 && step.life.retry.value < now {
        SetStatus(step, PENDING, now, cfg);
      }
    }

    method InactivateStep(id: StepId)
      requires id in steps && Indexed()
      modifies this`steps, this`statusSteps
      ensures steps == old(steps) - {id} && Indexed()
    {
      var step := steps[id];
      var status := step.life.status;
      assert IndexOk(status) && id in WithStatus(status);  // the key that is popped is present
      steps := steps - {id};
      statusSteps := statusSteps[status := WithStatus(status) - {id}];
      forall other
        ensures IndexOk(other)
      {
        assert old(IndexOk(other));
        assert WithStatus(other) == if other == status then old(WithStatus(other)) - {id} else old(WithStatus(other));
      }
    }

    method InactivateSteps(ids: set<StepId>)
      requires ids <= steps.Keys && Indexed()
      modifies this`steps, this`statusSteps
      ensures steps == old(steps) - ids && Indexed()
      ensures Recs() == old(Recs()) - ids
    {
      hide IndexOk;
      var rest := ids;
      while rest != {}
        invariant Indexed() && rest <= ids && steps == old(steps) - (ids - rest)
        decreases rest
      {
        var id :| id in rest;
        InactivateStep(id);
        rest := rest - {id};
      }
      assert ids - rest == ids;
    }

    // -------------------------------------------------------------- single steps

    /** `get_step` with a default: an unknown step becomes active. */
    method FindStep(id: StepId, default: StepRec) returns (step: Step)
      requires Consistent() && default.id == id && default.info.workers == []
      modifies this`steps, this`statusSteps
      ensures Consistent() && Active(step) && step.id == id
      ensures Recs() == old(Recs())[id := if id in old(steps) then old(Recs())[id] else default]
      ensures if id in old(steps) then steps == old(steps) else steps == old(steps)[id := step] && fresh(step)
    {
      if id !in steps {
        step := new Step(default);
        steps := steps[id := step];
      }
      step := steps[id];
      var status := step.life.status;
      statusSteps := statusSteps[status := WithStatus(status)[id := step]];
      forall other
        ensures IndexOk(other)
      {
        assert old(IndexOk(other));
        assert WithStatus(other) == if other == status then old(WithStatus(other))[id := step] else old(WithStatus(other));
      }
      RecsAre(old(Recs())[id := if id in old(steps) then old(Recs())[id] else default]);
    }

    /** An update of one step that keeps its status and its workers. */
    twostate lemma StillConsistent()
      requires old(Consistent()) && steps == old(steps) && statusSteps == old(statusSteps)
      requires activeWorkers == old(activeWorkers)
      requires forall x <- activeWorkers :: activeWorkers[x].steps == old(activeWorkers[x].steps)
      requires forall k <- steps ::
        steps[k].life.status == old(steps[k].life.status) && steps[k].info.workers == old(steps[k].info.workers)
      ensures Consistent()
    {
      hide IndexOk;
      StillIndexed();
      StillLinked();
    }

    /** Only the record of one step has changed. */
    twostate lemma OneUpdated(step: Step)
      requires old(Consistent()) && old(Active(step)) && steps == old(steps) && statusSteps == old(statusSteps)
      requires activeWorkers == old(activeWorkers)
      requires forall x <- activeWorkers :: activeWorkers[x].steps == old(activeWorkers[x].steps)
      requires forall k <- steps :: steps[k] != step ==> steps[k].Rec() == old(steps[k].Rec())
      requires step.life.status == old(step.life.status) && step.info.workers == old(step.info.workers)
      ensures Consistent() && Recs() == old(Recs())[step.id := step.Rec()]
    {
      hide IndexOk;
      forall k | k in steps
        ensures steps[k].life.status == old(steps[k].life.status) && steps[k].info.workers == old(steps[k].info.workers)
      {
        if steps[k] != step {
          assert steps[k].Rec() == old(steps[k].Rec());
        }
      }
      StillConsistent();
      RecsAre(old(Recs())[step.id := step.Rec()]);
    }

    /** A step and a worker have been linked, from both sides. */
    twostate lemma LinkedMore(link: (Step, WorkerId))
      requires old(Linked()) && steps == old(steps) && activeWorkers == old(activeWorkers)
      requires forall x <- activeWorkers ::
        activeWorkers[x].steps == if x == link.1 then old(activeWorkers[x].steps) + {link.0} else old(activeWorkers[x].steps)
      requires forall k <- steps ::
        steps[k].info.workers == if steps[k] == link.0 then AddLast(old(steps[k].info.workers), link.1) else old(steps[k].info.workers)
      ensures Linked()
    {
    }

    /** New workers have no steps yet. */
    twostate lemma LinkedWithNew()
      requires old(Linked()) && steps == old(steps)
      requires forall k <- steps :: steps[k].info.workers == old(steps[k].info.workers)
      requires forall k <- steps :: forall x <- steps[k].info.workers :: x in old(activeWorkers)
      requires forall x <- activeWorkers :: activeWorkers[x].id == x
      requires forall x <- activeWorkers ::
        if x in old(activeWorkers) then activeWorkers[x] == old(activeWorkers[x]) && activeWorkers[x].steps == old(activeWorkers[x].steps)
        else activeWorkers[x].steps == {}
      ensures Linked()
    {
    }

    // -------------------------------------------------------------- workers

    method RemoveWorkersFromSteps(gone: set<WorkerId>, removeStakeholders: bool)
      requires Indexed()
      modifies steps.Values`info
      ensures forall k <- steps :: steps[k].Rec() == Deserted(old(steps[k].Rec()), gone, removeStakeholders)
      ensures forall k <- steps :: steps[k].info.workers == Without(old(steps[k].info.workers), gone)
      ensures Recs() == RemoveWorkers(old(Recs()), gone, removeStakeholders)
      ensures Indexed()
    {
      var ids := ListSet(steps.Keys);
      for i := 0 to |ids|
        invariant forall k <- steps ::
          steps[k].Rec() == if k in ids[..i] then Deserted(old(steps[k].Rec()), gone, removeStakeholders)
                            else old(steps[k].Rec())
      {
        assert ids[i] in ids && ids[i] !in ids[..i];
        var step := steps[ids[i]];
        if removeStakeholders {
          step.info := step.info.(stakeholders := step.info.stakeholders - gone);
        }
        step.info := step.info.(workers := Without(step.info.workers, gone));
      }
      assert ids[..|ids|] == ids;
      RecsAre(RemoveWorkers(old(Recs()), gone, removeStakeholders));
      StillIndexed();
    }

    lemma WorkerRecsAre(recs: Workers)
      requires recs.Keys == activeWorkers.Keys
      requires forall x <- activeWorkers :: activeWorkers[x].info == recs[x]
      ensures WorkerRecs() == recs
    {
    }

    /** `get_worker`: an unknown worker becomes active without any steps. */
    method FindWorker(x: WorkerId, now: Time) returns (w: Worker)
      requires forall y <- activeWorkers :: activeWorkers[y].id == y
      modifies this`activeWorkers
      ensures x in activeWorkers && activeWorkers[x] == w && w.id == x
      ensures if x in old(activeWorkers) then activeWorkers == old(activeWorkers)
              else activeWorkers == old(activeWorkers)[x := w] && fresh(w) && w.steps == {} && w.info == NewWorker(now)
    {
      if x !in activeWorkers {
        w := new Worker(x, now);
        activeWorkers := activeWorkers[x := w];
      }
      w := activeWorkers[x];
    }

    method InactivateWorkers(gone: set<WorkerId>)
      requires Linked() && Indexed() && gone <= activeWorkers.Keys
      modifies this`activeWorkers, steps.Values`info
      ensures Linked() && Indexed() && activeWorkers == old(activeWorkers) - gone
      ensures Recs() == RemoveWorkers(old(Recs()), gone, true)
    {
      hide Indexed, Linked, Deserted, RemoveWorkers;
      activeWorkers := activeWorkers - gone;
      RemoveWorkersFromSteps(gone, true);
      LinkedAfterRemoval(gone);
    }

    twostate lemma LinkedAfterRemoval(gone: set<WorkerId>)
      requires old(Linked()) && steps == old(steps)
      requires forall x <- activeWorkers :: x in old(activeWorkers) && x !in gone && activeWorkers[x] == old(activeWorkers[x])
      requires forall x <- activeWorkers :: activeWorkers[x].steps == old(activeWorkers[x].steps)
      requires forall k <- steps :: steps[k].info.workers == Without(old(steps[k].info.workers), gone)
      ensures Linked()
    {
      forall k | k in steps
        ensures forall x <- activeWorkers :: steps[k] in activeWorkers[x].steps <==> x in steps[k].info.workers
      {
        WithoutFilters(old(steps[k].info.workers), gone);
      }
    }

    twostate lemma LinkedAfterDisable(x: WorkerId)
      requires old(Linked()) && steps == old(steps) && x in activeWorkers
      requires forall y <- activeWorkers :: activeWorkers[y].id == y
      requires activeWorkers[x].steps == {}
      requires forall y <- activeWorkers :: y != x ==>
        y in old(activeWorkers) && activeWorkers[y] == old(activeWorkers[y]) && activeWorkers[y].steps == old(activeWorkers[y].steps)
      requires forall k <- steps :: steps[k].info.workers == Without(old(steps[k].info.workers), {x})
      ensures Linked()
    {
      forall k | k in steps
        ensures forall y <- activeWorkers :: steps[k] in activeWorkers[y].steps <==> y in steps[k].info.workers
      {
        WithoutFilters(old(steps[k].info.workers), {x});
      }
    }

    lemma WorkersFiled()
      requires Linked()
      ensures forall y <- activeWorkers :: activeWorkers[y].id == y
    {
    }

    /** The part of `disable_workers` that concerns the worker itself. */
    method DisableOne(x: WorkerId, now: Time)
      requires forall y <- activeWorkers :: activeWorkers[y].id == y
      modifies this`activeWorkers, activeWorkers.Values
      ensures x in activeWorkers && activeWorkers[x].steps == {}
      ensures fresh(activeWorkers.Values - old(activeWorkers.Values))
      ensures forall y <- activeWorkers :: activeWorkers[y].id == y
      ensures forall y <- activeWorkers :: y != x ==>
        y in old(activeWorkers) && activeWorkers[y] == old(activeWorkers[y]) && activeWorkers[y].steps == old(activeWorkers[y].steps)
      ensures var known := SchedulerModel.GetWorker(old(WorkerRecs()), x, now);
              WorkerRecs() == known[x := known[x].(disabled := true)]
    {
      var w := FindWorker(x, now);
      w.info := w.info.(disabled := true);
      w.steps := {};
      WorkerRecsAre(old(WorkerRecs())[x := w.info]);
    }

    method DisableWorkers(x: WorkerId, now: Time)
      requires Linked() && Indexed()
      modifies this`activeWorkers, steps.Values`info, activeWorkers.Values
      ensures Linked() && Indexed()
      ensures fresh(activeWorkers.Values - old(activeWorkers.Values))
      ensures Recs() == RemoveWorkers(old(Recs()), {x}, false)
      ensures var known := SchedulerModel.GetWorker(old(WorkerRecs()), x, now);
              WorkerRecs() == known[x := known[x].(disabled := true)]
      ensures x in activeWorkers && activeWorkers[x].steps == {}
      ensures forall y <- activeWorkers :: y != x ==>
        y in old(activeWorkers) && activeWorkers[y] == old(activeWorkers[y]) && activeWorkers[y].steps == old(activeWorkers[y].steps)
    {
      hide Indexed, RemoveWorkers, Deserted, Linked, WorkerRecs, SchedulerModel.GetWorker, Without;
      WorkersFiled();
      RemoveWorkersFromSteps({x}, false);
      DisableOne(x, now);
      LinkedAfterDisable(x);
    }
  }
}
