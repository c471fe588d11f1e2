/**
 Steps that run have running resources, as long as no report says that a step runs.  Then neither `add_step` nor
 `decrease_running_step_resources` raises an exception.
 */
module RunningResources {
  import opened Options
  import opened Sequences
  import opened SchedulerModel
  import opened SchedulerInvariants

  predicate Furnished(steps: Steps) {
    forall k <- steps :: FurnishedStep(steps[k])
  }

  predicate FurnishedStep(s: StepRec) {
    s.life.status.Runs() ==> s.load.resourcesRunning.Some?
  }

  /** The call reports that a step runs, so the step runs without having been granted. */
  predicate ReportsRun(e: Event) {
    e.OnAddStep? && e.add.status.Runs()
  }

  // ---------------------------------------------------------------- changes of status

  lemma SetStatusFurnished(steps: Steps, id: StepId, target: Status, now: Time, cfg: Config)
    requires id in steps && Furnished(steps) && !target.Runs()
    ensures Furnished(SetStatus(steps, id, target, now, cfg))
  {
    var r := SetStatus(steps, id, target, now, cfg);
    forall k | k in r
      ensures FurnishedStep(r[k])
    {
      SetStatusAt(steps, id, target, now, cfg, k);
      SetLifeOk(steps[k].life, steps[k].info.batchable, steps[k].info.policy, target, now, cfg);
    }
  }

  lemma ReEnableFurnished(steps: Steps, id: StepId, now: Time, cfg: Config)
    requires id in steps && Furnished(steps)
    ensures Furnished(ReEnable(steps, id, now, cfg))
  {
    SetStatusFurnished(steps[id := Forgiven(steps[id])], id, FAILED, now, cfg);
    hide SetStatus;
  }

  lemma SettledIsFurnished(steps: Steps, next: Steps)
    requires Furnished(steps) && AllSettle(steps, next)
    ensures Furnished(next)
  {
    forall k | k in next
      ensures FurnishedStep(next[k])
    {
      assert Settles(steps[k], next[k]);
    }
  }

  lemma PruneFurnished(w: World, order: seq<StepId>, now: Time, cfg: Config)
    requires Lists(order, w.steps.Keys) && Furnished(w.steps)
    ensures Furnished(Prune(w, order, now, cfg).steps)
  {
    var w1 := PruneWorkers(w, now, cfg);
    assert Furnished(w1.steps);
    PruneLoopSettles(w1.steps, order, now, cfg, Assistants(w1.workers), {});
    hide PruneLoop, Assistants, AllSettle, FurnishedStep;
    SettledIsFurnished(w1.steps, PruneLoop(w1.steps, order, now, cfg, Assistants(w1.workers), {}).0);
  }

  // ---------------------------------------------------------------- reports

  lemma AddStepFurnished(w: World, a: AddArgs, pick: Option<StepId>, now: Time, cfg: Config)
    requires Furnished(w.steps) && !a.status.Runs()
    ensures Furnished(AddStep(w, a, pick, now, cfg).0.steps) && !AddStep(w, a, pick, now, cfg).1
  {
    var enabled := !Touch(w.workers, a.worker, false, now)[a.worker].disabled;
    var head := AddStepHead(w.steps, a, now, cfg);
    hide AddStepHead, AddStepStart, AddStepTail, Furnished, Ignored, Touch;
    HeadFurnished(w.steps, a, pick, now, cfg);
    TailFurnished(head, a, enabled, now, cfg);
  }

  /** The report copies no resources of a batch. */
  lemma HeadFurnished(steps: Steps, a: AddArgs, pick: Option<StepId>, now: Time, cfg: Config)
    requires Furnished(steps) && !a.status.Runs()
    ensures var head := AddStepHead(steps, a, now, cfg);
            a.id in head && Furnished(head) && AddStepStart(steps, a, pick, now, cfg) == Some(head)
  {
  }

  lemma TailFurnished(steps: Steps, a: AddArgs, enabled: bool, now: Time, cfg: Config)
    requires a.id in steps && Furnished(steps) && !a.status.Runs()
    ensures Furnished(AddStepTail(steps, a, enabled, now, cfg))
  {
    hide AddStepTail, Report;
    var unmarked := steps[a.id := Unmark(steps[a.id], a)];
    assert Furnished(Report(unmarked, a, now, cfg)) by {
      ReportFurnished(unmarked, a, now, cfg);
    }
    var r := AddStepTail(steps, a, enabled, now, cfg);
    forall k | k in r
      ensures FurnishedStep(r[k])
    {
      AddStepTailAt(steps, a, enabled, now, cfg, k);
      assert k in steps ==> FurnishedStep(Report(unmarked, a, now, cfg)[k]);
    }
  }

  lemma ReportFurnished(steps: Steps, a: AddArgs, now: Time, cfg: Config)
    requires a.id in steps && Furnished(steps) && !a.status.Runs()
    ensures Furnished(Report(steps, a, now, cfg))
  {
    hide SetStatus, Furnished;
    SetStatusFurnished(steps, a.id, if a.status == SUSPENDED then PENDING else a.status, now, cfg);
  }

  // ---------------------------------------------------------------- grants

  lemma GrantFurnished(steps: Steps, id: StepId, x: WorkerId, now: Time, cfg: Config)
    requires id in steps && Furnished(steps)
    ensures Furnished(Grant(steps, id, x, now, cfg))
  {
    var r := Grant(steps, id, x, now, cfg);
    forall k | k in r
      ensures FurnishedStep(r[k])
    {
      SetStatusAt(steps, id, RUNNING, now, cfg, k);
    }
  }

  lemma {:induction false} StartBatchFurnished(steps: Steps, todo: seq<StepId>, b: BatchId, x: WorkerId, now: Time, cfg: Config)
    requires (forall id <- todo :: id in steps) && Furnished(steps)
    ensures Furnished(StartBatch(steps, todo, b, x, now, cfg))
  {
    if todo != [] {
      var n := |todo| - 1;
      StartBatchFurnished(steps, todo[..n], b, x, now, cfg);
      BatchedFurnished(StartBatch(steps, todo[..n], b, x, now, cfg), todo[n], b, x, now, cfg);
      hide SetBatchRunning, Furnished;
    }
  }

  /** A running step that is put into a batch takes the members of its old batch along. */
  lemma BatchedFurnished(steps: Steps, id: StepId, b: BatchId, x: WorkerId, now: Time, cfg: Config)
    requires id in steps && Furnished(steps)
    ensures Furnished(SetBatchRunning(steps, id, b, x, now, cfg))
  {
    var moved := SetStatus(steps, id, BATCH_RUNNING, now, cfg);
    forall k | k in steps
      ensures k == id || FurnishedStep(moved[k])
    {
      SetStatusAt(steps, id, BATCH_RUNNING, now, cfg, k);
      assert FurnishedStep(steps[k]);
    }
    hide SetStatus;
  }

  lemma HandOutFurnished(steps: Steps, r: Reply, x: WorkerId, now: Time, cfg: Config)
    requires Known(steps, r) && Furnished(steps)
    ensures Furnished(HandOut(steps, r, x, now, cfg))
  {
    hide Grant, StartBatch, Furnished;
    match r
    case Granted(id) => GrantFurnished(steps, id, x, now, cfg);
    case BatchGranted(ids) => StartBatchFurnished(steps, ids, ids, x, now, cfg);
    case _ =>
  }

  lemma AnnounceFurnished(w: World, a: WorkArgs, now: Time, cfg: Config)
    requires a.worker in w.workers && Furnished(w.steps)
    ensures Furnished(Announce(w, a, now, cfg).steps)
  {
    var r := ResetOrphans(w.steps, a.worker, now, cfg);
    forall k | k in w.steps
      ensures FurnishedStep(r[k])
    {
      SetLifeOk(w.steps[k].life, w.steps[k].info.batchable, w.steps[k].info.policy, PENDING, now, cfg);
      assert FurnishedStep(w.steps[k]);
    }
    hide ResetOrphans;
  }

  lemma PrepareFurnished(w: World, a: WorkArgs, order: seq<StepId>, now: Time, cfg: Config)
    requires (cfg.pruneOnGetWork ==> Lists(order, w.steps.Keys)) && Furnished(w.steps)
    ensures Furnished(Prepare(w, a, order, now, cfg).steps)
  {
    hide Prune, Furnished;
    if cfg.pruneOnGetWork {
      PruneFurnished(w, order, now, cfg);
    }
  }

  lemma GetWorkFurnished(w: World, a: WorkArgs, c: Choices, now: Time, cfg: Config)
    requires Inv(w) && ValidChoices(w, a, c, now, cfg) && Furnished(w.steps)
    ensures Furnished(GetWork(w, a, c, now, cfg).0.steps)
  {
    var w1 := Prepare(w, a, c.pruneOrder, now, cfg);
    assert Furnished(w1.steps) by {
      PrepareFurnished(w, a, c.pruneOrder, now, cfg);
    }
    hide Prepare, Announce, HandOut, GetWork, Furnished, Inv, ValidScan, ValidResend, Decide, Known;
    var reply := GetWorkShape(w, a, c, now, cfg);
    if !w1.workers[a.worker].disabled {
      AnnounceFurnished(w1, a, now, cfg);
      HandOutFurnished(AtScan(w, a, c, now, cfg).steps, reply, a.worker, now, cfg);
    }
  }

  // ---------------------------------------------------------------- all calls

  lemma StatusCallsFurnished(w: World, id: StepId, now: Time, cfg: Config)
    requires Furnished(w.steps)
    ensures Furnished(MarkAsDone(w, id, now, cfg).steps) && Furnished(ForgiveFailures(w, id, now, cfg).steps)
    ensures Furnished(ReEnableStep(w, id, now, cfg).steps)
  {
    hide SetStatus, ReEnable, Furnished;
    if id in w.steps {
      SetStatusFurnished(w.steps, id, DONE, now, cfg);
      SetStatusFurnished(w.steps, id, PENDING, now, cfg);
      ReEnableFurnished(w.steps, id, now, cfg);
    }
  }

  /** A call that does not report a running step keeps every running step furnished. */
  lemma NextFurnished(w: World, e: Event, now: Time, cfg: Config)
    requires Inv(w) && Possible(w, e, now, cfg) && Furnished(w.steps) && !ReportsRun(e)
    ensures Furnished(Next(w, e, now, cfg).steps)
  {
    hide AddStep, GetWork, Prune, MarkAsDone, ForgiveFailures, ReEnableStep, Inv;
    match e
    case OnAddStep(a, pick) => AddStepFurnished(w, a, pick, now, cfg);
    case OnGetWork(a, c) => GetWorkFurnished(w, a, c, now, cfg);
    case OnPrune(order) => PruneFurnished(w, order, now, cfg);
    case OnMarkAsDone(id) => StatusCallsFurnished(w, id, now, cfg);
    case OnForgive(id) => StatusCallsFurnished(w, id, now, cfg);
    case OnReEnable(id) => StatusCallsFurnished(w, id, now, cfg);
    case _ =>
  }
}
