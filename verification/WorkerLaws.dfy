/**
 What the calls about workers and resources do, stated on the fields, and what it means for a worker to be disabled.
 */
module WorkerLaws {
  import opened Options
  import opened Sequences
  import opened SchedulerModel
  import opened SchedulerInvariants
  import opened GrantLaws
  import opened HandOutLaws
  import opened PruneLaws
  import opened ReportLaws

  /** The worker as it is known, or as it is made. */
  function KnownOrNew(workers: Workers, x: WorkerId, now: Time): WorkerRec {
    if x in workers then workers[x] else WorkerRec(now, None, false, 1, false)
  }

  /** `add_worker` sets what the information names, and `ping` refreshes the time of the last activity. */
  lemma WorkerCalls(w: World, x: WorkerId, info: WorkerInfo, now: Time)
    ensures var known := KnownOrNew(w.workers, x, now);
            && AddWorker(w, x, info, now) == w.(workers := w.workers[x := known.(
                 assistant := if info.assistant.Some? then info.assistant.value else known.assistant,
                 processes := if info.processes.Some? then info.processes.value else known.processes)])
            && Ping(w, x, now) == w.(workers := w.workers[x := known.(lastActive := now)])
  {
  }

  /** `disable_worker` takes the worker from all steps, and changes nothing else of them. */
  lemma DisablingCall(w: World, x: WorkerId, now: Time)
    ensures var next := DisableWorker(w, x, now);
            && next == w.(workers := w.workers[x := KnownOrNew(w.workers, x, now).(disabled := true)], steps := next.steps)
            && next.steps.Keys == w.steps.Keys
            && forall k <- w.steps ::
                 && next.steps[k] == w.steps[k].(info := w.steps[k].info.(workers := next.steps[k].info.workers))
                 && forall y :: y in next.steps[k].info.workers <==> y in w.steps[k].info.workers && y != x
  {
    hide Without;
    var next := DisableWorker(w, x, now);
    forall k | k in w.steps
      ensures next.steps[k] == w.steps[k].(info := w.steps[k].info.(workers := next.steps[k].info.workers))
      ensures forall y :: y in next.steps[k].info.workers <==> y in w.steps[k].info.workers && y != x
    {
      WithoutFilters(w.steps[k].info.workers, {x});
    }
  }

  /** A negative total is refused by `update_resource` only, and pausing has to be enabled. */
  lemma ResourceCalls(w: World, r: Resource, amount: int, amounts: Amounts, paused: bool, cfg: Config)
    ensures UpdateResource(w, r, amount) == if amount >= 0 then w.(totals := w.totals[r := amount]) else w
    ensures var next := UpdateResources(w, amounts);
            && next == w.(totals := next.totals) && next.totals.Keys == w.totals.Keys + amounts.Keys
            && forall s <- next.totals :: next.totals[s] == if s in amounts then amounts[s] else w.totals[s]
    ensures SetPaused(w, paused, cfg) == if cfg.pauseEnabled then w.(paused := paused) else w
  {
    assert forall s <- amounts :: s in UpdateResources(w, amounts).totals;
  }

  // ---------------------------------------------------------------- disabled workers

  predicate IsDisabled(w: World, x: WorkerId) {
    x in w.workers && w.workers[x].disabled
  }

  /** A worker stays disabled through every call, until it has been silent for so long that it is forgotten. */
  lemma DisabledStays(w: World, e: Event, now: Time, cfg: Config, x: WorkerId)
    requires Inv(w) && Possible(w, e, now, cfg) && IsDisabled(w, x) && !Lost(w, x, now, cfg)
    ensures IsDisabled(Next(w, e, now, cfg), x)
  {
    hide ApplyReport, GetWork, Prune, DecreaseSteps, SetStatus, ReEnable, ValidChoices, Inv;
    match e
    case OnGetWork(a, c) => WorkKeepsDisabled(w, a, c, now, cfg, x);
    case OnPrune(order) => LostWorkersAreGone(w, order, now, cfg);
    case _ =>
  }

  lemma WorkKeepsDisabled(w: World, a: WorkArgs, c: Choices, now: Time, cfg: Config, x: WorkerId)
    requires Inv(w) && ValidChoices(w, a, c, now, cfg) && IsDisabled(w, x) && !Lost(w, x, now, cfg)
    ensures IsDisabled(GetWork(w, a, c, now, cfg).0, x) && IsDisabled(Prepare(w, a, c.pruneOrder, now, cfg), x)
  {
    hide GetWork, Prepare, AtScan, Prune, ValidResend, ValidScan, Inv, HandedOut;
    if cfg.pruneOnGetWork {
      LostWorkersAreGone(w, c.pruneOrder, now, cfg);
    }
    BeforeTheScan(w, a, c, now, cfg);
    WorkIsHandedOut(w, a, c, now, cfg);
  }

  /** A disabled worker is handed out nothing, its reports count for running steps only, and it is not among the workers
      of any step. */
  lemma DisabledGetsNothing(w: World, a: WorkArgs, c: Choices, add: AddArgs, now: Time, cfg: Config)
    requires Inv(w) && ValidChoices(w, a, c, now, cfg) && IsDisabled(w, a.worker) && !Lost(w, a.worker, now, cfg)
    ensures GetWork(w, a, c, now, cfg).1 == WorkerDisabled
    ensures GetWork(w, a, c, now, cfg).0.steps == if cfg.pruneOnGetWork then Prune(w, c.pruneOrder, now, cfg).steps else w.steps
    ensures add.worker == a.worker && !(add.id in w.steps && w.steps[add.id].life.status == RUNNING) ==> TurnedAway(w, add, now, cfg)
    ensures forall k <- w.steps :: a.worker !in w.steps[k].info.workers
  {
    WorkKeepsDisabled(w, a, c, now, cfg, a.worker);
    assert forall k <- w.steps :: RosterOk(w.steps[k].info, w.workers);
    hide GetWork, Prepare, AtScan, Prune, ValidResend, ValidScan, HandedOut, Lost;
    BeforeTheScan(w, a, c, now, cfg);
    WorkIsHandedOut(w, a, c, now, cfg);
  }
}
