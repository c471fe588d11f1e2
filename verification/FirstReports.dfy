/**
 What the first report of a step makes of it, if the step has no dependencies; the runs that show what can happen
 are built from such reports.
 */
module FirstReports {
  import opened Options
  import opened Sequences
  import opened SchedulerModel
  import opened SchedulerInvariants

  lemma NoPathWithoutDeps(steps: Steps, root: StepId, priority: int)
    requires root in steps && steps[root].info.deps == {} && steps[root].info.priority == priority
    ensures UpdatePriority(steps, root, priority) == steps
  {
    forall k | k in steps && RaisedBy(steps, root, priority, k)
      ensures k == root
    {
      var path :| RaisingPath(steps, path, priority) && path[0] == root && path[|path|-1] == k;
      SecondIsDependency(steps, path, priority);
    }
    assert Lifted(steps[root], priority) == steps[root];
  }

  lemma SecondIsDependency(steps: Steps, path: seq<StepId>, priority: int)
    requires RaisingPath(steps, path, priority)
    ensures |path| == 1 || steps[path[0]].info.deps != {}
  {
    if |path| > 1 {
      assert path[1] in steps[path[0]].info.deps;
    }
  }

  /** The scheduler does not know the step, and the worker may report it. */
  predicate IsFirst(w: World, a: AddArgs) {
    && a.id !in w.steps && (a.status == PENDING || a.status == RUNNING || a.status == DONE)
    && a.runnable && a.deps.None? && a.newDeps.None?
    && (a.worker in w.workers ==> !w.workers[a.worker].disabled)
  }

  /** The step after the report, with the running resources that it copies from its batch. */
  function FirstRec(a: AddArgs, copied: Option<Amounts>, now: Time): StepRec {
    StepRec(a.id, Life(a.status, now, None, None, a.batchId, [], None, None),
            Info({}, if a.assistant then {} else {a.worker}, [a.worker], a.priority, now, a.family, GetOr(a.params, map[]),
                 true, GetOr(a.batchable, false), a.policy),
            Load(if a.status == RUNNING then Some(a.worker) else None, a.resources, copied, false))
  }

  /** The step before the report changes its status. */
  function StartRec(a: AddArgs, copied: Option<Amounts>, now: Time, cfg: Config): StepRec {
    StepRec(a.id, Life(PENDING, now, None, None, a.batchId, [], None, None),
            Info({}, {}, [], a.priority, now, a.family, GetOr(a.params, map[]), false, false, cfg.policy),
            Load(if a.status == RUNNING then Some(a.worker) else None, a.resources, copied, false))
  }

  /** The report copies the running resources of a member of the batch. */
  predicate Copies(a: AddArgs) {
    a.status == RUNNING && a.batchId.Some? && a.batchId.value != []
  }

  lemma FirstHead(w: World, a: AddArgs, pick: Option<StepId>, now: Time, cfg: Config)
    requires IsFirst(w, a)
    ensures var head := AddStepHead(w.steps, a, now, cfg);
            && head == w.steps[a.id := StartRec(a, None, now, cfg)]
            && AddStepStart(w.steps, a, pick, now, cfg) ==
                 if !Copies(a) then Some(head)
                 else if PickFails(head, pick) then None
                 else Some(w.steps[a.id := StartRec(a, head[pick.value].load.resourcesRunning, now, cfg)])
  {
    var start, head := StartRec(a, None, now, cfg), AddStepHead(w.steps, a, now, cfg);
    assert Describe(DefaultStep(a, now, cfg), a) == start;
    if Copies(a) && !PickFails(head, pick) {
      var copied := head[pick.value].load.resourcesRunning;
      assert Equipped(start, copied) == StartRec(a, copied, now, cfg);
      assert head[a.id := Equipped(start, copied)] == w.steps[a.id := Equipped(start, copied)];
    }
  }

  lemma FirstTail(steps: Steps, a: AddArgs, copied: Option<Amounts>, now: Time, cfg: Config)
    requires a.id !in steps && (a.status == PENDING || a.status == RUNNING || a.status == DONE)
    requires a.runnable && a.deps.None? && a.newDeps.None?
    ensures AddStepTail(steps[a.id := StartRec(a, copied, now, cfg)], a, true, now, cfg) == steps[a.id := FirstRec(a, copied, now)]
  {
    var start := StartRec(a, copied, now, cfg);
    var unmarked := Unmark(start, a);
    var moved := unmarked.(life := unmarked.life.(status := a.status));
    assert steps[a.id := start][a.id := unmarked] == steps[a.id := unmarked];
    assert Report(steps[a.id := unmarked], a, now, cfg) == steps[a.id := moved] by {
      FirstMove(steps, unmarked, a, now, cfg);
    }
    assert Rewire(moved, a) == moved by {
      assert {} + GetOr<set<StepId>>(None, {}) == {};
    }
    assert steps[a.id := moved][a.id := moved] == steps[a.id := moved];
    var mine := if a.assistant then moved else Watched(moved, a.worker);
    var watched := if a.assistant then steps[a.id := moved] else AddStakeholder(steps[a.id := moved], a.id, a.worker, a.priority, now, cfg);
    assert watched == steps[a.id := mine];
    hide AddStakeholder, Report, Rewire;
    NoPathWithoutDeps(watched, a.id, a.priority);
    hide UpdatePriority;
    assert Enlist(mine, a, true) == FirstRec(a, copied, now) by {
      assert AddLast([], a.worker) == [a.worker] && {} + {a.worker} == {a.worker};
    }
    assert steps[a.id := mine][a.id := Enlist(mine, a, true)] == steps[a.id := Enlist(mine, a, true)];
  }

  lemma FirstMove(steps: Steps, s: StepRec, a: AddArgs, now: Time, cfg: Config)
    requires s.life == Life(PENDING, now, None, None, a.batchId, [], None, None)
    requires a.status == PENDING || a.status == RUNNING || a.status == DONE
    ensures Report(steps[a.id := s], a, now, cfg) == steps[a.id := s.(life := s.life.(status := a.status))]
  {
    var moved := s.(life := s.life.(status := a.status));
    assert SetOne(s, a.status, now, cfg) == moved;
    assert steps[a.id := s][a.id := moved] == steps[a.id := moved];
  }

  /** The report adds the step, unless it looks for running resources to copy and finds none. */
  lemma FirstReport(w: World, a: AddArgs, pick: Option<StepId>, now: Time, cfg: Config)
    requires IsFirst(w, a)
    ensures var head := AddStepHead(w.steps, a, now, cfg);
            var touched := w.(workers := Touch(w.workers, a.worker, false, now));
            && head == w.steps[a.id := StartRec(a, None, now, cfg)]
            && AddStep(w, a, pick, now, cfg) ==
                 if Copies(a) && PickFails(head, pick) then (touched.(steps := head), true)
                 else (touched.(steps := w.steps[a.id := FirstRec(a, if Copies(a) then head[pick.value].load.resourcesRunning else None, now)]), false)
  {
    FirstHead(w, a, pick, now, cfg);
    FirstIsApplied(w, a, pick, now, cfg);
    var head := AddStepHead(w.steps, a, now, cfg);
    hide AddStepHead, AddStepStart, AddStepTail, StartRec, FirstRec, PickFails, AddStep, Touch, IsFirst;
    if !Copies(a) || !PickFails(head, pick) {
      FirstTail(w.steps, a, if Copies(a) then head[pick.value].load.resourcesRunning else None, now, cfg);
    }
  }

  lemma FirstIsApplied(w: World, a: AddArgs, pick: Option<StepId>, now: Time, cfg: Config)
    requires IsFirst(w, a)
    ensures a.id !in w.steps && (a.status == PENDING || a.status == RUNNING || a.status == DONE)
    ensures a.runnable && a.deps.None? && a.newDeps.None?
    ensures var (steps, failed) := ApplyReport(w.steps, a, true, pick, now, cfg);
            AddStep(w, a, pick, now, cfg) == (w.(workers := Touch(w.workers, a.worker, false, now), steps := steps), failed)
  {
    hide ApplyReport;
  }
}
