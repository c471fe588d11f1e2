/**
 The short scan for workers without resource demands, and the progress of a worker that runs
 everything it has scheduled.
 */
module SchedulerProgress {
  import opened Options
  import opened Sequences
  import opened SchedulerModel
  import opened SchedulerInvariants
  import opened SchedulerResources

  // ---------------------------------------------------------------- the shortcut for trivial workers

  /** The worker has no open demand, so resources play no role in what it is granted. */
  predicate DemandsNothing(steps: Steps, x: WorkerId) {
    forall k <- steps :: steps[k].life.status == PENDING && x in steps[k].info.workers ==> steps[k].load.resources == map[]
  }

  predicate Own(steps: Steps, x: WorkerId, s: StepRec) {
    Schedulable(steps, s) && x in s.info.workers
  }

  lemma StopsAtOwn(steps: Steps, req: Request, g: Greedy, ids: seq<StepId>, i: nat)
    requires i < |ids| && (forall id <- ids :: id in steps)
    requires DemandsNothing(steps, req.worker) && !req.assistant
    ensures StopsAt(steps, req, g, RecsOf(steps, ids), i) <==> Own(steps, req.worker, steps[ids[i]])
  {
    assert ids[i] in ids;
  }

  /** Both scans stop, or neither does, and they stop at steps of the same rank. */
  lemma ScansAgree(steps: Steps, x: WorkerId, totals: Amounts, used: Amounts, slots: map<WorkerId, int>,
                   own: set<StepId>, all: set<StepId>, fast: seq<StepId>, full: seq<StepId>)
    requires DemandsNothing(steps, x)
    requires own <= all <= steps.Keys && forall k <- all :: x in steps[k].info.workers ==> k in own
    requires Lists(fast, own) && Ranked(RecsOf(steps, fast)) && Lists(full, all) && Ranked(RecsOf(steps, full))
    ensures var i := Pick(steps, Request(x, false, map[], totals), Greedy(map[], map[]), RecsOf(steps, fast), 0);
            var j := Pick(steps, Request(x, false, used, totals), Greedy(slots, map[]), RecsOf(steps, full), 0);
            if i == |fast| then j == |full|
            else j < |full| && HigherOrEqual(steps[fast[i]], steps[full[j]]) && HigherOrEqual(steps[full[j]], steps[fast[i]])
  {
    var i := PickIsFirstOwn(steps, Request(x, false, map[], totals), Greedy(map[], map[]), fast);
    var j := PickIsFirstOwn(steps, Request(x, false, used, totals), Greedy(slots, map[]), full);
    hide Pick, Own, DemandsNothing;
    FirstOwnsAgree(steps, x, own, all, fast, full, i, j);
  }

  /** The first step of the list that the worker could run now. */
  predicate FirstOwn(steps: Steps, x: WorkerId, ids: seq<StepId>, i: nat) {
    && (forall id <- ids :: id in steps) && i <= |ids|
    && (i < |ids| ==> Own(steps, x, steps[ids[i]]))
    && forall n :: 0 <= n < i ==> !Own(steps, x, steps[ids[n]])
  }

  lemma PickIsFirstOwn(steps: Steps, req: Request, g: Greedy, ids: seq<StepId>) returns (i: nat)
    requires (forall id <- ids :: id in steps) && DemandsNothing(steps, req.worker) && !req.assistant
    ensures i == Pick(steps, req, g, RecsOf(steps, ids), 0) && FirstOwn(steps, req.worker, ids, i)
  {
    i := Pick(steps, req, g, RecsOf(steps, ids), 0);
    hide StopsAt, Own, DemandsNothing;
    forall n | 0 <= n < |ids|
      ensures StopsAt(steps, req, g, RecsOf(steps, ids), n) <==> Own(steps, req.worker, steps[ids[n]])
    {
      StopsAtOwn(steps, req, g, ids, n);
    }
  }

  lemma FirstOwnsAgree(steps: Steps, x: WorkerId, own: set<StepId>, all: set<StepId>, fast: seq<StepId>, full: seq<StepId>,
                       i: nat, j: nat)
    requires own <= all <= steps.Keys && forall k <- all :: x in steps[k].info.workers ==> k in own
    requires Lists(fast, own) && Ranked(RecsOf(steps, fast)) && Lists(full, all) && Ranked(RecsOf(steps, full))
    requires FirstOwn(steps, x, fast, i) && FirstOwn(steps, x, full, j)
    ensures if i == |fast| then j == |full|
            else j < |full| && HigherOrEqual(steps[fast[i]], steps[full[j]]) && HigherOrEqual(steps[full[j]], steps[fast[i]])
  {
    hide HigherOrEqual, Schedulable;
    if i < |fast| {
      var m :| 0 <= m < |full| && full[m] == fast[i];
      assert RecsOf(steps, full)[m] == steps[fast[i]] && j <= m;
      assert j < |full| && RecsOf(steps, full)[j] == steps[full[j]];
      RankReflexive(steps[full[j]]);
    }
    if j < |full| {
      assert full[j] in own;
      var m :| 0 <= m < |fast| && fast[m] == full[j];
      assert RecsOf(steps, fast)[m] == steps[full[j]] && i <= m;
      assert RecsOf(steps, fast)[i] == steps[fast[i]];
      RankReflexive(steps[fast[i]]);
    }
  }

  lemma RankReflexive(s: StepRec)
    ensures HigherOrEqual(s, s)
  {
  }

  /** For a trivial worker, scanning its own steps with nothing in use grants a step of the same
      rank as the scan of all steps with the resources in use and the greedy reservations. */
  lemma ShortcutKeepsMeaning(w: World, x: WorkerId, fast: seq<StepId>, full: seq<StepId>, now: Time, cfg: Config)
    requires x in w.workers && Trivial(w, x) && !w.paused
    requires ValidScan(w, Relevant(w, x), fast)
    requires ValidScan(w, Open(w.steps), full)
    ensures var i := Pick(w.steps, Request(x, false, map[], w.totals), Greedy(map[], map[]), RecsOf(w.steps, fast), 0);
            var j := Pick(w.steps, Request(x, false, UsedResources(w.steps), w.totals),
                          Greedy(ActiveSlots(w.workers, now, cfg), map[]), RecsOf(w.steps, full), 0);
            if i == |fast| then j == |full|
            else j < |full| && HigherOrEqual(w.steps[fast[i]], w.steps[full[j]]) && HigherOrEqual(w.steps[full[j]], w.steps[fast[i]])
  {
    ScansAgree(w.steps, x, w.totals, UsedResources(w.steps), ActiveSlots(w.workers, now, cfg), Relevant(w, x),
               Open(w.steps), fast, full);
  }

  // ---------------------------------------------------------------- progress

  function Pending(w: World): set<StepId> {
    set k | k in w.steps && w.steps[k].life.status == PENDING
  }

  /** One enabled worker, which is no assistant, may run every open step of an acyclic graph whose
      dependencies are present; nothing runs, and every step fits into the totals on its own. */
  predicate Ready(w: World, x: WorkerId, rank: StepId -> nat) {
    && Inv(w) && x in w.workers && !w.workers[x].disabled && !w.workers[x].assistant
    && !w.paused && w.batchers == map[]
    && forall k <- w.steps :: ReadyStep(w, x, rank, k)
  }

  predicate ReadyStep(w: World, x: WorkerId, rank: StepId -> nat, k: StepId)
    requires k in w.steps
  {
    var s := w.steps[k];
    && (s.life.status == PENDING || s.life.status == DONE)
    && (forall d <- s.info.deps :: d in w.steps && rank(d) < rank(k))
    && (s.life.status == PENDING ==>
          x in s.info.workers && forall r <- s.load.resources :: s.load.resources[r] <= TotalOf(w.totals, r))
  }

  /** If `get_work` prunes, the worker is a stakeholder of every step, and no step is marked for removal. */
  predicate Attended(w: World, x: WorkerId, cfg: Config) {
    cfg.pruneOnGetWork ==> forall k <- w.steps :: x in w.steps[k].info.stakeholders && w.steps[k].life.remove.None?
  }

  /** If `get_work` prunes, it does not find the worker silent. */
  predicate InContact(w: World, x: WorkerId, now: Time, cfg: Config) {
    x in w.workers && (cfg.pruneOnGetWork ==> !Silent(w.workers[x], now, cfg))
  }

  /** What `get_work` leaves after its prune: other workers may have gone. */
  function AfterPrune(w: World, now: Time, cfg: Config): World {
    if cfg.pruneOnGetWork then PruneWorkers(w, now, cfg) else w
  }

  /** The prune of an attended scheduler removes no step and moves none. */
  lemma PruneOfReady(w: World, x: WorkerId, rank: StepId -> nat, order: seq<StepId>, now: Time, cfg: Config)
    requires Ready(w, x, rank) && Attended(w, x, cfg) && InContact(w, x, now, cfg) && cfg.pruneOnGetWork
    requires Lists(order, w.steps.Keys)
    ensures Prune(w, order, now, cfg) == PruneWorkers(w, now, cfg)
  {
    hide Idle, MayPrune, PruneLoop, RemoveWorkers, ReadyStep, Inv, Assistants, SilentWorkers;
    var w1 := PruneWorkers(w, now, cfg);
    forall j | j in order
      ensures j in w1.steps && Idle(w1.steps[j], now, cfg, Assistants(w1.workers)) && !MayPrune(w1.steps[j], now)
    {
      AttendedIsIdle(w, x, rank, j, now, cfg);
    }
    IdleLoop(w1.steps, order, now, cfg, Assistants(w1.workers), {});
    assert (set j | j in order && MayPrune(w1.steps[j], now)) == {};
    assert w1.steps - {} == w1.steps;
  }

  lemma AttendedIsIdle(w: World, x: WorkerId, rank: StepId -> nat, j: StepId, now: Time, cfg: Config)
    requires j in w.steps && ReadyStep(w, x, rank, j) && InContact(w, x, now, cfg) && cfg.pruneOnGetWork
    requires x in w.steps[j].info.stakeholders && w.steps[j].life.remove.None?
    ensures var w1 := PruneWorkers(w, now, cfg);
            j in w1.steps && Idle(w1.steps[j], now, cfg, Assistants(w1.workers)) && !MayPrune(w1.steps[j], now)
  {
    assert x in PruneWorkers(w, now, cfg).steps[j].info.stakeholders;
  }

  /** Only the rosters of the steps change, and the worker stays on them. */
  lemma StillReadyAfterPrune(w: World, x: WorkerId, rank: StepId -> nat, now: Time, cfg: Config)
    requires Ready(w, x, rank) && Attended(w, x, cfg) && InContact(w, x, now, cfg)
    ensures var w1 := AfterPrune(w, now, cfg);
            && Ready(w1, x, rank) && Attended(w1, x, cfg) && SameCourse(w, w1) && w1.workers[x] == w.workers[x]
  {
    if cfg.pruneOnGetWork {
      PruneWorkersOk(w, now, cfg);
      hide Inv;
      var w1 := PruneWorkers(w, now, cfg);
      forall k | k in w.steps
        ensures ReadyStep(w1, x, rank, k)
      {
        assert ReadyStep(w, x, rank, k);
        WithoutFilters(w.steps[k].info.workers, SilentWorkers(w.workers, now, cfg));
      }
    }
  }

  /** The steps, their lives and their dependencies are the same. */
  predicate SameCourse(w: World, next: World) {
    next.steps.Keys == w.steps.Keys &&
    forall k <- w.steps :: next.steps[k].life == w.steps[k].life && next.steps[k].info.deps == w.steps[k].info.deps
  }

  lemma SameCourseMeans(w: World, next: World)
    requires SameCourse(w, next)
    ensures Pending(next) == Pending(w)
    ensures forall k <- w.steps :: Schedulable(next.steps, next.steps[k]) == Schedulable(w.steps, w.steps[k])
  {
  }

  /** An acyclic graph with open steps has one that can be scheduled. */
  lemma {:induction false} SomeStepIsSchedulable(w: World, x: WorkerId, rank: StepId -> nat, k: StepId) returns (low: StepId)
    requires Ready(w, x, rank) && k in Pending(w)
    ensures low in Pending(w) && Schedulable(w.steps, w.steps[low])
    decreases rank(k)
  {
    if Schedulable(w.steps, w.steps[k]) {
      low := k;
    } else {
      assert ReadyStep(w, x, rank, k);
      var d :| d in w.steps[k].info.deps && !(d in w.steps && w.steps[d].life.status == DONE);
      assert ReadyStep(w, x, rank, d);
      low := SomeStepIsSchedulable(w, x, rank, d);
    }
  }

  /** Nothing is reserved or charged before the first schedulable step. */
  lemma {:induction false} NothingReserved(steps: Steps, req: Request, g: Greedy, q: seq<StepRec>, i: nat)
    requires i <= |q| && forall j :: 0 <= j < i ==> !Schedulable(steps, q[j]) && q[j].life.status != RUNNING
    ensures PassAll(steps, req, g, q[..i]) == g
  {
    if i > 0 {
      NothingReserved(steps, req, g, q, i - 1);
      assert q[..i][..i-1] == q[..i-1];
    }
  }

  /** A scan of a ready scheduler that sees a schedulable step at position `n` stops at or before it. */
  lemma {:induction false} ScanStops(w: World, a: WorkArgs, rank: StepId -> nat, g: Greedy, q: seq<StepRec>, n: nat, i: nat)
    requires Ready(w, a.worker, rank) && g.reserved == map[] && i <= n < |q| && Schedulable(w.steps, q[n])
    requires forall s <- q :: s.id in w.steps && s == w.steps[s.id]
    requires forall j :: 0 <= j < i ==> !Schedulable(w.steps, q[j])
    ensures exists j :: 0 <= j <= n && StopsAt(w.steps, RequestOf(w, a), g, q, j)
    decreases n - i
  {
    assert q[i] in q;
    assert ReadyStep(w, a.worker, rank, q[i].id);
    if Schedulable(w.steps, q[i]) {
      forall j | 0 <= j < i
        ensures q[j].life.status != RUNNING
      {
        assert q[j] in q;
        assert ReadyStep(w, a.worker, rank, q[j].id);
      }
      NothingReserved(w.steps, RequestOf(w, a), g, q, i);
      assert UsedResources(w.steps) == map[] by {
        forall k | k in w.steps
          ensures k !in Running(w.steps)
        {
          assert ReadyStep(w, a.worker, rank, k);
        }
      }
      assert StopsAt(w.steps, RequestOf(w, a), g, q, i);
    } else {
      ScanStops(w, a, rank, g, q, n, i + 1);
    }
  }

  /** At the scan of a ready scheduler nothing has changed but the time of the last contact, and the rosters
      if silent workers have gone. */
  lemma ScanOfReady(w: World, a: WorkArgs, c: Choices, rank: StepId -> nat, now: Time, cfg: Config)
    requires Ready(w, a.worker, rank) && Attended(w, a.worker, cfg) && InContact(w, a.worker, now, cfg)
    requires !a.assistant && ValidChoices(w, a, c, now, cfg)
    ensures var w1, w2 := AfterPrune(w, now, cfg), AtScan(w, a, c, now, cfg);
            && w2 == w1.(workers := Touch(w1.workers, a.worker, true, now)) && w2.workers[a.worker].lastActive == now
            && Ready(w2, a.worker, rank) && Attended(w2, a.worker, cfg) && SameCourse(w, w2)
            && CountPending(w2, a.worker, now) == w2 && c.resend.None?
  {
    if cfg.pruneOnGetWork {
      PruneOfReady(w, a.worker, rank, c.pruneOrder, now, cfg);
    }
    StillReadyAfterPrune(w, a.worker, rank, now, cfg);
    hide Prune, PruneWorkers, Ready;
    var w1 := AfterPrune(w, now, cfg);
    assert Prepare(w, a, c.pruneOrder, now, cfg) == w1.(workers := Touch(w1.workers, a.worker, true, now));
    TouchedIsReady(w1, a.worker, rank, now);
    hide Touch, AfterPrune, SameCourse;
    AnnouncedIsSame(w1.(workers := Touch(w1.workers, a.worker, true, now)), a, c, rank, now, cfg);
  }

  lemma TouchedIsReady(w: World, x: WorkerId, rank: StepId -> nat, now: Time)
    requires Ready(w, x, rank)
    ensures Ready(w.(workers := Touch(w.workers, x, true, now)), x, rank)
  {
    var w1 := w.(workers := Touch(w.workers, x, true, now));
    KeepInv(w, w1);
    forall k | k in w1.steps
      ensures ReadyStep(w1, x, rank, k)
    {
      assert ReadyStep(w, x, rank, k);
    }
    hide Inv, ReadyStep;
  }

  /** Nothing runs, so there is nothing to reset, to resend or to count. */
  lemma AnnouncedIsSame(w: World, a: WorkArgs, c: Choices, rank: StepId -> nat, now: Time, cfg: Config)
    requires Ready(w, a.worker, rank) && !a.assistant && ValidResend(w.steps, a, c.resend)
    ensures Announce(w, a, now, cfg) == w && CountPending(w, a.worker, now) == w && c.resend.None?
  {
    NothingRuns(w, a.worker, rank);
    hide Ready, ReadyStep, Inv;
    assert ResetOrphans(w.steps, a.worker, now, cfg) == w.steps;
    assert Owners(w.steps, a.worker) == {};
    assert CountPending(w, a.worker, now).workers == w.workers;
  }

  lemma NothingRuns(w: World, x: WorkerId, rank: StepId -> nat)
    requires Ready(w, x, rank)
    ensures forall k <- w.steps :: w.steps[k].life.status == PENDING || w.steps[k].life.status == DONE
  {
    forall k | k in w.steps
      ensures w.steps[k].life.status == PENDING || w.steps[k].life.status == DONE
    {
      assert ReadyStep(w, x, rank, k);
    }
  }

  lemma ReadyDecides(w: World, a: WorkArgs, c: Choices, rank: StepId -> nat, now: Time, cfg: Config) returns (id: StepId)
    requires Ready(w, a.worker, rank) && ValidScan(w, Relevant(w, a.worker), c.scan) && c.resend.None?
    ensures if Pending(w) == {} then Decide(w, a, c, now, cfg) == NoWork
            else id in Pending(w) && Schedulable(w.steps, w.steps[id]) && Decide(w, a, c, now, cfg) == Granted(id)
  {
    hide Decide;
    var q, i := ScanPosition(w, a, c, now, cfg);
    id := if i < |q| then c.scan[i] else 0;
    if i == |q| {
      NothingOpen(w, a, c, rank, now, cfg, q);
    } else {
      assert id in Pending(w);
    }
  }

  /** A ready scheduler grants an open step whose dependencies are all DONE, if any step is open. */
  lemma ReadyGrants(w: World, a: WorkArgs, c: Choices, rank: StepId -> nat, now: Time, cfg: Config) returns (id: StepId)
    requires Ready(w, a.worker, rank) && Attended(w, a.worker, cfg) && InContact(w, a.worker, now, cfg)
    requires !a.assistant && ValidChoices(w, a, c, now, cfg)
    ensures var w2 := AtScan(w, a, c, now, cfg);
            var (next, reply) := GetWork(w, a, c, now, cfg);
            if Pending(w) == {} then reply == NoWork && next == w2
            else && id in Pending(w) && Schedulable(w.steps, w.steps[id]) && reply == Granted(id)
                 && id in w2.steps && next == w2.(steps := Grant(w2.steps, id, a.worker, now, cfg))
  {
    hide GetWork, Decide, Grant, CountPending, AtScan, ReadyStep, AfterPrune, SameCourse, Attended;
    ScanOfReady(w, a, c, rank, now, cfg);
    var reply := GetWorkShape(w, a, c, now, cfg);
    var w2 := AtScan(w, a, c, now, cfg);
    SameCourseMeans(w, w2);
    id := ReadyDecides(w2, a, c, rank, now, cfg);
  }

  /** A scan of a ready scheduler that goes through without a stop has seen no open step. */
  lemma NothingOpen(w: World, a: WorkArgs, c: Choices, rank: StepId -> nat, now: Time, cfg: Config, q: seq<StepRec>)
    requires Ready(w, a.worker, rank) && ValidScan(w, Relevant(w, a.worker), c.scan)
    requires q == RecsOf(w.steps, c.scan) && Pick(w.steps, RequestOf(w, a), GreedyOf(w, a, now, cfg), q, 0) == |q|
    ensures Pending(w) == {}
  {
    if k :| k in Pending(w) {
      var low := SomeStepIsSchedulable(w, a.worker, rank, k);
      assert ReadyStep(w, a.worker, rank, low);
      assert low in Relevant(w, a.worker);
      var n :| 0 <= n < |c.scan| && c.scan[n] == low;
      forall s | s in q
        ensures s.id in w.steps && s == w.steps[s.id]
      {
        var j :| 0 <= j < |q| && q[j] == s;
        assert c.scan[j] in c.scan;
      }
      ScanStops(w, a, rank, GreedyOf(w, a, now, cfg), q, n, 0);
    }
  }

  // ---------------------------------------------------------------- the report

  /** The report with which a worker ends a run: no new dependencies, not runnable, DONE. */
  predicate ReportsDone(a: AddArgs) {
    a.status == DONE && !a.runnable && a.deps.None? && !HasNewDeps(a) && !a.assistant
  }

  /** Placeholders are not needed and nobody's dependencies or workers change. */
  lemma ReportInfo(steps: Steps, a: AddArgs, now: Time, cfg: Config, k: StepId)
    requires a.id in steps && k in steps && ReportsDone(a)
    ensures var r := Report(steps[a.id := Unmark(steps[a.id], a)], a, now, cfg);
            r.Keys == steps.Keys && r[k].info.deps == steps[k].info.deps && r[k].info.workers == steps[k].info.workers
            && r[k].info.stakeholders == steps[k].info.stakeholders
  {
    SetStatusAt(steps[a.id := Unmark(steps[a.id], a)], a.id, DONE, now, cfg, k);
    hide SetStatus;
  }

  lemma TailInfo(steps: Steps, a: AddArgs, enabled: bool, now: Time, cfg: Config, k: StepId)
    requires a.id in steps && ReportsDone(a) && steps[a.id].info.deps <= steps.Keys
    ensures var r := AddStepTail(steps, a, enabled, now, cfg);
            r.Keys == steps.Keys &&
            (k in steps ==> r[k].info.deps == steps[k].info.deps && r[k].info.workers == steps[k].info.workers
                            && steps[k].info.stakeholders <= r[k].info.stakeholders)
  {
    var unmarked := steps[a.id := Unmark(steps[a.id], a)];
    var reported := Report(unmarked, a, now, cfg);
    ReportInfo(steps, a, now, cfg, a.id);
    if k in steps {
      ReportInfo(steps, a, now, cfg, k);
    }
    hide Report, Unmark, UpdatePriority;
    var rewired := reported[a.id := Rewire(reported[a.id], a)];
    assert rewired[a.id].info.deps == steps[a.id].info.deps;
    var watched := if enabled && !a.assistant
                   then AddStakeholder(rewired, a.id, a.worker, a.priority, now, cfg) else rewired;
    assert watched.Keys == steps.Keys;
    UpdatePriorityOk(watched, a.id, a.priority);
  }

  predicate EndsRun(w: World, a: AddArgs) {
    && ReportsDone(a) && a.worker in w.workers && !w.workers[a.worker].disabled
    && a.id in w.steps && w.steps[a.id].life.status == RUNNING && w.steps[a.id].load.workerRunning == Some(a.worker)
    && forall j <- w.steps :: w.steps[j].life.status != BATCH_RUNNING && w.steps[j].info.deps <= w.steps.Keys
  }

  /** Such a report is not ignored, and it does not look for a batch. */
  lemma ReportIsApplied(w: World, a: AddArgs, now: Time, cfg: Config)
    requires EndsRun(w, a)
    ensures var r := AddStep(w, a, None, now, cfg).0;
            && r.steps == AddStepTail(AddStepHead(w.steps, a, now, cfg), a, true, now, cfg)
            && r.totals == w.totals && r.paused == w.paused && r.batchers == w.batchers
            && a.worker in r.workers && !r.workers[a.worker].disabled
            && r.workers[a.worker].assistant == w.workers[a.worker].assistant && r.workers[a.worker].lastActive == now
  {
    hide AddStepTail, Describe;
  }

  /** What the report does to the other steps and to the granted one. */
  lemma ReportEndsRun(w: World, a: AddArgs, now: Time, cfg: Config, k: StepId)
    requires EndsRun(w, a)
    ensures var r := AddStep(w, a, None, now, cfg).0.steps;
            && r.Keys == w.steps.Keys
            && (k in w.steps ==>
                  && r[k].info.deps == w.steps[k].info.deps && r[k].info.workers == w.steps[k].info.workers
                  && w.steps[k].info.stakeholders <= r[k].info.stakeholders
                  && if k == a.id then r[k].life.status == DONE && r[k].life.remove.None?
                     else r[k].life == w.steps[k].life && r[k].load == w.steps[k].load)
  {
    hide AddStepTail, AddStep;
    ReportIsApplied(w, a, now, cfg);
    var head := AddStepHead(w.steps, a, now, cfg);
    TailInfo(head, a, true, now, cfg, k);
    if k in w.steps {
      AddStepTailAt(head, a, true, now, cfg, k);
      SetStatusAt(head[a.id := Unmark(head[a.id], a)], a.id, DONE, now, cfg, k);
    }
  }

  // ---------------------------------------------------------------- whole sessions

  /** One turn of the worker's loop: ask for work, run it, report it DONE. */
  datatype Turn = Turn(ask: WorkArgs, choices: Choices, askTime: Time, report: AddArgs, reportTime: Time)

  predicate Diligent(t: Turn, x: WorkerId) {
    t.ask.worker == x && !t.ask.assistant && t.report.worker == x && ReportsDone(t.report)
  }

  ghost function AfterTurn(w: World, t: Turn, cfg: Config): (World, Reply)
    requires ValidChoices(w, t.ask, t.choices, t.askTime, cfg)
  {
    var (granted, reply) := GetWork(w, t.ask, t.choices, t.askTime, cfg);
    (if reply.Granted? then AddStep(granted, t.report.(id := reply.id), None, t.reportTime, cfg).0 else granted, reply)
  }

  ghost predicate IsSession(worlds: seq<World>, replies: seq<Reply>, turns: seq<Turn>, x: WorkerId, cfg: Config) {
    && |worlds| == |turns| + 1 && |replies| == |turns|
    && forall i :: 0 <= i < |turns| ==>
         && Diligent(turns[i], x)
         && ValidChoices(worlds[i], turns[i].ask, turns[i].choices, turns[i].askTime, cfg)
         && AfterTurn(worlds[i], turns[i], cfg) == (worlds[i+1], replies[i])
  }

  /** The scheduler while the worker runs step `id`. */
  ghost predicate Busy(w: World, mid: World, x: WorkerId, id: StepId) {
    && Inv(mid) && x in mid.workers && !mid.workers[x].disabled && !mid.workers[x].assistant
    && mid.totals == w.totals && !mid.paused && mid.batchers == map[]
    && mid.steps.Keys == w.steps.Keys && id in w.steps
    && mid.steps[id].life.status == RUNNING && mid.steps[id].load.workerRunning == Some(x)
    && mid.steps[id].info == w.steps[id].info
    && forall k <- w.steps :: k != id ==> mid.steps[k] == w.steps[k]
  }

  lemma GrantMakesBusy(w: World, x: WorkerId, rank: StepId -> nat, now: Time, cfg: Config, id: StepId)
    requires Ready(w, x, rank) && id in Pending(w)
    ensures Busy(w, w.(steps := Grant(w.steps, id, x, now, cfg)), x, id)
  {
    hide Inv, SetStatus, ReadyStep;
    var mid := Grant(w.steps, id, x, now, cfg);
    GrantOk(w.steps, id, x, now, cfg);
    KeepInv(w, w.(steps := mid));
    SetStatusAt(w.steps, id, RUNNING, now, cfg, id);
    forall k | k in w.steps
      ensures k != id ==> mid[k] == w.steps[k]
    {
      SetStatusAt(w.steps, id, RUNNING, now, cfg, k);
    }
  }

  lemma ReportMakesReady(w: World, mid: World, a: AddArgs, x: WorkerId, rank: StepId -> nat, now: Time, cfg: Config)
    requires Ready(w, x, rank) && Attended(w, x, cfg) && Busy(w, mid, x, a.id) && a.id in Pending(w) && ReportsDone(a) && a.worker == x
    ensures var next := AddStep(mid, a, None, now, cfg).0;
            && Ready(next, x, rank) && Attended(next, x, cfg) && next.workers[x].lastActive == now
            && next.steps.Keys == w.steps.Keys
            && (forall k <- w.steps :: next.steps[k].info.deps == w.steps[k].info.deps)
            && Pending(next) == Pending(w) - {a.id}
  {
    hide AddStep, Inv, ReadyStep, EndsRun, ReportsDone, Ready, Busy, Attended;
    var next := AddStep(mid, a, None, now, cfg).0;
    BusyEnds(w, mid, a, x, rank);
    ReportedOthers(w, mid, a, x, rank, now, cfg);
    forall k | k in w.steps
      ensures k in next.steps && ReportedTo(w, next, x, rank, cfg, a.id, k)
    {
      ReportedStep(w, mid, a, x, rank, now, cfg, k);
    }
    hide ReportedTo;
    AllReported(w, next, x, rank, cfg, a.id);
  }

  /** What the report leaves of each step. */
  predicate ReportedTo(w: World, next: World, x: WorkerId, rank: StepId -> nat, cfg: Config, id: StepId, k: StepId)
    requires k in w.steps && k in next.steps
  {
    && ReadyStep(next, x, rank, k) && next.steps[k].info.deps == w.steps[k].info.deps
    && (cfg.pruneOnGetWork ==> x in next.steps[k].info.stakeholders && next.steps[k].life.remove.None?)
    && (next.steps[k].life.status == PENDING <==> w.steps[k].life.status == PENDING && k != id)
  }

  lemma ReportedOthers(w: World, mid: World, a: AddArgs, x: WorkerId, rank: StepId -> nat, now: Time, cfg: Config)
    requires Busy(w, mid, x, a.id) && EndsRun(mid, a) && a.worker == x
    ensures var next := AddStep(mid, a, None, now, cfg).0;
            && Inv(next) && x in next.workers && !next.workers[x].disabled && !next.workers[x].assistant
            && next.workers[x].lastActive == now && !next.paused && next.batchers == map[] && next.steps.Keys == w.steps.Keys
  {
    hide AddStep, Inv, EndsRun;
    AddStepOk(mid, a, None, now, cfg);
    ReportIsApplied(mid, a, now, cfg);
    ReportEndsRun(mid, a, now, cfg, a.id);
  }

  lemma AllReported(w: World, next: World, x: WorkerId, rank: StepId -> nat, cfg: Config, id: StepId)
    requires Inv(next) && x in next.workers && !next.workers[x].disabled && !next.workers[x].assistant
    requires !next.paused && next.batchers == map[] && next.steps.Keys == w.steps.Keys
    requires forall k <- w.steps :: ReportedTo(w, next, x, rank, cfg, id, k)
    ensures Ready(next, x, rank) && Attended(next, x, cfg) && Pending(next) == Pending(w) - {id}
    ensures forall k <- w.steps :: next.steps[k].info.deps == w.steps[k].info.deps
  {
    hide Inv, ReadyStep;
  }

  lemma ReportedStep(w: World, mid: World, a: AddArgs, x: WorkerId, rank: StepId -> nat, now: Time, cfg: Config, k: StepId)
    requires Ready(w, x, rank) && Attended(w, x, cfg) && Busy(w, mid, x, a.id) && EndsRun(mid, a) && k in w.steps
    ensures var next := AddStep(mid, a, None, now, cfg).0;
            k in next.steps && ReportedTo(w, next, x, rank, cfg, a.id, k)
  {
    hide AddStep, Inv, ReadyStep, EndsRun;
    var next := AddStep(mid, a, None, now, cfg).0;
    ReportIsApplied(mid, a, now, cfg);
    ReportEndsRun(mid, a, now, cfg, k);
    assert ReadyStep(w, x, rank, k);
    assert next.steps.Keys == w.steps.Keys;
    StillReady(w, next, x, rank, a.id, k);
  }

  lemma BusyEnds(w: World, mid: World, a: AddArgs, x: WorkerId, rank: StepId -> nat)
    requires Ready(w, x, rank) && Busy(w, mid, x, a.id) && ReportsDone(a) && a.worker == x
    ensures EndsRun(mid, a)
  {
    NoBatchWhileBusy(w, mid, x, a.id, rank);
    hide Ready, Inv;
  }

  lemma StillReady(w: World, next: World, x: WorkerId, rank: StepId -> nat, id: StepId, k: StepId)
    requires k in w.steps && ReadyStep(w, x, rank, k)
    requires next.steps.Keys == w.steps.Keys && next.totals == w.totals
    requires next.steps[k].info.deps == w.steps[k].info.deps && next.steps[k].info.workers == w.steps[k].info.workers
    requires if k == id then next.steps[k].life.status == DONE
             else next.steps[k].life == w.steps[k].life && next.steps[k].load == w.steps[k].load
    ensures ReadyStep(next, x, rank, k)
  {
  }

  lemma NoBatchWhileBusy(w: World, mid: World, x: WorkerId, id: StepId, rank: StepId -> nat)
    requires Ready(w, x, rank) && Busy(w, mid, x, id)
    ensures forall k <- mid.steps :: mid.steps[k].life.status != BATCH_RUNNING && mid.steps[k].info.deps <= mid.steps.Keys
  {
    hide Inv;
    forall k | k in mid.steps
      ensures mid.steps[k].life.status != BATCH_RUNNING && mid.steps[k].info.deps <= mid.steps.Keys
    {
      assert ReadyStep(w, x, rank, k);
    }
  }

  /** The last time that the scheduler hears of the worker in the turns. */
  function LastContact(w: World, turns: seq<Turn>, x: WorkerId): Time
    requires x in w.workers
  {
    if turns == [] then w.workers[x].lastActive else turns[|turns|-1].reportTime
  }

  /** If `get_work` prunes, the worker never waits longer than the disconnect delay before it asks. */
  predicate NeverSilent(w: World, turns: seq<Turn>, x: WorkerId, cfg: Config)
    requires x in w.workers
  {
    cfg.pruneOnGetWork ==> forall i :: 0 <= i < |turns| ==> LastContact(w, turns[..i], x) + cfg.disconnectDelay >= turns[i].askTime
  }

  lemma TurnMakesProgress(w: World, t: Turn, x: WorkerId, rank: StepId -> nat, cfg: Config)
    requires Ready(w, x, rank) && Attended(w, x, cfg) && InContact(w, x, t.askTime, cfg) && Diligent(t, x)
    requires ValidChoices(w, t.ask, t.choices, t.askTime, cfg)
    ensures var (next, reply) := AfterTurn(w, t, cfg);
            && Ready(next, x, rank) && Attended(next, x, cfg) && next.steps.Keys == w.steps.Keys
            && (forall k <- w.steps :: next.steps[k].info.deps == w.steps[k].info.deps)
            && if Pending(w) == {} then reply == NoWork && Pending(next) == {}
               else reply.Granted? && reply.id in Pending(w) && Schedulable(w.steps, w.steps[reply.id]) &&
                    Pending(next) == Pending(w) - {reply.id} && next.workers[x].lastActive == t.reportTime
  {
    assert cfg.pruneOnGetWork ==> Lists(t.choices.pruneOrder, w.steps.Keys);
    hide GetWork, AddStep, Ready, AtScan, AfterPrune, Grant, Schedulable, Attended, ValidChoices;
    var id := ReadyGrants(w, t.ask, t.choices, rank, t.askTime, cfg);
    ScanOfReady(w, t.ask, t.choices, rank, t.askTime, cfg);
    var w2 := AtScan(w, t.ask, t.choices, t.askTime, cfg);
    SameCourseMeans(w, w2);
    if Pending(w) != {} {
      GrantMakesBusy(w2, x, rank, t.askTime, cfg, id);
      ReportMakesReady(w2, w2.(steps := Grant(w2.steps, id, x, t.askTime, cfg)), t.report.(id := id), x, rank, t.reportTime, cfg);
    }
  }

  /** Each grant comes after the dependencies that were open at the start. */
  predicate Topological(w: World, grants: seq<StepId>) {
    forall i :: 0 <= i < |grants| ==> grants[i] in w.steps && DepsBefore(w, grants[i], grants[..i])
  }

  predicate DepsBefore(w: World, id: StepId, before: seq<StepId>)
    requires id in w.steps
  {
    forall d <- w.steps[id].info.deps :: d in Pending(w) ==> d in before
  }

  /** `last` is what `w` has become after exactly the steps in `grants` were run, in a sound order. */
  ghost predicate HasRun(w: World, last: World, grants: seq<StepId>, x: WorkerId, rank: StepId -> nat) {
    && Ready(last, x, rank) && last.steps.Keys == w.steps.Keys
    && Distinct(grants) && (forall g <- grants :: g in Pending(w)) && Topological(w, grants)
    && (forall k <- w.steps :: last.steps[k].info.deps == w.steps[k].info.deps)
    && (forall k <- w.steps :: k in Pending(last) <==> k in Pending(w) && k !in grants)
    && |Pending(last)| == |Pending(w)| - |grants|
  }

  lemma NothingRun(w: World, x: WorkerId, rank: StepId -> nat)
    requires Ready(w, x, rank)
    ensures HasRun(w, w, [], x, rank)
  {
  }

  lemma HasRunMeans(w: World, last: World, grants: seq<StepId>, x: WorkerId, rank: StepId -> nat)
    requires HasRun(w, last, grants, x, rank)
    ensures Ready(last, x, rank) && |Pending(last)| == |Pending(w)| - |grants|
  {
  }

  lemma OneMoreGrant(w: World, mid: World, last: World, grants: seq<StepId>, g: StepId, x: WorkerId, rank: StepId -> nat)
    requires HasRun(w, mid, grants, x, rank) && g in Pending(mid) && Schedulable(mid.steps, mid.steps[g])
    requires Ready(last, x, rank) && last.steps.Keys == mid.steps.Keys && Pending(last) == Pending(mid) - {g}
    requires forall k <- mid.steps :: last.steps[k].info.deps == mid.steps[k].info.deps
    ensures HasRun(w, last, grants + [g], x, rank)
  {
    hide Ready, Inv, Topological, Schedulable;
    assert |Pending(last)| == |Pending(mid)| - 1;
    DepsWereRun(w, mid, grants, g, x, rank);
    TopologicalMore(w, grants, g);
  }

  lemma DepsWereRun(w: World, mid: World, grants: seq<StepId>, g: StepId, x: WorkerId, rank: StepId -> nat)
    requires HasRun(w, mid, grants, x, rank) && g in Pending(mid) && Schedulable(mid.steps, mid.steps[g])
    ensures g in w.steps && DepsBefore(w, g, grants)
  {
    hide Ready, Topological;
  }

  lemma TopologicalMore(w: World, grants: seq<StepId>, g: StepId)
    requires Topological(w, grants) && g in w.steps && DepsBefore(w, g, grants)
    ensures Topological(w, grants + [g])
  {
    hide DepsBefore;
    var more := grants + [g];
    forall i | 0 <= i < |more|
      ensures more[i] in w.steps && DepsBefore(w, more[i], more[..i])
    {
      if i < |grants| {
        assert more[..i] == grants[..i];
      } else {
        assert more[..i] == grants;
      }
    }
  }

  /** In a session of as many turns as there are open steps, every turn is granted a step; each step is
      granted once and after its dependencies; and at the end nothing is open. */
  lemma {:induction false} EveryStepIsRun(worlds: seq<World>, replies: seq<Reply>, turns: seq<Turn>, x: WorkerId,
                                          rank: StepId -> nat, cfg: Config) returns (grants: seq<StepId>)
    requires IsSession(worlds, replies, turns, x, cfg) && Ready(worlds[0], x, rank) && Attended(worlds[0], x, cfg)
    requires NeverSilent(worlds[0], turns, x, cfg) && |turns| <= |Pending(worlds[0])|
    ensures |grants| == |turns| && forall i :: 0 <= i < |turns| ==> replies[i] == Granted(grants[i])
    ensures HasRun(worlds[0], worlds[|turns|], grants, x, rank)
    ensures var last := worlds[|turns|];
            Attended(last, x, cfg) && x in last.workers && last.workers[x].lastActive == LastContact(worlds[0], turns, x)
  {
    hide ValidChoices, AfterTurn, Topological, Schedulable, HasRun, Diligent, Attended, Inv, ReadyStep;
    var n := |turns|;
    if n == 0 {
      grants := [];
      NothingRun(worlds[0], x, rank);
    } else {
      assert forall i :: 0 <= i < n - 1 ==> turns[..n-1][..i] == turns[..i];
      grants := EveryStepIsRun(worlds[..n], replies[..n-1], turns[..n-1], x, rank, cfg);
      HasRunMeans(worlds[0], worlds[n-1], grants, x, rank);
      hide Ready;
      TurnMakesProgress(worlds[n-1], turns[n-1], x, rank, cfg);
      OneMoreGrant(worlds[0], worlds[n-1], worlds[n], grants, replies[n-1].id, x, rank);
      grants := grants + [replies[n-1].id];
    }
  }

  /** At the end of such a session every step is DONE, and asking again finds no work. */
  lemma EveryStepIsDone(worlds: seq<World>, replies: seq<Reply>, turns: seq<Turn>, x: WorkerId,
                        rank: StepId -> nat, cfg: Config, again: Turn)
    requires IsSession(worlds, replies, turns, x, cfg) && Ready(worlds[0], x, rank) && Attended(worlds[0], x, cfg)
    requires NeverSilent(worlds[0], turns + [again], x, cfg) && |turns| == |Pending(worlds[0])| && Diligent(again, x)
    requires ValidChoices(worlds[|turns|], again.ask, again.choices, again.askTime, cfg)
    ensures var last := worlds[|turns|];
            && last.steps.Keys == worlds[0].steps.Keys
            && (forall k <- last.steps :: last.steps[k].life.status == DONE)
            && AfterTurn(last, again, cfg).1 == NoWork
  {
    hide HasRun, ValidChoices, AfterTurn, Ready, Attended, Diligent;
    assert forall i :: 0 <= i <= |turns| ==> (turns + [again])[..i] == turns[..i];
    assert turns[..|turns|] == turns;
    var grants := EveryStepIsRun(worlds, replies, turns, x, rank, cfg);
    var last := worlds[|turns|];
    RunIsOver(worlds[0], last, grants, x, rank);
    hide IsSession;
    TurnMakesProgress(last, again, x, rank, cfg);
  }

  lemma RunIsOver(w: World, last: World, grants: seq<StepId>, x: WorkerId, rank: StepId -> nat)
    requires HasRun(w, last, grants, x, rank) && |grants| == |Pending(w)|
    ensures Ready(last, x, rank) && Pending(last) == {} && last.steps.Keys == w.steps.Keys
    ensures forall k <- last.steps :: last.steps[k].life.status == DONE
  {
    hide Inv, Topological;
    assert Pending(last) == {};
    forall k | k in last.steps
      ensures last.steps[k].life.status == DONE
    {
      assert ReadyStep(last, x, rank, k);
    }
  }
}
