/**
 The theorems about failures, batches, disabled steps and resources, for the scheduler in which workers may hold
 removed steps: they do not depend on whether such a step is in the way of a call.
 */
module SystemTheorems {
  import opened Options
  import opened Sequences
  import opened SchedulerModel
  import opened SchedulerInvariants
  import opened SchedulerBatches
  import opened SchedulerResources
  import opened FailureWindow
  import opened RemovedSteps
  import opened RemovedRuns

  // ---------------------------------------------------------------- get_work, part by part

  /** What `get_work` hands out, of the steps at the moment of the scan: nothing, one active step, or some active
      steps of a batch. */
  datatype Grants = NoGrant | OneGrant(id: StepId) | SomeOfBatch(ids: seq<StepId>, batchId: BatchId)

  ghost predicate GrantsOf(steps: Steps, g: Grants, x: WorkerId, now: Time, cfg: Config, next: Steps) {
    match g
    case NoGrant => next == steps
    case OneGrant(id) => id in steps && next == Grant(steps, id, x, now, cfg)
    case SomeOfBatch(ids, b) => (forall id <- ids :: id in steps) && next == StartBatch(steps, ids, b, x, now, cfg)
  }

  /** The ids that are granted. */
  function GrantedIds(g: Grants): seq<StepId> {
    match g
    case NoGrant => []
    case OneGrant(id) => [id]
    case SomeOfBatch(ids, _) => ids
  }

  lemma HandsOut<O>(s: System<O>, q: seq<Item<O>>, x: WorkerId, now: Time, cfg: Config) returns (g: Grants)
    requires forall it <- q :: Gone(s, it) || it.rec.id in s.w.steps
    ensures GrantsOf(s.w.steps, g, x, now, cfg, HandOutItems(s, q, x, now, cfg).0)
    ensures forall id <- GrantedIds(g) :: exists it <- q :: it.rec.id == id && !Gone(s, it)
    ensures g.OneGrant? ==> |q| == 1
    ensures g.SomeOfBatch? ==> |q| > 1
  {
    hide Gone, Grant, StartBatch;
    var ids := IdsIn(q);
    if q == [] {
      g := NoGrant;
    } else if |q| == 1 {
      assert q[0] in q;
      g := if Gone(s, q[0]) then NoGrant else OneGrant(ids[0]);
    } else {
      var n := BeforeGone(s, q);
      assert forall i :: 0 <= i < n ==> q[i] in q && ids[..n][i] == q[i].rec.id;
      g := SomeOfBatch(ids[..n], ids);
    }
  }

  /** The state after `get_work`: prune, announce, and what is handed out. */
  lemma WorkShape<O>(s: System<O>, t: Turn<O>, now: Time, cfg: Config) returns (g: Grants)
    requires SystemOk(s) && PossibleTurn(s, t, now, cfg) && t.OnWork?
    ensures var a := t.args;
            var w1 := Prepare(s.w, a, t.order, now, cfg);
            var next := SystemNext(s, t, now, cfg).0.w;
            if w1.workers[a.worker].disabled then g == NoGrant && next == w1
            else
              var s2 := ScanSystem(s, a, t.order, now, cfg);
              && s2.w == Announce(w1, a, now, cfg) && SystemOk(s2) && IsScan(s2, a.worker, t.scan)
              && (t.resend.Some? ==> t.resend.value in s2.w.steps)
              && GrantsOf(s2.w.steps, g, a.worker, now, cfg, next.steps) && next.totals == s2.w.totals && next.batchers == s2.w.batchers
              && (forall id <- GrantedIds(g) :: exists it <- Decision(s2, a, t.resend, t.scan, now, cfg) :: it.rec.id == id && !Gone(s2, it))
              && (g.OneGrant? ==> |Decision(s2, a, t.resend, t.scan, now, cfg)| == 1)
              && (g.SomeOfBatch? ==> |Decision(s2, a, t.resend, t.scan, now, cfg)| > 1)
  {
    hide SystemOk, Prepare, Announce, CountRaises, Lists, IsScan, LooksUp, ValidResend, HandOutItems, Decision,
         PreparedSystem, ScanSystem, Gone, Grant, StartBatch, Inv;
    var OnWork(a, order, resend, scan, owners) := t;
    var s1 := PreparedSystem(s, a, order, now, cfg);
    g := NoGrant;
    if !s1.w.workers[a.worker].disabled {
      var s2 := ScanSystem(s, a, order, now, cfg);
      ScanSystemOk(s, a, order, now, cfg);
      ResendIsActive(s, a, order, resend, now, cfg);
      DecisionIsSeen(s2, a, resend, scan, now, cfg);
      if !CountRaises(s2, a.worker) {
        g := HandsOut(s2, Decision(s2, a, resend, scan, now, cfg), a.worker, now, cfg);
      }
    }
  }

  lemma GrantsKeys(steps: Steps, g: Grants, x: WorkerId, now: Time, cfg: Config, next: Steps)
    requires GrantsOf(steps, g, x, now, cfg, next)
    ensures next.Keys == steps.Keys
  {
    hide SetStatus;
    if g.OneGrant? {
      SetStatusAt(steps, g.id, RUNNING, now, cfg, g.id);
    }
  }

  // ---------------------------------------------------------------- failures

  lemma GrantsRecords(steps: Steps, g: Grants, x: WorkerId, now: Time, cfg: Config, next: Steps, k: StepId, h: seq<Time>, window: int)
    requires GrantsOf(steps, g, x, now, cfg, next) && k in steps && Records(steps[k], h, window, now)
    ensures k in next && Records(next[k], h, window, now)
  {
    hide Records, Grant, StartBatch;
    GrantsKeys(steps, g, x, now, cfg, next);
    match g
    case NoGrant =>
    case OneGrant(id) => HandOutRecords(steps, Granted(id), x, now, cfg, k, h, window);
    case SomeOfBatch(ids, b) => StartBatchRecords(steps, ids, b, x, now, cfg, k, h, window);
  }

  lemma PreparedRecords(w: World, a: WorkArgs, order: seq<StepId>, now: Time, cfg: Config, k: StepId, h: seq<Time>, window: int, last: Time)
    requires (cfg.pruneOnGetWork ==> Lists(order, w.steps.Keys)) && k in Prepare(w, a, order, now, cfg).steps
    requires k in w.steps ==> Records(w.steps[k], h, window, last)
    requires last <= now
    ensures k in w.steps
    ensures Records(Prepare(w, a, order, now, cfg).steps[k],
                    Marked(h, if cfg.pruneOnGetWork then MarksOfPrune(w, order, now, cfg, k) else [], now), window, now)
  {
    hide Records, MarksOfPrune;
    if cfg.pruneOnGetWork {
      assert k in w.steps by {
        PruneAddsNothing(w, order, now, cfg);
      }
      PruneRecords(w, order, now, cfg, k, h, window, last);
    } else {
      RecordsLater(w.steps[k], h, window, last, now);
    }
  }

  lemma PruneAddsNothing(w: World, order: seq<StepId>, now: Time, cfg: Config)
    requires Lists(order, w.steps.Keys)
    ensures Prune(w, order, now, cfg).steps.Keys <= w.steps.Keys
  {
    hide PruneLoop;
  }

  lemma WorkRecords<O>(s: System<O>, t: Turn<O>, now: Time, cfg: Config, k: StepId, h: seq<Time>, window: int, last: Time)
    requires SystemOk(s) && PossibleTurn(s, t, now, cfg) && t.OnWork? && last <= now
    requires k in s.w.steps ==> Records(s.w.steps[k], h, window, last)
    requires k in SystemNext(s, t, now, cfg).0.w.steps
    ensures k in s.w.steps
    ensures Records(SystemNext(s, t, now, cfg).0.w.steps[k], Marked(h, MarksOf(s.w, EventOf(t), now, cfg, k), now), window, now)
  {
    hide SystemNext, SystemOk, PossibleTurn, Records, Prepare, Decision, IsScan, ScanSystem, Marked, MarksOf, MarksOfPrune, Lists,
         GrantsOf, Gone, Announce;
    WorkMarks(s, t, now, cfg, k);
    var g := WorkShape(s, t, now, cfg);
    var w1, next := Prepare(s.w, t.args, t.order, now, cfg), SystemNext(s, t, now, cfg).0.w;
    if !w1.workers[t.args.worker].disabled {
      var w2 := Announce(w1, t.args, now, cfg);
      AnnouncedKeys(w1, t.args, now, cfg);
      GrantsKeys(w2.steps, g, t.args.worker, now, cfg, next.steps);
    }
    PreparedRecords(s.w, t.args, t.order, now, cfg, k, h, window, last);
    if !w1.workers[t.args.worker].disabled {
      var w2 := Announce(w1, t.args, now, cfg);
      var marked := Marked(h, MarksOf(s.w, EventOf(t), now, cfg, k), now);
      AnnounceRecords(w1, t.args, now, cfg, k, marked, window);
      GrantsRecords(w2.steps, g, t.args.worker, now, cfg, next.steps, k, marked, window);
    }
  }

  lemma WorkMarks<O>(s: System<O>, t: Turn<O>, now: Time, cfg: Config, k: StepId)
    requires PossibleTurn(s, t, now, cfg) && t.OnWork?
    ensures cfg.pruneOnGetWork ==> Lists(t.order, s.w.steps.Keys)
    ensures MarksOf(s.w, EventOf(t), now, cfg, k) == if cfg.pruneOnGetWork then MarksOfPrune(s.w, t.order, now, cfg, k) else []
  {
    hide MarksOfPrune, Lists, PreparedSystem, ScanSystem, IsScan, LooksUp, ValidResend;
  }

  lemma AnnounceRecords(w: World, a: WorkArgs, now: Time, cfg: Config, k: StepId, h: seq<Time>, window: int)
    requires a.worker in w.workers && k in w.steps && Records(w.steps[k], h, window, now)
    ensures k in Announce(w, a, now, cfg).steps && Records(Announce(w, a, now, cfg).steps[k], h, window, now)
  {
    ResetRecords(w.steps, a.worker, now, cfg, k, h, window);
    hide Records, SetOne, OrphanedMember;
  }

  lemma TurnKeepsRecords<O>(s: System<O>, t: Turn<O>, now: Time, cfg: Config, window: int, k: StepId)
    requires SystemOk(s) && PossibleTurn(s, t, now, cfg) && KeepsWindow(EventOf(t), window) && cfg.policy.window == window
    ensures KeepsRecords(s.w, Call(EventOf(t), now), SystemNext(s, t, now, cfg).0.w, cfg, window, k)
  {
    if t.OnEvent? {
      EventSystemOk(s, t.event, t.born, now, cfg);
      hide Inv, Possible, Next, KeepsRecords, KeepsWindow, SystemOk, EventSystem, NewObjects;
      WorldOk(s);
      EventKeepsRecords(s.w, Call(t.event, now), cfg, window, k);
    } else {
      hide SystemOk, PossibleTurn, SystemNext, Records, Marked, MarksOf;
      forall h, last | Recording(s.w.steps, k, h, window, last) && last <= now && k in SystemNext(s, t, now, cfg).0.w.steps
        ensures Records(SystemNext(s, t, now, cfg).0.w.steps[k], Marked(h, MarksOf(s.w, EventOf(t), now, cfg, k), now), window, now)
      {
        if t.OnWork? {
          WorkRecords(s, t, now, cfg, k, h, window, last);
        } else {
          CountRecords(s, t, now, cfg, k, h, window, last);
        }
      }
    }
  }

  lemma CountRecords<O>(s: System<O>, t: Turn<O>, now: Time, cfg: Config, k: StepId, h: seq<Time>, window: int, last: Time)
    requires SystemOk(s) && PossibleTurn(s, t, now, cfg) && t.OnCount? && last <= now
    requires k in s.w.steps && Records(s.w.steps[k], h, window, last)
    ensures SystemNext(s, t, now, cfg).0.w.steps == s.w.steps
    ensures Records(s.w.steps[k], Marked(h, MarksOf(s.w, EventOf(t), now, cfg, k), now), window, now)
  {
    hide Records, LooksUp, CountRaises, SystemOk;
    RecordsLater(s.w.steps[k], h, window, last, now);
  }

  /** The failures that a run of the scheduler with removed steps records are those that its calls bring. */
  lemma SystemRunIsRecorded<O>(systems: seq<System<O>>, calls: seq<SystemCall<O>>, cfg: Config, window: int, k: StepId)
    requires IsSystemRun(systems, calls, cfg) && Steady(EventsOf(calls), window, cfg)
    ensures IsRecorded(WorldsOf(systems), EventsOf(calls), cfg, window, k)
  {
    hide SystemOk, SystemNext, PossibleTurn, KeepsRecords, KeepsWindow, EventOf;
    ReachableSystemsAreOk(systems, calls, cfg);
    forall i | 0 <= i < |calls|
      ensures KeepsRecords(systems[i].w, EventsOf(calls)[i], systems[i+1].w, cfg, window, k)
    {
      assert systems[i] in systems && LeadsTo(systems[i], calls[i], systems[i+1], cfg);
      assert EventsOf(calls)[i] in EventsOf(calls);
      TurnKeepsRecords(systems[i], calls[i].turn, calls[i].now, cfg, window, k);
    }
  }

  /** In every run, removed steps or not, the pruned queue of an active step holds exactly the failures of its history
      that are inside the window. */
  lemma SystemCountIsExact<O>(systems: seq<System<O>>, calls: seq<SystemCall<O>>, cfg: Config, window: int, k: StepId, now: Time)
    requires IsSystemRun(systems, calls, cfg) && Steady(EventsOf(calls), window, cfg) && LastTime(EventsOf(calls), now) <= now
    requires k in systems[|calls|].w.steps
    ensures var s := systems[|calls|].w.steps[k];
            RecentFailures(s.life, s.info.policy, now) == InWindow(History(WorldsOf(systems), EventsOf(calls), cfg, k), now - window)
  {
    hide IsRecorded, InWindow, History, RecentFailures, Steady, LeadsTo;
    SystemRunIsRecorded(systems, calls, cfg, window, k);
    RecordedCount(WorldsOf(systems), EventsOf(calls), cfg, window, k, now);
  }

  lemma SystemFirstFailureIsFirst<O>(systems: seq<System<O>>, calls: seq<SystemCall<O>>, cfg: Config, window: int, k: StepId)
    requires IsSystemRun(systems, calls, cfg) && Steady(EventsOf(calls), window, cfg) && k in systems[|calls|].w.steps
    requires forall c <- calls :: c.now > 0
    ensures var h := History(WorldsOf(systems), EventsOf(calls), cfg, k);
            systems[|calls|].w.steps[k].life.firstFailure == if h == [] then None else Some(h[0])
  {
    hide IsRecorded, History, Steady, LeadsTo;
    SystemRunIsRecorded(systems, calls, cfg, window, k);
    LaterCalls(calls);
    RecordedFirst(WorldsOf(systems), EventsOf(calls), cfg, window, k);
  }

  lemma LaterCalls<O>(calls: seq<SystemCall<O>>)
    requires forall c <- calls :: c.now > 0
    ensures forall c <- EventsOf(calls) :: c.now > 0
  {
    assert forall i :: 0 <= i < |calls| ==> calls[i] in calls;
  }

  /** In every run, removed steps or not, a reported failure disables the step exactly when the failures of its history
      inside the window reach the retry count, or the first of them is as old as the hard timeout. */
  lemma SystemFailureDisablesExactly<O>(systems: seq<System<O>>, calls: seq<SystemCall<O>>, cfg: Config, window: int, k: StepId,
                                        a: AddArgs, pick: Option<StepId>, now: Time)
    requires IsSystemRun(systems, calls, cfg) && Steady(EventsOf(calls), window, cfg) && LastTime(EventsOf(calls), now) <= now
    requires now > 0 && forall c <- calls :: c.now > 0
    requires ReportsFailure(systems[|calls|].w, a, k)
    ensures DisablesExactly(systems[|calls|].w, History(WorldsOf(systems), EventsOf(calls), cfg, k) + [now], window, a, pick, k, now, cfg)
  {
    hide IsRecorded, History, Steady, LeadsTo, DisablesExactly, ReportsFailure;
    SystemRunIsRecorded(systems, calls, cfg, window, k);
    LaterCalls(calls);
    RecordedFailure(WorldsOf(systems), EventsOf(calls), cfg, window, k, a, pick, now);
  }

  // ---------------------------------------------------------------- disabled steps

  lemma GrantsHoldBack(steps: Steps, g: Grants, x: WorkerId, now: Time, cfg: Config, next: Steps, k: StepId)
    requires GrantsOf(steps, g, x, now, cfg, next) && k in steps && HeldBack(steps[k])
    ensures k in next && HeldBack(next[k])
  {
    hide SetStatus, StartBatch;
    GrantsKeys(steps, g, x, now, cfg, next);
    match g
    case NoGrant =>
    case OneGrant(id) => OnlyDoneReleases(steps, id, RUNNING, now, cfg, k);
    case SomeOfBatch(ids, b) => StartBatchHoldsBack(steps, ids, b, x, now, cfg, k);
  }

  /** A step that the scheduler has disabled keeps that status through every call but those that may release it,
      whether removed steps are in the way of the call or not. */
  lemma SystemDisableLasts<O>(s: System<O>, t: Turn<O>, now: Time, cfg: Config, k: StepId)
    requires SystemOk(s) && PossibleTurn(s, t, now, cfg)
    requires k in s.w.steps && HeldBack(s.w.steps[k]) && !MayRelease(EventOf(t), s.w.steps[k], k, now, cfg)
    ensures var r := SystemNext(s, t, now, cfg).0.w.steps;
            k in r ==> r[k].life.status == DISABLED
  {
    match t
    case OnEvent(e, born) =>
      EventSystemOk(s, e, born, now, cfg);
      hide Possible, Next, EventSystem, NewObjects, SystemOk, MayRelease, Inv;
      WorldOk(s);
      DisableLasts(s.w, e, now, cfg, k);
    case OnWork(a, order, resend, scan, owners) => WorkHoldsBack(s, t, now, cfg, k);
    case OnCount(x, owners) => hide LooksUp, CountRaises, SystemOk;
  }

  lemma WorkHoldsBack<O>(s: System<O>, t: Turn<O>, now: Time, cfg: Config, k: StepId)
    requires SystemOk(s) && PossibleTurn(s, t, now, cfg) && t.OnWork?
    requires k in s.w.steps && HeldBack(s.w.steps[k]) && !MayRelease(EventOf(t), s.w.steps[k], k, now, cfg)
    ensures var r := SystemNext(s, t, now, cfg).0.w.steps;
            k in r ==> HeldBack(r[k])
  {
    hide SystemNext, SystemOk, PossibleTurn, Prepare, Decision, IsScan, ScanSystem, Lists, GrantsOf, Gone, Announce, DisableExpired, HeldBack;
    WorkMarks(s, t, now, cfg, k);
    var g := WorkShape(s, t, now, cfg);
    var w1, next := Prepare(s.w, t.args, t.order, now, cfg), SystemNext(s, t, now, cfg).0.w;
    PrepareHoldsBack(s.w, t.args, t.order, now, cfg, k);
    if !w1.workers[t.args.worker].disabled {
      var w2 := Announce(w1, t.args, now, cfg);
      AnnouncedKeys(w1, t.args, now, cfg);
      GrantsKeys(w2.steps, g, t.args.worker, now, cfg, next.steps);
      if k in w1.steps {
        AnnounceHoldsBack(w1, t.args, now, cfg, k);
        GrantsHoldBack(w2.steps, g, t.args.worker, now, cfg, next.steps, k);
      }
    }
  }

  // ---------------------------------------------------------------- running steps

  lemma GrantsKeepRunning(steps: Steps, g: Grants, x: WorkerId, now: Time, cfg: Config, next: Steps, id: StepId)
    requires GrantsOf(steps, g, x, now, cfg, next) && id in steps && steps[id].life.status == RUNNING
    requires g.SomeOfBatch? ==> id !in g.ids
    ensures id in next && next[id].life.status == RUNNING
  {
    hide SetStatus, StartBatch;
    GrantsKeys(steps, g, x, now, cfg, next);
    match g
    case NoGrant =>
    case OneGrant(j) => SetStatusAt(steps, j, RUNNING, now, cfg, id);
    case SomeOfBatch(ids, b) => StartBatchKeepsRunning(steps, ids, b, x, now, cfg, id);
  }

  /** An active step among those that are chosen is pending. */
  lemma ChosenIsPending<O>(s: System<O>, a: WorkArgs, scan: seq<Item<O>>, now: Time, cfg: Config, it: Item<O>)
    requires SystemOk(s) && a.worker in s.w.workers && IsScan(s, a.worker, scan)
    requires it in Chosen(s, a, scan, now, cfg) && !Gone(s, it)
    ensures it.rec.id in s.w.steps && s.w.steps[it.rec.id] == it.rec && it.rec.life.status == PENDING
  {
    hide Chosen, Scanned, SystemOk, Gone;
    DecisionIsSeen(s, a, None, scan, now, cfg);
    ChosenArePending(s, a, scan, now, cfg);
  }

  /** After its `prune`, `get_work` takes no step out of RUNNING, whatever removed steps the worker holds. */
  lemma SystemKeepsRunning<O>(s: System<O>, t: Turn<O>, now: Time, cfg: Config, id: StepId)
    requires SystemOk(s) && PossibleTurn(s, t, now, cfg) && t.OnWork?
    requires var w1 := Prepare(s.w, t.args, t.order, now, cfg); id in w1.steps && w1.steps[id].life.status == RUNNING
    ensures var r := SystemNext(s, t, now, cfg).0.w.steps; id in r && r[id].life.status == RUNNING
  {
    hide SystemNext, SystemOk, PossibleTurn, Prepare, Chosen, IsScan, ScanSystem, Lists, GrantsOf, Gone, Announce;
    WorkMarks(s, t, now, cfg, id);
    var g := WorkShape(s, t, now, cfg);
    var w1, next := Prepare(s.w, t.args, t.order, now, cfg), SystemNext(s, t, now, cfg).0.w;
    if !w1.workers[t.args.worker].disabled {
      var s2 := ScanSystem(s, t.args, t.order, now, cfg);
      AnnounceLeavesRunning(w1, t.args, now, cfg, id);
      if g.SomeOfBatch? && id in g.ids {
        assert id in GrantedIds(g);
        var it :| it in Decision(s2, t.args, t.resend, t.scan, now, cfg) && it.rec.id == id && !Gone(s2, it);
        ChosenIsPending(s2, t.args, t.scan, now, cfg, it);
        assert false;
      }
      GrantsKeepRunning(s2.w.steps, g, t.args.worker, now, cfg, next.steps, id);
    }
  }

  // ---------------------------------------------------------------- resources

  /** Without batchers, an active step that is chosen demands nothing or fits next to what is in use. */
  lemma ChosenFits<O>(s: System<O>, a: WorkArgs, scan: seq<Item<O>>, now: Time, cfg: Config, it: Item<O>)
    requires SystemOk(s) && a.worker in s.w.workers && IsScan(s, a.worker, scan) && s.w.batchers == map[]
    requires it in Chosen(s, a, scan, now, cfg) && !Gone(s, it)
    ensures it.rec.load.resources == map[] || HasResources(it.rec.load.resources, UsedResources(s.w.steps), s.w.totals)
  {
    ChosenAreSeen(s, a, scan, now, cfg);
    ChosenIsPending(s, a, scan, now, cfg, it);
    assert it in Scanned(s, a.worker);
    var i := Pick(s.w.steps, RequestFor(s, a), GreedyFor(s, a, now, cfg), RecsIn(scan), 0);
    assert i < |scan| && scan[i] == it;
    assert StopsAt(s.w.steps, RequestFor(s, a), GreedyFor(s, a, now, cfg), RecsIn(scan), i);
    hide Pick, PassAll, ChargeRunning, SystemOk, WalksOwn, HasResources, Schedulable;
    if TrivialFor(s, a.worker) {
      SeenWhilePending(s, a.worker, it);
    }
    hide TrivialFor, Scanned, Chosen;
  }

  lemma SeenWhilePending<O>(s: System<O>, x: WorkerId, it: Item<O>)
    requires x in s.w.workers && !Gone(s, it) && it.rec.id in s.w.steps && s.w.steps[it.rec.id] == it.rec
    requires SystemOk(s) && TrivialFor(s, x) && it in Scanned(s, x) && it.rec.life.status == PENDING
    ensures it.rec.load.resources == map[]
  {
    SeenMayRunHere(s, x, it);
    hide WalksOwn, Scanned, SystemOk;
    assert it.rec.id in OwnIds(s.w, x) && it.rec.id in StatusIds(s.w, {PENDING});
    assert it in GetSteps(s, x, {PENDING});
  }

  lemma SeenMayRunHere<O>(s: System<O>, x: WorkerId, it: Item<O>)
    requires SystemOk(s) && x in s.w.workers && TrivialFor(s, x) && it in Scanned(s, x) && !Gone(s, it)
    ensures x in it.rec.info.workers && s.who[it.rec.id] == it.obj && it.rec.id in s.who
  {
    assert HeldOk(s, x);
    hide TrivialFor, WalksOwn, RosterOk, RecOk;
  }

  lemma GrantsWithinTotals<O>(s: System<O>, a: WorkArgs, scan: seq<Item<O>>, g: Grants, now: Time, cfg: Config, next: World)
    requires SystemOk(s) && a.worker in s.w.workers && IsScan(s, a.worker, scan)
    requires WithinTotals(s.w) && DemandsOk(s.w.steps) && s.w.batchers == map[]
    requires GrantsOf(s.w.steps, g, a.worker, now, cfg, next.steps) && next.totals == s.w.totals && !g.SomeOfBatch?
    requires forall id <- GrantedIds(g) :: exists it <- Chosen(s, a, scan, now, cfg) :: it.rec.id == id && !Gone(s, it)
    ensures WithinTotals(next) && DemandsOk(next.steps)
  {
    hide SystemOk, IsScan, Chosen, Gone, Grant, HasResources, UsedAt;
    if g.OneGrant? {
      assert g.id in GrantedIds(g);
      var it :| it in Chosen(s, a, scan, now, cfg) && it.rec.id == g.id && !Gone(s, it);
      ChosenIsPending(s, a, scan, now, cfg, it);
      ChosenFits(s, a, scan, now, cfg, it);
      GrantWithinTotals(s.w, g.id, a.worker, now, cfg);
    }
  }

  /** At most one step is chosen without batchers. */
  lemma ChosenIsSingle<O>(s: System<O>, a: WorkArgs, scan: seq<Item<O>>, now: Time, cfg: Config)
    requires a.worker in s.w.workers && s.w.batchers == map[]
    ensures |Chosen(s, a, scan, now, cfg)| <= 1
  {
    hide Pick;
  }

  lemma WorkWithinTotals<O>(s: System<O>, t: Turn<O>, now: Time, cfg: Config)
    requires SystemOk(s) && PossibleTurn(s, t, now, cfg) && t.OnWork? && t.resend.None? && ResourcesOk(s.w)
    ensures var next := SystemNext(s, t, now, cfg).0.w;
            ResourcesOk(next) && next.totals == s.w.totals
  {
    hide SystemNext, SystemOk, PossibleTurn, Prepare, Chosen, IsScan, ScanSystem, Lists, GrantsOf, Gone, Announce, WithinTotals;
    WorkMarks(s, t, now, cfg, 0);
    var g := WorkShape(s, t, now, cfg);
    var a := t.args;
    var w1, next := Prepare(s.w, a, t.order, now, cfg), SystemNext(s, t, now, cfg).0.w;
    AtScanCalms(s.w, a, Choices(t.order, None, []), now, cfg);
    CalmsTotals(s.w, w1);
    if !w1.workers[a.worker].disabled {
      var s2 := ScanSystem(s, a, t.order, now, cfg);
      CalmsTotals(s.w, s2.w);
      ChosenIsSingle(s2, a, t.scan, now, cfg);
      GrantsWithinTotals(s2, a, t.scan, g, now, cfg, next);
    }
  }

  lemma TurnWithinTotals<O>(s: System<O>, t: Turn<O>, now: Time, cfg: Config)
    requires SystemOk(s) && PossibleTurn(s, t, now, cfg) && Plain(EventOf(t)) && ResourcesOk(s.w)
    ensures var next := SystemNext(s, t, now, cfg).0.w;
            ResourcesOk(next) && next.totals == s.w.totals
  {
    match t
    case OnEvent(e, born) =>
      EventSystemOk(s, e, born, now, cfg);
      hide Possible, Next, EventSystem, NewObjects, SystemOk, ResourcesOk, Inv;
      WorldOk(s);
      NextWithinTotals(s.w, e, now, cfg);
    case OnWork(a, order, resend, scan, owners) => WorkWithinTotals(s, t, now, cfg);
    case OnCount(x, owners) =>
      hide LooksUp, CountRaises, WithinTotals, Inv;
      CalmsTotals(s.w, SystemNext(s, t, now, cfg).0.w);
  }

  /** In every run of plain calls, removed steps or not, what the running steps use of a resource never exceeds its
      total. */
  lemma {:induction false} SystemStaysWithinTotals<O>(systems: seq<System<O>>, calls: seq<SystemCall<O>>, cfg: Config)
    requires IsSystemRun(systems, calls, cfg) && NonNegative(systems[0].w.totals)
    requires forall c <- calls :: Plain(EventOf(c.turn))
    ensures forall s <- systems :: ResourcesOk(s.w) && s.w.totals == systems[0].w.totals
  {
    hide SystemNext, PossibleTurn, SystemOk, Plain, ResourcesOk, EventOf;
    var n := |calls|;
    if n == 0 {
      StartWithinTotals(systems[0].w.totals);
    } else {
      SystemStaysWithinTotals(systems[..n], calls[..n-1], cfg);
      ReachableSystemsAreOk(systems, calls, cfg);
      assert systems[n-1] in systems[..n] && systems[n-1] in systems && calls[n-1] in calls;
      assert LeadsTo(systems[n-1], calls[n-1], systems[n], cfg);
      TurnWithinTotals(systems[n-1], calls[n-1].turn, calls[n-1].now, cfg);
      assert systems == systems[..n] + [systems[n]];
    }
  }
}
