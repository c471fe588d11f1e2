/**
 Runs from the start that end in an exception: `get_work` raises one, or damages the index by status, because a
 removed step is in the way, and other calls raise one without any removed step.
 */
module RemovedExamples {
  import opened Options
  import opened Sequences
  import opened SchedulerModel
  import opened SchedulerInvariants
  import opened RemovedSteps
  import opened RemovedChoices
  import opened RemovedRuns
  import opened FirstReports

  const POLICY := RetryPolicy(10, 1000000, 3600)
  const CFG := Config(900, 0, 60, 3600, 10, false, false, POLICY)

  /** A report of a runnable step without dependencies. */
  function Claim(x: WorkerId, id: StepId, status: Status, assistant: bool): AddArgs {
    AddArgs(x, id, status, true, None, None, map[], 0, "", None, assistant, None, None, POLICY)
  }

  /** What a first report makes of the step. */
  function ClaimedRec(x: WorkerId, id: StepId, status: Status, assistant: bool, now: Time): StepRec {
    FirstRec(Claim(x, id, status, assistant), None, now)
  }

  function Joined(s: System<nat>, x: WorkerId, rec: StepRec, obj: nat, now: Time): System<nat> {
    var workers := Touch(s.w.workers, x, false, now);
    System(s.w.(workers := workers, steps := s.w.steps[rec.id := rec]), s.who[rec.id := obj],
           map y | y in workers :: if y in s.held then s.held[y] else {})
  }

  /** The step is new, and so is the object; no batch is running. */
  ghost predicate IsNew(s: System<nat>, x: WorkerId, id: StepId, status: Status, obj: nat) {
    && id !in s.w.steps && id !in s.who && (status == PENDING || status == RUNNING || status == DONE) && (x in s.w.workers ==> !s.w.workers[x].disabled)
    && (forall k <- s.w.steps :: s.w.steps[k].life.status != BATCH_RUNNING)
    && KnownOrNew(s, id, obj)
  }

  /** The turn is possible, and leads from one state to the other. */
  ghost predicate Turns(s: System<nat>, turn: Turn<nat>, now: Time, next: System<nat>, outcome: Outcome) {
    SystemOk(s) && PossibleTurn(s, turn, now, CFG) && SystemNext(s, turn, now, CFG) == (next, outcome)
  }

  lemma FirstReportIsTurn(s: System<nat>, x: WorkerId, id: StepId, status: Status, assistant: bool, obj: nat, now: Time)
    requires SystemOk(s) && IsNew(s, x, id, status, obj)
    ensures var turn := OnEvent(OnAddStep(Claim(x, id, status, assistant), None), Born(id, obj));
            Turns(s, turn, now, Joined(s, x, ClaimedRec(x, id, status, assistant, now), obj, now), Finished)
  {
    hide AddStep, ClaimedRec, Touch, Possible, SystemOk, Next, NewObjects, EventSystem, Joined, IsNew, OutcomeOf;
    var e, rec := OnAddStep(Claim(x, id, status, assistant), None), ClaimedRec(x, id, status, assistant, now);
    FirstReportIsEvent(s, x, id, status, assistant, obj, now);
    assert s.who.Keys == s.w.steps.Keys by {
      WhoseKeys(s);
    }
    JoinedByEvent(s, x, rec, e, obj, now);
  }

  lemma WhoseKeys(s: System<nat>)
    requires SystemOk(s)
    ensures s.who.Keys == s.w.steps.Keys
  {
  }

  lemma FirstReportIsEvent(s: System<nat>, x: WorkerId, id: StepId, status: Status, assistant: bool, obj: nat, now: Time)
    requires IsNew(s, x, id, status, obj)
    ensures var e, rec := OnAddStep(Claim(x, id, status, assistant), None), ClaimedRec(x, id, status, assistant, now);
            && Possible(s.w, e, now, CFG) && Next(s.w, e, now, CFG) == Joined(s, x, rec, obj, now).w && rec.id == id
            && OutcomeOf(s.w, e, now, CFG) == Finished && KnownOrNew(s, id, obj)
  {
    hide AddStep, Touch;
    FirstReport(s.w, Claim(x, id, status, assistant), None, now, CFG);
  }

  function Born(id: StepId, obj: nat): map<StepId, nat> {
    map[id := obj]
  }

  ghost predicate KnownOrNew(s: System<nat>, id: StepId, obj: nat) {
    if id in s.who then s.who[id] == obj
    else obj !in s.who.Values && forall y <- s.held :: forall it <- s.held[y] :: it.obj != obj
  }

  lemma JoinedObjects(s: System<nat>, x: WorkerId, rec: StepRec, obj: nat, now: Time)
    requires s.who.Keys == s.w.steps.Keys && KnownOrNew(s, rec.id, obj)
    ensures NewObjects(s, Joined(s, x, rec, obj, now).w.steps, Born(rec.id, obj))
    ensures Joined(s, x, rec, obj, now).who ==
              map k | k in Joined(s, x, rec, obj, now).w.steps :: if k in s.who then s.who[k] else Born(rec.id, obj)[k]
  {
    hide Touch;
  }

  lemma JoinedByEvent(s: System<nat>, x: WorkerId, rec: StepRec, e: Event, obj: nat, now: Time)
    requires s.who.Keys == s.w.steps.Keys && KnownOrNew(s, rec.id, obj) && e.OnAddStep? && Possible(s.w, e, now, CFG)
    requires Next(s.w, e, now, CFG) == Joined(s, x, rec, obj, now).w
    ensures NewObjects(s, Next(s.w, e, now, CFG).steps, Born(rec.id, obj))
    ensures EventSystem(s, e, Born(rec.id, obj), now, CFG) == Joined(s, x, rec, obj, now)
  {
    hide Next, Possible, Touch, NewObjects, KnownOrNew, Born, PruneSystem;
    JoinedObjects(s, x, rec, obj, now);
  }

  /** The run goes on with the first report of a step. */
  lemma ReportFirst(systems: seq<System<nat>>, calls: seq<SystemCall<nat>>, x: WorkerId, id: StepId, status: Status,
                    assistant: bool, obj: nat, now: Time)
      returns (next: seq<System<nat>>, more: seq<SystemCall<nat>>)
    requires IsSystemRun(systems, calls, CFG) && |systems| == |calls| + 1 && IsNew(systems[|calls|], x, id, status, obj)
    ensures IsSystemRun(next, more, CFG) && |next| == |more| + 1
    ensures next[|more|] == Joined(systems[|calls|], x, ClaimedRec(x, id, status, assistant, now), obj, now)
    ensures more == calls + [SystemCall(OnEvent(OnAddStep(Claim(x, id, status, assistant), None), Born(id, obj)), now)]
  {
    hide SystemOk, LeadsTo, IsNew, Turns, Joined, ClaimedRec;
    var turn := OnEvent(OnAddStep(Claim(x, id, status, assistant), None), Born(id, obj));
    ReachableSystemsAreOk(systems, calls, CFG);
    var s := systems[|calls|];
    assert s in systems;
    FirstReportIsTurn(s, x, id, status, assistant, obj, now);
    next, more := GoOn(systems, calls, turn, now, Joined(s, x, ClaimedRec(x, id, status, assistant, now), obj, now));
  }

  lemma GoOn(systems: seq<System<nat>>, calls: seq<SystemCall<nat>>, turn: Turn<nat>, now: Time, after: System<nat>)
      returns (next: seq<System<nat>>, more: seq<SystemCall<nat>>)
    requires IsSystemRun(systems, calls, CFG) && |systems| == |calls| + 1 && Turns(systems[|calls|], turn, now, after, Finished)
    ensures IsSystemRun(next, more, CFG) && |next| == |more| + 1
    ensures next[|more|] == after && more == calls + [SystemCall(turn, now)]
  {
    hide SystemOk, PossibleTurn, SystemNext;
    var call := SystemCall(turn, now);
    assert LeadsTo(systems[|calls|], call, after, CFG);
    hide LeadsTo;
    next, more := systems + [after], calls + [call];
  }

  /** What a first failure makes of the step. */
  function FailedRec(s: StepRec, now: Time): StepRec {
    s.(life := Life(FAILED, now, Some(now + 900), None, None, [now], Some(now), None))
  }

  lemma FailReport(w: World, x: WorkerId, id: StepId, at: Time, now: Time)
    requires w.steps == map[id := ClaimedRec(x, id, PENDING, true, at)] && x in w.workers && !w.workers[x].disabled
    ensures AddStep(w, Claim(x, id, FAILED, true), None, now, CFG) ==
              (w.(workers := Touch(w.workers, x, false, now), steps := map[id := FailedRec(ClaimedRec(x, id, PENDING, true, at), now)]), false)
  {
    var a := Claim(x, id, FAILED, true);
    var rec := ClaimedRec(x, id, PENDING, true, at);
    assert Describe(rec, a) == rec && Unmark(rec, a) == rec;
    assert AddStepHead(w.steps, a, now, CFG) == w.steps && AddStepStart(w.steps, a, None, now, CFG) == Some(w.steps);
    var failed := FailedRec(rec, now);
    assert w.steps[id := rec] == w.steps;
    var reported := Report(w.steps, a, now, CFG);
    assert reported == map[id := failed] by {
      FailsOnce(rec.life, now);
    }
    hide Report;
    assert Rewire(failed, a) == failed by {
      assert {} + GetOr<set<StepId>>(None, {}) == {};
    }
    assert reported[id := failed] == reported;
    NoPathWithoutDeps(reported, id, 0);
    hide UpdatePriority;
    assert Enlist(failed, a, true) == failed;
    assert AddStepTail(w.steps, a, true, now, CFG) == reported;
  }

  lemma FailsOnce(l: Life, now: Time)
    requires l.failures == [] && l.firstFailure == None && l.batchId == None && l.remove == None && l.status == PENDING && l.disableTime == None
    ensures SetLife(l, false, POLICY, FAILED, now, CFG) == Life(FAILED, now, Some(now + 900), None, None, [now], Some(now), None)
  {
    assert [] + [now] == [now];
    assert DropOld([now], now - 3600) == [now];
  }

  /** A worker alone with one step that is not running and has no stakeholders. */
  ghost predicate Alone(s: System<nat>, x: WorkerId, rec: StepRec, obj: nat, now: Time) {
    && s.w == World(map[rec.id := rec], map[x := WorkerRec(now, None, false, 1, false)], map[], map[], false)
    && s.who == map[rec.id := obj] && s.held == map[x := {}]
  }

  lemma FailReportIsTurn(s: System<nat>, x: WorkerId, id: StepId, at: Time, obj: nat, now: Time)
    requires SystemOk(s) && Alone(s, x, ClaimedRec(x, id, PENDING, true, at), obj, at)
    ensures var turn := OnEvent(OnAddStep(Claim(x, id, FAILED, true), None), Born(id, obj));
            var rec := FailedRec(ClaimedRec(x, id, PENDING, true, at), now);
            Turns(s, turn, now, Joined(s, x, rec, obj, now), Finished) && Alone(Joined(s, x, rec, obj, now), x, rec, obj, now)
  {
    hide Possible, SystemOk, NewObjects, EventSystem, Joined, Alone, ClaimedRec, FailedRec, Next, OutcomeOf;
    var e, rec := OnAddStep(Claim(x, id, FAILED, true), None), FailedRec(ClaimedRec(x, id, PENDING, true, at), now);
    FailReportIsEvent(s, x, id, at, obj, now);
    StillAlone(s, x, ClaimedRec(x, id, PENDING, true, at), rec, obj, at, now);
    JoinedByEvent(s, x, rec, e, obj, now);
  }

  lemma FailReportIsEvent(s: System<nat>, x: WorkerId, id: StepId, at: Time, obj: nat, now: Time)
    requires Alone(s, x, ClaimedRec(x, id, PENDING, true, at), obj, at)
    ensures var e, rec := OnAddStep(Claim(x, id, FAILED, true), None), FailedRec(ClaimedRec(x, id, PENDING, true, at), now);
            && Possible(s.w, e, now, CFG) && Next(s.w, e, now, CFG) == Joined(s, x, rec, obj, now).w
            && OutcomeOf(s.w, e, now, CFG) == Finished && rec.id == ClaimedRec(x, id, PENDING, true, at).id == id
  {
    hide AddStep, Touch;
    FailReport(s.w, x, id, at, now);
  }

  lemma StillAlone(s: System<nat>, x: WorkerId, rec: StepRec, next: StepRec, obj: nat, at: Time, now: Time)
    requires Alone(s, x, rec, obj, at) && next.id == rec.id
    ensures Alone(Joined(s, x, next, obj, now), x, next, obj, now)
    ensures s.who.Keys == s.w.steps.Keys && KnownOrNew(s, next.id, obj)
  {
  }

  /** `prune` stamps the step and removes it at once; the worker keeps it. */
  lemma PruneIsTurn(s: System<nat>, x: WorkerId, rec: StepRec, obj: nat, at: Time, now: Time)
    requires SystemOk(s) && Alone(s, x, rec, obj, at) && at <= now <= at + 60 && now != 0
    requires rec.life.status == PENDING || (rec.life.status == FAILED && rec.life.retry == Some(at + 900))
    requires rec.info.stakeholders == {} && rec.info.workers == [x] && rec.life.remove.None?
    ensures var next := System(s.w.(steps := map[]), map[], map[x := {Item(obj, rec.(life := rec.life.(remove := Some(now))))}]);
            Turns(s, OnEvent(OnPrune([rec.id]), map[]), now, next, Finished)
  {
    var marked := rec.(life := rec.life.(remove := Some(now)));
    NobodyPruned(s, x, rec, obj, at, now);
    PruneLoopOfOne(rec, at, now, Assistants(s.w.workers));
    assert s.w.steps.Keys == {rec.id} && Lists([rec.id], {rec.id});
    hide PruneLoop, PruneWorkers, PruneSystem, SystemOk, Assistants, Lists, Turns;
    PrunedAlone(s, x, rec, marked, obj, at, now);
    PruneTurn(s, [rec.id], now);
  }

  lemma PruneTurn(s: System<nat>, order: seq<StepId>, now: Time)
    requires SystemOk(s) && Lists(order, s.w.steps.Keys)
    ensures Turns(s, OnEvent(OnPrune(order), map[]), now, PruneSystem(s, order, now, CFG), Finished)
  {
    hide Inv, HeldOk, PruneSystem, PruneLoop;
    assert Prune(s.w, order, now, CFG).steps.Keys <= s.who.Keys;
    hide SystemOk, Prune, PruneWorkers, Lists;
  }

  lemma NobodyPruned(s: System<nat>, x: WorkerId, rec: StepRec, obj: nat, at: Time, now: Time)
    requires Alone(s, x, rec, obj, at) && at <= now <= at + 60
    ensures PruneWorkers(s.w, now, CFG) == s.w
  {
    assert SilentWorkers(s.w.workers, now, CFG) == {};
    NobodySilent(s.w, now, CFG);
  }

  lemma PruneLoopOfOne(rec: StepRec, at: Time, now: Time, assistants: set<WorkerId>)
    requires at <= now <= at + 60 && now != 0
    requires rec.life.status == PENDING || (rec.life.status == FAILED && rec.life.retry == Some(at + 900))
    requires rec.info.stakeholders == {} && rec.life.remove.None?
    ensures var steps := map[rec.id := rec];
            PruneLoop(steps, [rec.id], now, CFG, assistants, {}) == (map[rec.id := rec.(life := rec.life.(remove := Some(now)))], {rec.id})
  {
    var steps, k, marked := map[rec.id := rec], rec.id, rec.(life := rec.life.(remove := Some(now)));
    assert PruneStep(steps, k, now, CFG, assistants) == map[k := marked] by {
      assert FailDead(steps, k, now, CFG, assistants) == steps;
      hide SetStatus, ReEnable;
    }
    hide PruneStep;
    assert [k][1..] == [] && {} + {k} == {k};
  }

  lemma PrunedAlone(s: System<nat>, x: WorkerId, rec: StepRec, marked: StepRec, obj: nat, at: Time, now: Time)
    requires Alone(s, x, rec, obj, at) && marked.info.workers == [x] && PruneWorkers(s.w, now, CFG) == s.w
    requires PruneLoop(s.w.steps, [rec.id], now, CFG, Assistants(s.w.workers), {}) == (map[rec.id := marked], {rec.id})
    ensures PruneSystem(s, [rec.id], now, CFG) == System(s.w.(steps := map[]), map[], map[x := {Item(obj, marked)}])
  {
    hide PruneWorkers, PruneLoop;
    var steps := map[rec.id := marked];
    assert steps - {rec.id} == map[];
    assert RemovedFrom(s, steps, {rec.id}, x) == {Item(obj, marked)} by {
      assert forall it <- RemovedFrom(s, steps, {rec.id}, x) :: it == Item(obj, marked);
      assert rec.id in s.who && rec.id in steps && x in steps[rec.id].info.workers;
      assert Item(s.who[rec.id], steps[rec.id]) in RemovedFrom(s, steps, {rec.id}, x);
    }
    hide RemovedFrom;
    assert {} + {Item(obj, marked)} == {Item(obj, marked)};
  }

  const ASK := WorkArgs(1, false, None)

  /** Worker 1 holds one removed step, may run no active one, and two other steps are pending. */
  ghost predicate Burdened(s: System<nat>, it: Item<nat>) {
    && SystemOk(s) && 1 in s.w.workers && !s.w.workers[1].disabled && !s.w.workers[1].assistant && !s.w.paused && s.w.batchers == map[]
    && s.held[1] == {it} && it.rec.info.deps == {} && it.rec.load.resources == map[]
    && (forall k <- s.w.steps :: 1 !in s.w.steps[k].info.workers)
    && exists j <- s.w.steps, k <- s.w.steps :: s.who[j] != s.who[k] && s.w.steps[j].life.status == PENDING && s.w.steps[k].life.status == PENDING
  }

  lemma {:induction false} LargerSet<T>(a: set<T>, b: set<T>)
    requires a <= b
    ensures |a| <= |b|
  {
    if a != {} {
      var x :| x in a;
      LargerSet(a - {x}, b - {x});
    }
  }

  /** The index lists more pending steps than the worker has. */
  lemma TakesShortcut(s: System<nat>, it: Item<nat>, statuses: set<Status>)
    requires Burdened(s, it) && PENDING in statuses
    ensures WalksOwn(s, 1, statuses) && GetSteps(s, 1, statuses) == HeldWith(s, 1, statuses)
  {
    var j, k :| j in s.w.steps && k in s.w.steps && s.who[j] != s.who[k]
                && s.w.steps[j].life.status == PENDING && s.w.steps[k].life.status == PENDING;
    assert OwnIds(s.w, 1) == {};
    assert StepsOfWorker(s, 1) == {it.obj};
    var filed := Objects(s, StatusIds(s.w, statuses));
    assert {s.who[j], s.who[k]} <= filed;
    LargerSet({s.who[j], s.who[k]}, filed);
  }

  /** What worker 1 sees in `get_work`. */
  lemma SeesHeld(s: System<nat>, it: Item<nat>)
    requires Burdened(s, it)
    ensures GetSteps(s, 1, {RUNNING}) == HeldWith(s, 1, {RUNNING}) || GetSteps(s, 1, {RUNNING}) == {}
    ensures GetSteps(s, 1, {PENDING, FAILED}) == HeldWith(s, 1, {PENDING, FAILED})
    ensures TrivialFor(s, 1) && Scanned(s, 1) == HeldWith(s, 1, {PENDING, RUNNING})
  {
    TakesShortcut(s, it, {PENDING});
    TakesShortcut(s, it, {PENDING, RUNNING});
    TakesShortcut(s, it, {PENDING, FAILED});
    assert OwnIds(s.w, 1) == {};
    hide WalksOwn, SystemOk, Inv;
  }

  /** `get_work` of worker 1 up to the scan changes nothing that matters. */
  lemma StillBurdened(s: System<nat>, it: Item<nat>, now: Time)
    requires Burdened(s, it)
    ensures Burdened(ScanSystem(s, ASK, [], now, CFG), it)
    ensures ScanSystem(s, ASK, [], now, CFG).w.steps == s.w.steps && !PreparedSystem(s, ASK, [], now, CFG).w.workers[1].disabled
  {
    ScanSystemOk(s, ASK, [], now, CFG);
    hide SystemOk;
  }

  /** The rest of the call only depends on the state at the scan. */
  lemma AsksAtScan(s: System<nat>, it: Item<nat>, scan: seq<Item<nat>>, now: Time)
    requires Burdened(s, it)
    requires var s2 := ScanSystem(s, ASK, [], now, CFG); IsScan(s2, 1, scan) && LooksUp(s2, 1, {})
    ensures var turn := OnWork(ASK, [], None, scan, {});
            && PossibleTurn(s, turn, now, CFG) && SystemOk(ScanSystem(s, ASK, [], now, CFG))
            && (forall i <- Decision(ScanSystem(s, ASK, [], now, CFG), ASK, None, scan, now, CFG) ::
                  Gone(ScanSystem(s, ASK, [], now, CFG), i) || i.rec.id in ScanSystem(s, ASK, [], now, CFG).w.steps)
            && SystemNext(s, turn, now, CFG) == ServeSystem(ScanSystem(s, ASK, [], now, CFG), ASK, None, scan, {}, now, CFG)
  {
    assert SystemOk(s);
    hide SystemOk, IsScan, LooksUp, ScanSystem, PreparedSystem, Decision, ServeSystem, Burdened, Gone, ValidResend, Unclaimed;
    StillBurdened(s, it, now);
    ScanSystemOk(s, ASK, [], now, CFG);
    NothingClaimed(PreparedSystem(s, ASK, [], now, CFG).w.steps);
    DecisionIsSeen(ScanSystem(s, ASK, [], now, CFG), ASK, None, scan, now, CFG);
  }

  lemma NothingClaimed(steps: Steps)
    ensures ValidResend(steps, ASK, None)
  {
  }

  /** The worker has no batchers, so that only single steps are handed out. */
  ghost predicate NoBatchers(w: World, x: WorkerId) {
    forall family :: (x, family) !in w.batchers
  }

  lemma NoBatch<O>(w: World, x: WorkerId, q: seq<Item<O>>, i: nat)
    requires NoBatchers(w, x) && i < |q|
    ensures BatchFrom(w, x, q, i) == []
  {
    assert (x, q[i].rec.info.family) !in w.batchers;
  }

  lemma HeldIs(s: System<nat>, it: Item<nat>, statuses: set<Status>)
    requires Burdened(s, it)
    ensures HeldWith(s, 1, statuses) == if it.rec.life.status in statuses then {it} else {}
    ensures SystemOk(s) && 1 in s.w.workers && NoBatchers(s.w, 1) && !s.w.paused && Gone(s, it)
    ensures it.rec.info.deps == {} && it.rec.load.resources == map[]
  {
    assert HeldOk(s, 1);
    hide Inv;
  }

  lemma PendingIsChosen(s: System<nat>, it: Item<nat>, now: Time)
    requires Burdened(s, it) && it.rec.life.status == PENDING && !LookupRaises(s.w.steps, it.rec.id)
    ensures IsScan(s, 1, [it]) && LooksUp(s, 1, {}) && !CountRaises(s, 1)
    ensures Chosen(s, ASK, [it], now, CFG) == [it] && Gone(s, it)
  {
    hide GetSteps, Scanned, SystemOk, WalksOwn, TrivialFor, StopsAt, BatchFrom, HeldOk, LookupRaises, HeldWith, Burdened, NoBatchers, Gone;
    SeesHeld(s, it);
    HeldIs(s, it, {PENDING, RUNNING});
    HeldIs(s, it, {PENDING, FAILED});
    HeldIs(s, it, {RUNNING});
    assert IsScan(s, 1, [it]);
    TrivialStops(s, ASK, [it], 0, now, CFG);
    NoBatch(s.w, 1, [it], 0);
  }

  /** A removed pending step is chosen, and its key is popped. */
  lemma PopsKey(s: System<nat>, it: Item<nat>, now: Time)
    requires Burdened(s, it) && it.rec.life.status == PENDING && !LookupRaises(s.w.steps, it.rec.id)
    ensures var turn := OnWork(ASK, [], None, [it], {});
            PossibleTurn(s, turn, now, CFG) && SystemOk(s) && SystemNext(s, turn, now, CFG).1 == PopOf(s.w.steps, it.rec.id)
  {
    assert SystemOk(s);
    StillBurdened(s, it, now);
    var s2 := ScanSystem(s, ASK, [], now, CFG);
    hide ScanSystem, PreparedSystem, IsScan, LooksUp, Burdened, CountRaises, Chosen, SystemOk, Gone, PossibleTurn, SystemNext, LookupRaises;
    PendingIsChosen(s2, it, now);
    AsksAtScan(s, it, [it], now);
  }

  lemma FailedIsLookedUp(s: System<nat>, it: Item<nat>)
    requires Burdened(s, it) && it.rec.life.status == FAILED && LookupRaises(s.w.steps, it.rec.id)
    ensures IsScan(s, 1, []) && LooksUp(s, 1, {}) && CountRaises(s, 1)
  {
    hide GetSteps, Scanned, SystemOk, WalksOwn, TrivialFor, HeldOk, LookupRaises, HeldWith, Burdened, NoBatchers, Gone;
    SeesHeld(s, it);
    HeldIs(s, it, {PENDING, RUNNING});
    HeldIs(s, it, {PENDING, FAILED});
    HeldIs(s, it, {RUNNING});
    assert it in GetSteps(s, 1, {RUNNING}) + GetSteps(s, 1, {PENDING, FAILED});
  }

  /** A removed failed step whose id is DONE again makes the count fail. */
  lemma FailsLookup(s: System<nat>, it: Item<nat>, now: Time)
    requires Burdened(s, it) && it.rec.life.status == FAILED && LookupRaises(s.w.steps, it.rec.id)
    ensures var turn := OnWork(ASK, [], None, [], {});
            PossibleTurn(s, turn, now, CFG) && SystemOk(s) && SystemNext(s, turn, now, CFG).1 == LookupFailed
  {
    assert SystemOk(s);
    StillBurdened(s, it, now);
    var s2 := ScanSystem(s, ASK, [], now, CFG);
    hide ScanSystem, PreparedSystem, IsScan, LooksUp, Burdened, CountRaises, SystemOk, PossibleTurn, SystemNext, LookupRaises, Decision;
    FailedIsLookedUp(s2, it);
    AsksAtScan(s, it, [], now);
  }

  /** Worker 1 asks for work in the last state. */
  ghost predicate AskingEndsIn(systems: seq<System<nat>>, calls: seq<SystemCall<nat>>, turn: Turn<nat>, now: Time, outcome: Outcome) {
    turn.OnWork? && LastEndsIn(systems, calls, turn, now, outcome)
  }

  /** The turn comes after the run, and ends like that. */
  ghost predicate LastEndsIn(systems: seq<System<nat>>, calls: seq<SystemCall<nat>>, turn: Turn<nat>, now: Time, outcome: Outcome) {
    && IsSystemRun(systems, calls, CFG) && |systems| == |calls| + 1
    && SystemOk(systems[|calls|]) && PossibleTurn(systems[|calls|], turn, now, CFG)
    && SystemNext(systems[|calls|], turn, now, CFG).1 == outcome
  }

  /** An assistant reports step 5. */
  lemma ReportedByAssistant() returns (systems: seq<System<nat>>, calls: seq<SystemCall<nat>>)
    ensures IsSystemRun(systems, calls, CFG) && |systems| == |calls| + 1
    ensures Alone(systems[|calls|], 1, ClaimedRec(1, 5, PENDING, true, 1), 0, 1)
  {
    hide LeadsTo;
    systems, calls := [Start(map[])], [];
    systems, calls := ReportFirst(systems, calls, 1, 5, PENDING, true, 0, 1);
  }

  /** `prune` removes the step, because it has no stakeholder. */
  lemma RemovedAtOnce(failed: bool) returns (systems: seq<System<nat>>, calls: seq<SystemCall<nat>>, it: Item<nat>)
    ensures IsSystemRun(systems, calls, CFG) && |systems| == |calls| + 1
    ensures it.obj == 0 && it.rec.id == 5 && it.rec.life.status == (if failed then FAILED else PENDING)
    ensures it.rec.info.deps == {} && it.rec.load.resources == map[]
    ensures systems[|calls|] == System(World(map[], map[1 := WorkerRec(if failed then 2 else 1, None, false, 1, false)], map[], map[], false),
                                       map[], map[1 := {it}])
  {
    hide IsSystemRun, Turns, SystemOk;
    systems, calls := ReportedByAssistant();
    LastIsOk(systems, calls);
    var rec, at := ClaimedRec(1, 5, PENDING, true, 1), 1;
    if failed {
      FailReportIsTurn(systems[|calls|], 1, 5, 1, 0, 2);
      rec, at := FailedRec(rec, 2), 2;
      systems, calls := GoOn(systems, calls, OnEvent(OnAddStep(Claim(1, 5, FAILED, true), None), Born(5, 0)), 2,
                             Joined(systems[|calls|], 1, rec, 0, 2));
      LastIsOk(systems, calls);
    }
    PruneIsTurn(systems[|calls|], 1, rec, 0, at, 3);
    it := Item(0, rec.(life := rec.life.(remove := Some(3))));
    systems, calls := GoOn(systems, calls, OnEvent(OnPrune([5]), map[]), 3, System(systems[|calls|].w.(steps := map[]), map[], map[1 := {it}]));
  }

  lemma LastIsOk(systems: seq<System<nat>>, calls: seq<SystemCall<nat>>)
    requires IsSystemRun(systems, calls, CFG)
    ensures |systems| == |calls| + 1 && SystemOk(systems[|calls|])
  {
    ReachableSystemsAreOk(systems, calls, CFG);
    assert systems[|calls|] in systems;
  }

  /** Worker 1 holds a removed step, and worker 2 has reported steps; their objects are numbered up to `n`. */
  ghost predicate Carrying(s: System<nat>, it: Item<nat>, statuses: map<StepId, Status>, n: nat) {
    && 1 in s.w.workers && !s.w.workers[1].disabled && !s.w.workers[1].assistant && !s.w.paused && s.w.batchers == map[]
    && (2 in s.w.workers ==> !s.w.workers[2].disabled)
    && 1 in s.held && s.held[1] == {it} && (forall y <- s.held :: forall i <- s.held[y] :: i.obj <= n)
    && s.w.steps.Keys == s.who.Keys == statuses.Keys
    && (forall k <- statuses :: s.w.steps[k].life.status == statuses[k] != BATCH_RUNNING && s.w.steps[k].info.workers == [2] && s.who[k] <= n)
    && (forall j <- statuses, k <- statuses :: j != k ==> s.who[j] != s.who[k])
  }

  lemma CarriesOn(s: System<nat>, it: Item<nat>, statuses: map<StepId, Status>, n: nat, id: StepId, status: Status, now: Time)
    requires Carrying(s, it, statuses, n) && id !in statuses && (status == PENDING || status == DONE)
    ensures IsNew(s, 2, id, status, n + 1)
    ensures Carrying(Joined(s, 2, ClaimedRec(2, id, status, false, now), n + 1, now), it, statuses[id := status], n + 1)
  {
  }

  lemma CarriesEnough(s: System<nat>, it: Item<nat>, statuses: map<StepId, Status>, n: nat)
    requires Carrying(s, it, statuses, n) && SystemOk(s) && it.rec.info.deps == {} && it.rec.load.resources == map[]
    requires 10 in statuses && 11 in statuses && statuses[10] == statuses[11] == PENDING
    ensures Burdened(s, it)
  {
    assert s.who[10] != s.who[11];
    assert s.w.steps[10].life.status == PENDING && s.w.steps[11].life.status == PENDING;
    hide SystemOk;
  }

  /** The run goes on with the report of another step by worker 2. */
  lemma ReportNext(systems: seq<System<nat>>, calls: seq<SystemCall<nat>>, it: Item<nat>, statuses: map<StepId, Status>, n: nat,
                   id: StepId, status: Status, now: Time)
      returns (next: seq<System<nat>>, more: seq<SystemCall<nat>>)
    requires IsSystemRun(systems, calls, CFG) && |systems| == |calls| + 1 && Carrying(systems[|calls|], it, statuses, n)
    requires id !in statuses && (status == PENDING || status == DONE)
    ensures IsSystemRun(next, more, CFG) && |next| == |more| + 1 && Carrying(next[|more|], it, statuses[id := status], n + 1)
  {
    hide LeadsTo, Carrying, IsNew, ClaimedRec, Joined;
    CarriesOn(systems[|calls|], it, statuses, n, id, status, now);
    next, more := ReportFirst(systems, calls, 2, id, status, false, n + 1, now);
  }

  lemma RemovedCarries(failed: bool)
      returns (systems: seq<System<nat>>, calls: seq<SystemCall<nat>>, it: Item<nat>, statuses: map<StepId, Status>)
    ensures IsSystemRun(systems, calls, CFG) && |systems| == |calls| + 1 && statuses == map[] && Carrying(systems[|calls|], it, statuses, 0)
    ensures it.rec.info.deps == {} && it.rec.load.resources == map[]
    ensures it.rec.id == 5 && it.rec.life.status == if failed then FAILED else PENDING
  {
    hide IsSystemRun;
    systems, calls, it := RemovedAtOnce(failed);
    statuses := map[];
  }

  /** Another worker then reports three steps. */
  lemma ReportedAfterwards(failed: bool, id: StepId, status: Status)
      returns (systems: seq<System<nat>>, calls: seq<SystemCall<nat>>, it: Item<nat>)
    requires id != 10 && id != 11 && (status == PENDING || status == DONE)
    ensures IsSystemRun(systems, calls, CFG) && |systems| == |calls| + 1 && Burdened(systems[|calls|], it)
    ensures it.rec.id == 5 && it.rec.life.status == if failed then FAILED else PENDING
    ensures var steps := systems[|calls|].w.steps; steps.Keys == {id, 10, 11} && steps[id].life.status == status
  {
    hide IsSystemRun, Burdened, SystemOk, Carrying;
    var statuses: map<StepId, Status>;
    systems, calls, it, statuses := RemovedCarries(failed);
    systems, calls := ReportNext(systems, calls, it, statuses, 0, id, status, 4);
    statuses := statuses[id := status];
    systems, calls := ReportNext(systems, calls, it, statuses, 1, 10, PENDING, 5);
    statuses := statuses[10 := PENDING];
    systems, calls := ReportNext(systems, calls, it, statuses, 2, 11, PENDING, 6);
    statuses := statuses[11 := PENDING];
    LastIsOk(systems, calls);
    CarriesEnough(systems[|calls|], it, statuses, 3);
    StatusesOf(systems[|calls|], it, statuses, 3);
  }

  lemma StatusesOf(s: System<nat>, it: Item<nat>, statuses: map<StepId, Status>, n: nat)
    requires Carrying(s, it, statuses, n)
    ensures s.w.steps.Keys == statuses.Keys && forall k <- statuses :: s.w.steps[k].life.status == statuses[k]
  {
  }

  /** The id of the removed step is not in the index any more: granting the step raises a KeyError. */
  lemma MissingKeyIsReached() returns (systems: seq<System<nat>>, calls: seq<SystemCall<nat>>, turn: Turn<nat>)
    ensures AskingEndsIn(systems, calls, turn, 7, MissingKey)
  {
    hide IsSystemRun, SystemOk, Burdened, PossibleTurn, SystemNext;
    var it;
    systems, calls, it := ReportedAfterwards(false, 12, PENDING);
    turn := OnWork(ASK, [], None, [it], {});
    LastIsOk(systems, calls);
    PopsKey(systems[|calls|], it, 7);
  }

  /** A step with the same id is pending again: granting the removed one takes it out of the index. */
  lemma ForeignKeyIsReached() returns (systems: seq<System<nat>>, calls: seq<SystemCall<nat>>, turn: Turn<nat>)
    ensures AskingEndsIn(systems, calls, turn, 7, ForeignKey)
  {
    hide IsSystemRun, SystemOk, Burdened, PossibleTurn, SystemNext;
    var it;
    systems, calls, it := ReportedAfterwards(false, 5, PENDING);
    turn := OnWork(ASK, [], None, [it], {});
    LastIsOk(systems, calls);
    PopsKey(systems[|calls|], it, 7);
  }

  /** The removed step had failed, and a step with the same id is done: counting the steps raises a KeyError. */
  lemma LookupFailureIsReached() returns (systems: seq<System<nat>>, calls: seq<SystemCall<nat>>, turn: Turn<nat>)
    ensures AskingEndsIn(systems, calls, turn, 7, LookupFailed)
  {
    hide IsSystemRun, SystemOk, Burdened, PossibleTurn, SystemNext;
    var it;
    systems, calls, it := ReportedAfterwards(true, 5, DONE);
    turn := OnWork(ASK, [], None, [], {});
    LastIsOk(systems, calls);
    FailsLookup(systems[|calls|], it, 7);
  }

  // ---------------------------------------------------------------- exceptions without removed steps

  /** A worker reports that a step runs which was not granted; decreasing its resources raises an exception, although
      all calls are quiet. */
  lemma NoRunningResourcesIsReached() returns (systems: seq<System<nat>>, calls: seq<SystemCall<nat>>, turn: Turn<nat>)
    ensures LastEndsIn(systems, calls, turn, 2, NoRunningResources)
    ensures QuietTurn(turn) && forall c <- calls :: QuietTurn(c.turn)
  {
    hide IsSystemRun, SystemOk;
    systems, calls := ReportedRunning();
    LastIsOk(systems, calls);
    var s := systems[|calls|];
    turn := OnEvent(OnDecrease(5, map[0 := 1], {}), map[]);
    assert PossibleTurn(s, turn, 2, CFG);
  }

  lemma ReportedRunning() returns (systems: seq<System<nat>>, calls: seq<SystemCall<nat>>)
    ensures IsSystemRun(systems, calls, CFG) && |systems| == |calls| + 1 && forall c <- calls :: QuietTurn(c.turn)
    ensures var s := systems[|calls|];
            && s.w.steps == map[5 := ClaimedRec(1, 5, RUNNING, false, 1)] && s.who == map[5 := 0]
  {
    systems, calls := [Start<nat>(map[])], [];
    assert IsSystemRun(systems, calls, CFG);
    hide IsSystemRun;
    systems, calls := ReportFirst(systems, calls, 1, 5, RUNNING, false, 0, 1);
  }

  /** The report of a step that runs as a batch, of which no member is running. */
  const LONELY := Claim(1, 5, RUNNING, false).(batchId := Some([1, 2]))

  /** The report looks in vain for running resources to copy. */
  lemma NoBatchResourcesIsReached() returns (systems: seq<System<nat>>, calls: seq<SystemCall<nat>>, turn: Turn<nat>)
    ensures LastEndsIn(systems, calls, turn, 1, NoBatchResources)
  {
    systems, calls := [Start<nat>(map[])], [];
    assert IsSystemRun(systems, calls, CFG);
    var s := systems[0];
    turn := OnEvent(OnAddStep(LONELY, None), Born(5, 0));
    FirstReport(s.w, LONELY, None, 1, CFG);
    hide AddStep;
    assert Next(s.w, OnAddStep(LONELY, None), 1, CFG).steps.Keys == {5};
    assert PossibleTurn(s, turn, 1, CFG);
    hide EventSystem;
  }
}
