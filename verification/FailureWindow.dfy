/**
 The failure window of a step.  The source keeps a queue of failure times and pops old ones from its
 front whenever it counts.  In every run of the scheduler with a clock that does not go back, the count is
 that of the failures inside the window, among all that the run has brought since they were last cleared.
 */
module FailureWindow {
  import opened Options
  import opened Sequences
  import opened SchedulerModel
  import opened SchedulerInvariants

  // ---------------------------------------------------------------- the failures of a run

  /** What a call does to the failures of one step. */
  datatype Mark = Failed | Cleared

  /** The failures since the last clearing, after some marks at one time. */
  function Marked(h: seq<Time>, marks: seq<Mark>, now: Time): seq<Time>
    decreases |marks|
  {
    if marks == [] then h
    else Marked(if marks[0].Cleared? then [] else h + [now], marks[1..], now)
  }

  /** A failure counts unless the step is disabled or the change is refused; a disabled step that is DONE is forgiven. */
  function MarksOfSet(l: Life, target: Status): seq<Mark> {
    if target == FAILED && l.status != DISABLED && !Refused(l, FAILED) then [Failed]
    else if target == DONE && l.status == DISABLED then [Cleared]
    else []
  }

  /** A status change also reaches the members of the batch that the step leaves. */
  function MarksOfStatus(steps: Steps, id: StepId, target: Status, k: StepId): seq<Mark> {
    if k !in steps || id !in steps then []
    else if k == id || (!Refused(steps[id].life, target) && LeavesBatch(steps[id].life, target) && InBatch(steps[k], steps[id].life.batchId))
    then MarksOfSet(steps[k].life, target)
    else []
  }

  function MarksOfReEnable(steps: Steps, id: StepId, k: StepId): seq<Mark>
    requires id in steps
  {
    if k == id then [Cleared] else MarksOfStatus(steps[id := Forgiven(steps[id])], id, FAILED, k)
  }

  function MarksOfFailDead(steps: Steps, id: StepId, assistants: set<WorkerId>, k: StepId): seq<Mark>
    requires id in steps
  {
    if Orphaned(steps[id], assistants) then MarksOfStatus(steps[id := Freed(steps[id])], id, FAILED, k) else []
  }

  function MarksOfUpdate(steps: Steps, id: StepId, now: Time, cfg: Config, k: StepId): seq<Mark>
    requires id in steps
  {
    var marked := steps[id := MarkUnwanted(steps[id], now, cfg)];
    if DisableExpired(marked[id], now, cfg) then MarksOfReEnable(marked, id, k) else []
  }

  function MarksOfPruneStep(steps: Steps, id: StepId, now: Time, cfg: Config, assistants: set<WorkerId>, k: StepId): seq<Mark>
    requires id in steps
  {
    var failed := FailDead(steps, id, now, cfg, assistants);
    MarksOfFailDead(steps, id, assistants, k) + if id in failed then MarksOfUpdate(failed, id, now, cfg, k) else []
  }

  function MarksOfLoop(steps: Steps, order: seq<StepId>, now: Time, cfg: Config, assistants: set<WorkerId>, k: StepId): seq<Mark>
    decreases |order|
  {
    if order == [] || order[0] !in steps then []
    else MarksOfPruneStep(steps, order[0], now, cfg, assistants, k)
         + MarksOfLoop(PruneStep(steps, order[0], now, cfg, assistants), order[1..], now, cfg, assistants, k)
  }

  function MarksOfPrune(w: World, order: seq<StepId>, now: Time, cfg: Config, k: StepId): seq<Mark> {
    var w1 := PruneWorkers(w, now, cfg);
    MarksOfLoop(w1.steps, order, now, cfg, Assistants(w1.workers), k)
  }

  function MarksOfReport(steps: Steps, a: AddArgs, k: StepId): seq<Mark>
    requires a.id in steps
  {
    var unmarked := steps[a.id := Unmark(steps[a.id], a)];
    if MayReport(unmarked[a.id], a) then MarksOfStatus(unmarked, a.id, if a.status == SUSPENDED then PENDING else a.status, k) else []
  }

  function MarksOfAddStep(w: World, a: AddArgs, pick: Option<StepId>, now: Time, cfg: Config, k: StepId): seq<Mark> {
    var start := AddStepStart(w.steps, a, pick, now, cfg);
    if Ignored(w.steps, a, !Touch(w.workers, a.worker, false, now)[a.worker].disabled, now, cfg) || start.None? then []
    else MarksOfReport(start.value, a, k)
  }

  /** What the call does to the failures of step `k`. */
  function MarksOf(w: World, e: Event, now: Time, cfg: Config, k: StepId): seq<Mark> {
    match e
    case OnAddStep(a, pick) => MarksOfAddStep(w, a, pick, now, cfg, k)
    case OnPrune(order) => MarksOfPrune(w, order, now, cfg, k)
    case OnGetWork(a, c) => if cfg.pruneOnGetWork then MarksOfPrune(w, c.pruneOrder, now, cfg, k) else []
    case OnMarkAsDone(id) => MarksOfStatus(w.steps, id, DONE, k)
    case OnReEnable(id) =>
      if id in w.steps && w.steps[id].life.status == DISABLED && Truthy(w.steps[id].life.disableTime)
      then MarksOfReEnable(w.steps, id, k) else []
    case _ => []
  }

  /** The failures of step `k` since they were last cleared, or since the step was added. */
  ghost function History(worlds: seq<World>, calls: seq<Call>, cfg: Config, k: StepId): seq<Time>
    requires |worlds| == |calls| + 1
  {
    if calls == [] then [] else
    var n := |calls| - 1;
    var before := if k in worlds[n].steps then History(worlds[..n+1], calls[..n], cfg, k) else [];
    Marked(before, MarksOf(worlds[n], calls[n].event, calls[n].now, cfg, k), calls[n].now)
  }

  // ---------------------------------------------------------------- histories and queues

  function InWindow(h: seq<Time>, minTime: Time): seq<Time> {
    if h == [] then [] else
    var rest := InWindow(h[..|h|-1], minTime);
    if h[|h|-1] >= minTime then rest + [h[|h|-1]] else rest
  }

  predicate InOrder(h: seq<Time>, last: Time) {
    && (forall i, j :: 0 <= i < j < |h| ==> h[i] <= h[j])
    && (forall t <- h :: t <= last)
  }

  /** The queue is the history without some entries that left the window before `last`. */
  predicate Tracks(queue: seq<Time>, h: seq<Time>, window: int, last: Time) {
    InOrder(h, last) && |queue| <= |h| && OldPart(h, h[..|h| - |queue|], queue, last - window)
  }

  predicate OldPart(h: seq<Time>, gone: seq<Time>, queue: seq<Time>, minTime: Time) {
    h == gone + queue && forall i :: 0 <= i < |gone| ==> gone[i] < minTime
  }

  /** What is dropped is a prefix of old entries. */
  lemma {:induction false} DropOldIsSuffix(q: seq<Time>, minTime: Time) returns (gone: seq<Time>)
    ensures OldPart(q, gone, DropOld(q, minTime), minTime)
    ensures DropOld(q, minTime) != [] ==> DropOld(q, minTime)[0] >= minTime
  {
    gone := [];
    if q != [] && q[0] < minTime {
      var rest := DropOldIsSuffix(q[1..], minTime);
      gone := [q[0]] + rest;
      assert q == [q[0]] + q[1..];
    }
  }

  lemma {:induction false} AllOld(h: seq<Time>, minTime: Time)
    requires forall i :: 0 <= i < |h| ==> h[i] < minTime
    ensures InWindow(h, minTime) == []
  {
    if h != [] {
      AllOld(h[..|h|-1], minTime);
    }
  }

  lemma {:induction false} AllRecent(h: seq<Time>, recent: seq<Time>, minTime: Time)
    requires forall i :: 0 <= i < |recent| ==> recent[i] >= minTime
    ensures InWindow(h + recent, minTime) == InWindow(h, minTime) + recent
  {
    if recent == [] {
      assert h + recent == h;
    } else {
      var n := |recent| - 1;
      assert (h + recent)[..|h| + n] == h + recent[..n];
      assert recent == recent[..n] + [recent[n]];
      AllRecent(h, recent[..n], minTime);
    }
  }

  /** Counting later than `last` gives the failures in the window, however often the queue was pruned before. */
  lemma RecentIsInWindow(queue: seq<Time>, h: seq<Time>, window: int, last: Time, now: Time)
    requires Tracks(queue, h, window, last) && last <= now
    ensures DropOld(queue, now - window) == InWindow(h, now - window)
    ensures Tracks(DropOld(queue, now - window), h, window, now) && Tracks(queue, h, window, now)
  {
    Later(h, last, now);
    hide InOrder, DropOld, InWindow, OldPart;
    StillOld(h, h[..|h| - |queue|], queue, last - window, now - window);
    IsTracked(h, h[..|h| - |queue|], queue, window, now);
    var more := DropOldIsSuffix(queue, now - window);
    CutMore(queue, h, window, now, more, DropOld(queue, now - window));
  }

  lemma StillOld(h: seq<Time>, gone: seq<Time>, queue: seq<Time>, before: Time, minTime: Time)
    requires OldPart(h, gone, queue, before) && before <= minTime
    ensures OldPart(h, gone, queue, minTime)
  {
  }

  /** The old entries that are dropped now, behind those that were dropped before. */
  lemma CutMore(queue: seq<Time>, h: seq<Time>, window: int, now: Time, more: seq<Time>, r: seq<Time>)
    requires Tracks(queue, h, window, now) && OldPart(queue, more, r, now - window)
    requires r != [] ==> r[0] >= now - window
    ensures r == InWindow(h, now - window) && Tracks(r, h, window, now)
  {
    hide InOrder, InWindow;
    var gone := h[..|h| - |queue|];
    assert gone + more + r == gone + (more + r);
    IsTracked(h, gone + more, r, window, now);
    AllOld(gone + more, now - window);
    forall i | 0 <= i < |r|
      ensures r[i] >= now - window
    {
      SuffixInOrder(gone + more, r, i, now);
    }
    AllRecent(gone + more, r, now - window);
  }

  lemma Later(h: seq<Time>, last: Time, now: Time)
    requires InOrder(h, last) && last <= now
    ensures InOrder(h, now)
  {
  }

  lemma NothingTracked(window: int, now: Time)
    ensures Tracks([], [], window, now)
  {
  }

  lemma IsTracked(h: seq<Time>, gone: seq<Time>, queue: seq<Time>, window: int, last: Time)
    requires InOrder(h, last) && OldPart(h, gone, queue, last - window)
    ensures Tracks(queue, h, window, last)
  {
    assert h[..|h| - |queue|] == gone;
  }

  lemma SuffixInOrder(gone: seq<Time>, r: seq<Time>, i: nat, last: Time)
    requires InOrder(gone + r, last) && i < |r|
    ensures r[0] <= r[i]
  {
    assert (gone + r)[|gone|] == r[0] && (gone + r)[|gone| + i] == r[i];
  }

  lemma OneMoreFailure(queue: seq<Time>, h: seq<Time>, window: int, last: Time, now: Time)
    requires Tracks(queue, h, window, last) && last <= now
    ensures Tracks(queue + [now], h + [now], window, now)
  {
    var gone := h[..|h| - |queue|];
    assert h + [now] == gone + (queue + [now]);
    forall i, j | 0 <= i < j < |h + [now]|
      ensures (h + [now])[i] <= (h + [now])[j]
    {
      assert h[i] in h;
    }
    IsTracked(h + [now], gone, queue + [now], window, now);
  }

  lemma {:induction false} MarkedMore(h: seq<Time>, first: seq<Mark>, second: seq<Mark>, now: Time)
    ensures Marked(h, first + second, now) == Marked(Marked(h, first, now), second, now)
    decreases |first|
  {
    if first == [] {
      assert first + second == second;
    } else {
      assert (first + second)[0] == first[0] && (first + second)[1..] == first[1..] + second;
      MarkedMore(if first[0].Cleared? then [] else h + [now], first[1..], second, now);
    }
  }

  // ---------------------------------------------------------------- what one step records

  /** The first failure time is that of the first failure, unless the clock was at zero. */
  predicate FirstIs(first: Option<Time>, h: seq<Time>) {
    (forall t <- h :: t > 0) ==> first == if h == [] then None else Some(h[0])
  }

  predicate Follows(l: Life, h: seq<Time>, window: int, last: Time) {
    Tracks(l.failures, h, window, last) && FirstIs(l.firstFailure, h)
  }

  predicate Records(s: StepRec, h: seq<Time>, window: int, last: Time) {
    s.info.policy.window == window && Follows(s.life, h, window, last)
  }

  lemma FollowsLater(l: Life, h: seq<Time>, window: int, last: Time, now: Time)
    requires Follows(l, h, window, last) && last <= now
    ensures Follows(l, h, window, now)
  {
    hide Tracks, FirstIs;
    RecentIsInWindow(l.failures, h, window, last, now);
  }

  lemma FollowsCleared(l: Life, window: int, now: Time)
    ensures Follows(ClearFailures(l), [], window, now)
  {
    NothingTracked(window, now);
  }

  /** `add_failure` and the check after it. */
  lemma FailFollows(l: Life, policy: RetryPolicy, removeOnFailure: bool, now: Time, cfg: Config, h: seq<Time>, last: Time)
    requires Follows(l, h, policy.window, last) && last <= now
    ensures Follows(Fail(l, policy, removeOnFailure, now, cfg), h + [now], policy.window, now)
  {
    hide Tracks, FirstIs, DropOld, Fail;
    OneMoreFailure(l.failures, h, policy.window, last, now);
    FirstOfMore(l.firstFailure, h, now);
    RecentIsInWindow(l.failures + [now], h + [now], policy.window, now, now);
    FailShape(l, policy, removeOnFailure, now, cfg);
  }

  lemma FailShape(l: Life, policy: RetryPolicy, removeOnFailure: bool, now: Time, cfg: Config)
    ensures var m, q := Fail(l, policy, removeOnFailure, now, cfg), l.failures + [now];
            && (m.failures == q || m.failures == DropOld(q, now - policy.window))
            && m.firstFailure == if Truthy(l.firstFailure) then l.firstFailure else Some(now)
  {
  }

  lemma FirstOfMore(first: Option<Time>, h: seq<Time>, now: Time)
    requires FirstIs(first, h)
    ensures FirstIs(if Truthy(first) then first else Some(now), h + [now])
  {
    var more := h + [now];
    if forall t <- more :: t > 0 {
      assert forall t <- h :: t in more;
      if h != [] {
        assert h[0] in h && more[0] == h[0];
      }
    }
  }

  /** Apart from failures and forgiveness, a status change leaves the record alone. */
  lemma SetLifeShape(l: Life, batchable: bool, policy: RetryPolicy, target: Status, now: Time, cfg: Config, h: seq<Time>)
    ensures var m, marks := SetLife(l, batchable, policy, target, now, cfg), MarksOfSet(l, target);
            && (marks == [Failed] || marks == [Cleared] || marks == [])
            && (marks == [Failed] ==>
                  && Marked(h, marks, now) == h + [now]
                  && exists unbatched: Life, remove: bool ::
                       && unbatched.failures == l.failures && unbatched.firstFailure == l.firstFailure
                       && m == Fail(unbatched, policy, remove, now, cfg))
            && (marks == [Cleared] ==> Marked(h, marks, now) == [] && m.failures == [] && m.firstFailure == None)
            && (marks == [] ==> m.failures == l.failures && m.firstFailure == l.firstFailure)
  {
    hide Fail;
    assert Marked(h, [Failed], now) == Marked(h + [now], [], now) && Marked(h, [Cleared], now) == Marked([], [], now);
    var unbatched := if LeavesBatch(l, target) then l.(batchId := None) else l;
    var m := SetLife(l, batchable, policy, target, now, cfg);
    if MarksOfSet(l, target) == [Failed] {
      assert m == Fail(unbatched, policy, l.batchId.Some? && !batchable, now, cfg);
    }
  }

  lemma SetLifeFollows(l: Life, batchable: bool, policy: RetryPolicy, target: Status, now: Time, cfg: Config, h: seq<Time>, last: Time)
    requires Follows(l, h, policy.window, last) && last <= now
    ensures Follows(SetLife(l, batchable, policy, target, now, cfg), Marked(h, MarksOfSet(l, target), now), policy.window, now)
  {
    hide Tracks, FirstIs, Fail, SetLife, MarksOfSet;
    SetLifeShape(l, batchable, policy, target, now, cfg, h);
    FollowsLater(l, h, policy.window, last, now);
    FollowsCleared(l, policy.window, now);
    if MarksOfSet(l, target) == [Failed] {
      var unbatched: Life, remove: bool :| unbatched.failures == l.failures && unbatched.firstFailure == l.firstFailure
        && SetLife(l, batchable, policy, target, now, cfg) == Fail(unbatched, policy, remove, now, cfg);
      FailFollows(unbatched, policy, remove, now, cfg, h, last);
    }
  }

  lemma SetOneRecords(s: StepRec, target: Status, now: Time, cfg: Config, h: seq<Time>, window: int, last: Time)
    requires Records(s, h, window, last) && last <= now
    ensures Records(SetOne(s, target, now, cfg), Marked(h, MarksOfSet(s.life, target), now), window, now)
  {
    SetLifeFollows(s.life, s.info.batchable, s.info.policy, target, now, cfg, h, last);
    hide Follows, SetLife, Marked;
  }

  lemma RecordsLater(s: StepRec, h: seq<Time>, window: int, last: Time, now: Time)
    requires Records(s, h, window, last) && last <= now
    ensures Records(s, h, window, now)
  {
    hide Follows;
    FollowsLater(s.life, h, window, last, now);
  }

  // ---------------------------------------------------------------- what the calls do

  lemma SetStatusRecords(steps: Steps, id: StepId, target: Status, now: Time, cfg: Config, k: StepId, h: seq<Time>, window: int, last: Time)
    requires id in steps && k in steps && Records(steps[k], h, window, last) && last <= now
    ensures k in SetStatus(steps, id, target, now, cfg)
    ensures Records(SetStatus(steps, id, target, now, cfg)[k], Marked(h, MarksOfStatus(steps, id, target, k), now), window, now)
  {
    SetStatusAt(steps, id, target, now, cfg, k);
    SetOneRecords(steps[k], target, now, cfg, h, window, last);
    RecordsLater(steps[k], h, window, last, now);
    hide SetStatus, SetOne, MarksOfSet, Tracks, FirstIs;
  }

  lemma ReEnableRecords(steps: Steps, id: StepId, now: Time, cfg: Config, k: StepId, h: seq<Time>, window: int, last: Time)
    requires id in steps && k in steps && Records(steps[k], h, window, last) && last <= now
    ensures k in ReEnable(steps, id, now, cfg)
    ensures Records(ReEnable(steps, id, now, cfg)[k], Marked(h, MarksOfReEnable(steps, id, k), now), window, now)
  {
    var cleared := steps[id := Forgiven(steps[id])];
    SetStatusAt(cleared, id, FAILED, now, cfg, id);
    hide SetStatus, MarksOfStatus, Tracks, FirstIs;
    if k == id {
      var failed := SetStatus(cleared, id, FAILED, now, cfg);
      FollowsCleared(failed[id].life, window, now);
    } else {
      SetStatusRecords(cleared, id, FAILED, now, cfg, k, h, window, last);
    }
  }

  lemma FailDeadRecords(steps: Steps, id: StepId, now: Time, cfg: Config, assistants: set<WorkerId>, k: StepId,
                        h: seq<Time>, window: int, last: Time)
    requires id in steps && k in steps && Records(steps[k], h, window, last) && last <= now
    ensures k in FailDead(steps, id, now, cfg, assistants) && id in FailDead(steps, id, now, cfg, assistants)
    ensures Records(FailDead(steps, id, now, cfg, assistants)[k], Marked(h, MarksOfFailDead(steps, id, assistants, k), now), window, now)
  {
    hide SetStatus, MarksOfStatus, Tracks, FirstIs;
    RecordsLater(steps[k], h, window, last, now);
    if Orphaned(steps[id], assistants) {
      var freed := steps[id := Freed(steps[id])];
      SetStatusAt(freed, id, FAILED, now, cfg, id);
      SetStatusRecords(freed, id, FAILED, now, cfg, k, h, window, last);
    }
  }

  lemma UpdateRecords(steps: Steps, id: StepId, now: Time, cfg: Config, k: StepId, h: seq<Time>, window: int, last: Time)
    requires id in steps && k in steps && Records(steps[k], h, window, last) && last <= now
    ensures k in UpdateStatus(steps, id, now, cfg)
    ensures Records(UpdateStatus(steps, id, now, cfg)[k], Marked(h, MarksOfUpdate(steps, id, now, cfg, k), now), window, now)
  {
    hide SetStatus, ReEnable, MarksOfReEnable, Tracks, FirstIs;
    var marked := steps[id := MarkUnwanted(steps[id], now, cfg)];
    assert Records(marked[k], h, window, last);
    hide MarkUnwanted, DisableExpired, RetryDue;
    RecordsLater(marked[k], h, window, last, now);
    ReEnableRecords(marked, id, now, cfg, k, h, window, last);
    ReEnableOk(marked, id, now, cfg);
    hide Records;
    var enabled := if DisableExpired(marked[id], now, cfg) then ReEnable(marked, id, now, cfg) else marked;
    var more := Marked(h, MarksOfUpdate(steps, id, now, cfg, k), now);
    SetStatusRecords(enabled, id, PENDING, now, cfg, k, more, window, now);
    PendingMarksNothing(enabled, id, k);
  }

  lemma PendingMarksNothing(steps: Steps, id: StepId, k: StepId)
    ensures forall target <- [PENDING, RUNNING, BATCH_RUNNING] :: MarksOfStatus(steps, id, target, k) == []
  {
  }

  lemma PruneStepRecords(steps: Steps, id: StepId, now: Time, cfg: Config, assistants: set<WorkerId>, k: StepId,
                         h: seq<Time>, window: int, last: Time)
    requires id in steps && k in steps && Records(steps[k], h, window, last) && last <= now
    ensures k in PruneStep(steps, id, now, cfg, assistants)
    ensures Records(PruneStep(steps, id, now, cfg, assistants)[k], Marked(h, MarksOfPruneStep(steps, id, now, cfg, assistants, k), now), window, now)
  {
    hide FailDead, UpdateStatus, Records, MarksOfFailDead, MarksOfUpdate, Marked;
    FailDeadRecords(steps, id, now, cfg, assistants, k, h, window, last);
    var failed := FailDead(steps, id, now, cfg, assistants);
    var h1 := Marked(h, MarksOfFailDead(steps, id, assistants, k), now);
    UpdateRecords(failed, id, now, cfg, k, h1, window, now);
    MarkedMore(h, MarksOfFailDead(steps, id, assistants, k), MarksOfUpdate(failed, id, now, cfg, k), now);
  }

  lemma {:induction false} LoopRecords(steps: Steps, order: seq<StepId>, now: Time, cfg: Config, assistants: set<WorkerId>,
                                       doomed: set<StepId>, k: StepId, h: seq<Time>, window: int, last: Time)
    requires (forall id <- order :: id in steps) && k in steps && Records(steps[k], h, window, last) && last <= now
    ensures Records(PruneLoop(steps, order, now, cfg, assistants, doomed).0[k], Marked(h, MarksOfLoop(steps, order, now, cfg, assistants, k), now),
                    window, now)
    decreases |order|
  {
    hide Records, MarksOfPruneStep;
    if order == [] {
      RecordsLater(steps[k], h, window, last, now);
    } else {
      var id := order[0];
      var next := PruneStep(steps, id, now, cfg, assistants);
      PruneStepOk(steps, id, now, cfg, assistants);
      PruneStepRecords(steps, id, now, cfg, assistants, k, h, window, last);
      hide PruneStep, MayPrune, Marked;
      var marks := MarksOfPruneStep(steps, id, now, cfg, assistants, k);
      LoopRecords(next, order[1..], now, cfg, assistants, if MayPrune(next[id], now) then doomed + {id} else doomed, k,
                  Marked(h, marks, now), window, now);
      MarkedMore(h, marks, MarksOfLoop(next, order[1..], now, cfg, assistants, k), now);
    }
  }

  lemma PruneRecords(w: World, order: seq<StepId>, now: Time, cfg: Config, k: StepId, h: seq<Time>, window: int, last: Time)
    requires Lists(order, w.steps.Keys) && k in w.steps && k in Prune(w, order, now, cfg).steps
    requires Records(w.steps[k], h, window, last) && last <= now
    ensures Records(Prune(w, order, now, cfg).steps[k], Marked(h, MarksOfPrune(w, order, now, cfg, k), now), window, now)
  {
    var w1 := PruneWorkers(w, now, cfg);
    assert Records(w1.steps[k], h, window, last) by {
      hide Follows;
    }
    hide Records, PruneLoop, PruneWorkers, MarksOfLoop, Marked;
    LoopRecords(w1.steps, order, now, cfg, Assistants(w1.workers), {}, k, h, window, last);
  }

  // ---------------------------------------------------------------- reports

  lemma TailPolicy(steps: Steps, a: AddArgs, enabled: bool, now: Time, cfg: Config, k: StepId)
    requires a.id in steps
    ensures var r := AddStepTail(steps, a, enabled, now, cfg);
            k in r ==> r[k].info.policy == (if k == a.id then a.policy else if k in steps then steps[k].info.policy else cfg.policy)
                       && (k !in steps ==> r[k].life.failures == [] && r[k].life.firstFailure == None)
  {
    var unmarked := steps[a.id := Unmark(steps[a.id], a)];
    var reported := Report(unmarked, a, now, cfg);
    assert forall j <- steps :: reported[j].info == unmarked[j].info by {
      forall j | j in steps
        ensures reported[j].info == unmarked[j].info
      {
        SetStatusAt(unmarked, a.id, if a.status == SUSPENDED then PENDING else a.status, now, cfg, j);
      }
      hide SetStatus;
    }
    hide Report;
    var rewired := reported[a.id := Rewire(reported[a.id], a)];
    var watched := if enabled && !a.assistant
                   then AddStakeholder(rewired, a.id, a.worker, a.priority, now, cfg) else rewired;
    assert k in watched ==>
      && watched[k].info.policy == (if k in steps then steps[k].info.policy else cfg.policy)
      && (k !in steps ==> watched[k].life.failures == [] && watched[k].life.firstFailure == None);
    hide AddStakeholder;
    UpdatePriorityOk(watched, a.id, a.priority);
    hide UpdatePriority;
  }

  lemma TailRecords(steps: Steps, a: AddArgs, enabled: bool, now: Time, cfg: Config, k: StepId, h: seq<Time>, window: int, last: Time)
    requires a.id in steps && k in steps && a.policy.window == window && Records(steps[k], h, window, last) && last <= now
    ensures var r := AddStepTail(steps, a, enabled, now, cfg);
            k in r && Records(r[k], Marked(h, MarksOfReport(steps, a, k), now), window, now)
  {
    var unmarked := steps[a.id := Unmark(steps[a.id], a)];
    var target := if a.status == SUSPENDED then PENDING else a.status;
    assert Records(unmarked[k], h, window, last) by {
      hide Tracks, FirstIs;
    }
    SetStatusRecords(unmarked, a.id, target, now, cfg, k, h, window, last);
    RecordsLater(unmarked[k], h, window, last, now);
    AddStepTailAt(steps, a, enabled, now, cfg, k);
    TailPolicy(steps, a, enabled, now, cfg, k);
    hide AddStepTail, SetStatus, MarksOfStatus, Follows, Marked, MayReport;
  }

  lemma StartRecords(steps: Steps, a: AddArgs, pick: Option<StepId>, now: Time, cfg: Config, k: StepId, h: seq<Time>, window: int, last: Time)
    requires k in steps ==> Records(steps[k], h, window, last)
    requires k !in steps ==> h == []
    requires cfg.policy.window == window && last <= now
    ensures k in AddStepHead(steps, a, now, cfg) ==> Records(AddStepHead(steps, a, now, cfg)[k], h, window, now)
    ensures var start := AddStepStart(steps, a, pick, now, cfg);
            start.Some? ==> a.id in start.value && if k in start.value then Records(start.value[k], h, window, now) else h == []
  {
    hide Tracks, FirstIs, HasNewDeps;
    if k in steps {
      RecordsLater(steps[k], h, window, last, now);
    } else {
      NothingTracked(window, now);
      assert FirstIs(None, []) by {
        NoFirst();
      }
    }
  }

  lemma NoFirst()
    ensures FirstIs(None, [])
  {
  }

  lemma AddStepRecords(w: World, a: AddArgs, pick: Option<StepId>, now: Time, cfg: Config, k: StepId, h: seq<Time>, window: int, last: Time)
    requires k in w.steps ==> Records(w.steps[k], h, window, last)
    requires k !in w.steps ==> h == []
    requires cfg.policy.window == window && a.policy.window == window && last <= now
    ensures var r := AddStep(w, a, pick, now, cfg).0.steps;
            k in r ==> Records(r[k], Marked(h, MarksOfAddStep(w, a, pick, now, cfg, k), now), window, now)
  {
    var enabled := !Touch(w.workers, a.worker, false, now)[a.worker].disabled;
    AddStepEnds(w, a, pick, now, cfg);
    hide AddStep, AddStepTail, AddStepHead, AddStepStart, Ignored, Touch, Records, Marked, MarksOfReport;
    var start := AddStepStart(w.steps, a, pick, now, cfg);
    StartRecords(w.steps, a, pick, now, cfg, k, h, window, last);
    if k in w.steps {
      RecordsLater(w.steps[k], h, window, last, now);
    }
    NoMarks(h, now);
    if start.Some? {
      ReportRecords(start.value, a, enabled, now, cfg, k, h, window);
    }
  }

  lemma AddStepEnds(w: World, a: AddArgs, pick: Option<StepId>, now: Time, cfg: Config)
    ensures var enabled := !Touch(w.workers, a.worker, false, now)[a.worker].disabled;
            var start := AddStepStart(w.steps, a, pick, now, cfg);
            AddStep(w, a, pick, now, cfg).0.steps ==
              if Ignored(w.steps, a, enabled, now, cfg) then w.steps
              else if start.None? then AddStepHead(w.steps, a, now, cfg)
              else AddStepTail(start.value, a, enabled, now, cfg)
  {
    hide AddStepTail, AddStepHead, AddStepStart, Ignored, Touch;
  }

  lemma NoMarks(h: seq<Time>, now: Time)
    ensures Marked(h, [], now) == h
  {
  }

  lemma ReportRecords(steps: Steps, a: AddArgs, enabled: bool, now: Time, cfg: Config, k: StepId, h: seq<Time>, window: int)
    requires a.id in steps && a.policy.window == window && cfg.policy.window == window
    requires if k in steps then Records(steps[k], h, window, now) else h == []
    ensures var r := AddStepTail(steps, a, enabled, now, cfg);
            k in r ==> Records(r[k], Marked(h, MarksOfReport(steps, a, k), now), window, now)
  {
    hide AddStepTail, Tracks;
    if k in steps {
      TailRecords(steps, a, enabled, now, cfg, k, h, window, now);
    } else {
      TailPolicy(steps, a, enabled, now, cfg, k);
      NothingTracked(window, now);
      assert MarksOfReport(steps, a, k) == [];
    }
  }

  // ---------------------------------------------------------------- get_work

  lemma {:induction false} StartBatchRecords(steps: Steps, todo: seq<StepId>, b: BatchId, x: WorkerId, now: Time, cfg: Config,
                                             k: StepId, h: seq<Time>, window: int)
    requires (forall id <- todo :: id in steps) && k in steps && Records(steps[k], h, window, now)
    ensures Records(StartBatch(steps, todo, b, x, now, cfg)[k], h, window, now)
  {
    if todo != [] {
      var n := |todo| - 1;
      StartBatchRecords(steps, todo[..n], b, x, now, cfg, k, h, window);
      var before := StartBatch(steps, todo[..n], b, x, now, cfg);
      hide StartBatch;
      SetStatusRecords(before, todo[n], BATCH_RUNNING, now, cfg, k, h, window, now);
      PendingMarksNothing(before, todo[n], k);
      hide SetStatus, Tracks, FirstIs;
      assert StartBatch(steps, todo, b, x, now, cfg) == SetBatchRunning(before, todo[n], b, x, now, cfg) by {
        StartsOneMore(steps, todo, b, x, now, cfg);
      }
    }
  }

  lemma StartsOneMore(steps: Steps, todo: seq<StepId>, b: BatchId, x: WorkerId, now: Time, cfg: Config)
    requires (forall id <- todo :: id in steps) && todo != []
    ensures var n := |todo| - 1;
            (forall id <- todo[..n] :: id in steps) && todo[n] in StartBatch(steps, todo[..n], b, x, now, cfg) &&
            StartBatch(steps, todo, b, x, now, cfg) == SetBatchRunning(StartBatch(steps, todo[..n], b, x, now, cfg), todo[n], b, x, now, cfg)
  {
  }

  lemma HandOutRecords(steps: Steps, r: Reply, x: WorkerId, now: Time, cfg: Config, k: StepId, h: seq<Time>, window: int)
    requires Known(steps, r) && k in steps && Records(steps[k], h, window, now)
    ensures k in HandOut(steps, r, x, now, cfg) && Records(HandOut(steps, r, x, now, cfg)[k], h, window, now)
  {
    match r
    case Granted(id) =>
      SetStatusRecords(steps, id, RUNNING, now, cfg, k, h, window, now);
      PendingMarksNothing(steps, id, k);
      hide SetStatus, Tracks, FirstIs;
    case BatchGranted(ids) => StartBatchRecords(steps, ids, ids, x, now, cfg, k, h, window);
    case _ =>
  }

  lemma ResetRecords(steps: Steps, x: WorkerId, now: Time, cfg: Config, k: StepId, h: seq<Time>, window: int)
    requires k in steps && Records(steps[k], h, window, now)
    ensures Records(ResetOrphans(steps, x, now, cfg)[k], h, window, now)
  {
    SetOneRecords(steps[k], PENDING, now, cfg, h, window, now);
    hide SetOne, Records, OrphanedMember;
  }

  lemma GetWorkRecords(w: World, a: WorkArgs, c: Choices, now: Time, cfg: Config, k: StepId, h: seq<Time>, window: int, last: Time)
    requires Inv(w) && ValidChoices(w, a, c, now, cfg) && k in w.steps && k in GetWork(w, a, c, now, cfg).0.steps
    requires Records(w.steps[k], h, window, last) && last <= now
    ensures Records(GetWork(w, a, c, now, cfg).0.steps[k],
                    Marked(h, if cfg.pruneOnGetWork then MarksOfPrune(w, c.pruneOrder, now, cfg, k) else [], now), window, now)
  {
    hide Records, Inv, MarksOfPrune;
    var marks := if cfg.pruneOnGetWork then MarksOfPrune(w, c.pruneOrder, now, cfg, k) else [];
    var reply := GetWorkShape(w, a, c, now, cfg);
    var w1, w2 := Prepare(w, a, c.pruneOrder, now, cfg), AtScan(w, a, c, now, cfg);
    if cfg.pruneOnGetWork {
      assert k in Prune(w, c.pruneOrder, now, cfg).steps;
      PruneRecords(w, c.pruneOrder, now, cfg, k, h, window, last);
    } else {
      RecordsLater(w.steps[k], h, window, last, now);
    }
    hide GetWork, ValidChoices, Prune, Decide, HandOut, ResetOrphans;
    ResetRecords(w1.steps, a.worker, now, cfg, k, Marked(h, marks, now), window);
    if !w1.workers[a.worker].disabled {
      AnnouncedKeys(w1, a, now, cfg);
      HandOutRecords(w2.steps, reply, a.worker, now, cfg, k, Marked(h, marks, now), window);
    }
  }

  lemma AnnouncedKeys(w: World, a: WorkArgs, now: Time, cfg: Config)
    requires a.worker in w.workers
    ensures Announce(w, a, now, cfg).steps.Keys == w.steps.Keys
  {
  }

  // ---------------------------------------------------------------- all runs

  predicate KeepsWindow(e: Event, window: int) {
    e.OnAddStep? ==> e.add.policy.window == window
  }

  lemma NextRecords(w: World, e: Event, now: Time, cfg: Config, k: StepId, h: seq<Time>, window: int, last: Time)
    requires Inv(w) && Possible(w, e, now, cfg) && KeepsWindow(e, window) && cfg.policy.window == window && last <= now
    requires k in w.steps ==> Records(w.steps[k], h, window, last)
    requires k !in w.steps ==> h == []
    ensures k in Next(w, e, now, cfg).steps ==> Records(Next(w, e, now, cfg).steps[k], Marked(h, MarksOf(w, e, now, cfg, k), now), window, now)
  {
    if e.OnAddStep? {
      AddStepRecords(w, e.add, e.pick, now, cfg, k, h, window, last);
      hide AddStep, MarksOfAddStep, Records, Marked;
    } else {
      if k in Next(w, e, now, cfg).steps {
        OnlyReportsAdd(w, e, now, cfg, k);
        OtherRecords(w, e, now, cfg, k, h, window, last);
      }
      hide Next, MarksOf, Records, Marked;
    }
  }

  lemma OnlyReportsAdd(w: World, e: Event, now: Time, cfg: Config, k: StepId)
    requires Inv(w) && Possible(w, e, now, cfg) && !e.OnAddStep? && k in Next(w, e, now, cfg).steps
    ensures k in w.steps
  {
    hide SetStatus, ReEnable, PruneLoop, Inv;
    match e
    case OnGetWork(a, c) =>
      var _ := GetWorkShape(w, a, c, now, cfg);
    case OnReEnable(id) =>
      if id in w.steps {
        ReEnableOk(w.steps, id, now, cfg);
      }
    case OnMarkAsDone(id) =>
      if id in w.steps {
        SetStatusAt(w.steps, id, DONE, now, cfg, id);
      }
    case OnForgive(id) =>
      if id in w.steps {
        SetStatusAt(w.steps, id, PENDING, now, cfg, id);
      }
    case _ =>
  }

  lemma OtherRecords(w: World, e: Event, now: Time, cfg: Config, k: StepId, h: seq<Time>, window: int, last: Time)
    requires Inv(w) && Possible(w, e, now, cfg) && !e.OnAddStep? && k in w.steps && k in Next(w, e, now, cfg).steps
    requires Records(w.steps[k], h, window, last) && last <= now
    ensures Records(Next(w, e, now, cfg).steps[k], Marked(h, MarksOf(w, e, now, cfg, k), now), window, now)
  {
    hide SetStatus, ReEnable, Follows, MarksOfStatus, MarksOfReEnable, MarksOfPrune, Marked, Prune, GetWork, Inv, ValidChoices;
    RecordsLater(w.steps[k], h, window, last, now);
    NoMarks(h, now);
    match e
    case OnGetWork(a, c) => GetWorkRecords(w, a, c, now, cfg, k, h, window, last);
    case OnPrune(order) => PruneRecords(w, order, now, cfg, k, h, window, last);
    case OnMarkAsDone(id) => DoneRecords(w, id, now, cfg, k, h, window, last);
    case OnForgive(id) =>
      if id in w.steps {
        SetStatusRecords(w.steps, id, PENDING, now, cfg, k, h, window, last);
        PendingMarksNothing(w.steps, id, k);
      }
    case OnReEnable(id) =>
      if id in w.steps {
        ReEnableRecords(w.steps, id, now, cfg, k, h, window, last);
      }
    case _ =>
  }

  lemma DoneRecords(w: World, id: StepId, now: Time, cfg: Config, k: StepId, h: seq<Time>, window: int, last: Time)
    requires k in w.steps && Records(w.steps[k], h, window, last) && last <= now
    ensures k in MarkAsDone(w, id, now, cfg).steps
    ensures Records(MarkAsDone(w, id, now, cfg).steps[k], Marked(h, MarksOfStatus(w.steps, id, DONE, k), now), window, now)
  {
    hide SetStatus, Tracks, FirstIs;
    RecordsLater(w.steps[k], h, window, last, now);
    if id in w.steps {
      SetStatusRecords(w.steps, id, DONE, now, cfg, k, h, window, last);
    }
  }

  /** The clock does not go back, and the window of the failures is the same for all steps. */
  predicate Steady(calls: seq<Call>, window: int, cfg: Config) {
    && cfg.policy.window == window && (forall c <- calls :: KeepsWindow(c.event, window))
    && forall i, j :: 0 <= i < j < |calls| ==> calls[i].now <= calls[j].now
  }

  function LastTime(calls: seq<Call>, default: Time): Time {
    if calls == [] then default else calls[|calls| - 1].now
  }

  /** The step is active and records the failures, or there are none. */
  predicate Recording(steps: Steps, k: StepId, h: seq<Time>, window: int, last: Time) {
    if k in steps then Records(steps[k], h, window, last) else h == []
  }

  /** Whatever has been recorded about the step before the call, the call records its own failures on top. */
  ghost predicate KeepsRecords(w: World, call: Call, next: World, cfg: Config, window: int, k: StepId) {
    forall h, last ::
      Recording(w.steps, k, h, window, last) && last <= call.now && k in next.steps ==>
        Records(next.steps[k], Marked(h, MarksOf(w, call.event, call.now, cfg, k), call.now), window, call.now)
  }

  /** Every call of the run does. */
  ghost predicate IsRecorded(worlds: seq<World>, calls: seq<Call>, cfg: Config, window: int, k: StepId) {
    && |worlds| == |calls| + 1 && worlds[0].steps == map[]
    && forall i :: 0 <= i < |calls| ==> KeepsRecords(worlds[i], calls[i], worlds[i+1], cfg, window, k)
  }

  lemma RunIsRecorded(worlds: seq<World>, calls: seq<Call>, cfg: Config, window: int, k: StepId)
    requires IsRun(worlds, calls, cfg) && Steady(calls, window, cfg)
    ensures IsRecorded(worlds, calls, cfg, window, k)
  {
    hide Possible, Next, KeepsRecords, KeepsWindow;
    ReachableStatesAreOk(worlds, calls, cfg);
    hide Inv;
    forall i | 0 <= i < |calls|
      ensures KeepsRecords(worlds[i], calls[i], worlds[i+1], cfg, window, k)
    {
      assert worlds[i] in worlds && calls[i] in calls;
      EventKeepsRecords(worlds[i], calls[i], cfg, window, k);
    }
  }

  lemma EventKeepsRecords(w: World, call: Call, cfg: Config, window: int, k: StepId)
    requires Inv(w) && Possible(w, call.event, call.now, cfg) && KeepsWindow(call.event, window) && cfg.policy.window == window
    ensures KeepsRecords(w, call, Next(w, call.event, call.now, cfg), cfg, window, k)
  {
    hide Inv, Possible, Next, MarksOf, Marked, Records;
    forall h, last | Recording(w.steps, k, h, window, last) && last <= call.now
      ensures k in Next(w, call.event, call.now, cfg).steps ==>
                Records(Next(w, call.event, call.now, cfg).steps[k], Marked(h, MarksOf(w, call.event, call.now, cfg, k), call.now), window, call.now)
    {
      NextRecords(w, call.event, call.now, cfg, k, h, window, last);
    }
  }

  lemma {:induction false} RunRecords(worlds: seq<World>, calls: seq<Call>, cfg: Config, window: int, k: StepId, now: Time)
    requires IsRecorded(worlds, calls, cfg, window, k) && Steady(calls, window, cfg) && LastTime(calls, now) <= now
    requires k in worlds[|calls|].steps
    ensures Records(worlds[|calls|].steps[k], History(worlds, calls, cfg, k), window, LastTime(calls, now))
  {
    hide Records, MarksOf, Marked, KeepsWindow;
    var n := |calls| - 1;
    if calls != [] {
      assert forall c <- calls[..n] :: c in calls;
      var h := if k in worlds[n].steps then History(worlds[..n+1], calls[..n], cfg, k) else [];
      if k in worlds[n].steps {
        RunRecords(worlds[..n+1], calls[..n], cfg, window, k, calls[n].now);
      }
      var last := LastTime(calls[..n], calls[n].now);
      assert last <= calls[n].now && Recording(worlds[n].steps, k, h, window, last);
      assert KeepsRecords(worlds[n], calls[n], worlds[n+1], cfg, window, k);
    }
  }

  /** The pruned queue of an active step holds exactly the failures of its history that are inside the window. */
  lemma RecordedCount(worlds: seq<World>, calls: seq<Call>, cfg: Config, window: int, k: StepId, now: Time)
    requires IsRecorded(worlds, calls, cfg, window, k) && Steady(calls, window, cfg) && LastTime(calls, now) <= now
    requires k in worlds[|calls|].steps
    ensures var s := worlds[|calls|].steps[k];
            RecentFailures(s.life, s.info.policy, now) == InWindow(History(worlds, calls, cfg, k), now - window)
  {
    hide InWindow, History, Records, RecentFailures, Steady, KeepsRecords;
    RunRecords(worlds, calls, cfg, window, k, now);
    CountOfRecords(worlds[|calls|].steps[k], History(worlds, calls, cfg, k), window, LastTime(calls, now), now);
  }

  /** In every run, the pruned queue of an active step holds exactly the failures of its history that are
      inside the window. */
  lemma CountIsExact(worlds: seq<World>, calls: seq<Call>, cfg: Config, window: int, k: StepId, now: Time)
    requires IsRun(worlds, calls, cfg) && Steady(calls, window, cfg) && LastTime(calls, now) <= now
    requires k in worlds[|calls|].steps
    ensures var s := worlds[|calls|].steps[k];
            RecentFailures(s.life, s.info.policy, now) == InWindow(History(worlds, calls, cfg, k), now - window)
  {
    hide IsRecorded, InWindow, History, RecentFailures, Possible, Next, Steady;
    RunIsRecorded(worlds, calls, cfg, window, k);
    RecordedCount(worlds, calls, cfg, window, k, now);
  }

  lemma CountOfRecords(s: StepRec, h: seq<Time>, window: int, last: Time, now: Time)
    requires Records(s, h, window, last) && last <= now
    ensures RecentFailures(s.life, s.info.policy, now) == InWindow(h, now - window)
  {
    hide Tracks, InWindow, DropOld, FirstIs;
    RecentIsInWindow(s.life.failures, h, window, last, now);
  }

  lemma {:induction false} MarkedAfter(h: seq<Time>, marks: seq<Mark>, now: Time, min: Time)
    requires (forall t <- h :: t > min) && now > min
    ensures forall t <- Marked(h, marks, now) :: t > min
    decreases |marks|
  {
    if marks != [] {
      MarkedAfter(if marks[0].Cleared? then [] else h + [now], marks[1..], now, min);
    }
  }

  lemma {:induction false} HistoryIsLater(worlds: seq<World>, calls: seq<Call>, cfg: Config, k: StepId, min: Time)
    requires |worlds| == |calls| + 1 && forall c <- calls :: c.now > min
    ensures forall t <- History(worlds, calls, cfg, k) :: t > min
  {
    hide MarksOf, Marked;
    if calls != [] {
      var n := |calls| - 1;
      assert calls[n] in calls && forall c <- calls[..n] :: c in calls;
      HistoryIsLater(worlds[..n+1], calls[..n], cfg, k, min);
      var before := if k in worlds[n].steps then History(worlds[..n+1], calls[..n], cfg, k) else [];
      MarkedAfter(before, MarksOf(worlds[n], calls[n].event, calls[n].now, cfg, k), calls[n].now, min);
    }
  }

  lemma RecordedFirst(worlds: seq<World>, calls: seq<Call>, cfg: Config, window: int, k: StepId)
    requires IsRecorded(worlds, calls, cfg, window, k) && Steady(calls, window, cfg) && k in worlds[|calls|].steps
    requires forall c <- calls :: c.now > 0
    ensures var h := History(worlds, calls, cfg, k);
            worlds[|calls|].steps[k].life.firstFailure == if h == [] then None else Some(h[0])
  {
    hide KeepsRecords, Tracks, History, KeepsWindow;
    RunRecords(worlds, calls, cfg, window, k, LastTime(calls, 0));
    HistoryIsLater(worlds, calls, cfg, k, 0);
  }

  /** With a clock that is past zero, the recorded first failure is the first of the history. */
  lemma FirstFailureIsFirst(worlds: seq<World>, calls: seq<Call>, cfg: Config, window: int, k: StepId)
    requires IsRun(worlds, calls, cfg) && Steady(calls, window, cfg) && k in worlds[|calls|].steps
    requires forall c <- calls :: c.now > 0
    ensures var h := History(worlds, calls, cfg, k);
            worlds[|calls|].steps[k].life.firstFailure == if h == [] then None else Some(h[0])
  {
    hide IsRecorded, History, Possible, Next, Steady;
    RunIsRecorded(worlds, calls, cfg, window, k);
    RecordedFirst(worlds, calls, cfg, window, k);
  }

  /** The report of the worker that runs step `k` that the step has failed. */
  predicate ReportsFailure(w: World, a: AddArgs, k: StepId) {
    && a.id == k && a.status == FAILED && k in w.steps
    && w.steps[k].life.status == RUNNING && w.steps[k].load.workerRunning == Some(a.worker)
  }

  /** The report disables the step just if the failures `h` inside the window reach the retry count, or the first of
      them is as old as the hard timeout; otherwise the step has failed. */
  ghost predicate DisablesExactly(w: World, h: seq<Time>, window: int, a: AddArgs, pick: Option<StepId>, k: StepId, now: Time, cfg: Config)
    requires h != [] && k in w.steps
  {
    var policy := w.steps[k].info.policy;
    var tooMany := |InWindow(h, now - window)| >= policy.retryCount || now >= h[0] + policy.hardTimeout;
    var r := AddStep(w, a, pick, now, cfg).0.steps;
    k in r && r[k].life.status == (if tooMany then DISABLED else FAILED)
  }

  /** In every run, such a report disables the step exactly when its failures inside the window reach the
      retry count, or the first of its failures is as old as the hard timeout. */
  lemma FailureDisablesExactly(worlds: seq<World>, calls: seq<Call>, cfg: Config, window: int, k: StepId, a: AddArgs,
                               pick: Option<StepId>, now: Time)
    requires IsRun(worlds, calls, cfg) && Steady(calls, window, cfg) && LastTime(calls, now) <= now
    requires now > 0 && forall c <- calls :: c.now > 0
    requires ReportsFailure(worlds[|calls|], a, k)
    ensures DisablesExactly(worlds[|calls|], History(worlds, calls, cfg, k) + [now], window, a, pick, k, now, cfg)
  {
    hide IsRecorded, History, Possible, Next, Steady, DisablesExactly, ReportsFailure;
    RunIsRecorded(worlds, calls, cfg, window, k);
    RecordedFailure(worlds, calls, cfg, window, k, a, pick, now);
  }

  lemma RecordedFailure(worlds: seq<World>, calls: seq<Call>, cfg: Config, window: int, k: StepId, a: AddArgs,
                        pick: Option<StepId>, now: Time)
    requires IsRecorded(worlds, calls, cfg, window, k) && Steady(calls, window, cfg) && LastTime(calls, now) <= now
    requires now > 0 && forall c <- calls :: c.now > 0
    requires ReportsFailure(worlds[|calls|], a, k)
    ensures DisablesExactly(worlds[|calls|], History(worlds, calls, cfg, k) + [now], window, a, pick, k, now, cfg)
  {
    hide History, Steady, AddStep, Records, InWindow, KeepsRecords, TooMany;
    var w, h := worlds[|calls|], History(worlds, calls, cfg, k);
    RunRecords(worlds, calls, cfg, window, k, now);
    HistoryIsLater(worlds, calls, cfg, k, 0);
    FailureOutcome(w, a, pick, k, now, cfg);
    ExactlyTooMany(w.steps[k], h, window, LastTime(calls, now), now);
  }

  /** What the source compares: the queue with the new failure, and the first failure time. */
  predicate TooMany(s: StepRec, now: Time) {
    || |DropOld(s.life.failures + [now], now - s.info.policy.window)| >= s.info.policy.retryCount
    || now >= (if Truthy(s.life.firstFailure) then s.life.firstFailure.value else now) + s.info.policy.hardTimeout
  }

  lemma ExactlyTooMany(s: StepRec, h: seq<Time>, window: int, last: Time, now: Time)
    requires Records(s, h, window, last) && last <= now && forall t <- h :: t > 0
    ensures TooMany(s, now) <==>
      || |InWindow(h + [now], now - window)| >= s.info.policy.retryCount || now >= (h + [now])[0] + s.info.policy.hardTimeout
  {
    hide Tracks, InWindow, DropOld;
    OneMoreFailure(s.life.failures, h, window, last, now);
    RecentIsInWindow(s.life.failures + [now], h + [now], window, now, now);
    if h != [] {
      assert h[0] in h && (h + [now])[0] == h[0];
    }
  }

  lemma FailureOutcome(w: World, a: AddArgs, pick: Option<StepId>, k: StepId, now: Time, cfg: Config)
    requires ReportsFailure(w, a, k)
    ensures var r := AddStep(w, a, pick, now, cfg).0.steps;
            k in r && r[k].life.status == (if TooMany(w.steps[k], now) then DISABLED else FAILED)
  {
    hide AddStep, AddStepTail, SetStatus, AddStepHead, SetOne, TooMany, Described, Touch;
    ReportGoesToTail(w, a, pick, k, now, cfg);
    var start := AddStepHead(w.steps, a, now, cfg);
    var unmarked := start[k := Unmark(start[k], a)];
    AddStepTailAt(start, a, !Touch(w.workers, a.worker, false, now)[a.worker].disabled, now, cfg, k);
    SetStatusAt(unmarked, k, FAILED, now, cfg, k);
    FailsAsBefore(w.steps[k], unmarked[k], now, cfg);
  }

  /** What the first part of `add_step` leaves of a step, as far as its failures are concerned. */
  predicate Described(s: StepRec, t: StepRec) {
    && t.info.policy == s.info.policy && t.load.workerRunning == s.load.workerRunning && t.life.status == s.life.status
    && t.life.failures == s.life.failures && t.life.firstFailure == s.life.firstFailure && t.life.disableTime == s.life.disableTime
  }

  lemma ReportGoesToTail(w: World, a: AddArgs, pick: Option<StepId>, k: StepId, now: Time, cfg: Config)
    requires ReportsFailure(w, a, k)
    ensures a.worker in Touch(w.workers, a.worker, false, now)
    ensures var start := AddStepHead(w.steps, a, now, cfg);
            && k in start && Described(w.steps[k], Unmark(start[k], a)) && MayReport(Unmark(start[k], a), a)
            && AddStep(w, a, pick, now, cfg).0.steps
               == AddStepTail(start, a, !Touch(w.workers, a.worker, false, now)[a.worker].disabled, now, cfg)
  {
    var start := AddStepHead(w.steps, a, now, cfg);
    var enabled := !Touch(w.workers, a.worker, false, now)[a.worker].disabled;
    hide AddStepTail, AddStepHead, AddStepStart, Ignored, Touch, Described, MayReport;
    HeadDescribes(w.steps, a, pick, enabled, now, cfg);
  }

  lemma HeadDescribes(steps: Steps, a: AddArgs, pick: Option<StepId>, enabled: bool, now: Time, cfg: Config)
    requires a.id in steps && a.status == FAILED && steps[a.id].life.status == RUNNING && steps[a.id].load.workerRunning == Some(a.worker)
    ensures var start := AddStepHead(steps, a, now, cfg);
            && AddStepStart(steps, a, pick, now, cfg) == Some(start) && !Ignored(steps, a, enabled, now, cfg)
            && Described(steps[a.id], Unmark(start[a.id], a)) && MayReport(Unmark(start[a.id], a), a)
  {
  }

  lemma FailsAsBefore(s: StepRec, t: StepRec, now: Time, cfg: Config)
    requires Described(s, t) && s.life.status == RUNNING
    ensures SetOne(t, FAILED, now, cfg).life.status == (if TooMany(s, now) then DISABLED else FAILED)
  {
    hide DropOld;
  }
}
