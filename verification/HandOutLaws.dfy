/**
 What `get_work` does to steps and workers, stated on their fields: before the scan, and when it hands out work.
 */
module HandOutLaws {
  import opened Options
  import opened Sequences
  import opened SchedulerModel
  import opened SchedulerInvariants
  import opened GrantLaws

  // ---------------------------------------------------------------- before the scan

  /** A running member of a batch on the worker, which runs no head of that batch. */
  predicate LostItsHead(steps: Steps, s: StepRec, x: WorkerId) {
    && s.life.status == BATCH_RUNNING && s.load.workerRunning == Some(x)
    && forall j <- steps :: steps[j].life.status == RUNNING && steps[j].load.workerRunning == Some(x) ==> steps[j].life.batchId != s.life.batchId
  }

  /** The worker as `get_work` registers it. */
  function Registered(workers: Workers, a: WorkArgs, now: Time): WorkerRec {
    var before := if a.worker in workers then workers[a.worker] else WorkerRec(now, None, false, 1, false);
    before.(lastActive := now, lastGetWork := Some(now), assistant := before.assistant || a.assistant)
  }

  /** The call prunes if it is configured to, and registers the worker; if it is enabled and says which steps it runs,
      the members of batches that it has given up wait again. */
  lemma BeforeTheScan(w: World, a: WorkArgs, c: Choices, now: Time, cfg: Config)
    requires cfg.pruneOnGetWork ==> Lists(c.pruneOrder, w.steps.Keys)
    ensures var w0 := if cfg.pruneOnGetWork then Prune(w, c.pruneOrder, now, cfg) else w;
            var w1, w2 := Prepare(w, a, c.pruneOrder, now, cfg), AtScan(w, a, c, now, cfg);
            && w1 == w0.(workers := w0.workers[a.worker := Registered(w0.workers, a.(assistant := false), now)])
            && w2 == w0.(workers := w0.workers[a.worker := Registered(w0.workers, a, now)], steps := w2.steps)
            && w2.steps.Keys == w0.steps.Keys
            && forall k <- w0.steps ::
                 w2.steps[k] == if a.current.Some? && LostItsHead(w0.steps, w0.steps[k], a.worker)
                                then w0.steps[k].(life := w0.steps[k].life.(status := PENDING, updated := now)) else w0.steps[k]
  {
    hide Prune, LostItsHead, ResetOrphans;
    var w0 := if cfg.pruneOnGetWork then Prune(w, c.pruneOrder, now, cfg) else w;
    OrphansWaitAgain(w0.steps, a.worker, now, cfg);
  }

  lemma OrphansWaitAgain(steps: Steps, x: WorkerId, now: Time, cfg: Config)
    ensures var next := ResetOrphans(steps, x, now, cfg);
            next.Keys == steps.Keys &&
            forall k <- steps :: next[k] == if LostItsHead(steps, steps[k], x)
                                            then steps[k].(life := steps[k].life.(status := PENDING, updated := now)) else steps[k]
  {
    forall k | k in steps
      ensures LostItsHead(steps, steps[k], x) <==> OrphanedMember(steps, steps[k], x)
      ensures LostItsHead(steps, steps[k], x) ==>
                SetOne(steps[k], PENDING, now, cfg) == steps[k].(life := steps[k].life.(status := PENDING, updated := now))
    {
    }
    hide LostItsHead, OrphanedMember, SetOne;
  }

  // ---------------------------------------------------------------- handing out

  /** The step runs on the worker, and is charged with its demand from now on. */
  function StartedOn(s: StepRec, x: WorkerId, now: Time): StepRec {
    s.(life := s.life.(status := RUNNING, updated := if s.life.status == RUNNING then s.life.updated else now),
       load := Load(Some(x), s.load.resources, Some(s.load.resources), false))
  }

  /** The step runs in the batch, and its demand is the very object of its running resources. */
  function StartedInBatch(s: StepRec, ids: BatchId, x: WorkerId, now: Time): StepRec {
    s.(life := s.life.(status := BATCH_RUNNING, updated := now, batchId := Some(ids)),
       load := Load(Some(x), s.load.resources, Some(s.load.resources), true))
  }

  lemma {:induction false} BatchStarts(steps: Steps, todo: seq<StepId>, ids: BatchId, x: WorkerId, now: Time, cfg: Config)
    requires Distinct(todo) && forall id <- todo :: id in steps && steps[id].life.status == PENDING
    ensures var next := StartBatch(steps, todo, ids, x, now, cfg);
            next.Keys == steps.Keys &&
            forall k <- steps :: next[k] == if k in todo then StartedInBatch(steps[k], ids, x, now) else steps[k]
  {
    if todo != [] {
      var n := |todo| - 1;
      BatchStarts(steps, todo[..n], ids, x, now, cfg);
      var before := StartBatch(steps, todo[..n], ids, x, now, cfg);
      assert todo[n] in todo && todo[n] !in todo[..n];
      assert forall k :: k in todo <==> k in todo[..n] || k == todo[n];
      hide StartBatch;
      assert before[todo[n]] == steps[todo[n]];
      OneStarts(before, todo[n], ids, x, now, cfg);
    }
  }

  lemma OneStarts(steps: Steps, id: StepId, ids: BatchId, x: WorkerId, now: Time, cfg: Config)
    requires id in steps && steps[id].life.status == PENDING
    ensures SetBatchRunning(steps, id, ids, x, now, cfg) == steps[id := StartedInBatch(steps[id], ids, x, now)]
  {
  }

  lemma StepStarts(steps: Steps, id: StepId, x: WorkerId, now: Time, cfg: Config)
    requires id in steps && steps[id].life.status in {PENDING, RUNNING}
    ensures Grant(steps, id, x, now, cfg) == steps[id := StartedOn(steps[id], x, now)]
  {
  }

  /** `count_pending` makes an active worker of each owner of a running step that the worker could run too. */
  predicate BecomesActive(w: World, x: WorkerId, y: WorkerId) {
    exists k <- w.steps :: w.steps[k].life.status == RUNNING && x in w.steps[k].info.workers && w.steps[k].load.workerRunning == Some(y)
  }

  lemma OwnersBecomeActive(w: World, x: WorkerId, now: Time)
    ensures var next := CountPending(w, x, now);
            && next == w.(workers := next.workers)
            && (forall y :: y in next.workers <==> y in w.workers || BecomesActive(w, x, y))
            && (forall y <- next.workers :: next.workers[y] == if y in w.workers then w.workers[y] else WorkerRec(now, None, false, 1, false))
  {
    forall y
      ensures y in Owners(w.steps, x) <==> BecomesActive(w, x, y)
    {
    }
  }

  // ---------------------------------------------------------------- the whole call

  /** Every member but the first fits the batch, and is listed once. */
  lemma {:induction false} FittingAreListed(steps: Steps, b: Batcher, best: StepRec, q: seq<StepRec>)
    requires forall i, j :: 0 <= i < j < |q| ==> q[i].id != q[j].id
    ensures Distinct(Fitting(steps, b, best, q))
    ensures forall id <- Fitting(steps, b, best, q) :: exists j :: 0 <= j < |q| && q[j].id == id && FitsBatch(steps, b, best, q[j])
  {
    if q != [] {
      FittingAreListed(steps, b, best, q[1..]);
      var rest, all := Fitting(steps, b, best, q[1..]), Fitting(steps, b, best, q);
      hide FitsBatch;
      assert q[0].id !in rest;
      forall id | id in all
        ensures exists j :: 0 <= j < |q| && q[j].id == id && FitsBatch(steps, b, best, q[j])
      {
        if id in rest {
          var j :| 0 <= j < |q[1..]| && q[1..][j].id == id && FitsBatch(steps, b, best, q[1..][j]);
          assert q[j+1].id == id;
        } else {
          assert q[0].id == id;
        }
      }
    }
  }

  lemma UpToIsPrefix(ids: seq<StepId>, room: Option<nat>)
    ensures UpTo(ids, room) <= ids && (room.Some? ==> |UpTo(ids, room)| <= room.value)
    ensures Distinct(ids) ==> Distinct(UpTo(ids, room))
  {
  }

  /** The batch was started under the rules of its family: the first step heads it, all others fit it, and it is not
      larger than allowed. */
  predicate ByTheBatcher(w: World, x: WorkerId, ids: seq<StepId>) {
    && Distinct(ids) && (forall id <- ids :: id in w.steps && ReadyToRun(w.steps, w.steps[id])) && |ids| > 1
    && var best := w.steps[ids[0]];
       && (x, best.info.family) in w.batchers
       && var b := w.batchers[(x, best.info.family)];
          && HeadsBatch(b, best) && (b.maxSize.Some? ==> |ids| <= b.maxSize.value)
          && forall m :: 1 <= m < |ids| ==> FitsBatch(w.steps, b, best, w.steps[ids[m]])
  }

  /** A scanned step comes before the others that fit its batch. */
  lemma BatchIsReady(w: World, x: WorkerId, q: seq<StepRec>, i: nat)
    requires i < |q| && (forall i, j :: 0 <= i < j < |q| ==> q[i].id != q[j].id)
    requires ReadyToRun(w.steps, q[i]) && forall j :: 0 <= j < |q| ==> q[j].id in w.steps && q[j] == w.steps[q[j].id]
    ensures var batch := BatchBehind(w, x, q, i);
            |batch| > 0 && batch[0] == q[i].id && (|batch| > 1 ==> ByTheBatcher(w, x, batch))
  {
    var batch, rest, family := BatchBehind(w, x, q, i), q[i+1..], q[i].info.family;
    if |batch| > 1 {
      var b := w.batchers[(x, family)];
      FittingAreListed(w.steps, b, q[i], rest);
      var fitting := Fitting(w.steps, b, q[i], rest);
      UpToIsPrefix(fitting, Room(b, 1));
      var more := UpTo(fitting, Room(b, 1));
      hide FitsBatch, Fitting, UpTo;
      assert batch == [q[i].id] + more;
      forall m | 0 <= m < |more|
        ensures more[m] in w.steps && FitsBatch(w.steps, b, q[i], w.steps[more[m]]) && more[m] != q[i].id
      {
        assert more[m] == fitting[m] && fitting[m] in fitting;
        var j :| 0 <= j < |rest| && rest[j].id == more[m] && FitsBatch(w.steps, b, q[i], rest[j]);
        assert rest[j] == q[i+1+j];
      }
      FittingIsReady(w, b, q[i], more);
    }
  }

  lemma FittingIsReady(w: World, b: Batcher, best: StepRec, more: seq<StepId>)
    requires forall m :: 0 <= m < |more| ==> more[m] in w.steps && FitsBatch(w.steps, b, best, w.steps[more[m]])
    ensures forall id <- more :: ReadyToRun(w.steps, w.steps[id])
  {
  }

  /** The reply says what has been handed out, and only that step or the members of that batch have changed. */
  predicate HandedOut(steps: Steps, next: Steps, w: World, x: WorkerId, reply: Reply, now: Time) {
    match reply
    case WorkerDisabled => false
    case NoWork => next == steps
    case Granted(id) => id in steps && next == steps[id := StartedOn(steps[id], x, now)]
    case BatchGranted(ids) =>
      && ByTheBatcher(w, x, ids) && next.Keys == steps.Keys
      && forall k <- steps :: next[k] == if k in ids then StartedInBatch(steps[k], ids, x, now) else steps[k]
  }

  lemma HandsOut(w: World, x: WorkerId, reply: Reply, now: Time, cfg: Config)
    requires match reply
             case WorkerDisabled => false
             case NoWork => true
             case Granted(id) => id in w.steps && w.steps[id].life.status in {PENDING, RUNNING}
             case BatchGranted(ids) => ByTheBatcher(w, x, ids)
    ensures Known(w.steps, reply) && HandedOut(w.steps, HandOut(w.steps, reply, x, now, cfg), w, x, reply, now)
  {
    match reply
    case Granted(id) => StepStarts(w.steps, id, x, now, cfg);
    case BatchGranted(ids) =>
      hide FitsBatch, HeadsBatch;
      BatchStarts(w.steps, ids, ids, x, now, cfg);
    case _ =>
  }

  /** A disabled worker gets nothing.  Any other gets what the reply says, starts it, and changes no other step; apart
      from that, the call makes workers active. */
  lemma WorkIsHandedOut(w: World, a: WorkArgs, c: Choices, now: Time, cfg: Config)
    requires Inv(w) && ValidChoices(w, a, c, now, cfg)
    ensures var w1, w2 := Prepare(w, a, c.pruneOrder, now, cfg), AtScan(w, a, c, now, cfg);
            var (next, reply) := GetWork(w, a, c, now, cfg);
            if w1.workers[a.worker].disabled then next == w1 && reply == WorkerDisabled else
            && next == w2.(steps := next.steps, workers := next.workers)
            && HandedOut(w2.steps, next.steps, w2, a.worker, reply, now)
            && (forall y :: y in next.workers <==> y in w2.workers || BecomesActive(w2, a.worker, y))
            && (forall y <- next.workers :: next.workers[y] == if y in w2.workers then w2.workers[y] else WorkerRec(now, None, false, 1, false))
  {
    hide GetWork, AtScan, Prepare, HandedOut, ValidResend, ValidScan, Inv;
    var w1, w2 := Prepare(w, a, c.pruneOrder, now, cfg), AtScan(w, a, c, now, cfg);
    var reply := GetWorkShape(w, a, c, now, cfg);
    if !w1.workers[a.worker].disabled {
      OwnersBecomeActive(w2, a.worker, now);
      ReplyIsReady(w, a, c, now, cfg);
      HandsOut(w2, a.worker, reply, now, cfg);
    }
  }

  /** What is handed out can be started. */
  lemma ReplyIsReady(w: World, a: WorkArgs, c: Choices, now: Time, cfg: Config)
    requires Inv(w) && ValidChoices(w, a, c, now, cfg) && !Prepare(w, a, c.pruneOrder, now, cfg).workers[a.worker].disabled
    ensures var w2 := AtScan(w, a, c, now, cfg);
            match GetWork(w, a, c, now, cfg).1
            case WorkerDisabled => false
            case NoWork => true
            case Granted(id) => id in w2.steps && w2.steps[id].life.status in {PENDING, RUNNING}
            case BatchGranted(ids) => ByTheBatcher(w2, a.worker, ids)
  {
    hide GetWork, AtScan, Prepare, ValidResend, ValidScan, Inv, ByTheBatcher, StartsWith;
    var w1, w2 := Prepare(w, a, c.pruneOrder, now, cfg), AtScan(w, a, c, now, cfg);
    if AsksForNew(w, a, c, now, cfg) {
      var q, req, g, trace, i := GrantByTheRules(w, a, c, now, cfg);
      if i < |q| {
        assert Takeable(w2.steps, req, trace[i].reserved, q[i]);
        BatchIsReady(w2, a.worker, q, i);
      }
    } else {
      ResentIsHighest(w, a, c, now, cfg);
      BeforeTheScan(w, a, c, now, cfg);
    }
  }
}
