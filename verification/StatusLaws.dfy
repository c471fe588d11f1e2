/**
 What `set_status` and the calls that only change a status do to the fields of a step.
 */
module StatusLaws {
  import opened Options
  import opened SchedulerModel
  import opened SchedulerInvariants

  /** A running step is never disabled, and what the scheduler has disabled can only become DONE or be disabled again. */
  predicate StaysAsIs(l: Life, target: Status) {
    || (target == DISABLED && l.status in {RUNNING, BATCH_RUNNING})
    || (l.status == DISABLED && l.disableTime.Some? && target !in {DONE, DISABLED})
  }

  /** The queue without the failures at its front that are older than `oldest`. */
  predicate KeptOf(queue: seq<Time>, kept: seq<Time>, oldest: Time) {
    && |kept| <= |queue| && kept == queue[|queue| - |kept|..]
    && (forall i :: 0 <= i < |queue| - |kept| ==> queue[i] < oldest)
    && (kept != [] ==> kept[0] >= oldest)
  }

  /** The failure is entered.  It disables the step if the first failure is as old as the hard timeout, or if as
      many failures as the policy allows are left in the window; otherwise the step waits for its next try. */
  predicate CountsFailure(s: StepRec, t: StepRec, now: Time, cfg: Config) {
    var l, m, queue := s.life, t.life, s.life.failures + [now];
    var first := if l.firstFailure.Some? && l.firstFailure.value != 0 then l.firstFailure.value else now;
    var timedOut := now >= first + s.info.policy.hardTimeout;
    && m.firstFailure == Some(first)
    && (if timedOut then m.failures == queue else KeptOf(queue, m.failures, now - s.info.policy.window))
    && (if timedOut || |m.failures| >= s.info.policy.retryCount
        then m.status == DISABLED && m.disableTime == Some(now) && m.retry == l.retry && m.remove == l.remove
        else m.status == FAILED && m.disableTime == l.disableTime && WaitsForRetry(s, t, now, cfg))
  }

  /** The time of the next try is set, and a step that cannot be batched but ran as one is to be removed. */
  predicate WaitsForRetry(s: StepRec, t: StepRec, now: Time, cfg: Config) {
    && t.life.retry == Some(now + cfg.retryDelay)
    && t.life.remove == if s.life.batchId.Some? && !s.info.batchable then Some(now) else s.life.remove
  }

  /** `t` is `s` after a status change that is not refused. */
  predicate IsSetTo(s: StepRec, t: StepRec, target: Status, now: Time, cfg: Config) {
    var l, m := s.life, t.life;
    && t == s.(life := m)
    && m.updated == (if m.status == l.status then l.updated else now)
    && m.batchId == (if l.status == RUNNING && target != RUNNING then None else l.batchId)
    && if target == FAILED && l.status != DISABLED then CountsFailure(s, t, now, cfg)
       else
         && m.status == target
         && (if target == FAILED then WaitsForRetry(s, t, now, cfg) else m.retry == l.retry && m.remove == l.remove)
         && (if target == DONE && l.status == DISABLED
             then m.failures == [] && m.firstFailure == None && m.disableTime == None
             else m.failures == l.failures && m.firstFailure == l.firstFailure
                  && m.disableTime == if target == DISABLED then None else l.disableTime)
  }

  lemma {:induction false} DropsOld(queue: seq<Time>, oldest: Time)
    ensures KeptOf(queue, DropOld(queue, oldest), oldest)
  {
    if queue != [] && queue[0] < oldest {
      DropsOld(queue[1..], oldest);
    }
  }

  lemma LifeIsSet(s: StepRec, target: Status, now: Time, cfg: Config)
    ensures var t := SetOne(s, target, now, cfg);
            if StaysAsIs(s.life, target) then t == s else IsSetTo(s, t, target, now, cfg)
  {
    if target == FAILED && s.life.status != DISABLED {
      FailureIsCounted(s, now, cfg);
    }
    hide Fail, CountsFailure, DropOld;
  }

  /** A failure of a step that is not disabled. */
  lemma FailureIsCounted(s: StepRec, now: Time, cfg: Config)
    requires s.life.status != DISABLED
    ensures var l := s.life;
            var unbatched := if l.status == RUNNING then l.(batchId := None) else l;
            var m := Fail(unbatched, s.info.policy, l.batchId.Some? && !s.info.batchable, now, cfg);
            && CountsFailure(s, s.(life := m), now, cfg) && m.batchId == unbatched.batchId
            && m.updated == if m.status == l.status then l.updated else now
  {
    DropsOld(s.life.failures + [now], now - s.info.policy.window);
    hide DropOld, KeptOf;
  }

  /** A step that runs as the head of a batch leaves it. */
  predicate BreaksUp(l: Life, target: Status) {
    l.status == RUNNING && l.batchId.Some? && target !in {RUNNING, DISABLED}
  }

  /** `set_status` changes the step unless it is refused.  If the step runs as the head of a batch and stops, the
      running members change in the same way, each by its own record, and belong to no batch any more. */
  lemma StatusIsSet(steps: Steps, id: StepId, target: Status, now: Time, cfg: Config)
    requires id in steps
    ensures var next := SetStatus(steps, id, target, now, cfg);
            next.Keys == steps.Keys &&
            if StaysAsIs(steps[id].life, target) then next == steps else
            && IsSetTo(steps[id], next[id], target, now, cfg)
            && forall k <- steps :: k != id ==>
                 if BreaksUp(steps[id].life, target) && steps[k].life.status == BATCH_RUNNING
                    && steps[k].life.batchId == steps[id].life.batchId
                 then next[k].life.batchId == None
                      && IsSetTo(steps[k], next[k].(life := next[k].life.(batchId := steps[k].life.batchId)), target, now, cfg)
                 else next[k] == steps[k]
  {
    var next := SetStatus(steps, id, target, now, cfg);
    SetStatusAt(steps, id, target, now, cfg, id);
    forall k | k in steps
      ensures k in next && next[k] == if k == id then SetOne(steps[k], target, now, cfg)
                else if BreaksUp(steps[id].life, target) && steps[k].life.status == BATCH_RUNNING
                        && steps[k].life.batchId == steps[id].life.batchId
                then Unbatched(SetOne(steps[k], target, now, cfg)) else steps[k]
    {
      SetStatusAt(steps, id, target, now, cfg, k);
    }
    hide SetStatus, SetLife;
    forall k | k in steps
      ensures var t := SetOne(steps[k], target, now, cfg);
              if StaysAsIs(steps[k].life, target) then t == steps[k] else IsSetTo(steps[k], t, target, now, cfg)
    {
      LifeIsSet(steps[k], target, now, cfg);
    }
  }

  // ---------------------------------------------------------------- calls that change a status

  /** `mark_as_done`, `forgive_failures` and `re_enable_step` change exactly the steps they are for.  A step that
      is done although it was disabled is forgiven; forgiving leaves the failures in the queue; and a step that is
      enabled again has failed, with an empty queue, and waits for its next try. */
  lemma StatusCalls(w: World, id: StepId, now: Time, cfg: Config)
    requires id in w.steps
    ensures var next, status := MarkAsDone(w, id, now, cfg).steps, w.steps[id].life.status;
            if status in {RUNNING, FAILED, DISABLED} then id in next && IsSetTo(w.steps[id], next[id], DONE, now, cfg) else next == w.steps
    ensures var next, l := ForgiveFailures(w, id, now, cfg).steps, w.steps[id].life;
            next == if l.status == FAILED then w.steps[id := w.steps[id].(life := l.(status := PENDING, updated := now))] else w.steps
    ensures var next, l := ReEnableStep(w, id, now, cfg).steps, w.steps[id].life;
            if l.status == DISABLED && l.disableTime.Some? && l.disableTime.value != 0
            then next == w.steps[id := Enabled(w.steps[id], now, cfg)] else next == w.steps
  {
    StatusIsSet(w.steps, id, DONE, now, cfg);
    if w.steps[id].life.status == DISABLED {
      EnabledAgain(w.steps, id, now, cfg);
    }
    hide ReEnable;
    SetStatusAt(w.steps, id, PENDING, now, cfg, id);
  }

  /** A disabled step after it has been enabled again. */
  function Enabled(s: StepRec, now: Time, cfg: Config): StepRec {
    s.(life := s.life.(
      status := FAILED, updated := now, disableTime := None, failures := [], firstFailure := None, retry := Some(now + cfg.retryDelay),
      remove := if s.life.batchId.Some? && !s.info.batchable then Some(now) else s.life.remove))
  }

  lemma EnabledAgain(steps: Steps, id: StepId, now: Time, cfg: Config)
    requires id in steps && steps[id].life.status == DISABLED
    ensures ReEnable(steps, id, now, cfg) == steps[id := Enabled(steps[id], now, cfg)]
  {
  }
}
