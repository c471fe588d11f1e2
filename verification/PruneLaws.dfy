/**
 What `prune` does to each worker and each step, stated on their fields.
 */
module PruneLaws {
  import opened Options
  import opened Sequences
  import opened SchedulerModel
  import opened SchedulerInvariants
  import opened StatusLaws

  // ---------------------------------------------------------------- one round of the loop

  /** What the round of the step leaves of it when it is the only step. */
  function Alone(s: StepRec, k: StepId, now: Time, cfg: Config, assistants: set<WorkerId>): StepRec {
    var r := PruneStep(map[k := s], k, now, cfg, assistants);
    if k in r then r[k] else s
  }

  /** The head of the batch keeps its owner, if the step is a running member of one. */
  predicate HeadStays(steps: Steps, k: StepId, assistants: set<WorkerId>)
    requires k in steps
  {
    steps[k].life.status == BATCH_RUNNING && steps[k].life.batchId.Some? ==>
      forall j <- steps :: steps[j].life.status == RUNNING && steps[j].life.batchId == steps[k].life.batchId ==> !Orphaned(steps[j], assistants)
  }

  lemma FailDeadAt(steps: Steps, j: StepId, now: Time, cfg: Config, assistants: set<WorkerId>, k: StepId)
    requires j in steps && k in steps && HeadStays(steps, k, assistants)
    ensures var r := FailDead(steps, j, now, cfg, assistants);
            r.Keys == steps.Keys && r[k] == if j == k then FailDead(map[k := steps[k]], k, now, cfg, assistants)[k] else steps[k]
  {
    var freed := Freed(steps[j]);
    SetStatusAt(steps[j := freed], j, FAILED, now, cfg, k);
    SetStatusAt(map[j := steps[j]][j := freed], j, FAILED, now, cfg, j);
    hide SetStatus, SetLife;
  }

  lemma ReEnableAt(steps: Steps, j: StepId, now: Time, cfg: Config, k: StepId)
    requires j in steps && k in steps && steps[j].life.status == DISABLED
    ensures ReEnable(steps, j, now, cfg).Keys == steps.Keys
    ensures ReEnable(steps, j, now, cfg)[k] == if j == k then Enabled(steps[k], now, cfg) else steps[k]
  {
    EnabledAgain(steps, j, now, cfg);
    hide ReEnable;
  }

  /** The step after `update_status`. */
  function Updated(s: StepRec, now: Time, cfg: Config): StepRec {
    var marked := MarkUnwanted(s, now, cfg);
    var enabled := if DisableExpired(marked, now, cfg) then Enabled(marked, now, cfg) else marked;
    if RetryDue(enabled, now, cfg) then SetOne(enabled, PENDING, now, cfg) else enabled
  }

  lemma UpdateAt(steps: Steps, j: StepId, now: Time, cfg: Config, k: StepId)
    requires j in steps && k in steps
    ensures var r := UpdateStatus(steps, j, now, cfg);
            r.Keys == steps.Keys && r[k] == if j == k then Updated(steps[k], now, cfg) else steps[k]
  {
    var marked := steps[j := MarkUnwanted(steps[j], now, cfg)];
    if DisableExpired(marked[j], now, cfg) {
      ReEnableAt(marked, j, now, cfg, k);
      ReEnableAt(marked, j, now, cfg, j);
    }
    var enabled := if DisableExpired(marked[j], now, cfg) then ReEnable(marked, j, now, cfg) else marked;
    SetStatusAt(enabled, j, PENDING, now, cfg, k);
    hide SetStatus, ReEnable, SetLife, Enabled;
  }

  /** A round changes only the step it is for, as long as no head of a batch takes its members along. */
  lemma RoundAt(steps: Steps, j: StepId, now: Time, cfg: Config, assistants: set<WorkerId>, k: StepId)
    requires j in steps && k in steps && HeadStays(steps, k, assistants)
    ensures var r := PruneStep(steps, j, now, cfg, assistants);
            r.Keys == steps.Keys && r[k] == (if j == k then Alone(steps[k], k, now, cfg, assistants) else steps[k])
            && HeadStays(r, k, assistants)
  {
    FailDeadAt(steps, j, now, cfg, assistants, k);
    PruneStepSettles(steps, j, now, cfg, assistants);
    var one := map[k := steps[k]];
    assert HeadStays(one, k, assistants);
    FailDeadAt(one, k, now, cfg, assistants, k);
    hide FailDead, UpdateStatus;
    UpdateAt(FailDead(steps, j, now, cfg, assistants), j, now, cfg, k);
    UpdateAt(FailDead(one, k, now, cfg, assistants), k, now, cfg, k);
    HeadsSettle(steps, PruneStep(steps, j, now, cfg, assistants), k, assistants);
  }

  lemma HeadsSettle(steps: Steps, next: Steps, k: StepId, assistants: set<WorkerId>)
    requires AllSettle(steps, next) && k in steps && HeadStays(steps, k, assistants)
    ensures HeadStays(next, k, assistants)
  {
    assert Settles(steps[k], next[k]);
    forall j | j in next && next[j].life.status == RUNNING && Orphaned(next[j], assistants)
      ensures Orphaned(steps[j], assistants) && steps[j].life.status == RUNNING && steps[j].life.batchId == next[j].life.batchId
    {
      assert Settles(steps[j], next[j]);
    }
  }

  lemma {:induction false} LoopAt(steps: Steps, order: seq<StepId>, now: Time, cfg: Config, assistants: set<WorkerId>,
                                  doomed: set<StepId>, k: StepId)
    requires (forall j <- order :: j in steps) && Distinct(order) && k in steps && HeadStays(steps, k, assistants)
    ensures var (end, gone) := PruneLoop(steps, order, now, cfg, assistants, doomed);
            var alone := Alone(steps[k], k, now, cfg, assistants);
            && end[k] == (if k in order then alone else steps[k])
            && (k in gone <==> k in doomed || (k in order && MayPrune(alone, now)))
    decreases |order|
  {
    hide PruneStep, MayPrune, HeadStays, Alone;
    if order != [] {
      var next := PruneStep(steps, order[0], now, cfg, assistants);
      RoundAt(steps, order[0], now, cfg, assistants, k);
      assert k in order <==> k == order[0] || k in order[1..];
      assert order[0] !in order[1..];
      var more := if MayPrune(next[order[0]], now) then doomed + {order[0]} else doomed;
      LoopAt(next, order[1..], now, cfg, assistants, more, k);
    }
  }

  // ---------------------------------------------------------------- what the call does, on the fields

  /** The worker has been silent for longer than the disconnect delay. */
  predicate Lost(w: World, x: WorkerId, now: Time, cfg: Config) {
    x in w.workers && w.workers[x].lastActive + cfg.disconnectDelay < now
  }

  predicate AllStakeholdersLost(w: World, s: StepRec, now: Time, cfg: Config) {
    forall x <- s.info.stakeholders :: Lost(w, x, now, cfg)
  }

  /** The step runs on a worker that is lost or neither its stakeholder nor an assistant. */
  predicate OwnerLost(w: World, s: StepRec, now: Time, cfg: Config) {
    s.life.status in {RUNNING, BATCH_RUNNING} && s.load.workerRunning.Some? &&
    var x := s.load.workerRunning.value;
    && !(x in s.info.stakeholders && !Lost(w, x, now, cfg))
    && !(x in w.workers && w.workers[x].assistant && !Lost(w, x, now, cfg))
  }

  /** The running head of its batch has not lost its owner, if the step is a running member of a batch. */
  predicate HeadOwned(w: World, k: StepId, now: Time, cfg: Config)
    requires k in w.steps
  {
    var l := w.steps[k].life;
    l.status == BATCH_RUNNING && l.batchId.Some? ==>
      forall j <- w.steps :: w.steps[j].life.status == RUNNING && w.steps[j].life.batchId == l.batchId ==> !OwnerLost(w, w.steps[j], now, cfg)
  }

  /** The owner of the step is there, and so is that of the running head of its batch. */
  predicate StaysOwned(w: World, k: StepId, now: Time, cfg: Config)
    requires k in w.steps
  {
    !OwnerLost(w, w.steps[k], now, cfg) && HeadOwned(w, k, now, cfg)
  }

  /** When the step is to be removed: a step without stakeholders is stamped, unless it is running or has a stamp. */
  function Stamp(w: World, s: StepRec, now: Time, cfg: Config): Option<Time> {
    if s.life.remove.None? && s.life.status != RUNNING && AllStakeholdersLost(w, s, now, cfg)
    then Some(now + cfg.removeDelay) else s.life.remove
  }

  /** The life of the step after `prune`, if it stays owned. */
  function LifeAfter(w: World, s: StepRec, now: Time, cfg: Config): Life {
    var l := s.life.(remove := Stamp(w, s, now, cfg));
    if l.status == FAILED && cfg.retryDelay >= 0 && l.retry.Some? && l.retry.value < now
    then l.(status := PENDING, updated := now)
    else if l.status == DISABLED && l.disableTime.Some? && now - l.disableTime.value > cfg.disablePersist
    then l.(status := FAILED, updated := now, disableTime := None, failures := [], firstFailure := None,
            retry := Some(now + cfg.retryDelay),
            remove := if l.batchId.Some? && !s.info.batchable then Some(now) else l.remove)
    else l
  }

  /** The stamp is due. */
  predicate Due(l: Life, now: Time) {
    l.remove.Some? && l.remove.value != 0 && l.remove.value <= now
  }

  /** Who still has a stake in the step, and who may still run it. */
  ghost predicate KeepsPlaces(w: World, s: StepRec, t: StepRec, now: Time, cfg: Config) {
    && t.id == s.id && t.info == s.info.(stakeholders := t.info.stakeholders, workers := t.info.workers)
    && t.info.stakeholders <= s.info.stakeholders
    && (forall x <- s.info.stakeholders :: x in t.info.stakeholders <==> !Lost(w, x, now, cfg))
    && (forall x :: x in t.info.workers <==> x in s.info.workers && !Lost(w, x, now, cfg))
  }

  lemma FirstThing(w: World, now: Time, cfg: Config, k: StepId)
    requires k in w.steps
    ensures var w1 := PruneWorkers(w, now, cfg);
            && w1.steps.Keys == w.steps.Keys && KeepsPlaces(w, w.steps[k], w1.steps[k], now, cfg)
            && w1.steps[k].life == w.steps[k].life && w1.steps[k].load == w.steps[k].load
            && (w1.steps[k].info.stakeholders == {} <==> AllStakeholdersLost(w, w.steps[k], now, cfg))
            && (Orphaned(w1.steps[k], Assistants(w1.workers)) <==> OwnerLost(w, w.steps[k], now, cfg))
  {
    var gone := SilentWorkers(w.workers, now, cfg);
    WithoutFilters(w.steps[k].info.workers, gone);
    var w1 := PruneWorkers(w, now, cfg);
    assert forall x :: x in gone <==> Lost(w, x, now, cfg);
    assert forall x :: x in Assistants(w1.workers) <==> x in w.workers && w.workers[x].assistant && !Lost(w, x, now, cfg);
    var s, t := w.steps[k], w1.steps[k];
    assert t.info.stakeholders == s.info.stakeholders - gone;
    if AllStakeholdersLost(w, s, now, cfg) {
      assert forall x <- t.info.stakeholders :: false;
    }
  }

  lemma HeadsStay(w: World, now: Time, cfg: Config, k: StepId)
    requires k in w.steps && HeadOwned(w, k, now, cfg)
    ensures var w1 := PruneWorkers(w, now, cfg);
            k in w1.steps && HeadStays(w1.steps, k, Assistants(w1.workers))
  {
    FirstThing(w, now, cfg, k);
    var w1 := PruneWorkers(w, now, cfg);
    forall j | j in w.steps
      ensures w1.steps[j].life == w.steps[j].life
      ensures Orphaned(w1.steps[j], Assistants(w1.workers)) <==> OwnerLost(w, w.steps[j], now, cfg)
    {
      FirstThing(w, now, cfg, j);
    }
    hide PruneWorkers, Assistants, Orphaned, OwnerLost;
  }

  lemma AloneIs(w: World, s: StepRec, t: StepRec, k: StepId, now: Time, cfg: Config, assistants: set<WorkerId>)
    requires t.life == s.life && t.load == s.load && t.info.batchable == s.info.batchable && !Orphaned(t, assistants)
    requires t.info.stakeholders == {} <==> AllStakeholdersLost(w, s, now, cfg)
    ensures Alone(t, k, now, cfg, assistants) == t.(life := LifeAfter(w, s, now, cfg))
  {
    var one := map[k := t];
    UpdateAt(one, k, now, cfg, k);
    hide UpdateStatus, AllStakeholdersLost;
    assert PruneStep(one, k, now, cfg, assistants)[k] == Updated(t, now, cfg);
  }

  /** `prune` in any order: the workers that are lost are gone, and of every step that stays owned exactly those with a
      due stamp; the others have the life described above. */
  lemma PruneIsExact(w: World, order: seq<StepId>, now: Time, cfg: Config, k: StepId)
    requires Lists(order, w.steps.Keys) && k in w.steps && StaysOwned(w, k, now, cfg)
    ensures var next, life := Prune(w, order, now, cfg), LifeAfter(w, w.steps[k], now, cfg);
            && (k in next.steps <==> !Due(life, now))
            && (k in next.steps ==>
                  && next.steps[k].life == life && next.steps[k].load == w.steps[k].load
                  && KeepsPlaces(w, w.steps[k], next.steps[k], now, cfg))
  {
    var w1 := PruneWorkers(w, now, cfg);
    FirstThing(w, now, cfg, k);
    HeadsStay(w, now, cfg, k);
    LoopAt(w1.steps, order, now, cfg, Assistants(w1.workers), {}, k);
    AloneIs(w, w.steps[k], w1.steps[k], k, now, cfg, Assistants(w1.workers));
    hide PruneLoop, PruneWorkers, Alone, LifeAfter, HeadStays, StaysOwned, Assistants, Orphaned, OwnerLost, AllStakeholdersLost;
  }

  /** The workers after `prune` are those that are not lost, and nothing else of the scheduler changes. */
  lemma LostWorkersAreGone(w: World, order: seq<StepId>, now: Time, cfg: Config)
    requires Lists(order, w.steps.Keys)
    ensures var next := Prune(w, order, now, cfg);
            && (forall x :: x in next.workers <==> x in w.workers && !Lost(w, x, now, cfg))
            && (forall x <- next.workers :: next.workers[x] == w.workers[x])
            && next == w.(steps := next.steps, workers := next.workers) && next.steps.Keys <= w.steps.Keys
  {
    hide PruneStep;
    var w1 := PruneWorkers(w, now, cfg);
    PruneLoopOk(w1.steps, order, now, cfg, Assistants(w1.workers), {});
    hide PruneLoop, Deserted, Lists;
  }

  /** A failed step that is not to be removed is put back exactly if retrying is enabled and its time has passed. */
  lemma FailedIsRetried(w: World, order: seq<StepId>, now: Time, cfg: Config, k: StepId)
    requires Lists(order, w.steps.Keys) && k in w.steps && w.steps[k].life.status == FAILED && w.steps[k].life.retry.Some?
    requires w.steps[k].life.remove.None? && !AllStakeholdersLost(w, w.steps[k], now, cfg)
    ensures var next := Prune(w, order, now, cfg).steps;
            && k in next && (next[k].life.status == PENDING || next[k].life.status == FAILED)
            && (next[k].life.status == PENDING <==> cfg.retryDelay >= 0 && w.steps[k].life.retry.value < now)
            && next[k].life.failures == w.steps[k].life.failures
  {
    hide Prune, KeepsPlaces, Lists, AllStakeholdersLost;
    assert StaysOwned(w, k, now, cfg);
    hide StaysOwned;
    PruneIsExact(w, order, now, cfg, k);
  }

  /** A step that the scheduler has disabled is enabled again exactly if that was longer ago than the disable lasts. */
  lemma DisableExpires(w: World, order: seq<StepId>, now: Time, cfg: Config, k: StepId)
    requires Lists(order, w.steps.Keys) && k in w.steps && w.steps[k].life.status == DISABLED && w.steps[k].life.disableTime.Some?
    requires w.steps[k].life.remove.None? && !AllStakeholdersLost(w, w.steps[k], now, cfg)
    requires w.steps[k].life.batchId.Some? ==> w.steps[k].info.batchable
    ensures var next, l := Prune(w, order, now, cfg).steps, w.steps[k].life;
            k in next && next[k].life ==
              if now - l.disableTime.value > cfg.disablePersist
              then l.(status := FAILED, updated := now, disableTime := None, failures := [], firstFailure := None,
                      retry := Some(now + cfg.retryDelay))
              else l
  {
    hide Prune, KeepsPlaces, Lists, AllStakeholdersLost;
    assert StaysOwned(w, k, now, cfg);
    hide StaysOwned;
    PruneIsExact(w, order, now, cfg, k);
  }

  /** A step that is not running is stamped as soon as it has no stakeholders, and is gone exactly when a stamp is due. */
  lemma UnwantedIsRemoved(w: World, order: seq<StepId>, now: Time, cfg: Config, k: StepId)
    requires Lists(order, w.steps.Keys) && k in w.steps && w.steps[k].life.status in {PENDING, DONE, UNKNOWN}
    ensures var next, l := Prune(w, order, now, cfg).steps, w.steps[k].life;
            var stamp := if l.remove.None? && AllStakeholdersLost(w, w.steps[k], now, cfg) then Some(now + cfg.removeDelay) else l.remove;
            && (k in next <==> stamp.None? || stamp.value == 0 || now < stamp.value)
            && (k in next ==> next[k].life == l.(remove := stamp))
  {
    hide Prune, KeepsPlaces, Lists, AllStakeholdersLost;
    assert StaysOwned(w, k, now, cfg);
    hide StaysOwned;
    PruneIsExact(w, order, now, cfg, k);
  }

  /** The failed step, as `prune` leaves it: it waits for its next try, and it is stamped if it has no stakeholders.
      If disables do not last at all, it is enabled again at once. */
  function AfterFailure(w: World, s: StepRec, failed: Life, now: Time, cfg: Config): Life {
    var unwanted := failed.remove.None? && AllStakeholdersLost(w, s, now, cfg);
    var l := failed.(retry := Some(now + cfg.retryDelay), remove := if unwanted then Some(now + cfg.removeDelay) else failed.remove);
    if l.status == DISABLED && cfg.disablePersist < 0
    then l.(status := FAILED, updated := now, disableTime := None, failures := [], firstFailure := None,
            remove := if l.batchId.Some? && !s.info.batchable then Some(now) else l.remove)
    else l
  }

  lemma AloneFails(w: World, s: StepRec, t: StepRec, k: StepId, now: Time, cfg: Config, assistants: set<WorkerId>)
    requires t.life == s.life && t.load == s.load && t.info.batchable == s.info.batchable && t.info.policy == s.info.policy
    requires Orphaned(t, assistants) && (t.info.stakeholders == {} <==> AllStakeholdersLost(w, s, now, cfg))
    ensures var failed := SetOne(s, FAILED, now, cfg).life;
            Alone(t, k, now, cfg, assistants) ==
              Freed(t).(life := AfterFailure(w, s, failed, now, cfg))
  {
    hide AllStakeholdersLost, SetLife;
    var one, freed := map[k := t], Freed(t);
    SetStatusAt(one[k := freed], k, FAILED, now, cfg, k);
    var failed := SetOne(freed, FAILED, now, cfg);
    var waiting := failed.(life := failed.life.(retry := Some(now + cfg.retryDelay)));
    assert FailDead(one, k, now, cfg, assistants)[k] == waiting;
    UpdateAt(FailDead(one, k, now, cfg, assistants), k, now, cfg, k);
    FailedLife(s, now, cfg);
    hide UpdateStatus, FailDead;
    assert SetOne(s, FAILED, now, cfg).life == failed.life;
  }

  lemma FailedLife(s: StepRec, now: Time, cfg: Config)
    requires s.life.status.Runs()
    ensures var l := SetOne(s, FAILED, now, cfg).life;
            && (l.status == FAILED || l.status == DISABLED) && (l.status == DISABLED ==> l.disableTime == Some(now))
            && (l.status == s.life.status ==> l.updated == s.life.updated)
  {
  }

  /** A step that has lost its owner fails and has none any more, unless the head of its batch takes it along. */
  lemma OrphanFails(w: World, order: seq<StepId>, now: Time, cfg: Config, k: StepId) returns (failed: StepRec)
    requires Lists(order, w.steps.Keys) && k in w.steps && OwnerLost(w, w.steps[k], now, cfg) && HeadOwned(w, k, now, cfg)
    ensures IsSetTo(w.steps[k], failed, FAILED, now, cfg)
    ensures var next, life := Prune(w, order, now, cfg).steps, AfterFailure(w, w.steps[k], failed.life, now, cfg);
            && (k in next <==> !Due(life, now))
            && (k in next ==>
                  && next[k].life == life && next[k].load == w.steps[k].load.(workerRunning := None)
                  && KeepsPlaces(w, w.steps[k], next[k], now, cfg))
  {
    hide PruneLoop, PruneWorkers, Alone, AfterFailure, HeadStays, Assistants, AllStakeholdersLost, IsSetTo, SetLife;
    failed := SetOne(w.steps[k], FAILED, now, cfg);
    LifeIsSet(w.steps[k], FAILED, now, cfg);
    hide Orphaned, HeadOwned;
    var w1 := PruneWorkers(w, now, cfg);
    FirstThing(w, now, cfg, k);
    HeadsStay(w, now, cfg, k);
    LoopAt(w1.steps, order, now, cfg, Assistants(w1.workers), {}, k);
    AloneFails(w, w.steps[k], w1.steps[k], k, now, cfg, Assistants(w1.workers));
  }
}
