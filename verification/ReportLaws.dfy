/**
 What `add_step` makes of a report, stated on the fields of the step and of its neighbours.
 */
module ReportLaws {
  import opened Options
  import opened Sequences
  import opened SchedulerModel
  import opened SchedulerInvariants
  import opened SchedulerPriority
  import opened StatusLaws

  predicate Enabled(w: World, x: WorkerId) {
    x in w.workers ==> !w.workers[x].disabled
  }

  /** The report has no effect on any step: it comes from a disabled worker and is not about a running step, or it
      says that a step is pending that was done only just now. */
  predicate TurnedAway(w: World, a: AddArgs, now: Time, cfg: Config) {
    || (!Enabled(w, a.worker) && !(a.id in w.steps && w.steps[a.id].life.status == RUNNING))
    || (a.status == PENDING && a.id in w.steps && w.steps[a.id].life.status == DONE
        && now - w.steps[a.id].life.updated < cfg.stableDoneCooldown)
  }

  /** The step before the report; a step that is not known yet is pending and has nothing. */
  function Before(w: World, a: AddArgs, now: Time, cfg: Config): StepRec {
    if a.id in w.steps then w.steps[a.id] else
    StepRec(a.id, Life(PENDING, now, None, None, None, [], None, None),
            Info({}, {}, [], a.priority, now, "", map[], false, false, cfg.policy), Load(None, map[], None, false))
  }

  /** The report says that the step runs in a batch, and the step has no owner yet. */
  predicate StartsInBatch(s: StepRec, a: AddArgs) {
    a.status == RUNNING && s.load.workerRunning.None? && a.batchId.Some? && |a.batchId.value| > 0
  }

  /** The step as `add_step` has it just before it looks at the status. */
  function Noted(s: StepRec, a: AddArgs): StepRec {
    s.(life := s.life.(batchId := if a.batchId.Some? then a.batchId else s.life.batchId, remove := None),
       info := s.info.(batchable := if a.batchable.Some? then a.batchable.value else s.info.batchable),
       load := s.load.(workerRunning :=
         if a.status == RUNNING && s.load.workerRunning.None? then Some(a.worker) else s.load.workerRunning))
  }

  /** The status of a running step is changed only by its owner, who says how the run ended or that it goes on, or
      together with new dependencies. */
  predicate MayChange(s: StepRec, a: AddArgs) {
    || s.life.status !in {RUNNING, BATCH_RUNNING}
    || (a.status in {DONE, FAILED, RUNNING} && s.load.workerRunning == Some(a.worker))
    || (a.newDeps.Some? && a.newDeps.value != {})
  }

  // ---------------------------------------------------------------- the end of the call

  /** The places of the step after the report. */
  predicate PlacedBy(s: Info, t: Info, a: AddArgs, enabled: bool) {
    && t.deps == (if a.deps.Some? then a.deps.value else s.deps) + (if a.newDeps.Some? then a.newDeps.value else {})
    && t.stakeholders == (if enabled && !a.assistant then s.stakeholders + {a.worker} else s.stakeholders)
    && (if enabled && a.runnable && a.status != FAILED
        then t.runnable && t.workers == (if a.worker in s.workers then s.workers else s.workers + [a.worker])
        else t.runnable == s.runnable && t.workers == s.workers)
    && t.priority == (if a.priority >= s.priority then a.priority else s.priority) && t.time == s.time
    && t.policy == a.policy
  }

  lemma ReportedInfo(steps: Steps, a: AddArgs, now: Time, cfg: Config, k: StepId)
    requires a.id in steps && k in steps
    ensures var r := Report(steps, a, now, cfg); k in r && r[k].info == steps[k].info && r[k].id == steps[k].id && r[k].load == steps[k].load
  {
    SetStatusAt(steps, a.id, if a.status == SUSPENDED then PENDING else a.status, now, cfg, k);
    hide SetStatus;
  }

  /** The steps before the priorities are raised. */
  lemma WatchedTail(steps: Steps, a: AddArgs, enabled: bool, now: Time, cfg: Config) returns (watched: Steps)
    requires a.id in steps
    ensures a.id in watched
    ensures var raised := UpdatePriority(watched, a.id, a.priority);
            AddStepTail(steps, a, enabled, now, cfg) == raised[a.id := Enlist(raised[a.id], a, enabled)]
    ensures watched[a.id].id == steps[a.id].id
    ensures watched[a.id].info == steps[a.id].info.(
              batchable := if a.batchable.Some? then a.batchable.value else steps[a.id].info.batchable,
              deps := (if a.deps.Some? then a.deps.value else steps[a.id].info.deps) + (if a.newDeps.Some? then a.newDeps.value else {}),
              stakeholders := if enabled && !a.assistant then steps[a.id].info.stakeholders + {a.worker} else steps[a.id].info.stakeholders)
    ensures watched.Keys == if enabled && !a.assistant then steps.Keys + watched[a.id].info.deps else steps.Keys
    ensures forall k <- steps :: watched[k].id == steps[k].id
    ensures forall k <- steps :: k != a.id ==>
              watched[k].info == if enabled && !a.assistant && k in watched[a.id].info.deps then Watched(steps[k], a.worker).info else steps[k].info
    ensures forall k <- watched :: k !in steps ==> watched[k] == Watched(Placeholder(k, a.priority, now, cfg), a.worker)
  {
    hide Report, UpdatePriority, Enlist, Placeholder;
    var unmarked := steps[a.id := Unmark(steps[a.id], a)];
    forall k | k in steps
      ensures var r := Report(unmarked, a, now, cfg); k in r && r[k].info == unmarked[k].info && r[k].id == steps[k].id
    {
      ReportedInfo(unmarked, a, now, cfg, k);
    }
    var reported := Report(unmarked, a, now, cfg);
    var rewired := reported[a.id := Rewire(reported[a.id], a)];
    watched := if enabled && !a.assistant then AddStakeholder(rewired, a.id, a.worker, a.priority, now, cfg) else rewired;
    WatchedPlaces(rewired, a.id, a.worker, a.priority, now, cfg);
    hide AddStakeholder;
  }

  lemma TailPlaces(steps: Steps, a: AddArgs, enabled: bool, now: Time, cfg: Config)
    requires a.id in steps
    ensures var r, s := AddStepTail(steps, a, enabled, now, cfg), steps[a.id];
            a.id in r && PlacedBy(s.info, r[a.id].info, a, enabled) && r[a.id].id == s.id
            && r[a.id].info.family == s.info.family && r[a.id].info.params == s.info.params
            && r[a.id].info.batchable == if a.batchable.Some? then a.batchable.value else s.info.batchable
  {
    hide AddStepTail, UpdatePriority;
    var watched := WatchedTail(steps, a, enabled, now, cfg);
    PrioritiesOnlyRise(watched, a.id, a.priority);
  }

  lemma WatchedPlaces(steps: Steps, id: StepId, x: WorkerId, priority: int, now: Time, cfg: Config)
    requires id in steps
    ensures var r := AddStakeholder(steps, id, x, priority, now, cfg);
            && r.Keys == steps.Keys + steps[id].info.deps
            && (forall k <- steps :: r[k] == if k == id || k in steps[id].info.deps then Watched(steps[k], x) else steps[k])
            && (forall k <- r :: k !in steps ==> r[k] == Watched(Placeholder(k, priority, now, cfg), x))
  {
  }

  /** The steps after the batch lookup. */
  lemma StartFields(w: World, a: AddArgs, pick: Option<StepId>, now: Time, cfg: Config)
    requires ValidPick(AddStepHead(w.steps, a, now, cfg), a.batchId, pick)
    ensures var start, s := AddStepStart(w.steps, a, pick, now, cfg), Before(w, a, now, cfg);
            && (start.None? ==> StartsInBatch(s, a) && (pick.Some? ==> pick.value in w.steps && w.steps[pick.value].load.resourcesRunning == None))
            && (start.Some? ==>
                  && start.value.Keys == w.steps.Keys + {a.id} && (forall k <- w.steps :: k != a.id ==> start.value[k] == w.steps[k])
                  && StartedFrom(s, start.value[a.id], a, a.id in w.steps)
                  && start.value[a.id].load.resourcesRunning ==
                       if StartsInBatch(s, a) then MemberAccount(w, a, pick) else s.load.resourcesRunning)
            && (StartsInBatch(s, a) && start.Some? ==> MemberAccount(w, a, pick).Some?)
  {
    var head := AddStepHead(w.steps, a, now, cfg);
    DescribedFrom(w, a, now, cfg);
    assert CopiesResources(Found(w.steps, a, now, cfg), a) <==> StartsInBatch(Before(w, a, now, cfg), a);
    hide Describe, StartedFrom, Found, DefaultStep, Before;
    if pick.Some? && pick.value in head {
      EquippedFrom(Before(w, a, now, cfg), head[a.id], a, a.id in w.steps, head[pick.value].load.resourcesRunning);
    }
  }

  lemma DescribedFrom(w: World, a: AddArgs, now: Time, cfg: Config)
    ensures var s, t := Before(w, a, now, cfg), AddStepHead(w.steps, a, now, cfg)[a.id];
            StartedFrom(s, t, a, a.id in w.steps) && t.load.resourcesRunning == s.load.resourcesRunning
  {
  }

  lemma EquippedFrom(s: StepRec, t: StepRec, a: AddArgs, known: bool, amounts: Option<Amounts>)
    requires StartedFrom(s, t, a, known)
    ensures StartedFrom(s, Equipped(t, amounts), a, known)
  {
  }

  /** The running resources of the member whose account is copied. */
  function MemberAccount(w: World, a: AddArgs, pick: Option<StepId>): Option<Amounts> {
    if pick.Some? && pick.value in w.steps then w.steps[pick.value].load.resourcesRunning else None
  }

  predicate StartedFrom(s: StepRec, t: StepRec, a: AddArgs, known: bool) {
    && t.id == s.id && Unmark(t, a).life == Noted(s, a).life && t.load.workerRunning == Noted(s, a).load.workerRunning
    && t.info.deps == (if known then s.info.deps else if a.deps.Some? then a.deps.value else {})
    && t.info.(deps := s.info.deps, family := s.info.family, params := s.info.params) == s.info
    && t.info.family == (if s.info.family == "" then a.family else s.info.family)
    && t.info.params == (if s.info.params == map[] && a.params.Some? then a.params.value else s.info.params)
  }

  /** A report that is not turned away and raises no exception runs to its end. */
  lemma ReportEnds(w: World, a: AddArgs, pick: Option<StepId>, now: Time, cfg: Config)
    requires !TurnedAway(w, a, now, cfg)
    ensures var start, (next, failed) := AddStepStart(w.steps, a, pick, now, cfg), AddStep(w, a, pick, now, cfg);
            && failed == start.None? && (failed ==> next.steps == AddStepHead(w.steps, a, now, cfg))
            && (start.Some? ==> next.steps == AddStepTail(start.value, a, Enabled(w, a.worker), now, cfg))
  {
    hide AddStepTail, AddStepStart, AddStepHead;
  }

  // ---------------------------------------------------------------- the laws

  /** A report that is turned away leaves every step as it was. */
  lemma TurnedAwayChangesNothing(w: World, a: AddArgs, pick: Option<StepId>, now: Time, cfg: Config)
    requires TurnedAway(w, a, now, cfg)
    ensures var (next, failed) := AddStep(w, a, pick, now, cfg); next.steps == w.steps && !failed
  {
    hide ApplyReport;
  }

  /** The call raises an exception just if the report starts the step in a batch, and the batch has no member, or the
      first one has no running resources. */
  lemma ReportFailsJust(w: World, a: AddArgs, pick: Option<StepId>, now: Time, cfg: Config)
    requires ValidPick(AddStepHead(w.steps, a, now, cfg), a.batchId, pick)
    ensures AddStep(w, a, pick, now, cfg).1 <==>
      && !TurnedAway(w, a, now, cfg) && StartsInBatch(Before(w, a, now, cfg), a)
      && (pick.None? || MemberAccount(w, a, pick) == None)
  {
    hide AddStep;
    if TurnedAway(w, a, now, cfg) {
      TurnedAwayChangesNothing(w, a, pick, now, cfg);
    } else {
      ReportEnds(w, a, pick, now, cfg);
      StartFields(w, a, pick, now, cfg);
    }
    hide AddStepStart, AddStepHead, TurnedAway, Before, ValidPick;
  }

  /** Dependencies that are reported replace the old ones, and new ones are added; the worker becomes a stakeholder
      unless it is an assistant, and one of the workers if it can run the step; the priority can only rise. */
  lemma ReportSetsPlaces(w: World, a: AddArgs, pick: Option<StepId>, now: Time, cfg: Config)
    requires ValidPick(AddStepHead(w.steps, a, now, cfg), a.batchId, pick)
    requires !TurnedAway(w, a, now, cfg) && !AddStep(w, a, pick, now, cfg).1
    ensures var next, s := AddStep(w, a, pick, now, cfg).0.steps, Before(w, a, now, cfg);
            a.id in next && PlacedBy(s.info, next[a.id].info, a, Enabled(w, a.worker))
  {
    hide AddStep, AddStepStart, AddStepTail, TurnedAway, AddStepHead;
    ReportEnds(w, a, pick, now, cfg);
    StartFields(w, a, pick, now, cfg);
    hide ValidPick, StartsInBatch;
    var start := AddStepStart(w.steps, a, pick, now, cfg).value;
    TailPlaces(start, a, Enabled(w, a.worker), now, cfg);
  }

  /** A name and parameters are filled in where there are none; the demand is always that of the report. */
  lemma ReportDescribes(w: World, a: AddArgs, pick: Option<StepId>, now: Time, cfg: Config)
    requires ValidPick(AddStepHead(w.steps, a, now, cfg), a.batchId, pick)
    requires !TurnedAway(w, a, now, cfg) && !AddStep(w, a, pick, now, cfg).1
    ensures var next, s := AddStep(w, a, pick, now, cfg).0.steps, Before(w, a, now, cfg);
            && a.id in next && next[a.id].id == s.id
            && next[a.id].info.family == (if s.info.family == "" then a.family else s.info.family)
            && next[a.id].info.params == (if s.info.params == map[] && a.params.Some? then a.params.value else s.info.params)
            && next[a.id].info.batchable == (if a.batchable.Some? then a.batchable.value else s.info.batchable)
            && next[a.id].load.resources == a.resources && !next[a.id].load.sharedResources
  {
    ReportEnds(w, a, pick, now, cfg);
    StartFields(w, a, pick, now, cfg);
    hide AddStep, AddStepStart, AddStepTail, TurnedAway, AddStepHead, Report;
    var start := AddStepStart(w.steps, a, pick, now, cfg).value;
    TailPlaces(start, a, Enabled(w, a.worker), now, cfg);
    AddStepTailAt(start, a, Enabled(w, a.worker), now, cfg, a.id);
    hide PlacedBy;
  }

  function Target(a: AddArgs): Status {
    if a.status == SUSPENDED then PENDING else a.status
  }

  /** A status change only depends on the life, the policy and whether the step can be batched. */
  lemma SetLike(s: StepRec, t: StepRec, n: StepRec, target: Status, now: Time, cfg: Config)
    requires IsSetTo(s, t, target, now, cfg)
    requires n.life == s.life && n.info.batchable == s.info.batchable && n.info.policy == s.info.policy
    ensures IsSetTo(n, n.(life := t.life), target, now, cfg)
  {
    hide KeptOf;
  }

  /** What the report does to the life of the step, from the state after the batch lookup on. */
  lemma TailLife(steps: Steps, a: AddArgs, enabled: bool, now: Time, cfg: Config, n: StepRec)
    requires a.id in steps && Unmark(steps[a.id], a).life == n.life && steps[a.id].load.workerRunning == n.load.workerRunning
    requires n.info.batchable == Unmark(steps[a.id], a).info.batchable && n.info.policy == steps[a.id].info.policy
    ensures var r := AddStepTail(steps, a, enabled, now, cfg);
            && a.id in r && r[a.id].load.workerRunning == n.load.workerRunning
            && r[a.id].load.resourcesRunning == steps[a.id].load.resourcesRunning
            && if MayChange(n, a) && !StaysAsIs(n.life, Target(a)) then IsSetTo(n, n.(life := r[a.id].life), Target(a), now, cfg)
               else r[a.id].life == n.life
  {
    hide SetStatus, AddStepTail, IsSetTo, StaysAsIs;
    AddStepTailAt(steps, a, enabled, now, cfg, a.id);
    var unmarked := steps[a.id := Unmark(steps[a.id], a)];
    StatusIsSet(unmarked, a.id, Target(a), now, cfg);
    ReportedInfo(unmarked, a, now, cfg, a.id);
    if MayChange(n, a) && !StaysAsIs(n.life, Target(a)) {
      SetLike(unmarked[a.id], Report(unmarked, a, now, cfg)[a.id], n, Target(a), now, cfg);
    }
  }

  /** What it does to the lives of the other steps. */
  lemma TailOtherLife(steps: Steps, a: AddArgs, enabled: bool, now: Time, cfg: Config, n: StepRec, k: StepId)
    requires a.id in steps && k in steps && k != a.id
    requires Unmark(steps[a.id], a).life == n.life && steps[a.id].load.workerRunning == n.load.workerRunning
    ensures var r := AddStepTail(steps, a, enabled, now, cfg);
            && k in r && r[k].load == steps[k].load
            && if MayChange(n, a) && !StaysAsIs(n.life, Target(a)) && BreaksUp(n.life, Target(a))
                  && steps[k].life.status == BATCH_RUNNING && steps[k].life.batchId == n.life.batchId
               then r[k].life.batchId == None
                    && IsSetTo(steps[k], steps[k].(life := r[k].life.(batchId := n.life.batchId)), Target(a), now, cfg)
               else r[k].life == steps[k].life
  {
    hide SetStatus, AddStepTail, IsSetTo, StaysAsIs, BreaksUp;
    AddStepTailAt(steps, a, enabled, now, cfg, k);
    var unmarked := steps[a.id := Unmark(steps[a.id], a)];
    StatusIsSet(unmarked, a.id, Target(a), now, cfg);
    ReportedInfo(unmarked, a, now, cfg, k);
    var reported := Report(unmarked, a, now, cfg);
    assert reported[k] == steps[k].(life := reported[k].life);
  }

  /** The report changes the status as `set_status` does, if it may; otherwise only the batch id, the owner and the
      stamp for removal are updated. */
  lemma ReportSetsStatus(w: World, a: AddArgs, pick: Option<StepId>, now: Time, cfg: Config)
    requires ValidPick(AddStepHead(w.steps, a, now, cfg), a.batchId, pick)
    requires !TurnedAway(w, a, now, cfg) && !AddStep(w, a, pick, now, cfg).1
    ensures var next, s, n := AddStep(w, a, pick, now, cfg).0.steps, Before(w, a, now, cfg), Noted(Before(w, a, now, cfg), a);
            && a.id in next
            && (if MayChange(n, a) && !StaysAsIs(n.life, Target(a))
                then IsSetTo(n, n.(life := next[a.id].life), Target(a), now, cfg) else next[a.id].life == n.life)
            && next[a.id].load.workerRunning == n.load.workerRunning
            && next[a.id].load.resourcesRunning == if StartsInBatch(s, a) then MemberAccount(w, a, pick) else s.load.resourcesRunning
  {
    ReportEnds(w, a, pick, now, cfg);
    StartFields(w, a, pick, now, cfg);
    hide AddStep, AddStepStart, AddStepTail, TurnedAway, AddStepHead, IsSetTo, MayChange, StaysAsIs;
    var start := AddStepStart(w.steps, a, pick, now, cfg).value;
    TailLife(start, a, Enabled(w, a.worker), now, cfg, Noted(Before(w, a, now, cfg), a));
  }

  /** Another step after the report: it may get a stakeholder and a higher priority. */
  predicate Neighbour(s: Info, t: Info, a: AddArgs, watched: bool) {
    && t == s.(stakeholders := if watched then s.stakeholders + {a.worker} else s.stakeholders, priority := t.priority)
    && t.priority >= s.priority
  }

  /** A dependency that was not known before. */
  predicate IsPlaceholder(t: StepRec, k: StepId, a: AddArgs, now: Time, cfg: Config) {
    && t.id == k && t.life == Life(UNKNOWN, now, None, None, None, [], None, None) && t.load == Load(None, map[], None, false)
    && t.info == Info({}, {a.worker}, [], t.info.priority, now, "", map[], false, false, cfg.policy) && t.info.priority >= a.priority
  }

  lemma TailOthers(steps: Steps, a: AddArgs, enabled: bool, now: Time, cfg: Config, k: StepId)
    requires a.id in steps && k != a.id
    ensures var r := AddStepTail(steps, a, enabled, now, cfg);
            && a.id in r && (k in r <==> k in steps || (enabled && !a.assistant && k in r[a.id].info.deps))
            && (k in steps ==> Neighbour(steps[k].info, r[k].info, a, enabled && !a.assistant && k in r[a.id].info.deps) && r[k].id == steps[k].id)
            && (k in r && k !in steps ==> IsPlaceholder(r[k], k, a, now, cfg))
  {
    hide AddStepTail, UpdatePriority;
    var watched := WatchedTail(steps, a, enabled, now, cfg);
    PrioritiesOnlyRise(watched, a.id, a.priority);
  }

  /** Other steps: the worker becomes a stakeholder of the dependencies, and those that were not known are added as
      placeholders; if the step ends as the head of a batch, its members follow.  Nothing else changes. */
  lemma ReportReachesOthers(w: World, a: AddArgs, pick: Option<StepId>, now: Time, cfg: Config, k: StepId)
    requires ValidPick(AddStepHead(w.steps, a, now, cfg), a.batchId, pick) && k != a.id
    requires !TurnedAway(w, a, now, cfg) && !AddStep(w, a, pick, now, cfg).1
    ensures var next, n := AddStep(w, a, pick, now, cfg).0.steps, Noted(Before(w, a, now, cfg), a);
            && a.id in next
            && var watched := Enabled(w, a.worker) && !a.assistant && k in next[a.id].info.deps;
               && (k in next <==> k in w.steps || watched)
               && (k in w.steps ==>
                     && next[k].id == w.steps[k].id && next[k].load == w.steps[k].load
                     && Neighbour(w.steps[k].info, next[k].info, a, watched)
                     && if MayChange(n, a) && !StaysAsIs(n.life, Target(a)) && BreaksUp(n.life, Target(a))
                           && w.steps[k].life.status == BATCH_RUNNING && w.steps[k].life.batchId == n.life.batchId
                        then next[k].life.batchId == None
                             && IsSetTo(w.steps[k], w.steps[k].(life := next[k].life.(batchId := n.life.batchId)), Target(a), now, cfg)
                        else next[k].life == w.steps[k].life)
               && (k in next && k !in w.steps ==> IsPlaceholder(next[k], k, a, now, cfg))
  {
    ReportEnds(w, a, pick, now, cfg);
    StartFields(w, a, pick, now, cfg);
    hide AddStep, AddStepStart, AddStepTail, TurnedAway, AddStepHead, IsSetTo, MayChange, StaysAsIs, Neighbour, IsPlaceholder;
    var start := AddStepStart(w.steps, a, pick, now, cfg).value;
    if k in w.steps {
      TailOtherLife(start, a, Enabled(w, a.worker), now, cfg, Noted(Before(w, a, now, cfg), a), k);
    }
    TailOthers(start, a, Enabled(w, a.worker), now, cfg, k);
  }
}
