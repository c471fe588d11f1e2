/**
 What `decrease_running_step_resources` gives back, stated on the amounts themselves.
 */
module DecreaseLaws {
  import opened Options
  import opened Sequences
  import opened SchedulerModel
  import opened SchedulerInvariants
  import opened SchedulerResources

  /** What the decrease takes from an amount: as much as it asks for, but no more than is there, and nothing if it
      asks for none. */
  function Released(amount: int, d: Amounts, r: Resource): int {
    if r in d && d[r] > 0 then if d[r] < amount then d[r] else amount else 0
  }

  /** Of each resource, the new amount and what was released make up the old amount. */
  ghost predicate GivesBack(was: Amounts, now: Amounts, d: Amounts) {
    now.Keys == was.Keys && forall r <- was :: now[r] + Released(was[r], d, r) == was[r]
  }

  /** The step runs and has running resources. */
  predicate Furnished(steps: Steps, id: StepId) {
    id in steps && steps[id].life.status == RUNNING && steps[id].load.resourcesRunning.Some?
  }

  /** The step is the running one, or a running member of its batch. */
  predicate Concerned(steps: Steps, id: StepId, k: StepId)
    requires id in steps && k in steps
  {
    k == id || (steps[k].life.status == BATCH_RUNNING && steps[k].life.batchId.Some? && steps[k].life.batchId == steps[id].life.batchId)
  }

  /** What one step has given back. */
  ghost predicate Decreases(s: StepRec, t: StepRec, d: Amounts) {
    && s.load.resourcesRunning.Some? && t.load.resourcesRunning.Some?
    && GivesBack(s.load.resourcesRunning.value, t.load.resourcesRunning.value, d)
    && t.load.resources == (if s.load.sharedResources then t.load.resourcesRunning.value else s.load.resources)
    && t.load.workerRunning == s.load.workerRunning && t.load.sharedResources == s.load.sharedResources
    && t.id == s.id && t.life == s.life && t.info == s.info
  }

  lemma OneDecreases(s: StepRec, d: Amounts)
    requires s.load.resourcesRunning.Some?
    ensures Decreases(s, DecreaseOne(s, d), d)
  {
    hide NonNegative;
  }

  /** The running step gives back what it is asked for, and so does every member of its batch that is reached;
      all of them are reached if each has running resources.  No other step changes, and if the step does not run
      or has no running resources, none does. */
  lemma DecreaseGivesBack(w: World, id: StepId, d: Amounts, done: set<StepId>)
    requires ValidDecrease(w.steps, id, done)
    ensures var next := DecreaseRunning(w, id, d, done);
            && next == w.(steps := next.steps) && next.steps.Keys == w.steps.Keys
            && (!Furnished(w.steps, id) ==> next == w)
            && (Furnished(w.steps, id) ==> forall k <- w.steps ::
                  if k == id || k in done then Concerned(w.steps, id, k) && Decreases(w.steps[k], next.steps[k], d)
                  else next.steps[k] == w.steps[k])
    ensures Furnished(w.steps, id) && (forall k <- w.steps :: Concerned(w.steps, id, k) ==> w.steps[k].load.resourcesRunning.Some?) ==>
              forall k <- w.steps :: Concerned(w.steps, id, k) ==> k == id || k in done
  {
    var next := DecreaseRunning(w, id, d, done);
    if Furnished(w.steps, id) {
      forall k | k in w.steps && (k == id || k in done)
        ensures Concerned(w.steps, id, k) && Decreases(w.steps[k], next.steps[k], d)
      {
        OneDecreases(w.steps[k], d);
      }
      hide Decreases, DecreaseOne;
    }
  }

  /** The use is a sum with one term for each step: its running resources, or its demand if it has none. */
  lemma UseAddsUp(steps: Steps, ids: set<StepId>, k: StepId, r: Resource)
    requires ids <= steps.Keys && k in steps && k !in ids
    ensures UsedAt(steps, {}, r) == 0
    ensures var load := steps[k].load;
            var charge := if load.resourcesRunning.Some? then load.resourcesRunning.value else load.resources;
            UsedAt(steps, ids + {k}, r) == UsedAt(steps, ids, r) + if r in charge then charge[r] else 0
  {
    UsedAtSplit(steps, ids + {k}, r, k);
    assert ids + {k} - {k} == ids;
  }

  /** The use of each resource by the running steps falls by exactly what the running step has released. */
  lemma UseFallsByReleased(w: World, id: StepId, d: Amounts, done: set<StepId>, r: Resource)
    requires ValidDecrease(w.steps, id, done) && Furnished(w.steps, id)
    ensures var next := DecreaseRunning(w, id, d, done).steps;
            var was := w.steps[id].load.resourcesRunning.value;
            Running(next) == Running(w.steps) &&
            UsedAt(next, Running(next), r) + (if r in was then Released(was[r], d, r) else 0) == UsedAt(w.steps, Running(w.steps), r)
  {
    hide Decreases, DecreaseRunning, ValidDecrease, Charge;
    DecreaseGivesBack(w, id, d, done);
    var next := DecreaseRunning(w, id, d, done).steps;
    KeepsLives(w.steps, id, d, done, next);
    var others := Running(w.steps) - {id};
    UsedAtSplit(w.steps, Running(w.steps), r, id);
    UsedAtSplit(next, Running(next), r, id);
    SameUse(w.steps, next, others, r);
    FallsAt(w.steps[id], next[id], d, r);
  }

  lemma KeepsLives(steps: Steps, id: StepId, d: Amounts, done: set<StepId>, next: Steps)
    requires next.Keys == steps.Keys && id in steps
    requires forall k <- steps :: if k == id || k in done then Concerned(steps, id, k) && Decreases(steps[k], next[k], d) else next[k] == steps[k]
    ensures Running(next) == Running(steps)
    ensures Decreases(steps[id], next[id], d)
    ensures forall k <- Running(steps) :: k != id ==> next[k] == steps[k]
  {
    forall k | k in steps
      ensures next[k].life == steps[k].life
    {
    }
  }

  lemma FallsAt(s: StepRec, t: StepRec, d: Amounts, r: Resource)
    requires Decreases(s, t, d)
    ensures var was := s.load.resourcesRunning.value;
            At(Charge(t), r) + (if r in was then Released(was[r], d, r) else 0) == At(Charge(s), r)
  {
  }

  lemma {:induction false} SameUse(steps: Steps, next: Steps, ids: set<StepId>, r: Resource)
    requires ids <= steps.Keys && ids <= next.Keys && forall k <- ids :: next[k] == steps[k]
    ensures UsedAt(next, ids, r) == UsedAt(steps, ids, r)
  {
    if ids != {} {
      var k :| k in ids;
      UsedAtSplit(steps, ids, r, k);
      UsedAtSplit(next, ids, r, k);
      SameUse(steps, next, ids - {k}, r);
    }
  }
}
