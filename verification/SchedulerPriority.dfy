/**
 Raising priorities along dependencies: what the recursion of `_update_priority` computes, and
 what it leaves behind.
 */
module SchedulerPriority {
  import opened SchedulerModel

  /** `now` is `was` with the steps in `raised` lifted to `prio`. */
  predicate LiftedTo(was: Steps, now: Steps, raised: set<StepId>, prio: int) {
    && now.Keys == was.Keys && raised <= was.Keys
    && forall k <- was :: now[k] == if k in raised then Lifted(was[k], prio) else was[k]
  }

  /** No dependency of `k` stays below `prio`. */
  predicate Covered(steps: Steps, k: StepId, prio: int)
    requires k in steps
  {
    forall d <- steps[k].info.deps :: d in steps ==> steps[d].info.priority >= prio
  }

  /** The recursion below `root` has ended: it has raised reachable steps only, and it has forgotten none. */
  ghost predicate RaisedExactly(was: Steps, now: Steps, raised: set<StepId>, root: StepId, prio: int) {
    && LiftedTo(was, now, raised, prio) && root in raised
    && (forall k <- raised :: RaisedBy(was, root, prio, k))
    && (forall k <- raised :: Covered(now, k, prio))
  }

  lemma {:induction false} PathIsRaised(was: Steps, now: Steps, raised: set<StepId>, root: StepId, prio: int, path: seq<StepId>)
    requires RaisedExactly(was, now, raised, root, prio)
    requires RaisingPath(was, path, prio) && path[0] == root
    ensures path[|path|-1] in raised
  {
    var n := |path| - 1;
    if n > 0 {
      var init := path[..n];
      assert forall i :: 0 <= i < n ==> init[i] == path[i];
      assert forall x <- init :: x in path;
      PathIsRaised(was, now, raised, root, prio, init);
      assert path[n-1] in raised && Covered(now, path[n-1], prio);
      assert path[n] in path && path[n] in was[path[n-1]].info.deps;
    }
  }

  /** Such an end state is the specified one, whatever the order of the recursion was. */
  lemma RaisedIsUpdated(was: Steps, now: Steps, raised: set<StepId>, root: StepId, priority: int)
    requires root in was && RaisedExactly(was, now, raised, root, Max(priority, was[root].info.priority))
    ensures now == UpdatePriority(was, root, priority)
  {
    var prio := Max(priority, was[root].info.priority);
    forall k | k in was
      ensures RaisedBy(was, root, prio, k) <==> k in raised
    {
      if RaisedBy(was, root, prio, k) {
        var path :| RaisingPath(was, path, prio) && path[0] == root && path[|path|-1] == k;
        PathIsRaised(was, now, raised, root, prio, path);
      }
    }
  }

  lemma RaisedByExtends(steps: Steps, root: StepId, prio: int, k: StepId, d: StepId)
    requires RaisedBy(steps, root, prio, k) && k in steps && d in steps
    requires d in steps[k].info.deps && steps[d].info.priority < prio
    ensures RaisedBy(steps, root, prio, d)
  {
    var path :| RaisingPath(steps, path, prio) && path[0] == root && path[|path|-1] == k;
    var longer := path + [d];
    forall i | 0 < i < |longer|
      ensures longer[i] in steps[longer[i-1]].info.deps && steps[longer[i]].info.priority < prio
    {
      assert longer[i-1] == path[i-1];
    }
    assert longer[0] == root && longer[|longer|-1] == d;
  }

  /** Priorities never fall, and nothing else changes. */
  lemma PrioritiesOnlyRise(steps: Steps, root: StepId, priority: int)
    requires root in steps
    ensures var r := UpdatePriority(steps, root, priority);
            r.Keys == steps.Keys && r[root].info.priority == Max(priority, steps[root].info.priority) &&
            forall k <- steps :: r[k] == Lifted(steps[k], r[k].info.priority) && r[k].info.priority >= steps[k].info.priority
  {
    var prio := Max(priority, steps[root].info.priority);
    assert RaisingPath(steps, [root], prio) && [root][0] == root;
    forall k | k in steps && RaisedBy(steps, root, prio, k)
      ensures steps[k].info.priority <= prio
    {
      var path :| RaisingPath(steps, path, prio) && path[0] == root && path[|path|-1] == k;
    }
  }

  /** The dependency `d` of `k` has at least the priority of `k`. */
  predicate EdgeOk(steps: Steps, k: StepId, d: StepId) {
    k in steps && d in steps && d in steps[k].info.deps ==> steps[d].info.priority >= steps[k].info.priority
  }

  /** If every edge that does not leave `root` was in order, then afterwards every edge is. */
  lemma EdgesInOrder(steps: Steps, root: StepId, priority: int)
    requires root in steps && forall k, d :: k != root ==> EdgeOk(steps, k, d)
    ensures forall k, d :: EdgeOk(UpdatePriority(steps, root, priority), k, d)
  {
    var r := UpdatePriority(steps, root, priority);
    var prio := Max(priority, steps[root].info.priority);
    PrioritiesOnlyRise(steps, root, priority);
    assert RaisedBy(steps, root, prio, root) by {
      assert RaisingPath(steps, [root], prio) && [root][0] == root;
    }
    forall k, d
      ensures EdgeOk(r, k, d)
    {
      if k in r && d in r && d in r[k].info.deps {
        if RaisedBy(steps, root, prio, k) && steps[d].info.priority < prio {
          RaisedByExtends(steps, root, prio, k, d);
        } else if k != root {
          assert EdgeOk(steps, k, d);
        }
      }
    }
  }

  // ---------------------------------------------------------------- the recursion, step by step

  /** The recursion is under way at `root`: the dependencies in `seen` have been dealt with. */
  ghost predicate Raising(was: Steps, now: Steps, raised: set<StepId>, root: StepId, prio: int, seen: set<StepId>) {
    && LiftedTo(was, now, raised, prio) && root in raised
    && (forall k <- raised :: RaisedBy(was, root, prio, k))
    && (forall k <- raised :: k != root ==> Covered(now, k, prio))
    && (forall d <- seen :: d in now ==> now[d].info.priority >= prio)
  }

  lemma StartRaising(was: Steps, root: StepId, prio: int)
    requires root in was && was[root].info.priority <= prio
    ensures Raising(was, was[root := Lifted(was[root], prio)], {root}, root, prio, {})
  {
    assert RaisingPath(was, [root], prio) && [root][0] == root;
  }

  lemma {:induction false} PathFrom(was: Steps, mid: Steps, raised: set<StepId>, root: StepId, prio: int, d: StepId, path: seq<StepId>)
    requires LiftedTo(was, mid, raised, prio) && RaisedBy(was, root, prio, d)
    requires RaisingPath(mid, path, prio) && path[0] == d
    ensures RaisedBy(was, root, prio, path[|path|-1])
  {
    var n := |path| - 1;
    if n > 0 {
      var init := path[..n];
      assert forall i :: 0 <= i < n ==> init[i] == path[i];
      assert forall x <- init :: x in path;
      PathFrom(was, mid, raised, root, prio, d, init);
      assert path[n] in path && path[n-1] in path;
      RaisedByExtends(was, root, prio, path[n-1], path[n]);
    }
  }

  /** A call for the dependency `d` of `root` adds what it has raised. */
  lemma CallRaises(was: Steps, mid: Steps, now: Steps, raised: set<StepId>, more: set<StepId>, root: StepId, prio: int,
                   seen: set<StepId>, d: StepId)
    requires Raising(was, mid, raised, root, prio, seen) && d in was[root].info.deps && d in mid
    requires mid[d].info.priority < prio && RaisedExactly(mid, now, more, d, prio)
    ensures Raising(was, now, raised + more, root, prio, seen + {d})
  {
    assert d !in raised;
    RaisedByExtends(was, root, prio, root, d);
    forall k | k in more
      ensures RaisedBy(was, root, prio, k)
    {
      var path :| RaisingPath(mid, path, prio) && path[0] == d && path[|path|-1] == k;
      PathFrom(was, mid, raised, root, prio, d, path);
    }
    forall k | k in raised && k != root
      ensures Covered(now, k, prio)
    {
      assert Covered(mid, k, prio);
    }
  }

  lemma NothingToRaise(was: Steps, mid: Steps, raised: set<StepId>, root: StepId, prio: int, seen: set<StepId>, d: StepId)
    requires Raising(was, mid, raised, root, prio, seen) && (d in mid ==> mid[d].info.priority >= prio)
    ensures Raising(was, mid, raised, root, prio, seen + {d})
  {
  }

  lemma AllRaised(was: Steps, now: Steps, raised: set<StepId>, root: StepId, prio: int)
    requires root in was && Raising(was, now, raised, root, prio, was[root].info.deps)
    ensures RaisedExactly(was, now, raised, root, prio)
  {
  }

  /** The steps that a call for `root` may still raise; it shrinks with every recursive call. */
  function Below(steps: Steps, root: StepId, prio: int): set<StepId> {
    set k | k in steps && k != root && steps[k].info.priority < prio
  }

  lemma BelowShrinks(was: Steps, mid: Steps, raised: set<StepId>, root: StepId, prio: int, seen: set<StepId>, d: StepId)
    requires Raising(was, mid, raised, root, prio, seen) && d in mid && d != root && mid[d].info.priority < prio
    ensures Below(mid, d, prio) < Below(was, root, prio)
  {
    assert d in Below(was, root, prio) && d !in Below(mid, d, prio);
  }
}
