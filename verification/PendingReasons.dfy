/**
 Why steps are still pending at the end of a run: the sets that the summary sorts the steps into, and the
 depth-first search that finds the reasons.  The search is proved to compute reachability.
 */
module PendingReasons {
  import opened Sequences

  type Id = nat

  datatype Entry = Entry(step: Id, status: string, ext: bool)

  /** The sets that do not change during the search. */
  datatype Parts = Parts(
    completed: set<Id>, alreadyDone: set<Id>, everFailed: set<Id>, failed: set<Id>, schedulingError: set<Id>,
    stillPendingExt: set<Id>, stillPendingNotExt: set<Id>, runByOther: set<Id>)

  function WithStatus(history: seq<Entry>, status: string): set<Id> {
    set e | e in history && e.status == status :: e.step
  }

  function StillPending(history: seq<Entry>, ext: bool): set<Id> {
    var pending := WithStatus(history, "PENDING");
    var completed := WithStatus(history, "DONE") * pending;
    set e | e in history && e.status == "PENDING" && e.ext == ext
      && e.step !in WithStatus(history, "FAILED") && e.step !in completed :: e.step
  }

  function Partition(history: seq<Entry>, runByOther: set<Id>): Parts {
    var pending, done, failed := WithStatus(history, "PENDING"), WithStatus(history, "DONE"), WithStatus(history, "FAILED");
    var completed := done * pending;
    Parts(completed, done - pending - completed, failed, failed - completed, WithStatus(history, "UNKNOWN"),
          StillPending(history, false), StillPending(history, true), runByOther)
  }

  predicate Entered(history: seq<Entry>, step: Id, status: string) {
    exists e <- history :: e.step == step && e.status == status
  }

  predicate EnteredPending(history: seq<Entry>, step: Id, ext: bool) {
    exists e <- history :: e.step == step && e.status == "PENDING" && e.ext == ext
  }

  /** The sets, by what the history says of the step: a step that is still pending is missing if it was entered as one
      that the worker cannot run itself, and is searched if it was entered as one that it can. */
  lemma PartitionIs(history: seq<Entry>, other: set<Id>, step: Id)
    ensures var p := Partition(history, other);
            var pending, done, failed := Entered(history, step, "PENDING"), Entered(history, step, "DONE"), Entered(history, step, "FAILED");
            && (step in p.completed <==> pending && done) && (step in p.alreadyDone <==> done && !pending)
            && (step in p.everFailed <==> failed) && (step in p.failed <==> failed && !(pending && done))
            && (step in p.schedulingError <==> Entered(history, step, "UNKNOWN"))
            && (step in p.stillPendingExt <==> EnteredPending(history, step, false) && !failed && !done)
            && (step in p.stillPendingNotExt <==> EnteredPending(history, step, true) && !failed && !done)
            && (step in p.runByOther <==> step in other)
  {
    StatusIs(history, step, "PENDING");
    StatusIs(history, step, "DONE");
    StatusIs(history, step, "FAILED");
    StatusIs(history, step, "UNKNOWN");
    StillPendingIs(history, step, false);
    StillPendingIs(history, step, true);
    hide WithStatus, StillPending, Entered, EnteredPending;
  }

  lemma StatusIs(history: seq<Entry>, step: Id, status: string)
    ensures step in WithStatus(history, status) <==> Entered(history, step, status)
  {
  }

  lemma StillPendingIs(history: seq<Entry>, step: Id, ext: bool)
    ensures step in StillPending(history, ext) <==>
      EnteredPending(history, step, ext) && !Entered(history, step, "FAILED") && !Entered(history, step, "DONE")
  {
    StatusIs(history, step, "PENDING");
    StatusIs(history, step, "DONE");
    StatusIs(history, step, "FAILED");
    hide WithStatus;
    assert EnteredPending(history, step, ext) ==> Entered(history, step, "PENDING");
  }

  /** A step that was once pending is completed, failed or still pending, and only one of these. */
  lemma PendingStepsArePartitioned(history: seq<Entry>, other: set<Id>, step: Id)
    requires step in WithStatus(history, "PENDING")
    ensures var p := Partition(history, other);
            var still := step in p.stillPendingExt || step in p.stillPendingNotExt;
            && (step in p.completed || step in p.failed || still)
            && !(step in p.completed && step in p.failed) && !(step in p.completed && still) && !(step in p.failed && still)
            && step !in p.alreadyDone
  {
    var e :| e in history && e.status == "PENDING" && e.step == step;
  }

  // ---------------------------------------------------------------- what the search should find

  type Graph = map<Id, seq<Id>>

  predicate Closed(graph: Graph) {
    forall k <- graph :: forall d <- graph[k] :: d in graph
  }

  /** There is no cycle of steps in `inside`. */
  ghost predicate Acyclic(graph: Graph, inside: set<Id>, rank: Id -> nat) {
    forall k <- graph :: k in inside ==> forall d <- graph[k] :: d in inside ==> rank(d) < rank(k)
  }

  /** A path along requirements, all of it but its end within `inside`. */
  predicate PathWithin(graph: Graph, inside: set<Id>, path: seq<Id>) {
    && |path| > 1
    && forall i :: 0 <= i < |path| - 1 ==> path[i] in inside && path[i] in graph && path[i+1] in graph[path[i]]
  }

  /** The step leads to one of `bad`, through steps of `inside` only. */
  ghost predicate LeadsTo(graph: Graph, inside: set<Id>, bad: set<Id>, step: Id) {
    exists path :: PathWithin(graph, inside, path) && path[0] == step && path[|path|-1] in bad
  }

  /** The same one requirement at a time. */
  lemma LeadsToByOne(graph: Graph, inside: set<Id>, bad: set<Id>, step: Id)
    requires step in graph
    ensures LeadsTo(graph, inside, bad, step) <==>
      step in inside && exists d <- graph[step] :: d in bad || LeadsTo(graph, inside, bad, d)
  {
    if LeadsTo(graph, inside, bad, step) {
      var path :| PathWithin(graph, inside, path) && path[0] == step && path[|path|-1] in bad;
      var d := path[1];
      if |path| > 2 {
        assert PathWithin(graph, inside, path[1..]);
        assert LeadsTo(graph, inside, bad, d);
      }
    }
    if step in inside {
      if d :| d in graph[step] && d in bad {
        assert PathWithin(graph, inside, [step, d]);
      } else if d :| d in graph[step] && LeadsTo(graph, inside, bad, d) {
        var path :| PathWithin(graph, inside, path) && path[0] == d && path[|path|-1] in bad;
        var longer := [step] + path;
        assert forall i :: 0 <= i < |longer| - 1 ==> i > 0 ==> longer[i] == path[i-1] && longer[i+1] == path[i];
        assert PathWithin(graph, inside, longer);
      }
    }
  }

  /** One of the first `n` requirements is bad or leads to a bad one. */
  ghost predicate Blocked(graph: Graph, inside: set<Id>, bad: set<Id>, step: Id, n: nat)
    requires step in graph && n <= |graph[step]|
  {
    exists j :: 0 <= j < n && (graph[step][j] in bad || LeadsTo(graph, inside, bad, graph[step][j]))
  }

  lemma BlockedByAll(graph: Graph, inside: set<Id>, bad: set<Id>, step: Id)
    requires step in graph
    ensures LeadsTo(graph, inside, bad, step) <==> step in inside && Blocked(graph, inside, bad, step, |graph[step]|)
  {
    LeadsToByOne(graph, inside, bad, step);
    hide LeadsTo;
    if d :| d in graph[step] && (d in bad || LeadsTo(graph, inside, bad, d)) {
      var j :| 0 <= j < |graph[step]| && graph[step][j] == d;
    }
  }

  lemma BlockedBySome(graph: Graph, inside: set<Id>, bad: set<Id>, step: Id, j: nat)
    requires step in graph && step in inside && j < |graph[step]|
    requires graph[step][j] in bad || LeadsTo(graph, inside, bad, graph[step][j])
    ensures LeadsTo(graph, inside, bad, step)
  {
    LeadsToByOne(graph, inside, bad, step);
    hide LeadsTo;
    assert graph[step][j] in graph[step];
  }

  /** One of the first `n` requirements is in the set. */
  predicate Directly(graph: Graph, bad: set<Id>, step: Id, n: nat)
    requires step in graph && n <= |graph[step]|
  {
    exists j :: 0 <= j < n && graph[step][j] in bad
  }

  /** Whatever is noted is true. */
  ghost predicate Sound(graph: Graph, inside: set<Id>, bad: set<Id>, noted: set<Id>) {
    forall k <- noted :: LeadsTo(graph, inside, bad, k)
  }

  /** Whatever is true of the steps in `done` is noted. */
  ghost predicate Complete(graph: Graph, inside: set<Id>, bad: set<Id>, noted: set<Id>, done: set<Id>) {
    forall k <- done :: LeadsTo(graph, inside, bad, k) ==> k in noted
  }

  /** A pending step without any reason. */
  ghost predicate Unexplained(graph: Graph, parts: Parts, k: Id) {
    var inside := parts.stillPendingNotExt;
    && k in graph && k in inside && k !in parts.runByOther
    && !LeadsTo(graph, inside, parts.everFailed, k) && !LeadsTo(graph, inside, parts.stillPendingExt, k)
    && !LeadsTo(graph, inside, parts.runByOther, k) && !Directly(graph, parts.schedulingError, k, |graph[k]|)
  }

  ghost predicate HasBadRequirement(graph: Graph, parts: Parts, k: Id) {
    k in graph && k in parts.stillPendingNotExt && Directly(graph, parts.schedulingError, k, |graph[k]|)
  }

  /** The reasons that the search of one step has found so far. */
  datatype Flags = Flags(failure: bool, missing: bool, other: bool, error: bool) {
    predicate Any() {
      failure || missing || other || error
    }
  }

  /** What the requirement says about the step. */
  function Noted(d: Id, bad: set<Id>, noted: set<Id>, step: Id): set<Id> {
    if d in bad || d in noted then noted + {step} else noted
  }

  /** All that the search has noted. */
  datatype Notes = Notes(visited: set<Id>, failure: set<Id>, missing: set<Id>, other: set<Id>, error: set<Id>, notRun: set<Id>)

  function Nothing(): Notes {
    Notes({}, {}, {}, {}, {}, {})
  }

  function NoteFlags(parts: Parts, n: Notes, d: Id, flags: Flags): Flags {
    Flags(flags.failure || d in parts.everFailed || d in n.failure, flags.missing || d in parts.stillPendingExt || d in n.missing,
          flags.other || d in parts.runByOther || d in n.other, flags.error || d in parts.schedulingError)
  }

  function NoteSets(parts: Parts, n: Notes, step: Id, d: Id): Notes {
    n.(failure := Noted(d, parts.everFailed, n.failure, step), missing := Noted(d, parts.stillPendingExt, n.missing, step),
       other := Noted(d, parts.runByOther, n.other, step), error := n.error + if d in parts.schedulingError then {step} else {})
  }

  /** The search of one step; it ends on every graph, because each call within it visits a new step. */
  function Search(graph: Graph, parts: Parts, n: Notes, step: Id): (r: Notes)
    requires Closed(graph) && n.visited <= graph.Keys && step in graph
    ensures n.visited + {step} <= r.visited <= graph.Keys
    decreases graph.Keys - n.visited - {step}, 1, 0
  {
    var here := n.(visited := n.visited + {step});
    if step !in parts.stillPendingNotExt then here else
    var (r, flags) := SearchFrom(graph, parts, here, step, 0, Flags(false, false, false, false));
    if !flags.Any() && step !in parts.runByOther then r.(notRun := r.notRun + {step}) else r
  }

  /** The loop over the requirements from number `i` on. */
  function SearchFrom(graph: Graph, parts: Parts, n: Notes, step: Id, i: nat, flags: Flags): (r: (Notes, Flags))
    requires Closed(graph) && step in n.visited && n.visited <= graph.Keys && i <= |graph[step]|
    ensures n.visited <= r.0.visited <= graph.Keys
    decreases graph.Keys - n.visited, 0, |graph[step]| - i
  {
    if i == |graph[step]| then (n, flags) else
    var d := graph[step][i];
    assert d in graph[step];
    var found := if d in n.visited then n else Search(graph, parts, n, d);
    SearchFrom(graph, parts, NoteSets(parts, found, step, d), step, i + 1, NoteFlags(parts, found, d, flags))
  }

  /** The searches from several steps, one after the other. */
  function SearchEach(graph: Graph, parts: Parts, order: seq<Id>): (r: Notes)
    requires Closed(graph) && forall k <- order :: k in graph
    ensures r.visited <= graph.Keys
  {
    if order == [] then Nothing()
    else
      assert order[|order|-1] in order && forall k <- order[..|order|-1] :: k in order;
      Search(graph, parts, SearchEach(graph, parts, order[..|order|-1]), order[|order|-1])
  }

  /** A set of true notes is complete exactly if one more round over the requirements would add nothing. */
  lemma {:induction false} CompleteJustIfClosed(graph: Graph, inside: set<Id>, bad: set<Id>, noted: set<Id>)
    requires Sound(graph, inside, bad, noted)
    ensures Complete(graph, inside, bad, noted, graph.Keys) <==>
      forall k <- graph :: k in inside && (exists d <- graph[k] :: d in bad || d in noted) ==> k in noted
  {
    if forall k <- graph :: k in inside && (exists d <- graph[k] :: d in bad || d in noted) ==> k in noted {
      forall k | k in graph.Keys && LeadsTo(graph, inside, bad, k)
        ensures k in noted
      {
        var path :| PathWithin(graph, inside, path) && path[0] == k && path[|path|-1] in bad;
        AlongPath(graph, inside, bad, noted, path);
      }
    }
    if Complete(graph, inside, bad, noted, graph.Keys) {
      forall k | k in graph && k in inside && exists d <- graph[k] :: d in bad || d in noted
        ensures k in noted
      {
        LeadsToByOne(graph, inside, bad, k);
      }
    }
  }

  lemma {:induction false} AlongPath(graph: Graph, inside: set<Id>, bad: set<Id>, noted: set<Id>, path: seq<Id>)
    requires PathWithin(graph, inside, path) && path[|path|-1] in bad
    requires forall k <- graph :: k in inside && (exists d <- graph[k] :: d in bad || d in noted) ==> k in noted
    ensures path[0] in noted
  {
    if |path| > 2 {
      AlongPath(graph, inside, bad, noted, path[1..]);
    }
    assert path[1] in graph[path[0]];
  }

  lemma NoteOne(graph: Graph, inside: set<Id>, bad: set<Id>, noted: set<Id>, step: Id, i: nat)
    requires step in graph && step in inside && i < |graph[step]| && Sound(graph, inside, bad, noted)
    ensures var d, next := graph[step][i], Noted(graph[step][i], bad, noted, step);
            && Sound(graph, inside, bad, next)
            && ((LeadsTo(graph, inside, bad, d) ==> d in noted) && Blocked(graph, inside, bad, step, i + 1)
                ==> Blocked(graph, inside, bad, step, i) || d in bad || d in noted)
  {
    var d := graph[step][i];
    if d in bad || d in noted {
      BlockedBySome(graph, inside, bad, step, i);
    }
    hide LeadsTo;
    if Blocked(graph, inside, bad, step, i + 1) && !Blocked(graph, inside, bad, step, i) {
      var j :| 0 <= j < i + 1 && (graph[step][j] in bad || LeadsTo(graph, inside, bad, graph[step][j]));
      assert j == i;
    }
  }

  // ---------------------------------------------------------------- the search

  class SetSteps {
    const parts: Parts
    var visited: set<Id>
    var upstreamFailure: set<Id>
    var upstreamMissingDependency: set<Id>
    var upstreamRunByOther: set<Id>
    var upstreamSchedulingError: set<Id>
    var notRun: set<Id>

    constructor (parts: Parts)
      ensures this.parts == parts && visited == {} && upstreamFailure == {} && upstreamMissingDependency == {}
      ensures upstreamRunByOther == {} && upstreamSchedulingError == {} && notRun == {}
    {
      this.parts := parts;
      visited, upstreamFailure, upstreamMissingDependency, upstreamRunByOther := {}, {}, {}, {};
      upstreamSchedulingError, notRun := {}, {};
    }

    ghost function Written(): Notes
      reads this
    {
      Notes(visited, upstreamFailure, upstreamMissingDependency, upstreamRunByOther, upstreamSchedulingError, notRun)
    }

    ghost predicate Untouched(step: Id)
      reads this
    {
      && step !in upstreamFailure && step !in upstreamMissingDependency && step !in upstreamRunByOther
      && step !in upstreamSchedulingError && step !in notRun
    }

    /** Which sets the step is in. */
    ghost function Marks(step: Id): seq<bool>
      reads this
    {
      [step in upstreamFailure, step in upstreamMissingDependency, step in upstreamRunByOther,
       step in upstreamSchedulingError, step in notRun]
    }

    ghost predicate AllSound(graph: Graph)
      reads this
    {
      var inside := parts.stillPendingNotExt;
      && Sound(graph, inside, parts.everFailed, upstreamFailure)
      && Sound(graph, inside, parts.stillPendingExt, upstreamMissingDependency)
      && Sound(graph, inside, parts.runByOther, upstreamRunByOther)
    }

    ghost predicate AllComplete(graph: Graph, done: set<Id>)
      reads this
    {
      var inside := parts.stillPendingNotExt;
      && Complete(graph, inside, parts.everFailed, upstreamFailure, done)
      && Complete(graph, inside, parts.stillPendingExt, upstreamMissingDependency, done)
      && Complete(graph, inside, parts.runByOther, upstreamRunByOther, done)
    }

    /** The steps with a direct scheduling error, and those without any reason. */
    ghost predicate Closing(graph: Graph, rank: Id -> nat, done: set<Id>)
      reads this
    {
      && (forall k <- upstreamSchedulingError :: HasBadRequirement(graph, parts, k))
      && (forall k <- done :: HasBadRequirement(graph, parts, k) ==> k in upstreamSchedulingError)
      && (forall k <- done :: Unexplained(graph, parts, k) ==> k in notRun)
      && (Acyclic(graph, parts.stillPendingNotExt, rank) ==> forall k <- notRun :: Unexplained(graph, parts, k))
    }

    /** The state of the search while the steps in `open` are being searched. */
    ghost predicate Searched(graph: Graph, rank: Id -> nat, open: set<Id>)
      reads this
    {
      && Closed(graph) && open <= visited <= graph.Keys
      && (forall k :: k !in visited ==> Untouched(k))
      && AllSound(graph) && Closing(graph, rank, visited - open)
      && (Acyclic(graph, parts.stillPendingNotExt, rank) ==> AllComplete(graph, visited - open))
    }

    /** The flags agree with the first `n` requirements. */
    ghost predicate Flagged(graph: Graph, rank: Id -> nat, step: Id, n: nat, flags: Flags)
      requires step in graph && n <= |graph[step]|
      reads this
    {
      var inside := parts.stillPendingNotExt;
      && (flags.failure ==> step in upstreamFailure) && (flags.missing ==> step in upstreamMissingDependency)
      && (flags.other ==> step in upstreamRunByOther) && (flags.error ==> step in upstreamSchedulingError)
      && (flags.error <==> Directly(graph, parts.schedulingError, step, n))
      && (Acyclic(graph, parts.stillPendingNotExt, rank) ==>
            && (Blocked(graph, inside, parts.everFailed, step, n) ==> flags.failure)
            && (Blocked(graph, inside, parts.stillPendingExt, step, n) ==> flags.missing)
            && (Blocked(graph, inside, parts.runByOther, step, n) ==> flags.other))
    }

    /** The state of the search of one step after its first `n` requirements. */
    ghost predicate Searching(graph: Graph, rank: Id -> nat, open: set<Id>, step: Id, n: nat, flags: Flags)
      reads this
    {
      && step !in open && Searched(graph, rank, open + {step}) && step in graph && n <= |graph[step]|
      && step in parts.stillPendingNotExt && Flagged(graph, rank, step, n, flags)
    }

    /** `_depth_first_search`.  It ends on every graph, because each call within it visits a new step. */
    method DepthFirstSearch(graph: Graph, ghost rank: Id -> nat, ghost open: set<Id>, step: Id)
      requires Searched(graph, rank, open) && step in graph && step !in open
      requires open <= parts.stillPendingNotExt
      requires Acyclic(graph, parts.stillPendingNotExt, rank) && step in parts.stillPendingNotExt ==> forall o <- open :: rank(step) < rank(o)
      modifies this
      ensures Searched(graph, rank, open) && step in visited && old(visited) <= visited
      ensures Written() == Search(graph, parts, old(Written()), step)
      ensures forall k <- old(visited) :: k != step ==> Marks(k) == old(Marks(k))
      decreases graph.Keys - visited - {step}, 1
    {
      hide LeadsTo, Blocked, Directly, Sound, Complete, Unexplained, HasBadRequirement;
      StillSearched(graph, rank, open, step);
      visited := visited + {step};
      assert visited - (open + {step}) == old(visited) - (open + {step});
      if step in parts.stillPendingNotExt {
        var flags := Flags(false, false, false, false);
        NothingFlagged(graph, rank, step);
        ghost var here := Written();
        for i := 0 to |graph[step]|
          invariant Searching(graph, rank, open, step, i, flags) && old(visited) + {step} <= visited
          invariant forall k <- old(visited) :: k != step ==> Marks(k) == old(Marks(k))
          invariant SearchFrom(graph, parts, here, step, 0, Flags(false, false, false, false))
                 == SearchFrom(graph, parts, Written(), step, i, flags)
        {
          flags := SearchRequirement(graph, rank, open, step, i, flags);
        }
        if !flags.Any() && step !in parts.runByOther {
          NoReason(graph, rank, open, step, flags);
          notRun := notRun + {step};
        }
        Leave(graph, rank, open, step, flags);
      } else {
        LeaveOther(graph, rank, open, step);
      }
    }

    /** The body of the loop over the requirements. */
    method SearchRequirement(graph: Graph, ghost rank: Id -> nat, ghost open: set<Id>, step: Id, i: nat, flags0: Flags)
        returns (flags: Flags)
      requires Searching(graph, rank, open, step, i, flags0) && i < |graph[step]|
      requires open <= parts.stillPendingNotExt
      requires Acyclic(graph, parts.stillPendingNotExt, rank) ==> forall o <- open :: rank(step) < rank(o)
      modifies this
      ensures Searching(graph, rank, open, step, i + 1, flags) && old(visited) <= visited
      ensures SearchFrom(graph, parts, old(Written()), step, i, flags0) == SearchFrom(graph, parts, Written(), step, i + 1, flags)
      ensures forall k <- old(visited) :: k != step ==> Marks(k) == old(Marks(k))
      decreases graph.Keys - visited, 0
    {
      hide LeadsTo, Blocked, Directly, Sound, Complete, AllSound, AllComplete, Unexplained, HasBadRequirement;
      var d := graph[step][i];
      assert d in graph && (Acyclic(graph, parts.stillPendingNotExt, rank) && d in parts.stillPendingNotExt ==> rank(d) < rank(step)) by {
        assert d in graph[step];
      }
      if d !in visited {
        DepthFirstSearch(graph, rank, open + {step}, d);
      }
      flags := NoteRequirement(graph, rank, open, step, i, flags0);
    }

    method NoteRequirement(graph: Graph, ghost rank: Id -> nat, ghost open: set<Id>, step: Id, i: nat, flags0: Flags)
        returns (flags: Flags)
      requires Searching(graph, rank, open, step, i, flags0) && i < |graph[step]| && graph[step][i] in visited
      requires Acyclic(graph, parts.stillPendingNotExt, rank) ==> graph[step][i] !in open + {step}
      modifies this
      ensures Searching(graph, rank, open, step, i + 1, flags) && visited == old(visited)
      ensures Written() == NoteSets(parts, old(Written()), step, graph[step][i])
      ensures flags == NoteFlags(parts, old(Written()), graph[step][i], flags0)
      ensures forall k :: k != step ==> Marks(k) == old(Marks(k))
    {
      hide Searched, Flagged, LeadsTo, Blocked, Directly, Acyclic;
      flags := PutNotes(step, graph[step][i], flags0);
      NotesAreRight((graph, rank, open, step, i, flags0));
    }

    /** What the requirement says about the step. */
    method PutNotes(step: Id, d: Id, flags0: Flags) returns (flags: Flags)
      modifies this
      ensures flags == NoteFlags(parts, old(Written()), d, flags0)
      ensures upstreamFailure == Noted(d, parts.everFailed, old(upstreamFailure), step)
      ensures upstreamMissingDependency == Noted(d, parts.stillPendingExt, old(upstreamMissingDependency), step)
      ensures upstreamRunByOther == Noted(d, parts.runByOther, old(upstreamRunByOther), step)
      ensures upstreamSchedulingError == old(upstreamSchedulingError) + if d in parts.schedulingError then {step} else {}
      ensures visited == old(visited) && notRun == old(notRun)
    {
      flags := flags0;
      if d in parts.everFailed || d in upstreamFailure {
        upstreamFailure := upstreamFailure + {step};
        flags := flags.(failure := true);
      }
      if d in parts.stillPendingExt || d in upstreamMissingDependency {
        upstreamMissingDependency := upstreamMissingDependency + {step};
        flags := flags.(missing := true);
      }
      if d in parts.runByOther || d in upstreamRunByOther {
        upstreamRunByOther := upstreamRunByOther + {step};
        flags := flags.(other := true);
      }
      if d in parts.schedulingError {
        upstreamSchedulingError := upstreamSchedulingError + {step};
        flags := flags.(error := true);
      }
    }

    lemma StillSearched(graph: Graph, rank: Id -> nat, open: set<Id>, step: Id)
      requires Searched(graph, rank, open)
      ensures Closing(graph, rank, visited - (open + {step}))
      ensures Acyclic(graph, parts.stillPendingNotExt, rank) ==> AllComplete(graph, visited - (open + {step}))
    {
      hide LeadsTo, Blocked, Directly;
    }

    lemma NothingFlagged(graph: Graph, rank: Id -> nat, step: Id)
      requires step in graph
      ensures Flagged(graph, rank, step, 0, Flags(false, false, false, false))
    {
    }

    twostate lemma NotesAreRight(at: (Graph, Id -> nat, set<Id>, Id, nat, Flags))
      requires var (graph, rank, open, step, i, flags) := at;
        && old(Searching(graph, rank, open, step, i, flags)) && i < |graph[step]| && graph[step][i] in visited
        && (Acyclic(graph, parts.stillPendingNotExt, rank) ==> graph[step][i] !in open + {step})
        && var d := graph[step][i];
           && upstreamFailure == Noted(d, parts.everFailed, old(upstreamFailure), step)
           && upstreamMissingDependency == Noted(d, parts.stillPendingExt, old(upstreamMissingDependency), step)
           && upstreamRunByOther == Noted(d, parts.runByOther, old(upstreamRunByOther), step)
           && upstreamSchedulingError == old(upstreamSchedulingError) + if d in parts.schedulingError then {step} else {}
      requires visited == old(visited) && notRun == old(notRun)
      ensures var (graph, rank, open, step, i, flags) := at;
        Searching(graph, rank, open, step, i + 1,
                  NoteFlags(parts, old(Written()), graph[step][i], flags))
    {
      hide LeadsTo, Sound, Unexplained;
      var (graph, rank, open, step, i, flags) := at;
      var inside := parts.stillPendingNotExt;
      NoteOne(graph, inside, parts.everFailed, old(upstreamFailure), step, i);
      NoteOne(graph, inside, parts.stillPendingExt, old(upstreamMissingDependency), step, i);
      NoteOne(graph, inside, parts.runByOther, old(upstreamRunByOther), step, i);
      assert Directly(graph, parts.schedulingError, step, i + 1) <==>
        Directly(graph, parts.schedulingError, step, i) || graph[step][i] in parts.schedulingError;
      assert graph[step][i] in parts.schedulingError ==> HasBadRequirement(graph, parts, step);
      hide Blocked, Directly, HasBadRequirement;
    }

    /** Without a flag there is no reason, if the graph has no cycles. */
    lemma NoReason(graph: Graph, rank: Id -> nat, open: set<Id>, step: Id, flags: Flags)
      requires step in graph && Searching(graph, rank, open, step, |graph[step]|, flags) && !flags.Any() && step !in parts.runByOther
      ensures Acyclic(graph, parts.stillPendingNotExt, rank) ==> Unexplained(graph, parts, step)
    {
      var inside := parts.stillPendingNotExt;
      BlockedByAll(graph, inside, parts.everFailed, step);
      BlockedByAll(graph, inside, parts.stillPendingExt, step);
      BlockedByAll(graph, inside, parts.runByOther, step);
      hide LeadsTo, Blocked, Directly;
    }

    /** The step is no longer open. */
    lemma Leave(graph: Graph, rank: Id -> nat, open: set<Id>, step: Id, flags: Flags)
      requires step in graph && Searching(graph, rank, open, step, |graph[step]|, flags)
      requires !flags.Any() && step !in parts.runByOther ==> step in notRun
      ensures Searched(graph, rank, open)
    {
      var inside := parts.stillPendingNotExt;
      BlockedByAll(graph, inside, parts.everFailed, step);
      BlockedByAll(graph, inside, parts.stillPendingExt, step);
      BlockedByAll(graph, inside, parts.runByOther, step);
      hide LeadsTo, Blocked, Directly;
      assert visited - open == visited - (open + {step}) + {step};
    }

    lemma LeaveOther(graph: Graph, rank: Id -> nat, open: set<Id>, step: Id)
      requires Searched(graph, rank, open + {step}) && step !in open && step in graph && step !in parts.stillPendingNotExt
      ensures Searched(graph, rank, open)
    {
      var inside := parts.stillPendingNotExt;
      BlockedByAll(graph, inside, parts.everFailed, step);
      BlockedByAll(graph, inside, parts.stillPendingExt, step);
      BlockedByAll(graph, inside, parts.runByOther, step);
      hide LeadsTo, Blocked, Directly;
      assert visited - open <= visited - (open + {step}) + {step};
    }

    /** `_populate_unknown_statuses`: on a graph without cycles, the sets are exactly the steps that lead to
        a reason, and the steps without one. */
    method PopulateUnknownStatuses(graph: Graph, ghost rank: Id -> nat) returns (ghost order: seq<Id>)
      requires Closed(graph) && parts.stillPendingNotExt <= graph.Keys
      requires visited == {} && upstreamFailure == {} && upstreamMissingDependency == {} && upstreamRunByOther == {}
      requires upstreamSchedulingError == {} && notRun == {}
      modifies this
      ensures Lists(order, parts.stillPendingNotExt) && (forall k <- order :: k in graph) && Written() == SearchEach(graph, parts, order)
      ensures AllSound(graph)
      ensures forall k :: k in upstreamSchedulingError <==> HasBadRequirement(graph, parts, k)
      ensures forall k :: Unexplained(graph, parts, k) ==> k in notRun
      ensures Acyclic(graph, parts.stillPendingNotExt, rank) ==>
        var inside := parts.stillPendingNotExt;
        && (forall k <- graph :: k in upstreamFailure <==> LeadsTo(graph, inside, parts.everFailed, k))
        && (forall k <- graph :: k in upstreamMissingDependency <==> LeadsTo(graph, inside, parts.stillPendingExt, k))
        && (forall k <- graph :: k in upstreamRunByOther <==> LeadsTo(graph, inside, parts.runByOther, k))
        && (forall k :: k in notRun <==> Unexplained(graph, parts, k))
    {
      var todo := ListSet(parts.stillPendingNotExt);
      order := todo;
      assert forall k <- todo :: k in graph;
      for i := 0 to |todo|
        invariant Searched(graph, rank, {}) && forall j :: 0 <= j < i ==> todo[j] in visited
        invariant (forall k <- todo[..i] :: k in graph) && Written() == SearchEach(graph, parts, todo[..i])
      {
        assert todo[..i+1][..i] == todo[..i] && todo[i] in todo;
        DepthFirstSearch(graph, rank, {}, todo[i]);
      }
      assert todo[..|todo|] == todo;
      assert visited - {} == visited;
      forall k | k in graph && k !in visited
        ensures k !in parts.stillPendingNotExt
      {
      }
      LeadsFromInside(graph);
      hide LeadsTo, Directly;
    }

    /** Only pending steps lead anywhere. */
    lemma LeadsFromInside(graph: Graph)
      ensures forall bad, k :: LeadsTo(graph, parts.stillPendingNotExt, bad, k) ==> k in parts.stillPendingNotExt
    {
    }
  }

  // ---------------------------------------------------------------- cycles

  /** The parts of a run in which some steps failed and others are still pending. */
  function FailedAndPending(failed: set<Id>, pending: set<Id>): Parts {
    Parts({}, {}, failed, failed, {}, {}, pending, {})
  }

  const NONE := Flags(false, false, false, false)

  /** A pending step whose requirements have all been visited and are no reason is noted as not run. */
  lemma VisitsNothingNew(graph: Graph, parts: Parts, n: Notes, step: Id, i: nat)
    requires Closed(graph) && step in n.visited && n.visited <= graph.Keys && i <= |graph[step]|
    requires forall d <- graph[step] :: d in n.visited && NoteFlags(parts, n, d, NONE) == NONE
    ensures SearchFrom(graph, parts, n, step, i, NONE) == (n, NONE)
    decreases |graph[step]| - i
  {
    if i < |graph[step]| {
      var d := graph[step][i];
      assert d in graph[step];
      assert NoteSets(parts, n, step, d) == n;
      VisitsNothingNew(graph, parts, n, step, i + 1);
    }
  }

  /** A requirement that failed, or that leads to a failure as noted so far, blocks the step. */
  lemma BlocksStep(graph: Graph, parts: Parts, n: Notes, step: Id, i: nat, flags: Flags, found: Notes, blocked: set<Id>)
    requires Closed(graph) && step in n.visited && n.visited <= graph.Keys && i < |graph[step]|
    requires parts == FailedAndPending(parts.failed, parts.stillPendingNotExt) && found.missing == found.other == {}
    requires var d := graph[step][i];
             && (d in parts.failed || d in found.failure) && d in graph
             && found == if d in n.visited then n else Search(graph, parts, n, d)
    requires found.failure + {step} == blocked && found.visited <= graph.Keys && step in found.visited
    ensures SearchFrom(graph, parts, n, step, i, flags) ==
              SearchFrom(graph, parts, found.(failure := blocked), step, i + 1, flags.(failure := true))
  {
    var d := graph[step][i];
    assert found.error + {} == found.error;
    assert NoteSets(parts, found, step, d) == found.(failure := blocked);
  }

  /** The search from 0 visits 1 before it sees the failure of 2. */
  lemma SearchesRound(graph: Graph, p: Parts, end: Notes)
    requires graph == map[0 := [1, 2], 1 := [0], 2 := []] && p == FailedAndPending({2}, {0, 1})
    requires end == Notes({0, 1, 2}, {0}, {}, {}, {}, {1})
    ensures Search(graph, p, Nothing(), 0) == end
  {
    var in0 := Notes({0}, {}, {}, {}, {}, {});
    var in1 := in0.(visited := {0, 1});
    VisitsNothingNew(graph, p, in1, 1, 0);
    var out1 := in1.(notRun := {1});
    assert Search(graph, p, in0, 1) == out1 by {
      assert in0.(visited := in0.visited + {1}) == in1;
    }
    assert NoteSets(p, out1, 0, 1) == out1;
    var in2 := out1.(visited := {0, 1, 2});
    assert Search(graph, p, out1, 2) == in2;
    BlocksStep(graph, p, out1, 0, 1, NONE, in2, {0});
  }

  /** On a cycle a step can be noted both as not run and as blocked by a failure. */
  lemma CycleNotesTwice()
    ensures var graph: Graph := map[0 := [1, 2], 1 := [0], 2 := []];
            var r := SearchEach(graph, FailedAndPending({2}, {0, 1}), [0, 1]);
            1 in r.notRun && 1 in r.failure
  {
    var graph: Graph := map[0 := [1, 2], 1 := [0], 2 := []];
    var p := FailedAndPending({2}, {0, 1});
    var out0 := Notes({0, 1, 2}, {0}, {}, {}, {}, {1});
    SearchesRound(graph, p, out0);
    BlocksStep(graph, p, out0, 1, 0, NONE, out0, {0, 1});
    assert out0.(visited := out0.visited + {1}) == out0;
    assert [0, 1][..1] == [0] && [0][..0] == [];
    assert SearchEach(graph, p, [0]) == out0;
  }

  /** The search from 0 visits 1 and 2 before it sees the failure of 3. */
  lemma SearchesLongRound(graph: Graph, p: Parts, end: Notes)
    requires graph == map[0 := [1, 3], 1 := [2], 2 := [0], 3 := []] && p == FailedAndPending({3}, {0, 1, 2})
    requires end == Notes({0, 1, 2, 3}, {0}, {}, {}, {}, {1, 2})
    ensures Search(graph, p, Nothing(), 0) == end
  {
    var in0 := Notes({0}, {}, {}, {}, {}, {});
    var out1 := Notes({0, 1, 2}, {}, {}, {}, {}, {1, 2});
    SearchesTail(graph, p, in0, out1);
    assert NoteSets(p, out1, 0, 1) == out1;
    var in3 := out1.(visited := {0, 1, 2, 3});
    assert Search(graph, p, out1, 3) == in3;
    BlocksStep(graph, p, out1, 0, 1, NONE, in3, {0});
  }

  lemma SearchesTail(graph: Graph, p: Parts, in0: Notes, out1: Notes)
    requires graph == map[0 := [1, 3], 1 := [2], 2 := [0], 3 := []] && p == FailedAndPending({3}, {0, 1, 2})
    requires in0 == Notes({0}, {}, {}, {}, {}, {}) && out1 == Notes({0, 1, 2}, {}, {}, {}, {}, {1, 2})
    ensures Search(graph, p, in0, 1) == out1
  {
    var in1 := in0.(visited := {0, 1});
    var in2 := in0.(visited := {0, 1, 2});
    VisitsNothingNew(graph, p, in2, 2, 0);
    var out2 := in2.(notRun := {2});
    assert Search(graph, p, in1, 2) == out2 by {
      assert in1.(visited := in1.visited + {2}) == in2;
    }
    assert NoteSets(p, out2, 1, 2) == out2;
    assert SearchFrom(graph, p, in1, 1, 0, NONE) == (out2, NONE);
    assert in0.(visited := in0.visited + {1}) == in1;
  }

  /** On a cycle a step that leads to a failure can be missed. */
  lemma CycleMissesReason()
    ensures var graph: Graph := map[0 := [1, 3], 1 := [2], 2 := [0], 3 := []];
            var p := FailedAndPending({3}, {0, 1, 2});
            1 !in SearchEach(graph, p, [0, 1, 2]).failure && LeadsTo(graph, {0, 1, 2}, {3}, 1)
  {
    var graph: Graph := map[0 := [1, 3], 1 := [2], 2 := [0], 3 := []];
    var p := FailedAndPending({3}, {0, 1, 2});
    assert PathWithin(graph, {0, 1, 2}, [1, 2, 0, 3]);
    assert [1, 2, 0, 3][0] == 1;
    var out0 := Notes({0, 1, 2, 3}, {0}, {}, {}, {}, {1, 2});
    SearchesLongRound(graph, p, out0);
    VisitsNothingNew(graph, p, out0, 1, 0);
    assert out0.(visited := out0.visited + {1}) == out0 && out0.(visited := out0.visited + {2}) == out0;
    assert Search(graph, p, out0, 1) == out0;
    var end := out0.(failure := {0, 2});
    BlocksStep(graph, p, out0, 2, 0, NONE, out0, {0, 2});
    assert Search(graph, p, out0, 2) == end;
    assert [0, 1, 2][..2] == [0, 1] && [0, 1][..1] == [0] && [0][..0] == [];
    assert SearchEach(graph, p, [0]) == out0;
    assert SearchEach(graph, p, [0, 1]) == out0;
  }

  /** A cycle does no harm if the reason is found first, whichever step the search starts from; so no
      condition on the cycles alone is exact. */
  lemma CycleMayBeHarmless(order: seq<Id>)
    requires order == [0, 1] || order == [1, 0]
    ensures var graph: Graph := map[0 := [2, 1], 1 := [0], 2 := []];
            var r := SearchEach(graph, FailedAndPending({2}, {0, 1}), order);
            r.failure == {0, 1} && r.notRun == {}
  {
    var graph: Graph := map[0 := [2, 1], 1 := [0], 2 := []];
    var p := FailedAndPending({2}, {0, 1});
    var end := Notes({0, 1, 2}, {0, 1}, {}, {}, {}, {});
    assert order[..1][..0] == [];
    if order == [0, 1] {
      SearchesFromZero(graph, p, end);
      assert order[..1] == [0];
      assert SearchEach(graph, p, [0]) == end;
      BlocksStep(graph, p, end, 1, 0, NONE, end, {0, 1});
      assert end.(visited := end.visited + {1}) == end;
    } else {
      SearchesFromOne(graph, p, end);
      assert order[..1] == [1];
      assert SearchEach(graph, p, [1]) == end;
      var bad := NONE.(failure := true);
      assert SearchFrom(graph, p, end, 0, 0, NONE) == (end, bad) by {
        BlocksStep(graph, p, end, 0, 0, NONE, end, {0, 1});
        BlocksStep(graph, p, end, 0, 1, bad, end, {0, 1});
      }
      assert end.(visited := end.visited + {0}) == end;
    }
  }

  lemma SearchesFromZero(graph: Graph, p: Parts, end: Notes)
    requires graph == map[0 := [2, 1], 1 := [0], 2 := []] && p == FailedAndPending({2}, {0, 1})
    requires end == Notes({0, 1, 2}, {0, 1}, {}, {}, {}, {})
    ensures Search(graph, p, Nothing(), 0) == end
  {
    var in0 := Notes({0}, {}, {}, {}, {}, {});
    var in2 := in0.(visited := {0, 2});
    assert Search(graph, p, in0, 2) == in2;
    BlocksStep(graph, p, in0, 0, 0, NONE, in2, {0});
    var back := in2.(failure := {0});
    var in1 := back.(visited := {0, 1, 2});
    BlocksStep(graph, p, in1, 1, 0, NONE, in1, {0, 1});
    assert Search(graph, p, back, 1) == end by {
      assert back.(visited := back.visited + {1}) == in1;
    }
    BlocksStep(graph, p, back, 0, 1, NONE.(failure := true), end, {0, 1});
  }

  lemma SearchesFromOne(graph: Graph, p: Parts, end: Notes)
    requires graph == map[0 := [2, 1], 1 := [0], 2 := []] && p == FailedAndPending({2}, {0, 1})
    requires end == Notes({0, 1, 2}, {0, 1}, {}, {}, {}, {})
    ensures Search(graph, p, Nothing(), 1) == end
  {
    var in1 := Notes({1}, {}, {}, {}, {}, {});
    var in0 := in1.(visited := {0, 1});
    var in2 := in0.(visited := {0, 1, 2});
    assert Search(graph, p, in0, 2) == in2;
    BlocksStep(graph, p, in0, 0, 0, NONE, in2, {0});
    var back := in2.(failure := {0});
    assert NoteSets(p, back, 0, 1) == back;
    assert Search(graph, p, in1, 0) == back by {
      assert in1.(visited := in1.visited + {0}) == in0;
    }
    BlocksStep(graph, p, in1, 1, 0, NONE, back, {0, 1});
    assert SearchFrom(graph, p, in1, 1, 0, NONE) == (end, NONE.(failure := true));
    assert {} + {1} == {1};
  }
}
