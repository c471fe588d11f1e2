/**
 When the search for the reasons of pending steps is complete on a graph with cycles: it is enough that every step
 has a requirement whose reason is known by the time the search looks at it.
 */
module ReasonsFirst {
  import opened Sequences
  import opened PendingReasons

  datatype Kind = Failure | Missing | Other

  function Bad(parts: Parts, kind: Kind): set<Id> {
    match kind
    case Failure => parts.everFailed
    case Missing => parts.stillPendingExt
    case Other => parts.runByOther
  }

  function NotedAs(n: Notes, kind: Kind): set<Id> {
    match kind
    case Failure => n.failure
    case Missing => n.missing
    case Other => n.other
  }

  function Flag(flags: Flags, kind: Kind): bool {
    match kind
    case Failure => flags.failure
    case Missing => flags.missing
    case Other => flags.other
  }

  // ---------------------------------------------------------------- the condition

  /** There is a path of at least one requirement from `a` to `b`. */
  ghost predicate Reaches(graph: Graph, inside: set<Id>, a: Id, b: Id) {
    LeadsTo(graph, inside, {b}, a)
  }

  ghost predicate IsReason(graph: Graph, inside: set<Id>, bad: set<Id>, d: Id) {
    d in bad || LeadsTo(graph, inside, bad, d)
  }

  /** Requirement `v` is a reason, and up to it no requirement leads back to the step. */
  ghost predicate EarlyAt(graph: Graph, inside: set<Id>, bad: set<Id>, k: Id, v: nat) {
    && k in graph && v < |graph[k]| && IsReason(graph, inside, bad, graph[k][v])
    && forall u :: 0 <= u <= v ==> !Reaches(graph, inside, graph[k][u], k)
  }

  ghost predicate Early(graph: Graph, inside: set<Id>, bad: set<Id>, k: Id) {
    exists v :: EarlyAt(graph, inside, bad, k, v)
  }

  /** Requirement `j` is a reason, and on a cycle through it the reason is found early. */
  ghost predicate Witness(graph: Graph, inside: set<Id>, bad: set<Id>, k: Id, j: nat) {
    && k in graph && j < |graph[k]|
    && var d := graph[k][j];
       d in bad || (LeadsTo(graph, inside, bad, d) && (!Reaches(graph, inside, d, k) || Early(graph, inside, bad, d)))
  }

  /** Every step that leads to a reason has such a requirement. */
  ghost predicate ReasonsComeFirst(graph: Graph, inside: set<Id>, bad: set<Id>) {
    forall k <- graph :: LeadsTo(graph, inside, bad, k) ==> exists j :: Witness(graph, inside, bad, k, j)
  }

  // ---------------------------------------------------------------- paths

  lemma ReachesOneMore(graph: Graph, inside: set<Id>, a: Id, b: Id, c: Id)
    requires Reaches(graph, inside, a, b) && b in graph && b in inside && c in graph[b]
    ensures Reaches(graph, inside, a, c)
  {
    var path :| PathWithin(graph, inside, path) && path[0] == a && path[|path|-1] in {b};
    var longer := path + [c];
    forall i | 0 <= i < |longer| - 1
      ensures longer[i] in inside && longer[i] in graph && longer[i+1] in graph[longer[i]]
    {
      assert longer[i] == path[i];
    }
    assert PathWithin(graph, inside, longer);
  }

  lemma ReachesNext(graph: Graph, inside: set<Id>, a: Id, b: Id)
    requires a in graph && a in inside && b in graph[a]
    ensures Reaches(graph, inside, a, b)
  {
    assert PathWithin(graph, inside, [a, b]);
  }

  lemma ReachesVia(graph: Graph, inside: set<Id>, a: Id, b: Id, c: Id)
    requires a in graph && a in inside && b in graph[a] && Reaches(graph, inside, b, c)
    ensures Reaches(graph, inside, a, c)
  {
    LeadsToByOne(graph, inside, {c}, a);
  }

  /** Without cycles the condition holds. */
  lemma AcyclicIsReasonsFirst(graph: Graph, inside: set<Id>, bad: set<Id>, rank: Id -> nat)
    requires Acyclic(graph, inside, rank)
    ensures ReasonsComeFirst(graph, inside, bad)
  {
    hide LeadsTo, Reaches, Early, Acyclic;
    forall k | k in graph && LeadsTo(graph, inside, bad, k)
      ensures exists j :: Witness(graph, inside, bad, k, j)
    {
      LeadsToByOne(graph, inside, bad, k);
      var d :| d in graph[k] && (d in bad || LeadsTo(graph, inside, bad, d));
      NoWayBack(graph, inside, rank, k, d);
      var j: nat :| j < |graph[k]| && graph[k][j] == d;
      assert Witness(graph, inside, bad, k, j);
    }
  }

  lemma NoWayBack(graph: Graph, inside: set<Id>, rank: Id -> nat, k: Id, d: Id)
    requires Acyclic(graph, inside, rank) && k in graph && k in inside && d in graph[k]
    ensures !Reaches(graph, inside, d, k)
  {
    if Reaches(graph, inside, d, k) {
      var path :| PathWithin(graph, inside, path) && path[0] == d && path[|path|-1] in {k};
      Descends(graph, inside, rank, path);
    }
  }

  lemma {:induction false} Descends(graph: Graph, inside: set<Id>, rank: Id -> nat, path: seq<Id>)
    requires Acyclic(graph, inside, rank) && PathWithin(graph, inside, path) && path[|path|-1] in inside
    ensures rank(path[|path|-1]) < rank(path[0])
  {
    assert path[1] in graph[path[0]];
    if |path| > 2 {
      Descends(graph, inside, rank, path[1..]);
    }
  }

  // ---------------------------------------------------------------- the search

  /** The steps that are not being searched any more have been noted rightly. */
  ghost predicate Settled(graph: Graph, parts: Parts, kind: Kind, n: Notes, open: set<Id>) {
    forall k <- n.visited :: k !in open && LeadsTo(graph, parts.stillPendingNotExt, Bad(parts, kind), k) ==> k in NotedAs(n, kind)
  }

  /** The search has come from the steps in `open` to this one, and an early one of them has been noted, unless it
      cannot be reached again. */
  ghost predicate CameFrom(graph: Graph, parts: Parts, kind: Kind, n: Notes, open: set<Id>, step: Id) {
    var inside := parts.stillPendingNotExt;
    && open <= inside && open <= n.visited
    && forall o <- open ::
         && Reaches(graph, inside, o, step)
         && (Early(graph, inside, Bad(parts, kind), o) ==> o in NotedAs(n, kind) || !Reaches(graph, inside, step, o))
  }

  /** A witness among the first `i` requirements has been seen. */
  ghost predicate Seen(graph: Graph, parts: Parts, kind: Kind, n: Notes, step: Id, i: nat, flags: Flags) {
    forall j :: 0 <= j < i && Witness(graph, parts.stillPendingNotExt, Bad(parts, kind), step, j) ==>
      step in NotedAs(n, kind) && Flag(flags, kind)
  }

  /** What has been noted stays noted. */
  predicate Grows(kind: Kind, n: Notes, r: Notes) {
    n.visited <= r.visited && NotedAs(n, kind) <= NotedAs(r, kind)
  }

  /** The steps that have newly been noted as not run have no reason of the kind. */
  ghost predicate RightlyNotRun(graph: Graph, parts: Parts, kind: Kind, n: Notes, r: Notes) {
    forall k <- r.notRun :: k in n.notRun || !LeadsTo(graph, parts.stillPendingNotExt, Bad(parts, kind), k)
  }

  lemma EarlyIsWitness(graph: Graph, inside: set<Id>, bad: set<Id>, k: Id, v: nat)
    requires EarlyAt(graph, inside, bad, k, v)
    ensures Witness(graph, inside, bad, k, v)
  {
    hide LeadsTo, Reaches;
  }

  /** The stack when the search goes on with requirement `i`. */
  lemma GoesOn(graph: Graph, parts: Parts, kind: Kind, n: Notes, open: set<Id>, step: Id, i: nat, flags: Flags)
    requires CameFrom(graph, parts, kind, n, open, step) && Seen(graph, parts, kind, n, step, i, flags)
    requires step in graph && step in parts.stillPendingNotExt && step in n.visited && i < |graph[step]|
    ensures CameFrom(graph, parts, kind, n, open + {step}, graph[step][i])
  {
    var inside, bad, d := parts.stillPendingNotExt, Bad(parts, kind), graph[step][i];
    assert d in graph[step];
    ReachesNext(graph, inside, step, d);
    hide LeadsTo, Reaches;
    forall o | o in open
      ensures Reaches(graph, inside, o, d)
      ensures Early(graph, inside, bad, o) ==> o in NotedAs(n, kind) || !Reaches(graph, inside, d, o)
    {
      ReachesOneMore(graph, inside, o, step, d);
      if Reaches(graph, inside, d, o) {
        ReachesVia(graph, inside, step, d, o);
      }
    }
    if Early(graph, inside, bad, step) && Reaches(graph, inside, d, step) {
      var v: nat :| EarlyAt(graph, inside, bad, step, v);
      assert v < i;
      EarlyIsWitness(graph, inside, bad, step, v);
    }
  }

  /** A witness has been noted by the time the search looks at it. */
  lemma WitnessIsNoted(graph: Graph, parts: Parts, kind: Kind, n: Notes, open: set<Id>, step: Id, i: nat, flags: Flags)
    requires step in graph && step in parts.stillPendingNotExt && i < |graph[step]| && graph[step][i] in n.visited
    requires CameFrom(graph, parts, kind, n, open, step) && CameFrom(graph, parts, kind, n, open + {step}, graph[step][i])
    requires Settled(graph, parts, kind, n, open + {step})
    requires Witness(graph, parts.stillPendingNotExt, Bad(parts, kind), step, i)
    ensures graph[step][i] in Bad(parts, kind) || graph[step][i] in NotedAs(n, kind)
  {
    var inside, d := parts.stillPendingNotExt, graph[step][i];
    hide LeadsTo, Early, Reaches;
    if d in open + {step} {
      assert Reaches(graph, inside, d, d) && Reaches(graph, inside, d, step);
    }
  }

  /** The state of the search of one step before requirement `i`. */
  ghost predicate Underway(graph: Graph, parts: Parts, kind: Kind, n: Notes, open: set<Id>, step: Id, i: nat, flags: Flags) {
    && step in graph && i <= |graph[step]| && step in parts.stillPendingNotExt && step in n.visited && n.visited <= graph.Keys
    && CameFrom(graph, parts, kind, n, open, step) && Settled(graph, parts, kind, n, open + {step})
    && Seen(graph, parts, kind, n, step, i, flags)
  }

  /** What the requirement says about the step, for one kind of reason. */
  lemma NotesOfKind(parts: Parts, kind: Kind, n: Notes, step: Id, d: Id, flags: Flags)
    ensures var r := NoteSets(parts, n, step, d);
            && r.visited == n.visited && r.notRun == n.notRun
            && NotedAs(r, kind) == Noted(d, Bad(parts, kind), NotedAs(n, kind), step)
            && Flag(NoteFlags(parts, n, d, flags), kind) == (Flag(flags, kind) || d in Bad(parts, kind) || d in NotedAs(n, kind))
  {
  }

  /** The requirement is noted after its own search. */
  lemma NotesNext(graph: Graph, parts: Parts, kind: Kind, n: Notes, found: Notes, open: set<Id>, step: Id, i: nat, flags: Flags)
    requires Underway(graph, parts, kind, n, open, step, i, flags) && i < |graph[step]|
    requires Grows(kind, n, found) && found.visited <= graph.Keys && graph[step][i] in found.visited
    requires Settled(graph, parts, kind, found, open + {step})
    ensures var d := graph[step][i];
            Underway(graph, parts, kind, NoteSets(parts, found, step, d), open, step, i + 1, NoteFlags(parts, found, d, flags))
  {
    var inside, bad, d := parts.stillPendingNotExt, Bad(parts, kind), graph[step][i];
    hide LeadsTo, Reaches, Early, Witness;
    GoesOn(graph, parts, kind, n, open, step, i, flags);
    NotesOfKind(parts, kind, found, step, d, flags);
    if Witness(graph, inside, bad, step, i) {
      WitnessIsNoted(graph, parts, kind, found, open, step, i, flags);
    }
    hide NoteSets, NoteFlags, Bad, NotedAs;
  }

  /** The step is settled at the end of its search. */
  lemma EndsSettled(graph: Graph, parts: Parts, kind: Kind, n: Notes, open: set<Id>, step: Id, flags: Flags)
    requires step in graph && Underway(graph, parts, kind, n, open, step, |graph[step]|, flags)
    requires ReasonsComeFirst(graph, parts.stillPendingNotExt, Bad(parts, kind))
    ensures Settled(graph, parts, kind, n, open)
    ensures !Flag(flags, kind) ==> !LeadsTo(graph, parts.stillPendingNotExt, Bad(parts, kind), step)
  {
    hide LeadsTo, Reaches, Early;
    var inside, bad := parts.stillPendingNotExt, Bad(parts, kind);
    if LeadsTo(graph, inside, bad, step) {
      var j: nat :| Witness(graph, inside, bad, step, j);
      assert j < |graph[step]|;
    }
    hide Witness;
  }

  /** One search keeps all that is known, and settles the step. */
  lemma {:induction false} SearchSettles(graph: Graph, parts: Parts, kind: Kind, n: Notes, open: set<Id>, step: Id)
    requires Closed(graph) && n.visited <= graph.Keys && step in graph && step !in open
    requires ReasonsComeFirst(graph, parts.stillPendingNotExt, Bad(parts, kind))
    requires Settled(graph, parts, kind, n, open) && CameFrom(graph, parts, kind, n, open, step)
    ensures var r := Search(graph, parts, n, step);
            Settled(graph, parts, kind, r, open) && Grows(kind, n, r) && RightlyNotRun(graph, parts, kind, n, r)
    decreases graph.Keys - n.visited - {step}, 1, 0
  {
    hide LeadsTo, Reaches, Early, Witness, ReasonsComeFirst;
    var here := n.(visited := n.visited + {step});
    if step !in parts.stillPendingNotExt {
      LeadsNowhere(graph, parts.stillPendingNotExt, Bad(parts, kind), step);
    } else {
      var none := Flags(false, false, false, false);
      assert Underway(graph, parts, kind, here, open, step, 0, none);
      hide Underway;
      LoopSettles(graph, parts, kind, here, open, step, 0, none);
      var (r, flags) := SearchFrom(graph, parts, here, step, 0, none);
      EndsSettled(graph, parts, kind, r, open, step, flags);
      assert flags.Any() == false ==> !Flag(flags, kind);
    }
  }

  lemma LeadsNowhere(graph: Graph, inside: set<Id>, bad: set<Id>, step: Id)
    requires step in graph && step !in inside
    ensures !LeadsTo(graph, inside, bad, step)
  {
    LeadsToByOne(graph, inside, bad, step);
  }

  lemma {:induction false} LoopSettles(graph: Graph, parts: Parts, kind: Kind, n: Notes, open: set<Id>, step: Id, i: nat, flags: Flags)
    requires Closed(graph) && step !in open && Underway(graph, parts, kind, n, open, step, i, flags)
    requires ReasonsComeFirst(graph, parts.stillPendingNotExt, Bad(parts, kind))
    ensures var (r, end) := SearchFrom(graph, parts, n, step, i, flags);
            Underway(graph, parts, kind, r, open, step, |graph[step]|, end) && Grows(kind, n, r) && RightlyNotRun(graph, parts, kind, n, r)
    decreases graph.Keys - n.visited, 0, |graph[step]| - i
  {
    hide LeadsTo, Reaches, Early, Witness, ReasonsComeFirst, Seen;
    if i < |graph[step]| {
      var d := graph[step][i];
      assert d in graph[step];
      var found := if d in n.visited then n else Search(graph, parts, n, d);
      if d !in n.visited {
        GoesOn(graph, parts, kind, n, open, step, i, flags);
        SearchSettles(graph, parts, kind, n, open + {step}, d);
      }
      NotesNext(graph, parts, kind, n, found, open, step, i, flags);
      NotesOfKind(parts, kind, found, step, d, flags);
      hide Underway, NoteSets, NoteFlags;
      LoopSettles(graph, parts, kind, NoteSets(parts, found, step, d), open, step, i + 1, NoteFlags(parts, found, d, flags));
    }
  }

  // ---------------------------------------------------------------- what holds on every graph

  ghost predicate AllSound(graph: Graph, parts: Parts, n: Notes) {
    forall kind :: Sound(graph, parts.stillPendingNotExt, Bad(parts, kind), NotedAs(n, kind))
  }

  /** The flags are true, and the one for direct errors is exact. */
  ghost predicate FlagsOk(graph: Graph, parts: Parts, step: Id, i: nat, flags: Flags)
    requires step in graph && i <= |graph[step]|
  {
    && (forall kind :: Flag(flags, kind) ==> LeadsTo(graph, parts.stillPendingNotExt, Bad(parts, kind), step))
    && (flags.error <==> Directly(graph, parts.schedulingError, step, i))
  }

  /** A pending step that nobody else runs and that has no direct error. */
  ghost predicate Plain(graph: Graph, parts: Parts, k: Id) {
    && k in graph && k in parts.stillPendingNotExt && k !in parts.runByOther
    && !Directly(graph, parts.schedulingError, k, |graph[k]|)
  }

  /** What has been noted as not run since is plain, and every newly visited step without a reason has been noted so. */
  ghost predicate NotRunOk(graph: Graph, parts: Parts, n: Notes, r: Notes) {
    && n.visited <= r.visited && n.notRun <= r.notRun
    && (forall k <- r.notRun :: k in n.notRun || Plain(graph, parts, k))
    && (forall k <- r.visited :: k in n.visited || (Unexplained(graph, parts, k) ==> k in r.notRun))
  }

  /** A step without a reason has no flag, so it is noted as not run. */
  lemma NoFlags(graph: Graph, parts: Parts, step: Id, flags: Flags)
    requires step in graph && FlagsOk(graph, parts, step, |graph[step]|, flags) && Unexplained(graph, parts, step)
    ensures !flags.Any()
  {
    hide LeadsTo, Directly;
    assert forall kind :: !LeadsTo(graph, parts.stillPendingNotExt, Bad(parts, kind), step);
    assert !Flag(flags, Failure) && !Flag(flags, Missing) && !Flag(flags, Other);
  }

  lemma NotesAreSound(graph: Graph, parts: Parts, n: Notes, step: Id, i: nat, flags: Flags)
    requires AllSound(graph, parts, n) && step in graph && step in parts.stillPendingNotExt && i < |graph[step]|
    requires FlagsOk(graph, parts, step, i, flags)
    ensures var d := graph[step][i];
            AllSound(graph, parts, NoteSets(parts, n, step, d)) && FlagsOk(graph, parts, step, i + 1, NoteFlags(parts, n, d, flags))
  {
    var inside, d := parts.stillPendingNotExt, graph[step][i];
    hide LeadsTo;
    forall kind
      ensures Sound(graph, inside, Bad(parts, kind), NotedAs(NoteSets(parts, n, step, d), kind))
      ensures Flag(NoteFlags(parts, n, d, flags), kind) ==> LeadsTo(graph, inside, Bad(parts, kind), step)
    {
      NotesOfKind(parts, kind, n, step, d, flags);
      if d in Bad(parts, kind) || d in NotedAs(n, kind) {
        BlockedBySome(graph, inside, Bad(parts, kind), step, i);
      }
    }
    hide Bad, NotedAs, Flag;
  }

  lemma {:induction false} SearchIsSound(graph: Graph, parts: Parts, n: Notes, step: Id)
    requires Closed(graph) && n.visited <= graph.Keys && step in graph && AllSound(graph, parts, n)
    ensures var r := Search(graph, parts, n, step);
            AllSound(graph, parts, r) && NotRunOk(graph, parts, n, r) && (Unexplained(graph, parts, step) ==> step in r.notRun)
    decreases graph.Keys - n.visited - {step}, 1, 0
  {
    hide LeadsTo, Directly, Sound;
    var here := n.(visited := n.visited + {step});
    assert AllSound(graph, parts, here) by {
      assert forall kind :: NotedAs(here, kind) == NotedAs(n, kind);
    }
    if step in parts.stillPendingNotExt {
      var none := Flags(false, false, false, false);
      assert FlagsOk(graph, parts, step, 0, none) by {
        NothingYet(graph, parts, step);
      }
      hide AllSound, FlagsOk;
      LoopIsSound(graph, parts, here, step, 0, none);
      var (r, flags) := SearchFrom(graph, parts, here, step, 0, none);
      EndsSound(graph, parts, n, here, r, step, flags);
    }
  }

  lemma NothingYet(graph: Graph, parts: Parts, step: Id)
    requires step in graph
    ensures FlagsOk(graph, parts, step, 0, Flags(false, false, false, false))
  {
    hide LeadsTo;
  }

  lemma EndsSound(graph: Graph, parts: Parts, n: Notes, here: Notes, r: Notes, step: Id, flags: Flags)
    requires here == n.(visited := n.visited + {step}) && AllSound(graph, parts, r) && NotRunOk(graph, parts, here, r)
    requires step in graph && step in parts.stillPendingNotExt && FlagsOk(graph, parts, step, |graph[step]|, flags)
    ensures var end := if !flags.Any() && step !in parts.runByOther then r.(notRun := r.notRun + {step}) else r;
            AllSound(graph, parts, end) && NotRunOk(graph, parts, n, end) && (Unexplained(graph, parts, step) ==> step in end.notRun)
  {
    hide LeadsTo, Directly, Sound;
    if Unexplained(graph, parts, step) {
      NoFlags(graph, parts, step, flags);
    }
    var end := r.(notRun := r.notRun + {step});
    assert AllSound(graph, parts, end) by {
      assert forall kind :: NotedAs(end, kind) == NotedAs(r, kind);
    }
  }

  lemma {:induction false} LoopIsSound(graph: Graph, parts: Parts, n: Notes, step: Id, i: nat, flags: Flags)
    requires Closed(graph) && step in n.visited && n.visited <= graph.Keys && i <= |graph[step]| && step in parts.stillPendingNotExt
    requires AllSound(graph, parts, n) && FlagsOk(graph, parts, step, i, flags)
    ensures var (r, end) := SearchFrom(graph, parts, n, step, i, flags);
            AllSound(graph, parts, r) && NotRunOk(graph, parts, n, r) && FlagsOk(graph, parts, step, |graph[step]|, end)
    decreases graph.Keys - n.visited, 0, |graph[step]| - i
  {
    hide LeadsTo, Directly, Sound, AllSound, FlagsOk, Unexplained, Plain;
    if i < |graph[step]| {
      var d := graph[step][i];
      assert d in graph[step];
      var found := if d in n.visited then n else Search(graph, parts, n, d);
      if d !in n.visited {
        SearchIsSound(graph, parts, n, d);
      }
      NotesAreSound(graph, parts, found, step, i, flags);
      LoopIsSound(graph, parts, NoteSets(parts, found, step, d), step, i + 1, NoteFlags(parts, found, d, flags));
    }
  }

  // ---------------------------------------------------------------- the whole search

  ghost predicate AllReasonsFirst(graph: Graph, parts: Parts) {
    forall kind :: ReasonsComeFirst(graph, parts.stillPendingNotExt, Bad(parts, kind))
  }

  lemma {:induction false} EachIsSound(graph: Graph, parts: Parts, order: seq<Id>)
    requires Closed(graph) && forall k <- order :: k in graph
    ensures AllSound(graph, parts, SearchEach(graph, parts, order)) && NotRunOk(graph, parts, Nothing(), SearchEach(graph, parts, order))
  {
    hide LeadsTo, Directly, Unexplained, Plain;
    if order != [] {
      var n := |order| - 1;
      assert order[n] in order && forall k <- order[..n] :: k in order;
      EachIsSound(graph, parts, order[..n]);
      hide AllSound;
      SearchIsSound(graph, parts, SearchEach(graph, parts, order[..n]), order[n]);
    }
  }

  lemma {:induction false} EachSettles(graph: Graph, parts: Parts, kind: Kind, order: seq<Id>)
    requires Closed(graph) && forall k <- order :: k in graph
    requires ReasonsComeFirst(graph, parts.stillPendingNotExt, Bad(parts, kind))
    ensures var r := SearchEach(graph, parts, order);
            Settled(graph, parts, kind, r, {}) && RightlyNotRun(graph, parts, kind, Nothing(), r) && forall k <- order :: k in r.visited
  {
    hide LeadsTo, ReasonsComeFirst, Bad, NotedAs;
    if order != [] {
      var n := |order| - 1;
      assert order[n] in order && forall k <- order[..n] :: k in order;
      EachSettles(graph, parts, kind, order[..n]);
      var before := SearchEach(graph, parts, order[..n]);
      SearchSettles(graph, parts, kind, before, {}, order[n]);
      assert forall k <- order :: k in order[..n] || k == order[n];
      hide Settled, Search;
    }
  }

  /** If the reasons come first, the notes are exact: each of the three sets holds just the steps that lead to such a
      reason, and `not_run` just the rest without a direct error. */
  lemma ExactIfReasonsComeFirst(graph: Graph, parts: Parts, order: seq<Id>)
    requires Closed(graph) && (forall k <- order :: k in graph) && Lists(order, parts.stillPendingNotExt)
    requires AllReasonsFirst(graph, parts)
    ensures var r, inside := SearchEach(graph, parts, order), parts.stillPendingNotExt;
            && (forall k :: k in r.failure <==> k in graph && LeadsTo(graph, inside, parts.everFailed, k))
            && (forall k :: k in r.missing <==> k in graph && LeadsTo(graph, inside, parts.stillPendingExt, k))
            && (forall k :: k in r.other <==> k in graph && LeadsTo(graph, inside, parts.runByOther, k))
            && (forall k :: k in r.notRun <==> Unexplained(graph, parts, k))
  {
    var r := SearchEach(graph, parts, order);
    EachIsSound(graph, parts, order);
    ExactForKind(graph, parts, Failure, order);
    ExactForKind(graph, parts, Missing, order);
    ExactForKind(graph, parts, Other, order);
    hide LeadsTo, Directly, SearchEach, AllSound, AllReasonsFirst;
    forall k
      ensures k in r.notRun <==> Unexplained(graph, parts, k)
    {
    }
  }

  lemma ExactForKind(graph: Graph, parts: Parts, kind: Kind, order: seq<Id>)
    requires Closed(graph) && (forall k <- order :: k in graph) && Lists(order, parts.stillPendingNotExt)
    requires AllReasonsFirst(graph, parts) && AllSound(graph, parts, SearchEach(graph, parts, order))
    ensures var r := SearchEach(graph, parts, order);
            && (forall k :: k in NotedAs(r, kind) <==> k in graph && LeadsTo(graph, parts.stillPendingNotExt, Bad(parts, kind), k))
            && (forall k <- r.notRun :: !LeadsTo(graph, parts.stillPendingNotExt, Bad(parts, kind), k))
            && (forall k <- parts.stillPendingNotExt :: k in r.visited)
  {
    var r, inside, bad := SearchEach(graph, parts, order), parts.stillPendingNotExt, Bad(parts, kind);
    assert ReasonsComeFirst(graph, inside, bad);
    EachSettles(graph, parts, kind, order);
    forall k | LeadsTo(graph, inside, bad, k)
      ensures k in graph && k in inside
    {
      LeadsOnlyInside(graph, inside, bad, k);
    }
    assert Sound(graph, inside, bad, NotedAs(r, kind));
    hide LeadsTo, SearchEach, Bad, NotedAs, ReasonsComeFirst;
  }

  lemma LeadsOnlyInside(graph: Graph, inside: set<Id>, bad: set<Id>, k: Id)
    requires LeadsTo(graph, inside, bad, k)
    ensures k in graph && k in inside
  {
  }

  /** So they are exact on a graph without cycles. */
  lemma AcyclicMeansReasonsFirst(graph: Graph, parts: Parts, rank: Id -> nat)
    requires Acyclic(graph, parts.stillPendingNotExt, rank)
    ensures AllReasonsFirst(graph, parts)
  {
    forall kind
      ensures ReasonsComeFirst(graph, parts.stillPendingNotExt, Bad(parts, kind))
    {
      AcyclicIsReasonsFirst(graph, parts.stillPendingNotExt, Bad(parts, kind), rank);
    }
    hide ReasonsComeFirst, Acyclic;
  }

  /** The condition is wider than that: it holds of a cycle on which the reason is found early. */
  lemma HarmlessCycleIsReasonsFirst()
    ensures var graph: Graph := map[0 := [2, 1], 1 := [0], 2 := []];
            AllReasonsFirst(graph, FailedAndPending({2}, {0, 1})) && forall rank :: !Acyclic(graph, {0, 1}, rank)
  {
    var graph: Graph, inside := map[0 := [2, 1], 1 := [0], 2 := []], {0, 1};
    var p := FailedAndPending({2}, inside);
    assert PathWithin(graph, inside, [0, 2]);
    assert LeadsTo(graph, inside, {2}, 0);
    LeadsNowhere(graph, inside, {0}, 2);
    LeadsNowhere(graph, inside, {2}, 2);
    assert EarlyAt(graph, inside, {2}, 0, 0);
    assert Witness(graph, inside, {2}, 0, 0) && Witness(graph, inside, {2}, 1, 0);
    hide LeadsTo, Witness;
    forall kind
      ensures ReasonsComeFirst(graph, inside, Bad(p, kind))
    {
      if kind != Failure {
        NothingBad(graph, inside);
      }
    }
    forall rank: Id -> nat
      ensures !Acyclic(graph, inside, rank)
    {
      assert 1 in graph[0] && 0 in graph[1];
    }
  }

  lemma NothingBad(graph: Graph, inside: set<Id>)
    ensures forall k :: !LeadsTo(graph, inside, {}, k)
  {
  }
}
