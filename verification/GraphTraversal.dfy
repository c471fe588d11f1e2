/**
 The breadth-first traversal of `_traverse_graph` with its limit on the number of nodes.
 The traversal only reads the steps, so it takes them as a value.
 */
module GraphTraversal {
  import opened Sequences
  import opened SchedulerModel

  /** What the traversal can see: the steps, the edges (`deps` or the inverse graph) and the filter. */
  datatype Graph = Graph(steps: Steps, edges: map<StepId, set<StepId>>, includeDone: bool) {
    /** The step is missing, or a placeholder that was never scheduled. */
    predicate Missing(id: StepId) {
      id !in steps || steps[id].info.family == ""
    }

    predicate Hidden(id: StepId) {
      !includeDone && id in steps && steps[id].life.status == DONE
    }

    function EdgesOf(id: StepId): set<StepId> {
      if id in edges then edges[id] else {}
    }

    /** The nodes that the traversal goes on to from `id`. */
    function Targets(id: StepId): set<StepId> {
      if Missing(id) then {} else set d | d in EdgesOf(id) && !Hidden(d)
    }
  }

  /** The nodes within `n` steps of the root. */
  ghost function Within(g: Graph, root: StepId, n: nat): set<StepId> {
    if n == 0 then {root}
    else Within(g, root, n - 1) + set x, y | x in Within(g, root, n - 1) && y in g.Targets(x) :: y
  }

  ghost predicate Reachable(g: Graph, root: StepId, id: StepId) {
    exists n: nat :: id in Within(g, root, n)
  }

  lemma {:induction false} WithinGrows(g: Graph, root: StepId, m: nat, n: nat)
    requires m <= n
    ensures Within(g, root, m) <= Within(g, root, n)
  {
    if m < n {
      WithinGrows(g, root, m, n - 1);
    }
  }

  lemma WithinStep(g: Graph, root: StepId, n: nat, x: StepId, y: StepId)
    requires x in Within(g, root, n) && y in g.Targets(x)
    ensures y in Within(g, root, n + 1)
  {
  }

  // ---------------------------------------------------------------- reachability by paths

  /** The traversal can go from `x` to `y`: `x` is known and has a family, `y` is at the end of one of its edges, and
      `y` is not a done step that is to be left out. */
  predicate GoesOn(g: Graph, x: StepId, y: StepId) {
    && x in g.steps && g.steps[x].info.family != "" && x in g.edges && y in g.edges[x]
    && (g.includeDone || !(y in g.steps && g.steps[y].life.status == DONE))
  }

  predicate IsPath(g: Graph, path: seq<StepId>) {
    path != [] && forall i :: 0 <= i < |path| - 1 ==> GoesOn(g, path[i], path[i+1])
  }

  /** The nodes within `n` steps are the ends of the paths with at most `n` steps. */
  lemma {:induction false} WithinByPath(g: Graph, root: StepId, n: nat, id: StepId)
    ensures id in Within(g, root, n) <==> exists path :: IsPath(g, path) && path[0] == root && path[|path|-1] == id && |path| <= n + 1
  {
    if id in Within(g, root, n) {
      var path := PathTo(g, root, n, id);
    }
    forall path | IsPath(g, path) && path[0] == root && path[|path|-1] == id && |path| <= n + 1
      ensures id in Within(g, root, n)
    {
      AlongPath(g, path);
      WithinGrows(g, root, |path| - 1, n);
    }
  }

  lemma {:induction false} PathTo(g: Graph, root: StepId, n: nat, id: StepId) returns (path: seq<StepId>)
    requires id in Within(g, root, n)
    ensures IsPath(g, path) && path[0] == root && path[|path|-1] == id && |path| <= n + 1
  {
    if n == 0 {
      path := [root];
    } else if id in Within(g, root, n - 1) {
      path := PathTo(g, root, n - 1, id);
    } else {
      var x :| x in Within(g, root, n - 1) && id in g.Targets(x);
      var init := PathTo(g, root, n - 1, x);
      assert GoesOn(g, x, id);
      path := init + [id];
    }
  }

  lemma {:induction false} AlongPath(g: Graph, path: seq<StepId>)
    requires IsPath(g, path)
    ensures path[|path|-1] in Within(g, path[0], |path| - 1)
  {
    var n := |path| - 1;
    if n > 0 {
      assert IsPath(g, path[..n]);
      AlongPath(g, path[..n]);
      assert GoesOn(g, path[n-1], path[n]);
      WithinStep(g, path[0], n - 1, path[n-1], path[n]);
    }
  }

  /** A node is reachable just if a path leads to it, and it is shown with the targets that the traversal can go on to. */
  lemma ReachableByPath(g: Graph, root: StepId, id: StepId)
    ensures Reachable(g, root, id) <==> exists path :: IsPath(g, path) && path[0] == root && path[|path|-1] == id
    ensures if id in g.steps && g.steps[id].info.family != ""
            then NodeOf(g, id).StepNode? && forall y :: y in NodeOf(g, id).deps <==> GoesOn(g, id, y)
            else NodeOf(g, id) == MissingNode
  {
    if Reachable(g, root, id) {
      var n: nat :| id in Within(g, root, n);
      WithinByPath(g, root, n, id);
    }
    forall path | IsPath(g, path) && path[0] == root && path[|path|-1] == id
      ensures Reachable(g, root, id)
    {
      WithinByPath(g, root, |path| - 1, id);
    }
  }

  // ---------------------------------------------------------------- the state of the search

  /** The nodes in `done` and in `queue`, with the distance at which each was found. */
  datatype Search = Search(done: seq<StepId>, queue: seq<StepId>, level: map<StepId, nat>) {
    function All(): seq<StepId> {
      done + queue
    }
  }

  /** Every node found so far is listed once, in the order of its level, and is that close to the root. */
  ghost predicate ListsLevels(g: Graph, root: StepId, all: seq<StepId>, level: map<StepId, nat>) {
    && Lists(all, level.Keys)
    && root in level && level[root] == 0
    && (forall x <- level :: x in Within(g, root, level[x]))
    && Ascending(all, level)
  }

  predicate Ascending(all: seq<StepId>, level: map<StepId, nat>) {
    forall i, j :: 0 <= i < j < |all| ==> all[i] in level && all[j] in level && level[all[i]] <= level[all[j]]
  }

  ghost predicate Levelled(g: Graph, root: StepId, s: Search) {
    ListsLevels(g, root, s.All(), s.level)
  }

  /** The target `y` of `x` has been found. */
  predicate FoundNext(s: Search, x: StepId, y: StepId)
    requires x in s.level
  {
    y in s.level && s.level[y] <= s.level[x] + 1
  }

  predicate AllFoundNext(g: Graph, s: Search, some: seq<StepId>) {
    forall x <- some :: x in s.level && forall y <- g.Targets(x) :: FoundNext(s, x, y)
  }

  ghost predicate SearchOk(g: Graph, root: StepId, s: Search) {
    Levelled(g, root, s) && AllFoundNext(g, s, s.done)
  }

  predicate AtMostLevel(s: Search, top: nat) {
    forall x <- s.level :: s.level[x] <= top
  }

  /** All levels exceed that of the first node in the queue by at most one. */
  predicate Narrow(s: Search) {
    s.queue != [] && s.queue[0] in s.level ==> AtMostLevel(s, s.level[s.queue[0]] + 1)
  }

  /** A node within `n` steps has been found by then, or a closer node is still in the queue. */
  lemma {:induction false} FoundByLevel(g: Graph, root: StepId, s: Search, n: nat, y: StepId)
    requires SearchOk(g, root, s) && y in Within(g, root, n)
    ensures (y in s.level && s.level[y] <= n) || exists q <- s.queue :: s.level[q] < n
  {
    if n > 0 {
      if y in Within(g, root, n - 1) {
        FoundByLevel(g, root, s, n - 1, y);
      } else {
        var x :| x in Within(g, root, n - 1) && y in g.Targets(x);
        FoundByLevel(g, root, s, n - 1, x);
        if x in s.level && s.level[x] <= n - 1 {
          assert x in s.All();
        }
      }
    }
  }

  /** Nodes left in the queue, or behind it, are no closer to the root than nodes already done. */
  lemma DoneIsNearest(g: Graph, root: StepId, s: Search, n: nat, x: StepId, y: StepId)
    requires SearchOk(g, root, s) && x in s.done && y !in s.done && y in Within(g, root, n)
    ensures x in Within(g, root, n)
  {
    FoundByLevel(g, root, s, n, y);
    var i :| 0 <= i < |s.done| && s.done[i] == x;
    assert s.All()[i] == x;
    if y in s.level && s.level[y] <= n {
      assert y in s.All();
      var j :| 0 <= j < |s.All()| && s.All()[j] == y;
      assert j >= |s.done|;
      WithinGrows(g, root, s.level[x], n);
    } else {
      var q :| q in s.queue && s.level[q] < n;
      var j :| 0 <= j < |s.queue| && s.queue[j] == q;
      assert s.All()[|s.done| + j] == q;
      WithinGrows(g, root, s.level[x], n);
    }
  }

  /** With an empty queue, exactly the reachable nodes are done. */
  lemma DoneIsReachable(g: Graph, root: StepId, s: Search, y: StepId)
    requires SearchOk(g, root, s)
    ensures y in s.done ==> Reachable(g, root, y)
    ensures s.queue == [] && Reachable(g, root, y) ==> y in s.done
  {
    if y in s.done {
      assert y in s.All();
    }
    if s.queue == [] && Reachable(g, root, y) {
      var n: nat :| y in Within(g, root, n);
      FoundByLevel(g, root, s, n, y);
      assert s.All() == s.done;
    }
  }

  // ---------------------------------------------------------------- the traversal

  datatype Node = MissingNode | StepNode(deps: set<StepId>)

  function NodeOf(g: Graph, id: StepId): Node {
    if g.Missing(id) then MissingNode else StepNode(g.Targets(id))
  }

  function Pop(s: Search): Search
    requires s.queue != []
  {
    Search(s.done + [s.queue[0]], s.queue[1..], s.level)
  }

  function Enqueue(s: Search, x: StepId, y: StepId): Search
    requires x in s.level
  {
    Search(s.done, s.queue + [y], s.level[y := s.level[x] + 1])
  }

  lemma PopOk(g: Graph, root: StepId, s: Search)
    requires Levelled(g, root, s) && s.queue != [] && Narrow(s)
    ensures Levelled(g, root, Pop(s)) && s.queue[0] in s.level && AtMostLevel(s, s.level[s.queue[0]] + 1)
    ensures s.queue[0] !in s.done
  {
    hide ListsLevels;
    assert Pop(s).All() == s.All();
    FirstInQueue(g, root, s);
  }

  lemma FirstInQueue(g: Graph, root: StepId, s: Search)
    requires Levelled(g, root, s) && s.queue != []
    ensures s.queue[0] in s.level && s.queue[0] !in s.done
    ensures forall x <- s.done :: x in s.level && s.level[x] <= s.level[s.queue[0]]
  {
    hide Within;
    var all, n := s.All(), |s.done|;
    assert all[n] == s.queue[0] && all[n] in all;
    forall x | x in s.done
      ensures x in s.level && x != s.queue[0] && s.level[x] <= s.level[s.queue[0]]
    {
      var i :| 0 <= i < n && s.done[i] == x;
      assert all[i] == x && all[i] in all;
    }
  }

  lemma EnqueueOk(g: Graph, root: StepId, s: Search, x: StepId, y: StepId)
    requires Levelled(g, root, s) && x in s.level && AtMostLevel(s, s.level[x] + 1)
    requires y in g.Targets(x) && y !in s.level
    ensures var e := Enqueue(s, x, y);
            Levelled(g, root, e) && AtMostLevel(e, e.level[x] + 1) && FoundNext(e, x, y)
  {
    hide ListsLevels, Levelled;
    EnqueueLevels(s, x, y);
    EnqueueLists(g, root, s, x, y);
  }

  lemma EnqueueLevels(s: Search, x: StepId, y: StepId)
    requires x in s.level && AtMostLevel(s, s.level[x] + 1) && y !in s.level
    ensures var e := Enqueue(s, x, y); AtMostLevel(e, e.level[x] + 1) && FoundNext(e, x, y)
  {
  }

  lemma EnqueueLists(g: Graph, root: StepId, s: Search, x: StepId, y: StepId)
    requires Levelled(g, root, s) && x in s.level && AtMostLevel(s, s.level[x] + 1)
    requires y in g.Targets(x) && y !in s.level
    ensures Levelled(g, root, Enqueue(s, x, y))
  {
    hide ListsLevels;
    assert Enqueue(s, x, y).All() == s.All() + [y];
    AppendLevels(g, root, s.All(), s.level, x, y);
  }

  lemma AppendLevels(g: Graph, root: StepId, all: seq<StepId>, level: map<StepId, nat>, x: StepId, y: StepId)
    requires ListsLevels(g, root, all, level) && x in level && y in g.Targets(x) && y !in level
    requires forall z <- level :: level[z] <= level[x] + 1
    ensures ListsLevels(g, root, all + [y], level[y := level[x] + 1])
  {
    hide Within, Lists, Ascending, Graph.Targets;
    var more := level[y := level[x] + 1];
    assert more.Keys == level.Keys + {y};
    AppendLists(all, level.Keys, y);
    AppendAscending(all, level, y, level[x] + 1);
    WithinStep(g, root, level[x], x, y);
  }

  lemma AppendAscending(all: seq<StepId>, level: map<StepId, nat>, y: StepId, top: nat)
    requires Lists(all, level.Keys) && Ascending(all, level) && y !in level && forall z <- level :: level[z] <= top
    ensures Ascending(all + [y], level[y := top])
  {
    forall i | 0 <= i < |all|
      ensures all[i] in level
    {
      assert all[i] in all;
    }
    hide Lists;
  }

  lemma AppendLists(q: seq<StepId>, s: set<StepId>, y: StepId)
    requires Lists(q, s) && y !in s
    ensures Lists(q + [y], s + {y})
  {
    assert y !in q;
  }

  lemma StillFound(g: Graph, s: Search, x: StepId, y: StepId, some: seq<StepId>)
    requires AllFoundNext(g, s, some) && x in s.level && y !in s.level
    ensures AllFoundNext(g, Enqueue(s, x, y), some)
  {
    var e := Enqueue(s, x, y);
    forall z | z in some
      ensures forall t <- g.Targets(z) :: FoundNext(e, z, t)
    {
      forall t | t in g.Targets(z)
        ensures FoundNext(e, z, t)
      {
        assert FoundNext(s, z, t);
      }
    }
  }

  /** The search after the targets of `id` have been added to the queue. */
  ghost predicate Expanded(g: Graph, root: StepId, id: StepId, before: Search, after: Search, some: seq<StepId>) {
    && Levelled(g, root, after) && after.done == before.done && before.queue <= after.queue
    && id in after.level && AtMostLevel(after, after.level[id] + 1)
    && (forall y <- g.Targets(id) :: FoundNext(after, id, y))
    && AllFoundNext(g, after, some)
  }

  /** The inner loop: the targets of `id` that were not seen before go to the end of the queue. */
  method EnqueueTargets(g: Graph, ghost root: StepId, id: StepId, seen0: set<StepId>, queue0: seq<StepId>, ghost s0: Search,
                        ghost some: seq<StepId>)
      returns (seen: set<StepId>, queue: seq<StepId>, ghost s: Search)
    requires Levelled(g, root, s0) && s0.queue == queue0 && seen0 == s0.level.Keys
    requires id in seen0 && AtMostLevel(s0, s0.level[id] + 1) && AllFoundNext(g, s0, some)
    ensures s.queue == queue && seen == s.level.Keys && Expanded(g, root, id, s0, s, some)
  {
    hide Levelled, AllFoundNext;
    seen, queue, s := seen0, queue0, s0;
    var deps := ListSet(g.Targets(id));
    for k := 0 to |deps|
      invariant Levelled(g, root, s) && s.queue == queue && seen == s.level.Keys && s.done == s0.done
      invariant id in seen && s.level[id] == s0.level[id] && AtMostLevel(s, s.level[id] + 1)
      invariant forall i :: 0 <= i < k ==> FoundNext(s, id, deps[i])
      invariant AllFoundNext(g, s, some) && queue0 <= queue
    {
      if deps[k] !in seen {
        assert deps[k] in deps;
        EnqueueOk(g, root, s, id, deps[k]);
        StillFound(g, s, id, deps[k], some);
        s := Enqueue(s, id, deps[k]);
        seen := seen + {deps[k]};
        queue := queue + [deps[k]];
      }
    }
  }

  /** Everything that the traversal could ever see. */
  ghost function Universe(g: Graph, root: StepId): set<StepId> {
    {root} + set k, d | k in g.edges && d in g.edges[k] :: d
  }

  lemma {:induction false} WithinUniverse(g: Graph, root: StepId, n: nat)
    ensures Within(g, root, n) <= Universe(g, root)
  {
    if n > 0 {
      WithinUniverse(g, root, n - 1);
    }
  }

  lemma LevelsInUniverse(g: Graph, root: StepId, s: Search)
    requires Levelled(g, root, s)
    ensures s.level.Keys <= Universe(g, root)
  {
    forall x | x in s.level
      ensures x in Universe(g, root)
    {
      WithinUniverse(g, root, s.level[x]);
    }
  }

  /** One round of the outer loop keeps the search sound. */
  lemma RoundOk(g: Graph, root: StepId, s: Search, e: Search)
    requires SearchOk(g, root, s) && s.queue != [] && Narrow(s)
    requires Expanded(g, root, s.queue[0], Pop(s), e, s.done)
    ensures SearchOk(g, root, e) && Narrow(e) && e.done == s.done + [s.queue[0]]
  {
    hide ListsLevels;
    if e.queue != [] {
      FirstInQueue(g, root, e);
    }
  }

  lemma StartOk(g: Graph, root: StepId)
    ensures var s := Search([], [root], map[root := 0]);
            SearchOk(g, root, s) && Narrow(s) && Lists(s.done, {})
  {
  }

  lemma BeforeRound(g: Graph, root: StepId, s: Search)
    requires SearchOk(g, root, s) && s.queue != [] && Narrow(s)
    ensures Levelled(g, root, Pop(s)) && s.queue[0] in s.level && AtMostLevel(Pop(s), s.level[s.queue[0]] + 1)
    ensures AllFoundNext(g, Pop(s), s.done)
  {
    hide Within, ListsLevels;
    PopOk(g, root, s);
    forall x | x in s.done
      ensures forall y <- g.Targets(x) :: FoundNext(Pop(s), x, y)
    {
      assert forall y <- g.Targets(x) :: FoundNext(s, x, y);
    }
  }

  /** What the search knows when it ends, by an empty queue or by the limit. */
  lemma SearchResult(g: Graph, root: StepId, s: Search, keys: set<StepId>)
    requires SearchOk(g, root, s) && Lists(s.done, keys)
    ensures forall id <- keys :: Reachable(g, root, id)
    ensures s.queue == [] ==> forall id :: Reachable(g, root, id) ==> id in keys
    ensures forall x, y, n: nat :: x in keys && y !in keys && y in Within(g, root, n) ==> x in Within(g, root, n)
  {
    forall id
      ensures id in s.done ==> Reachable(g, root, id)
      ensures s.queue == [] && Reachable(g, root, id) ==> id in s.done
    {
      DoneIsReachable(g, root, s, id);
    }
    forall x, y, n: nat | x in keys && y !in keys && y in Within(g, root, n)
      ensures x in Within(g, root, n)
    {
      DoneIsNearest(g, root, s, n, x, y);
    }
  }

  lemma FirstIsNew(g: Graph, root: StepId, s: Search, keys: set<StepId>)
    requires SearchOk(g, root, s) && s.queue != [] && Narrow(s) && Lists(s.done, keys)
    ensures s.queue[0] in Universe(g, root) - keys && Lists(s.done + [s.queue[0]], keys + {s.queue[0]})
  {
    hide Within, ListsLevels;
    PopOk(g, root, s);
    LevelsInUniverse(g, root, s);
    AppendLists(s.done, keys, s.queue[0]);
  }

  /** The variables of the traversal describe a sound search. */
  ghost predicate Searching(g: Graph, root: StepId, seen: set<StepId>, queue: seq<StepId>,
                            serialized: map<StepId, Node>, s: Search) {
    && SearchOk(g, root, s) && Narrow(s) && s.queue == queue && seen == s.level.Keys
    && Lists(s.done, serialized.Keys) && forall id <- serialized :: serialized[id] == NodeOf(g, id)
  }

  /** The body of the outer loop: the first node leaves the queue and is serialized, its new targets enter. */
  method VisitFirst(g: Graph, ghost root: StepId, seen0: set<StepId>, queue0: seq<StepId>,
                    serialized0: map<StepId, Node>, ghost s0: Search)
      returns (seen: set<StepId>, queue: seq<StepId>, serialized: map<StepId, Node>, ghost s: Search)
    requires Searching(g, root, seen0, queue0, serialized0, s0) && queue0 != []
    ensures Searching(g, root, seen, queue, serialized, s)
    ensures serialized.Keys == serialized0.Keys + {queue0[0]} && |serialized| == |serialized0| + 1
    ensures Universe(g, root) - serialized.Keys < Universe(g, root) - serialized0.Keys
  {
    hide Expanded, SearchOk, Narrow, Levelled, AllFoundNext, Universe, NodeOf, Lists;
    var id := queue0[0];
    BeforeRound(g, root, s0);
    FirstIsNew(g, root, s0, serialized0.Keys);
    seen, queue, s := EnqueueTargets(g, root, id, seen0, queue0[1..], Pop(s0), s0.done);
    serialized := serialized0[id := NodeOf(g, id)];
    RoundOk(g, root, s0, s);
    assert serialized.Keys == serialized0.Keys + {id};
  }

  lemma StartSearching(g: Graph, root: StepId)
    ensures Searching(g, root, {root}, [root], map[], Search([], [root], map[root := 0]))
  {
    StartOk(g, root);
    var none: map<StepId, Node> := map[];
    assert none.Keys == {};
  }

  /** What `_traverse_graph` promises about its result. */
  ghost predicate NearestNodes(g: Graph, root: StepId, serialized: map<StepId, Node>) {
    && (forall id <- serialized :: serialized[id] == NodeOf(g, id) && Reachable(g, root, id))
    && (forall x, y, n: nat :: x in serialized && y !in serialized && y in Within(g, root, n) ==> x in Within(g, root, n))
  }

  lemma EndSearching(g: Graph, root: StepId, seen: set<StepId>, queue: seq<StepId>, serialized: map<StepId, Node>, s: Search)
    requires Searching(g, root, seen, queue, serialized, s)
    ensures NearestNodes(g, root, serialized)
    ensures queue == [] ==> forall id :: Reachable(g, root, id) ==> id in serialized
  {
    SearchResult(g, root, s, serialized.Keys);
  }

  /** `_traverse_graph` with a fresh `seen`: each node is serialized once, at most as many as the limit allows;
      no node left out is closer to the root than a node returned; and below the limit the nodes returned are
      exactly the reachable ones. */
  method TraverseGraph(g: Graph, root: StepId, maxNodes: int) returns (serialized: map<StepId, Node>)
    ensures NearestNodes(g, root, serialized)
    ensures root in serialized && |serialized| <= Max(1, maxNodes)
    ensures |serialized| < maxNodes ==> forall id :: Reachable(g, root, id) ==> id in serialized
  {
    hide Searching, Universe, NearestNodes, Reachable;
    var seen := {root};
    serialized := map[];
    var queue := [root];
    ghost var s := Search([], [root], map[root := 0]);
    StartSearching(g, root);
    while queue != []
      invariant Searching(g, root, seen, queue, serialized, s)
      invariant if serialized == map[] then queue == [root] else root in serialized && |serialized| < maxNodes
      decreases Universe(g, root) - serialized.Keys
    {
      seen, queue, serialized, s := VisitFirst(g, root, seen, queue, serialized, s);
      if |serialized| >= maxNodes {
        break;
      }
    }
    EndSearching(g, root, seen, queue, serialized, s);
  }
}
