/**
 Why a step cannot run yet: the explicit-stack traversal of `_upstream_status` with its shared table.
 The traversal only reads the steps, so it takes them as a value.
 */
module UpstreamStatus {
  import opened Sequences
  import opened SchedulerModel

  datatype Upstream = Clear | UpstreamRunning | UpstreamMissingInput | UpstreamFailed | UpstreamDisabled {
    function Severity(): nat {
      match this
      case Clear => 0
      case UpstreamRunning => 1
      case UpstreamMissingInput => 2
      case UpstreamFailed => 3
      case UpstreamDisabled => 4
    }
  }

  type Table = map<StepId, Upstream>

  function OfStatus(status: Status): Upstream {
    match status
    case FAILED => UpstreamFailed
    case RUNNING => UpstreamRunning
    case BATCH_RUNNING => UpstreamRunning
    case PENDING => UpstreamMissingInput
    case DISABLED => UpstreamDisabled
    case _ => Clear
  }

  // ---------------------------------------------------------------- what the traversal should compute

  ghost predicate Acyclic(steps: Steps, rank: StepId -> nat) {
    forall k <- steps :: forall d <- steps[k].info.deps :: rank(d) < rank(k)
  }

  /** The traversal looks behind the step. */
  predicate Inner(steps: Steps, k: StepId) {
    k in steps && steps[k].life.status == PENDING && steps[k].info.deps != {}
  }

  /** The step speaks for itself. */
  predicate Leaf(steps: Steps, k: StepId) {
    k in steps && steps[k].life.status != DONE && !Inner(steps, k)
  }

  function MostSevere(s: set<Upstream>): Upstream {
    if UpstreamDisabled in s then UpstreamDisabled
    else if UpstreamFailed in s then UpstreamFailed
    else if UpstreamMissingInput in s then UpstreamMissingInput
    else if UpstreamRunning in s then UpstreamRunning
    else Clear
  }

  /** The most severe status behind the step, by recursion along the dependencies. */
  ghost function Worst(steps: Steps, rank: StepId -> nat, k: StepId): Upstream
    requires Acyclic(steps, rank)
    decreases rank(k)
  {
    if Inner(steps, k) then MostSevere(set d | d in steps[k].info.deps :: Worst(steps, rank, d))
    else if Leaf(steps, k) then OfStatus(steps[k].life.status)
    else Clear
  }

  /** A path along dependencies from an open step through open steps to a step that speaks for itself. */
  predicate BlockingPath(steps: Steps, path: seq<StepId>) {
    && path != [] && Leaf(steps, path[|path|-1])
    && forall i :: 0 <= i < |path| - 1 ==> Inner(steps, path[i]) && path[i+1] in steps[path[i]].info.deps
  }

  function PathEnd(steps: Steps, path: seq<StepId>): Upstream
    requires BlockingPath(steps, path)
  {
    OfStatus(steps[path[|path|-1]].life.status)
  }

  /** Every blocking path is at most as severe as the recursive value. */
  lemma {:induction false} WorstBounds(steps: Steps, rank: StepId -> nat, path: seq<StepId>)
    requires Acyclic(steps, rank) && BlockingPath(steps, path)
    ensures PathEnd(steps, path).Severity() <= Worst(steps, rank, path[0]).Severity()
  {
    if |path| > 1 {
      var rest := path[1..];
      forall i | 0 <= i < |rest| - 1
        ensures Inner(steps, rest[i]) && rest[i+1] in steps[rest[i]].info.deps
      {
        assert rest[i] == path[i+1] && rest[i+1] == path[i+1+1];
      }
      WorstBounds(steps, rank, rest);
      var values := set d | d in steps[path[0]].info.deps :: Worst(steps, rank, d);
      assert Worst(steps, rank, path[1]) in values;
    }
  }

  /** The recursive value, unless it is clear, is the end of some blocking path. */
  lemma {:induction false} WorstIsReached(steps: Steps, rank: StepId -> nat, k: StepId) returns (path: seq<StepId>)
    requires Acyclic(steps, rank) && Worst(steps, rank, k) != Clear
    ensures BlockingPath(steps, path) && path[0] == k && PathEnd(steps, path) == Worst(steps, rank, k)
    decreases rank(k)
  {
    if Inner(steps, k) {
      var values := set d | d in steps[k].info.deps :: Worst(steps, rank, d);
      assert Worst(steps, rank, k) in values;
      var d :| d in steps[k].info.deps && Worst(steps, rank, d) == Worst(steps, rank, k);
      var rest := WorstIsReached(steps, rank, d);
      path := [k] + rest;
    } else {
      path := [k];
    }
  }

  // ---------------------------------------------------------------- what the value means

  /** The path leads along dependencies from step to pending step, and ends at a step with one of the statuses
      that does not wait for any dependency. */
  predicate LeadsTo(steps: Steps, path: seq<StepId>, statuses: set<Status>) {
    && path != [] && (forall k <- path :: k in steps)
    && (forall i :: 0 <= i < |path| - 1 ==> steps[path[i]].life.status == PENDING && path[i+1] in steps[path[i]].info.deps)
    && var last := steps[path[|path|-1]];
       last.life.status in statuses && (last.life.status == PENDING ==> last.info.deps == {})
  }

  ghost predicate BlockedBy(steps: Steps, k: StepId, statuses: set<Status>) {
    exists path :: LeadsTo(steps, path, statuses) && path[0] == k
  }

  /** The value names the worst status at the ends of the paths from the step: a disabled step is worse than a
      failed one, then come pending steps without dependencies, and then running ones. */
  ghost predicate NamesWorstEnd(steps: Steps, k: StepId, value: Upstream) {
    var disabled, failed := BlockedBy(steps, k, {DISABLED}), BlockedBy(steps, k, {FAILED});
    var missing, running := BlockedBy(steps, k, {PENDING}), BlockedBy(steps, k, {RUNNING, BATCH_RUNNING});
    && (value == UpstreamDisabled <==> disabled)
    && (value == UpstreamFailed <==> failed && !disabled)
    && (value == UpstreamMissingInput <==> missing && !failed && !disabled)
    && (value == UpstreamRunning <==> running && !missing && !failed && !disabled)
    && (value == Clear <==> !running && !missing && !failed && !disabled)
  }

  /** A path to such a step blocks, and bounds the recursive value from below. */
  lemma EndBounds(steps: Steps, rank: StepId -> nat, k: StepId, statuses: set<Status>, value: Upstream)
    requires Acyclic(steps, rank) && BlockedBy(steps, k, statuses) && DONE !in statuses
    requires forall status <- statuses :: OfStatus(status) == value
    ensures value.Severity() <= Worst(steps, rank, k).Severity()
  {
    var path :| LeadsTo(steps, path, statuses) && path[0] == k;
    forall i | 0 <= i < |path| - 1
      ensures Inner(steps, path[i])
    {
      assert path[i] in path && path[i+1] in path;
    }
    assert path[|path|-1] in path;
    hide Worst;
    WorstBounds(steps, rank, path);
  }

  /** The recursive value is the end of a path to a step with a status that maps to it. */
  lemma EndIsReached(steps: Steps, rank: StepId -> nat, k: StepId, statuses: set<Status>)
    requires Acyclic(steps, rank) && Worst(steps, rank, k) != Clear
    requires forall status :: OfStatus(status) == Worst(steps, rank, k) ==> status in statuses
    ensures BlockedBy(steps, k, statuses)
  {
    hide Worst, OfStatus;
    var path := WorstIsReached(steps, rank, k);
    forall x | x in path
      ensures x in steps
    {
      var i :| 0 <= i < |path| && path[i] == x;
      assert i == |path| - 1 || Inner(steps, path[i]);
    }
    assert LeadsTo(steps, path, statuses);
  }

  /** On an acyclic graph the recursive value names the worst status at the ends of the paths. */
  lemma WorstNamesWorstEnd(steps: Steps, rank: StepId -> nat, k: StepId)
    requires Acyclic(steps, rank)
    ensures NamesWorstEnd(steps, k, Worst(steps, rank, k))
  {
    hide Worst, BlockedBy, Acyclic;
    if BlockedBy(steps, k, {DISABLED}) {
      EndBounds(steps, rank, k, {DISABLED}, UpstreamDisabled);
    }
    if BlockedBy(steps, k, {FAILED}) {
      EndBounds(steps, rank, k, {FAILED}, UpstreamFailed);
    }
    if BlockedBy(steps, k, {PENDING}) {
      EndBounds(steps, rank, k, {PENDING}, UpstreamMissingInput);
    }
    if BlockedBy(steps, k, {RUNNING, BATCH_RUNNING}) {
      EndBounds(steps, rank, k, {RUNNING, BATCH_RUNNING}, UpstreamRunning);
    }
    match Worst(steps, rank, k)
    case UpstreamDisabled => EndIsReached(steps, rank, k, {DISABLED});
    case UpstreamFailed => EndIsReached(steps, rank, k, {FAILED});
    case UpstreamMissingInput => EndIsReached(steps, rank, k, {PENDING});
    case UpstreamRunning => EndIsReached(steps, rank, k, {RUNNING, BATCH_RUNNING});
    case Clear =>
  }

  // ---------------------------------------------------------------- the traversal

  datatype Lookup = Found(value: Upstream) | NoSuchStep | KeyError

  function GetClear(table: Table, k: StepId): Upstream {
    if k in table then table[k] else Clear
  }

  function MaxOver(table: Table, deps: set<StepId>): Upstream {
    MostSevere(set d | d in deps :: GetClear(table, d))
  }

  /** Steps that map to no upstream status have no dependencies, as placeholders have none. */
  predicate ClearStepsAreLeaves(steps: Steps) {
    forall k <- steps :: steps[k].life.status in {UNKNOWN, SUSPENDED} ==> steps[k].info.deps == {}
  }

  /** What the entry of a step says, if it does not depend on the dependencies. */
  predicate EntryOk(s: StepRec, entry: Upstream) {
    match s.life.status
    case DISABLED => entry == UpstreamDisabled
    case FAILED => entry == UpstreamFailed
    case RUNNING => entry == UpstreamRunning
    case BATCH_RUNNING => entry == UpstreamRunning
    case PENDING => s.info.deps == {} ==> entry == UpstreamMissingInput
    case DONE => false
    case _ => s.info.deps == {} ==> entry == Clear
  }

  /** What the entries say on any graph. */
  predicate EntriesOk(steps: Steps, table: Table) {
    forall k <- table :: k in steps && EntryOk(steps[k], table[k])
  }

  ghost predicate Sound(steps: Steps, rank: StepId -> nat, table: Table)
    requires Acyclic(steps, rank)
  {
    forall k <- table :: table[k] == Worst(steps, rank, k)
  }

  ghost predicate Nice(steps: Steps, rank: StepId -> nat, table: Table) {
    Acyclic(steps, rank) && ClearStepsAreLeaves(steps) && Sound(steps, rank, table)
  }

  /** The state of the traversal; `marks` says which stack entries wait for their postorder visit. */
  ghost predicate Traversing(steps: Steps, rank: StepId -> nat, table: Table, stack: seq<StepId>, marks: seq<bool>)
    requires Acyclic(steps, rank)
  {
    && |marks| == |stack|
    && (forall k <- table :: Settled(steps, rank, table, stack, marks, k))
    && (forall i :: 0 <= i < |stack| && marks[i] ==>
          && Inner(steps, stack[i]) && stack[i] in table
          && (forall j :: i < j < |stack| ==> rank(stack[j]) < rank(stack[i]))
          && (forall d <- steps[stack[i]].info.deps ::
                d in table || d in stack[i+1..] || !(Inner(steps, d) || Leaf(steps, d))))
  }

  /** The entry of `k` is final, or `k` is still marked on the stack. */
  ghost predicate Settled(steps: Steps, rank: StepId -> nat, table: Table, stack: seq<StepId>, marks: seq<bool>, k: StepId)
    requires Acyclic(steps, rank) && k in table && |marks| == |stack|
  {
    table[k] == Worst(steps, rank, k) || (table[k] == Clear && exists i :: 0 <= i < |stack| && marks[i] && stack[i] == k)
  }

  /** When the top of the stack is marked, all its dependencies have their final value. */
  lemma TopIsComplete(steps: Steps, rank: StepId -> nat, table: Table, stack: seq<StepId>, marks: seq<bool>)
    requires Acyclic(steps, rank) && Traversing(steps, rank, table, stack, marks)
    requires stack != [] && marks[|stack|-1]
    ensures MaxOver(table, steps[stack[|stack|-1]].info.deps) == Worst(steps, rank, stack[|stack|-1])
  {
    var n := |stack| - 1;
    var deps := steps[stack[n]].info.deps;
    assert stack[n+1..] == [];
    forall d | d in deps
      ensures GetClear(table, d) == Worst(steps, rank, d)
    {
      if d in table {
        assert Settled(steps, rank, table, stack, marks, d);
      }
    }
    assert (set d | d in deps :: GetClear(table, d)) == (set d | d in deps :: Worst(steps, rank, d));
  }

  /** When the top of the stack is not marked, its entry is final, and computing it again changes nothing. */
  lemma TopIsFinal(steps: Steps, rank: StepId -> nat, table: Table, stack: seq<StepId>, marks: seq<bool>)
    requires Acyclic(steps, rank) && ClearStepsAreLeaves(steps) && Traversing(steps, rank, table, stack, marks)
    requires stack != [] && !marks[|stack|-1]
    ensures var x := stack[|stack|-1];
            x in table ==> table[x] == Worst(steps, rank, x)
    ensures var x := stack[|stack|-1];
            x in steps && x in table && table[x] == Clear && steps[x].life.status != DONE ==>
              MaxOver(table, steps[x].info.deps) == Clear
  {
    var n := |stack| - 1;
    var x := stack[n];
    if x in table {
      assert Settled(steps, rank, table, stack, marks, x);
      if x in steps && table[x] == Clear && steps[x].life.status != DONE {
        forall d | d in steps[x].info.deps
          ensures GetClear(table, d) == Clear
        {
          assert Inner(steps, x);
          assert Worst(steps, rank, d) in set e | e in steps[x].info.deps :: Worst(steps, rank, e);
          if d in table {
            assert Settled(steps, rank, table, stack, marks, d);
          }
        }
      }
    }
  }

  /** What the visit of the top of the stack finds in the table, or writes into it, is final. */
  lemma TopOfStack(steps: Steps, rank: StepId -> nat, table: Table, stack: seq<StepId>, marks: seq<bool>)
    requires Acyclic(steps, rank) && ClearStepsAreLeaves(steps) && Traversing(steps, rank, table, stack, marks)
    requires stack != []
    ensures var x := stack[|stack|-1];
            x in steps && steps[x].life.status != DONE && x in table ==>
              if table[x] == Clear && steps[x].info.deps != {} then MaxOver(table, steps[x].info.deps) == Worst(steps, rank, x)
              else table[x] == Worst(steps, rank, x)
    ensures var x := stack[|stack|-1];
            !(x in steps && steps[x].life.status != DONE) && x in table ==> table[x] == Worst(steps, rank, x)
  {
    var n := |stack| - 1;
    if marks[n] {
      TopIsComplete(steps, rank, table, stack, marks);
      assert Settled(steps, rank, table, stack, marks, stack[n]);
    } else {
      TopIsFinal(steps, rank, table, stack, marks);
    }
  }

  lemma StartTraversing(steps: Steps, rank: StepId -> nat, table: Table, k: StepId)
    requires Nice(steps, rank, table)
    ensures Traversing(steps, rank, table, [k], [false])
  {
    forall j | j in table
      ensures Settled(steps, rank, table, [k], [false], j)
    {
    }
  }

  lemma EndTraversing(steps: Steps, rank: StepId -> nat, table: Table, marks: seq<bool>)
    requires Acyclic(steps, rank) && Traversing(steps, rank, table, [], marks)
    ensures Sound(steps, rank, table)
  {
    forall k | k in table
      ensures table[k] == Worst(steps, rank, k)
    {
      assert Settled(steps, rank, table, [], marks, k);
    }
  }

  lemma SettledAfterPop(steps: Steps, rank: StepId -> nat, table: Table, stack: seq<StepId>, marks: seq<bool>, k: StepId)
    requires Acyclic(steps, rank) && |marks| == |stack| > 0 && k in table && k != stack[|stack|-1]
    requires Settled(steps, rank, table, stack, marks, k)
    ensures Settled(steps, rank, table, stack[..|stack|-1], marks[..|stack|-1], k)
  {
    hide Worst;
    if table[k] != Worst(steps, rank, k) {
      var i :| 0 <= i < |stack| && marks[i] && stack[i] == k;
      assert marks[..|stack|-1][i] && stack[..|stack|-1][i] == k;
    }
  }

  lemma PopKeeps(steps: Steps, rank: StepId -> nat, table: Table, stack: seq<StepId>, marks: seq<bool>, next: Table)
    requires Acyclic(steps, rank) && Traversing(steps, rank, table, stack, marks) && stack != []
    requires var x := stack[|stack|-1];
             && (next == table || (x in next && next == table[x := next[x]]))
             && (x in next ==> next[x] == Worst(steps, rank, x))
             && (x in next || !(Inner(steps, x) || Leaf(steps, x)))
    ensures Traversing(steps, rank, next, stack[..|stack|-1], marks[..|stack|-1])
  {
    hide Worst, OfStatus, Lists;
    var n := |stack| - 1;
    var x := stack[n];
    var stack', marks' := stack[..n], marks[..n];
    forall k | k in next
      ensures Settled(steps, rank, next, stack', marks', k)
    {
      if k != x {
        SettledAfterPop(steps, rank, table, stack, marks, k);
      }
    }
    hide Settled;
    forall i | 0 <= i < n && marks[i]
      ensures forall d <- steps[stack[i]].info.deps ::
                d in next || d in stack'[i+1..] || !(Inner(steps, d) || Leaf(steps, d))
    {
      assert stack[i+1..] == stack'[i+1..] + [x];
    }
  }

  /** The stack grows under the step: it waits for its dependencies. */
  predicate Expands(steps: Steps, table: Table, x: StepId) {
    Inner(steps, x) && x !in table
  }

  /** The table after a visit that does not let the stack grow. */
  function Visited(steps: Steps, table: Table, x: StepId): Table {
    if x !in steps || steps[x].life.status == DONE then table
    else if x !in table then table[x := OfStatus(steps[x].life.status)]
    else if table[x] == Clear && steps[x].info.deps != {} then table[x := MaxOver(table, steps[x].info.deps)]
    else table
  }

  lemma VisitKeeps(steps: Steps, rank: StepId -> nat, table: Table, stack: seq<StepId>, marks: seq<bool>)
    requires Acyclic(steps, rank) && ClearStepsAreLeaves(steps) && Traversing(steps, rank, table, stack, marks)
    requires stack != [] && !Expands(steps, table, stack[|stack|-1])
    ensures Traversing(steps, rank, Visited(steps, table, stack[|stack|-1]), stack[..|stack|-1], marks[..|stack|-1])
  {
    TopOfStack(steps, rank, table, stack, marks);
    PopKeeps(steps, rank, table, stack, marks, Visited(steps, table, stack[|stack|-1]));
  }

  lemma SettledAfterPush(steps: Steps, rank: StepId -> nat, table: Table, stack: seq<StepId>, marks: seq<bool>, order: seq<StepId>,
                         k: StepId)
    requires Acyclic(steps, rank) && stack != [] && |marks| == |stack|
    requires k != stack[|stack|-1] ==> k in table && Settled(steps, rank, table, stack, marks, k)
    ensures var n := |stack| - 1;
            Settled(steps, rank, table[stack[n] := Clear], stack + order, marks[..n] + [true] + seq(|order|, _ => false), k)
  {
    hide Worst;
    var n := |stack| - 1;
    var stack', marks' := stack + order, marks[..n] + [true] + seq(|order|, _ => false);
    assert marks'[n] && stack'[n] == stack[n];
    if k != stack[n] && table[k] != Worst(steps, rank, k) {
      var i :| 0 <= i < |stack| && marks[i] && stack[i] == k;
      assert marks'[i] && stack'[i] == k;
    }
  }

  lemma PushKeeps(steps: Steps, rank: StepId -> nat, table: Table, stack: seq<StepId>, marks: seq<bool>, order: seq<StepId>)
    requires Acyclic(steps, rank) && Traversing(steps, rank, table, stack, marks) && stack != []
    requires var x := stack[|stack|-1]; Inner(steps, x) && x !in table && Lists(order, steps[x].info.deps)
    ensures var n := |stack| - 1;
            Traversing(steps, rank, table[stack[n] := Clear], stack + order,
                       marks[..n] + [true] + seq(|order|, _ => false))
  {
    hide Worst, OfStatus, Leaf;
    var n := |stack| - 1;
    var x := stack[n];
    var next, stack', marks' := table[x := Clear], stack + order, marks[..n] + [true] + seq(|order|, _ => false);
    forall k | k in next
      ensures Settled(steps, rank, next, stack', marks', k)
    {
      SettledAfterPush(steps, rank, table, stack, marks, order, k);
    }
    hide Settled;
    forall i | 0 <= i < |stack'| && marks'[i]
      ensures forall j :: i < j < |stack'| ==> rank(stack'[j]) < rank(stack'[i])
      ensures forall d <- steps[stack'[i]].info.deps ::
                d in next || d in stack'[i+1..] || !(Inner(steps, d) || Leaf(steps, d))
    {
      forall j | i < j < |stack'|
        ensures rank(stack'[j]) < rank(stack'[i])
      {
        if j > n {
          assert stack'[j] in order;
          assert rank(stack'[j]) < rank(x);
        }
      }
      if i == n {
        assert stack'[n+1..] == order;
      } else {
        assert marks[i] && stack'[i+1..] == stack[i+1..] + order;
      }
    }
  }

  /** The body of the loop for one step taken from the stack: it writes the table and says what to push. */
  method Visit(steps: Steps, depId: StepId, table0: Table) returns (table: Table, pushed: seq<StepId>)
    ensures if Expands(steps, table0, depId)
            then table == table0[depId := Clear] && pushed != [] && pushed[0] == depId && Lists(pushed[1..], steps[depId].info.deps)
            else table == Visited(steps, table0, depId) && pushed == []
    ensures table.Keys == if depId in steps && steps[depId].life.status != DONE then table0.Keys + {depId} else table0.Keys
    ensures pushed != [] ==> depId in steps && depId !in table0 && pushed[0] == depId
  {
    table, pushed := table0, [];
    if depId in steps && steps[depId].life.status != DONE {
      if depId !in table {
        if steps[depId].life.status == PENDING && steps[depId].info.deps != {} {
          var deps := ListSet(steps[depId].info.deps);
          pushed := [depId] + deps;
          table := table[depId := Clear];
        } else {
          table := table[depId := OfStatus(steps[depId].life.status)];
        }
      } else if table[depId] == Clear && steps[depId].info.deps != {} {
        table := table[depId := MaxOver(table, steps[depId].info.deps)];
      }
    }
  }

  /** One round of the loop keeps the state of the traversal sound. */
  lemma RoundKeeps(steps: Steps, rank: StepId -> nat, table: Table, stack: seq<StepId>, marks: seq<bool>,
                   next: Table, pushed: seq<StepId>)
    requires Acyclic(steps, rank) && ClearStepsAreLeaves(steps) && Traversing(steps, rank, table, stack, marks)
    requires stack != []
    requires var x := stack[|stack|-1];
             if Expands(steps, table, x)
             then next == table[x := Clear] && pushed != [] && pushed[0] == x && Lists(pushed[1..], steps[x].info.deps)
             else next == Visited(steps, table, x) && pushed == []
    ensures Traversing(steps, rank, next, stack[..|stack|-1] + pushed, MarksAfter(marks, pushed))
  {
    hide Acyclic, ClearStepsAreLeaves, Traversing, Visited, Lists;
    var n := |stack| - 1;
    assert |marks| == |stack| by {
      MarksMatch(steps, rank, table, stack, marks);
    }
    if pushed == [] {
      VisitKeeps(steps, rank, table, stack, marks);
      assert stack[..n] + pushed == stack[..n];
    } else {
      PushKeeps(steps, rank, table, stack, marks, pushed[1..]);
      assert stack[..n] + pushed == stack + pushed[1..];
    }
  }

  lemma MarksMatch(steps: Steps, rank: StepId -> nat, table: Table, stack: seq<StepId>, marks: seq<bool>)
    requires Acyclic(steps, rank) && Traversing(steps, rank, table, stack, marks)
    ensures |marks| == |stack|
  {
  }

  ghost function MarksAfter(marks: seq<bool>, pushed: seq<StepId>): seq<bool> {
    if marks == [] then []
    else if pushed == [] then marks[..|marks|-1]
    else marks[..|marks|-1] + [true] + seq(|pushed| - 1, _ => false)
  }

  /** The step that the traversal is about is at the bottom of the stack until it has an entry, unless it is DONE. */
  predicate Rooted(steps: Steps, stepId: StepId, table0: Table, table: Table, stack: seq<StepId>) {
    && stepId in steps && table0.Keys <= table.Keys && (stack != [] ==> stack[0] == stepId)
    && if steps[stepId].life.status == DONE then stepId !in table else stack == [stepId] || stepId in table
  }

  lemma StaysRooted(steps: Steps, stepId: StepId, table0: Table, table: Table, stack: seq<StepId>, next: Table, pushed: seq<StepId>)
    requires Rooted(steps, stepId, table0, table, stack) && stack != []
    requires var x := stack[|stack|-1];
             && next.Keys == (if x in steps && steps[x].life.status != DONE then table.Keys + {x} else table.Keys)
             && (pushed != [] ==> x in steps && x !in table && pushed[0] == x)
    ensures Rooted(steps, stepId, table0, next, stack[..|stack|-1] + pushed)
  {
  }

  lemma StaysOk(steps: Steps, table: Table, x: StepId, next: Table)
    requires EntriesOk(steps, table)
    requires next == if Expands(steps, table, x) then table[x := Clear] else Visited(steps, table, x)
    ensures EntriesOk(steps, next)
  {
    hide MaxOver;
  }

  /** `_upstream_status`: it ends on every graph, and raises a KeyError only for a step that is DONE.  On an
      acyclic graph with a sound table it finds the recursive value and leaves the table sound. */
  method UpstreamStatus(steps: Steps, stepId: StepId, table0: Table, ghost rank: StepId -> nat)
      returns (r: Lookup, table: Table)
    ensures stepId !in table0 && stepId !in steps ==> r == NoSuchStep
    ensures r == KeyError <==> stepId !in table0 && stepId in steps && steps[stepId].life.status == DONE
    ensures table0.Keys <= table.Keys
    ensures Nice(steps, rank, table0) ==>
              Sound(steps, rank, table) && (r.Found? ==> r.value == Worst(steps, rank, stepId))
    ensures Nice(steps, rank, table0) && r.Found? ==> NamesWorstEnd(steps, stepId, r.value)
    ensures EntriesOk(steps, table0) ==> EntriesOk(steps, table)
    ensures r.Found? ==> stepId in table && r.value == table[stepId]
  {
    table := table0;
    if Nice(steps, rank, table0) {
      WorstNamesWorstEnd(steps, rank, stepId);
    }
    hide NamesWorstEnd;
    if stepId in table {
      return Found(table[stepId]), table;
    }
    if stepId !in steps {
      return NoSuchStep, table;
    }
    ghost var nice := Nice(steps, rank, table0);
    var stack := [stepId];
    ghost var marks := [false];
    if nice {
      StartTraversing(steps, rank, table, stepId);
    }
    hide Nice, Expands, Visited, MaxOver, Worst, Traversing, Settled, Acyclic, ClearStepsAreLeaves, Sound, OfStatus, Leaf, Lists, EntriesOk;
    while stack != []
      invariant Rooted(steps, stepId, table0, table, stack)
      invariant nice ==> Traversing(steps, rank, table, stack, marks)
      invariant EntriesOk(steps, table0) ==> EntriesOk(steps, table)
      decreases steps.Keys - table.Keys, |stack|
    {
      var n := |stack| - 1;
      var depId := stack[n];
      var next, pushed := Visit(steps, depId, table);
      if nice {
        RoundKeeps(steps, rank, table, stack, marks, next, pushed);
      }
      if EntriesOk(steps, table0) {
        StaysOk(steps, table, depId, next);
      }
      assert next.Keys == table.Keys || (depId in steps.Keys - table.Keys && next.Keys == table.Keys + {depId});
      StaysRooted(steps, stepId, table0, table, stack, next, pushed);
      table, stack, marks := next, stack[..n] + pushed, MarksAfter(marks, pushed);
    }
    if nice {
      EndTraversing(steps, rank, table, marks);
    }
    r := if stepId in table then Found(table[stepId]) else KeyError;
  }
}
