/**
 Runs from the start after which members of a batch run on without the step that runs the batch.
 */
module BatchExamples {
  import opened Options
  import opened Sequences
  import opened SchedulerModel
  import opened SchedulerInvariants
  import opened SchedulerBatches
  import opened FirstReports

  const POLICY := RetryPolicy(10, 1000000, 3600)

  /** Removal is delayed by 10, and silent workers are gone after 60. */
  const CFG := Config(900, 10, 60, 3600, 10, false, false, POLICY)

  const BATCHER := Batcher(["p"], None)
  const BATCH: BatchId := [1, 2]
  const ASK := WorkArgs(7, true, None)

  /** The report of a step of the family by worker 7. */
  function Member(id: StepId): AddArgs {
    AddArgs(7, id, PENDING, true, None, None, map[], 0, "f", Some(map["p" := "v"]), false, Some(true), None, POLICY)
  }

  /** The report of a step that the worker says is part of the batch. */
  function Joining(id: StepId, status: Status, assistant: bool): AddArgs {
    AddArgs(7, id, status, true, None, None, map[], 0, "g", None, assistant, None, Some(BATCH), POLICY)
  }

  /** Worker 7 at the time; it has asked for work as an assistant. */
  function Workers7(now: Time, asked: Option<Time>): Workers {
    map[7 := WorkerRec(now, asked, asked.Some?, 1, false)]
  }

  function WorldOf(steps: Steps, workers: Workers): World {
    World(steps, workers, map[(7, "f") := BATCHER], map[], false)
  }

  /** The call is possible and leads to the next scheduler. */
  ghost predicate Leads(w: World, e: Event, now: Time, next: World) {
    Possible(w, e, now, CFG) && Next(w, e, now, CFG) == next
  }

  // ---------------------------------------------------------------- two members become a batch

  function MemberRec(id: StepId): StepRec {
    FirstRec(Member(id), None, id)
  }

  function RunningMember(id: StepId): StepRec {
    var s := MemberRec(id);
    s.(life := Life(BATCH_RUNNING, 3, None, None, Some(BATCH), [], None, None), load := Load(Some(7), map[], Some(map[]), true))
  }

  function Members2(): Steps {
    map[1 := MemberRec(1), 2 := MemberRec(2)]
  }

  function Batch2(): Steps {
    map[1 := RunningMember(1), 2 := RunningMember(2)]
  }

  lemma AddsBatcher()
    ensures Leads(Initial(map[]), OnAddBatcher(7, "f", BATCHER), 0, WorldOf(map[], map[]))
  {
  }

  lemma AddsMember(id: StepId, steps: Steps, workers: Workers)
    requires id !in steps && (7 in workers ==> !workers[7].disabled) && forall k <- steps :: steps[k].life.status == PENDING
    ensures Leads(WorldOf(steps, workers), OnAddStep(Member(id), None), id, WorldOf(steps[id := MemberRec(id)], Touch(workers, 7, false, id)))
  {
    hide AddStep;
    FirstReport(WorldOf(steps, workers), Member(id), None, id, CFG);
    hide AddStepHead, Touch;
  }

  lemma StartsBatch2()
    ensures StartBatch(Members2(), BATCH, BATCH, 7, 3, CFG) == Batch2()
  {
    var steps := Members2();
    var one := steps[1 := RunningMember(1)];
    assert SetBatchRunning(steps, 1, BATCH, 7, 3, CFG) == one by {
      StartsOne(steps, 1);
    }
    assert SetBatchRunning(one, 2, BATCH, 7, 3, CFG) == one[2 := RunningMember(2)] by {
      StartsOne(one, 2);
    }
    hide SetBatchRunning, RunningMember, MemberRec;
    assert BATCH[..1] == [1] && [1][..0] == [];
    assert StartBatch(steps, [1], BATCH, 7, 3, CFG) == one;
    assert one[2 := RunningMember(2)] == Batch2();
  }

  lemma StartsOne(steps: Steps, id: StepId)
    requires id in steps && steps[id] == MemberRec(id)
    ensures SetBatchRunning(steps, id, BATCH, 7, 3, CFG) == steps[id := RunningMember(id)]
  {
    var moved := SetOne(steps[id], BATCH_RUNNING, 3, CFG);
    assert SetStatus(steps, id, BATCH_RUNNING, 3, CFG) == steps[id := moved];
    assert Batched(moved, BATCH, 7) == RunningMember(id);
    assert steps[id := moved][id := RunningMember(id)] == steps[id := RunningMember(id)];
  }

  /** Nothing runs, so nothing is in use. */
  lemma NothingUsed(steps: Steps)
    requires forall k <- steps :: steps[k].life.status != RUNNING
    ensures UsedResources(steps) == map[]
  {
    assert Running(steps) == {} && UsedKeys(steps) == {};
  }

  const CHOOSE_BATCH := Choices([], None, BATCH)

  lemma AsksForBatch()
    ensures var w, w2 := WorldOf(Members2(), Workers7(2, None)), WorldOf(Members2(), Workers7(3, Some(3)));
            && ValidChoices(w, ASK, CHOOSE_BATCH, 3, CFG) && !Prepare(w, ASK, [], 3, CFG).workers[7].disabled
            && AtScan(w, ASK, CHOOSE_BATCH, 3, CFG) == w2 && CountPending(w2, 7, 3) == w2
  {
    var w, w2 := WorldOf(Members2(), Workers7(2, None)), WorldOf(Members2(), Workers7(3, Some(3)));
    assert Announce(Prepare(w, ASK, [], 3, CFG), ASK, 3, CFG) == w2;
    assert ValidScan(w2, Relevant(w2, 7), BATCH);
    assert Owners(w2.steps, 7) == {};
  }

  lemma GrantsBatch()
    ensures var w := WorldOf(Members2(), Workers7(2, None));
            Leads(w, OnGetWork(ASK, CHOOSE_BATCH), 3, WorldOf(Batch2(), Workers7(3, Some(3))))
  {
    hide Decide, StartBatch, Members2, Batch2, ValidChoices, Prepare, AtScan, CountPending, Workers7;
    AsksForBatch();
    DecidesBatch();
    StartsBatch2();
  }

  lemma DecidesBatch()
    ensures var w := WorldOf(Members2(), Workers7(3, Some(3)));
            && (forall id <- BATCH :: id in w.steps) && Decide(w, ASK, CHOOSE_BATCH, 3, CFG) == BatchGranted(BATCH)
  {
    var w := WorldOf(Members2(), Workers7(3, Some(3)));
    var q := RecsOf(w.steps, BATCH);
    assert q == [MemberRec(1), MemberRec(2)];
    NothingUsed(w.steps);
    var req, g := RequestOf(w, ASK), GreedyOf(w, ASK, 3, CFG);
    assert StopsAt(w.steps, req, g, q, 0) by {
      assert q[..0] == [];
    }
    assert Pick(w.steps, req, g, q, 0) == 0;
    assert q[1..] == [MemberRec(2)] && [1] + [2] == BATCH;
    assert Collect(w.steps, BATCHER, q[0], [1], q[1..]) == BATCH;
  }

  // ---------------------------------------------------------------- runs

  ghost predicate RunTo(worlds: seq<World>, calls: seq<Call>, w: World) {
    IsRun(worlds, calls, CFG) && |worlds| == |calls| + 1 && worlds[|calls|] == w
  }

  lemma GoOn(worlds: seq<World>, calls: seq<Call>, w: World, e: Event, now: Time, next: World)
      returns (more: seq<World>, others: seq<Call>)
    requires RunTo(worlds, calls, w) && Leads(w, e, now, next)
    ensures RunTo(more, others, next) && others == calls + [Call(e, now)] && more == worlds + [next]
  {
    hide Possible, Next;
    LongerRun(worlds, calls, Call(e, now), next, CFG);
    more, others := worlds + [next], calls + [Call(e, now)];
    hide IsRun;
  }

  lemma AddsFirst()
    ensures Leads(WorldOf(map[], map[]), OnAddStep(Member(1), None), 1, WorldOf(map[1 := MemberRec(1)], Workers7(1, None)))
  {
    AddsMember(1, map[], map[]);
    assert Touch(map[], 7, false, 1) == Workers7(1, None);
    hide Leads, MemberRec;
  }

  lemma AddsSecond()
    ensures Leads(WorldOf(map[1 := MemberRec(1)], Workers7(1, None)), OnAddStep(Member(2), None), 2, WorldOf(Members2(), Workers7(2, None)))
  {
    AddsMember(2, map[1 := MemberRec(1)], Workers7(1, None));
    assert Touch(Workers7(1, None), 7, false, 2) == Workers7(2, None);
    hide Leads, MemberRec;
    assert map[1 := MemberRec(1)][2 := MemberRec(2)] == Members2();
  }

  /** Worker 7 has a batcher, reports two steps, and is granted them as a batch. */
  lemma RunsBatch() returns (worlds: seq<World>, calls: seq<Call>)
    ensures RunTo(worlds, calls, WorldOf(Batch2(), Workers7(3, Some(3))))
  {
    var w := Initial(map[]);
    worlds, calls := [w], [];
    assert RunTo(worlds, calls, w);
    hide RunTo, Leads, MemberRec, Members2, Batch2, Workers7, WorldOf, Member;
    AddsBatcher();
    AddsFirst();
    AddsSecond();
    GrantsBatch();
    worlds, calls := GoOn(worlds, calls, w, OnAddBatcher(7, "f", BATCHER), 0, WorldOf(map[], map[]));
    worlds, calls := GoOn(worlds, calls, WorldOf(map[], map[]), OnAddStep(Member(1), None), 1, WorldOf(map[1 := MemberRec(1)], Workers7(1, None)));
    worlds, calls := GoOn(worlds, calls, WorldOf(map[1 := MemberRec(1)], Workers7(1, None)), OnAddStep(Member(2), None), 2,
                          WorldOf(Members2(), Workers7(2, None)));
    worlds, calls := GoOn(worlds, calls, WorldOf(Members2(), Workers7(2, None)), OnGetWork(ASK, CHOOSE_BATCH), 3,
                          WorldOf(Batch2(), Workers7(3, Some(3))));
  }

  // ---------------------------------------------------------------- a stamped step runs the batch

  function Added(): StepRec {
    FirstRec(Joining(0, PENDING, true), None, 4)
  }

  function Stamped(): StepRec {
    var s := Added();
    s.(life := s.life.(remove := Some(15)))
  }

  function Granted0(): StepRec {
    var s := Stamped();
    s.(life := s.life.(status := RUNNING, updated := 6), load := Load(Some(7), map[], Some(map[]), false))
  }

  /** The batch as a report finds it. */
  lemma PickOfBatch(a: AddArgs, now: Time)
    requires a.id !in Batch2() && a.batchId == Some(BATCH)
    ensures var head := AddStepHead(Batch2(), a, now, CFG);
            ValidPick(head, Some(BATCH), Some(1)) && head[1] == RunningMember(1)
  {
  }

  lemma AddsStep()
    ensures Leads(WorldOf(Batch2(), Workers7(3, Some(3))), OnAddStep(Joining(0, PENDING, true), Some(1)), 4,
                  WorldOf(Batch2()[0 := Added()], Workers7(4, Some(3))))
  {
    PickOfBatch(Joining(0, PENDING, true), 4);
    assert Touch(Workers7(3, Some(3)), 7, false, 4) == Workers7(4, Some(3));
    hide AddStep, Touch, AddStepHead, ValidPick, RunningMember;
    FirstReport(WorldOf(Batch2(), Workers7(3, Some(3))), Joining(0, PENDING, true), Some(1), 4, CFG);
  }

  lemma MembersIdle(now: Time)
    requires now <= 60
    ensures Idle(RunningMember(1), now, CFG, {7}) && Idle(RunningMember(2), now, CFG, {7})
    ensures !MayPrune(RunningMember(1), now) && !MayPrune(RunningMember(2), now)
  {
  }

  lemma StampsStep()
    ensures Leads(WorldOf(Batch2()[0 := Added()], Workers7(4, Some(3))), OnPrune([0, 1, 2]), 5,
                  WorldOf(Batch2()[0 := Stamped()], Workers7(4, Some(3))))
  {
    hide PruneLoop, Stamped, Added, PruneWorkers, Assistants;
    NobodyGone(Batch2()[0 := Added()], 4, 3, 5);
    StampsInLoop();
    assert Batch2()[0 := Stamped()] - {} == Batch2()[0 := Stamped()];
    assert Lists([0, 1, 2], Batch2()[0 := Added()].Keys);
    hide Batch2, Workers7;
  }

  lemma NobodyGone(steps: Steps, last: Time, asked: Time, now: Time)
    requires last <= now <= last + 60
    ensures var w := WorldOf(steps, Workers7(last, Some(asked))); PruneWorkers(w, now, CFG) == w && Assistants(w.workers) == {7}
  {
    NobodySilent(WorldOf(steps, Workers7(last, Some(asked))), now, CFG);
  }

  lemma StampsInLoop()
    ensures PruneLoop(Batch2()[0 := Added()], [0, 1, 2], 5, CFG, {7}, {}) == (Batch2()[0 := Stamped()], {})
  {
    var steps, next := Batch2()[0 := Added()], Batch2()[0 := Stamped()];
    StampsOne();
    MembersIdle(5);
    hide PruneStep, RunningMember, Stamped, Added, Idle, MayPrune;
    assert [0, 1, 2][1..] == [1, 2];
    IdleLoop(next, [1, 2], 5, CFG, {7}, {});
    assert (set j | j in [1, 2] && MayPrune(next[j], 5)) == {};
  }

  lemma StampsOne()
    ensures PruneStep(Batch2()[0 := Added()], 0, 5, CFG, {7}) == Batch2()[0 := Stamped()] && !MayPrune(Stamped(), 5)
  {
    var steps := Batch2()[0 := Added()];
    assert MarkUnwanted(Added(), 5, CFG) == Stamped();
    assert steps[0 := Stamped()] == Batch2()[0 := Stamped()];
    hide SetStatus, ReEnable, Batch2;
  }

  const CHOOSE_STEP := Choices([], None, [0])

  lemma AsksForStep()
    ensures var w, w2 := WorldOf(Batch2()[0 := Stamped()], Workers7(4, Some(3))), WorldOf(Batch2()[0 := Stamped()], Workers7(6, Some(6)));
            && ValidChoices(w, ASK, CHOOSE_STEP, 6, CFG) && !Prepare(w, ASK, [], 6, CFG).workers[7].disabled
            && AtScan(w, ASK, CHOOSE_STEP, 6, CFG) == w2 && CountPending(w2, 7, 6) == w2
  {
    var w, w2 := WorldOf(Batch2()[0 := Stamped()], Workers7(4, Some(3))), WorldOf(Batch2()[0 := Stamped()], Workers7(6, Some(6)));
    assert Announce(Prepare(w, ASK, [], 6, CFG), ASK, 6, CFG) == w2;
    assert Open(w2.steps) == {0};
    assert ValidScan(w2, Relevant(w2, 7), [0]);
    assert Owners(w2.steps, 7) == {};
  }

  lemma DecidesStep()
    ensures var w := WorldOf(Batch2()[0 := Stamped()], Workers7(6, Some(6)));
            0 in w.steps && Decide(w, ASK, CHOOSE_STEP, 6, CFG) == Granted(0)
  {
    var w := WorldOf(Batch2()[0 := Stamped()], Workers7(6, Some(6)));
    var q := RecsOf(w.steps, [0]);
    assert q == [Stamped()];
    NothingUsed(w.steps);
    var req, g := RequestOf(w, ASK), GreedyOf(w, ASK, 6, CFG);
    assert StopsAt(w.steps, req, g, q, 0) by {
      assert q[..0] == [];
    }
    assert Pick(w.steps, req, g, q, 0) == 0;
  }

  lemma StartsStep()
    ensures Grant(Batch2()[0 := Stamped()], 0, 7, 6, CFG) == Batch2()[0 := Granted0()]
  {
    var steps := Batch2()[0 := Stamped()];
    var moved := SetOne(Stamped(), RUNNING, 6, CFG);
    assert SetStatus(steps, 0, RUNNING, 6, CFG) == steps[0 := moved];
    assert Started(moved, 7) == Granted0();
    assert steps[0 := moved][0 := Granted0()] == Batch2()[0 := Granted0()];
  }

  lemma GrantsStep()
    ensures var w := WorldOf(Batch2()[0 := Stamped()], Workers7(4, Some(3)));
            Leads(w, OnGetWork(ASK, CHOOSE_STEP), 6, WorldOf(Batch2()[0 := Granted0()], Workers7(6, Some(6))))
  {
    hide Decide, Grant, Batch2, Stamped, Granted0, ValidChoices, Prepare, AtScan, CountPending, Workers7;
    AsksForStep();
    DecidesStep();
    StartsStep();
  }

  lemma RemovesStep()
    ensures Leads(WorldOf(Batch2()[0 := Granted0()], Workers7(6, Some(6))), OnPrune([0, 1, 2]), 15, WorldOf(Batch2(), Workers7(6, Some(6))))
  {
    hide PruneLoop, Granted0, PruneWorkers, Assistants;
    NobodyGone(Batch2()[0 := Granted0()], 6, 6, 15);
    RemovesInLoop();
    assert Batch2()[0 := Granted0()] - {0} == Batch2();
    assert Lists([0, 1, 2], Batch2()[0 := Granted0()].Keys);
    hide Batch2, Workers7;
  }

  lemma RemovesInLoop()
    ensures PruneLoop(Batch2()[0 := Granted0()], [0, 1, 2], 15, CFG, {7}, {}) == (Batch2()[0 := Granted0()], {0})
  {
    var steps := Batch2()[0 := Granted0()];
    StampIsDue();
    MembersIdle(15);
    assert steps[0] == Granted0() && steps[1] == RunningMember(1) && steps[2] == RunningMember(2);
    hide PruneLoop, RunningMember, Granted0, Idle, MayPrune, Batch2;
    var due := set j | j in [0, 1, 2] && MayPrune(steps[j], 15);
    assert due == {0};
    IdleLoop(steps, [0, 1, 2], 15, CFG, {7}, {});
    assert {} + due == {0};
  }

  lemma StampIsDue()
    ensures Idle(Granted0(), 15, CFG, {7}) && MayPrune(Granted0(), 15)
  {
  }

  /** A run after which `prune` removes the running step of a batch, and the members run on. */
  lemma StampedStepLeavesMember() returns (worlds: seq<World>, calls: seq<Call>)
    ensures IsRun(worlds, calls, CFG) && |worlds| == |calls| + 1 > 1
    ensures var before, after := worlds[|calls| - 1].steps, worlds[|calls|].steps;
            && 0 in before && before[0].life.status == RUNNING && before[0].life.batchId == Some(BATCH)
            && 1 in before && InBatch(before[1], Some(BATCH))
            && 0 !in after && 1 in after && after[1].life.status.Runs()
  {
    hide Leads, Stamped, Added, Workers7, IsRun;
    worlds, calls := RunsBatch();
    AddsStep();
    StampsStep();
    GrantsStep();
    RemovesStep();
    worlds, calls := GoOn(worlds, calls, WorldOf(Batch2(), Workers7(3, Some(3))), OnAddStep(Joining(0, PENDING, true), Some(1)), 4,
                          WorldOf(Batch2()[0 := Added()], Workers7(4, Some(3))));
    worlds, calls := GoOn(worlds, calls, WorldOf(Batch2()[0 := Added()], Workers7(4, Some(3))), OnPrune([0, 1, 2]), 5,
                          WorldOf(Batch2()[0 := Stamped()], Workers7(4, Some(3))));
    worlds, calls := GoOn(worlds, calls, WorldOf(Batch2()[0 := Stamped()], Workers7(4, Some(3))), OnGetWork(ASK, CHOOSE_STEP), 6,
                          WorldOf(Batch2()[0 := Granted0()], Workers7(6, Some(6))));
    worlds, calls := GoOn(worlds, calls, WorldOf(Batch2()[0 := Granted0()], Workers7(6, Some(6))), OnPrune([0, 1, 2]), 15,
                          WorldOf(Batch2(), Workers7(6, Some(6))));
    EndsWithMember();
  }

  lemma EndsWithMember()
    ensures Granted0().life.status == RUNNING && Granted0().life.batchId == Some(BATCH)
    ensures InBatch(RunningMember(1), Some(BATCH)) && Batch2().Keys == {1, 2}
  {
  }

  // ---------------------------------------------------------------- the batch id is overwritten

  function Combined(): StepRec {
    FirstRec(Joining(3, RUNNING, false), Some(map[]), 4)
  }

  lemma AddsCombined()
    ensures Leads(WorldOf(Batch2(), Workers7(3, Some(3))), OnAddStep(Joining(3, RUNNING, false), Some(1)), 4,
                  WorldOf(Batch2()[3 := Combined()], Workers7(4, Some(3))))
  {
    PickOfBatch(Joining(3, RUNNING, false), 4);
    assert Touch(Workers7(3, Some(3)), 7, false, 4) == Workers7(4, Some(3));
    assert RunningMember(1).load.resourcesRunning == Some(map[]);
    hide AddStep, Touch, AddStepHead, ValidPick, RunningMember;
    FirstReport(WorldOf(Batch2(), Workers7(3, Some(3))), Joining(3, RUNNING, false), Some(1), 4, CFG);
  }

  /** The combined step is done, and the report names another batch. */
  const RENAMED := Joining(3, DONE, false).(batchId := Some([9]))

  lemma EndsCombined()
    ensures var w := WorldOf(Batch2()[3 := Combined()], Workers7(4, Some(3)));
            && Possible(w, OnAddStep(RENAMED, None), 5, CFG)
            && var r := AddStep(w, RENAMED, None, 5, CFG).0.steps; 3 in r && !r[3].life.status.Runs()
  {
    var w := WorldOf(Batch2()[3 := Combined()], Workers7(4, Some(3)));
    var head := AddStepHead(w.steps, RENAMED, 5, CFG);
    assert 3 in head && head[3].life.status == RUNNING && head[3].load.workerRunning == Some(7);
    assert ValidPick(head, Some([9]), None);
    assert !Ignored(w.steps, RENAMED, true, 5, CFG) && AddStepStart(w.steps, RENAMED, None, 5, CFG) == Some(head);
    hide AddStepHead, AddStepTail, AddStepStart, ValidPick, Ignored, Batch2, Combined;
    EndsRunning(head);
  }

  lemma EndsRunning(head: Steps)
    requires 3 in head && head[3].life.status == RUNNING && head[3].load.workerRunning == Some(7)
    ensures var r := AddStepTail(head, RENAMED, true, 5, CFG); 3 in r && !r[3].life.status.Runs()
  {
    var unmarked := head[3 := Unmark(head[3], RENAMED)];
    AddStepTailAt(head, RENAMED, true, 5, CFG, 3);
    SetStatusAt(unmarked, 3, DONE, 5, CFG, 3);
    hide AddStepTail, SetStatus;
  }

  /** A run after which the running step of a batch has stopped, because of a report that names another batch, and the
      members run on. */
  lemma RenamedBatchLeavesMember() returns (worlds: seq<World>, calls: seq<Call>)
    ensures IsRun(worlds, calls, CFG) && |worlds| == |calls| + 1 > 1
    ensures var before, after := worlds[|calls| - 1].steps, worlds[|calls|].steps;
            && 3 in before && before[3].life.status == RUNNING && before[3].life.batchId == Some(BATCH)
            && 1 in before && InBatch(before[1], Some(BATCH))
            && 3 in after && !after[3].life.status.Runs() && 1 in after && after[1].life.status.Runs()
  {
    hide Leads, Workers7, IsRun, Next, Possible;
    worlds, calls := RunsBatch();
    AddsCombined();
    var w := WorldOf(Batch2()[3 := Combined()], Workers7(4, Some(3)));
    worlds, calls := GoOn(worlds, calls, WorldOf(Batch2(), Workers7(3, Some(3))), OnAddStep(Joining(3, RUNNING, false), Some(1)), 4, w);
    EndsCombined();
    EndsWithMember();
    var e := OnAddStep(RENAMED, None);
    EventKeepsBatchesTogether(w, e, 5, CFG, 3, BATCH, 1);
    LeadsToNext(w, e, 5);
    worlds, calls := GoOn(worlds, calls, w, e, 5, Next(w, e, 5, CFG));
    assert Next(w, e, 5, CFG) == AddStep(w, RENAMED, None, 5, CFG).0 by {
      NextOfReport(w, RENAMED, 5);
    }
  }

  lemma LeadsToNext(w: World, e: Event, now: Time)
    requires Possible(w, e, now, CFG)
    ensures Leads(w, e, now, Next(w, e, now, CFG))
  {
  }

  lemma NextOfReport(w: World, a: AddArgs, now: Time)
    requires Possible(w, OnAddStep(a, None), now, CFG)
    ensures Next(w, OnAddStep(a, None), now, CFG) == AddStep(w, a, None, now, CFG).0
  {
  }
}
