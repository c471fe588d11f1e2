# trun: the scheduler and six smaller cores, modelled and proved

This project models the central scheduler of the repository, a state machine over steps, workers and resources, and
six smaller algorithms of its utilities and native sources.

The scheduler is modelled twice.

* `SchedulerModel.dfy` has one record per step and per worker, and one function per operation.  The time of a call is an
  argument.  Where the source walks over a dictionary or a set, the model takes the order (or the choice) as an argument
  that a predicate constrains, so a theorem about all arguments covers every order Python could use.
  `SchedulerInvariants.dfy` defines calls as events, runs of events, and what holds in every reachable state.
* `SchedulerState.dfy`, `WorkSearch.dfy` and `CentralScheduler.dfy` have the objects: steps and workers with fields that
  are updated in place, the table of steps, the index by status, and the links between steps and workers in both
  directions.  Every call is proved to keep the indexes consistent and to be the event of the same name, apart from what
  follows for `get_work` and `count_pending`.

A worker can go on holding a step object that `prune` has removed, and such an object can make `get_work` and
`count_pending` raise an exception.  `RemovedSteps.dfy` adds these objects and the exceptions to the records; the objects
are proved against this larger model (`Scheduler.Run`).  `RemovedChoices.dfy` says exactly when a call can raise,
`RemovedExamples.dfy` has runs in which it does, and `RemovedRuns.dfy` shows that without batch ids, batchers and reports
of assistants no worker ever holds a removed step.  Such runs, and single calls that come upon no removed step, are runs
and events of the smaller model, so the theorems about it hold of the objects.  `SystemTheorems.dfy` proves those about
failures, disabled steps, running steps and resources for the larger model as well, so they hold of every run of the
objects.  `RunningResources.dfy` has the invariant that rules out the exceptions of the other calls.

What the operations do is stated a second time, on the fields of steps and workers instead of by the functions of the
model: `StatusLaws.dfy` (`set_status`), `PruneLaws.dfy`, `ReportLaws.dfy` (`add_step`), `GrantLaws.dfy` and
`HandOutLaws.dfy` (`get_work`), `RemovedGrants.dfy` (its choice with removed steps), `DecreaseLaws.dfy` and
`WorkerLaws.dfy`.  `DependencyLaws.dfy` follows dependencies from the report to the grant through whole runs.

The theorems about the scheduler are in `SchedulerBatches.dfy` (batches, owners, disabled steps; `BatchExamples.dfy` has
runs), `SchedulerResources.dfy` (totals, greedy reservations), `SchedulerProgress.dfy` (the shortcut for trivial workers,
the progress of a worker), `SchedulerPriority.dfy`, `FailureWindow.dfy`, `UpstreamStatus.dfy`, `GraphTraversal.dfy` and
`OrderedSet.dfy`.

The smaller cores are the ring buffer between two threads (`LockFreeQueue.dfy`), the edit distance of step names
(`EditDistance.dfy`), the as-of joins of time series (`AsOfJoins.dfy`), the reasons why steps are pending
(`PendingReasons.dfy`, `ReasonsFirst.dfy`), the bounded queue of messages (`ExplanationQueue.dfy`) and durations as text
(`TimeDelta.dfy`).
`Options.dfy` and `Sequences.dfy` are shared helpers, `FirstReports.dfy` is one of the runs that serve as examples.

`dafny verify dfyconfig.toml` checks the whole project.

## Where the code does not keep the simple promise

* `_editdistance` returns 0 for an empty first argument, and it compares characters by identity of objects
  (`EditDistance`, `IdentityMatters`).  Otherwise it is the Levenshtein distance exactly where characters are shared
  objects (`LevenshteinJustForSharedObjects`).
* The grid join is an as-of join exactly if the grid does not wrap around (`GridIsAsOfJustIfItFits`).
* A duration survives printing and parsing exactly if it is not negative and has no microseconds (`RoundTrip`); the ISO
  text of the zero duration is rejected (`IsoIsRead`).
* `inactivate_steps` does not take removed steps out of `worker.steps`, and the shortcut in `Worker.get_steps` can come
  upon one later.  Three things can then happen in `get_work`, and each does in a run from the start: granting the removed
  step pops a key that is missing (`MissingKeyIsReached`), or the key of a newer step with the same id
  (`ForeignKeyIsReached`), or the status lookup raises a KeyError because that id is DONE (`LookupFailureIsReached`).
  `CountRaisesJust` and `GetWorkMayRaiseJust` say exactly when; `QuietRunsAreRuns` gives a condition on the calls under
  which it never happens.
* A report can make a step run that was never granted.  `decrease_running_step_resources` then raises an AttributeError
  (`NoRunningResourcesIsReached`), in quiet runs just then (`QuietRunsAreRuns`), and `add_step` raises an exception if it
  looks in vain for running resources of a batch (`NoBatchResourcesIsReached`).  Without reports of running steps neither
  happens (`OnlyRemovedStepsRaise`).
* `prune` can remove the running step of a batch while its members run on, exactly under the condition of
  `MemberLeftBehindJust` (`StampedStepLeavesMember` is a run), and a report can put another batch id on the running step
  and then stop it without the members, exactly as `EventKeepsBatchesTogether` says (`RenamedBatchLeavesMember`).
* `update_resources` accepts negative amounts (`UpdateResources`).
* The comment on `_update_priority` promises placeholders for missing dependencies; the code skips them (`UpdatePriority`).
* `_upstream_status` raises a KeyError for a step that is DONE and has no table entry (`UpstreamStatus`).
* `_depth_first_search` visits pending steps a second time.  On a cyclic graph it can note a step both as not run and as
  blocked (`CycleNotesTwice`), and it can miss a reason (`CycleMissesReason`); what it notes as blocked is right on every
  graph (`DepthFirstSearch`).  A cycle can also do no harm (`CycleMayBeHarmless`), so no condition on the cycles alone is
  exact.  `ExactIfReasonsComeFirst` has a condition on the graph and the order of the requirements that also allows
  cycles, and the exact one on the notes is that another round adds nothing (`CompleteJustIfClosed`).

## Model

| member | source | states |
|---|---|---|
| SchedulerState.Step.AddFailure | trun/scheduler.py:278-287 | a failure is appended to the queue, and its time becomes the first failure time unless one is set |
| SchedulerState.Step.NumFailures | trun/scheduler.py:289-298 | the loop over the front of the queue leaves exactly the suffix that starts at the first failure inside the window, and returns its length |
| SchedulerState.Step.HasExcessiveFailures | trun/scheduler.py:300-310 | true just if the hard timeout since the first failure has passed or the pruned queue reaches the retry count; the queue is pruned only if it is counted |
| SchedulerState.SimpleStepState.Refile | trun/scheduler.py:553-555 | the key that is popped from the index of a status is always present |
| SchedulerState.SimpleStepState.SetStatus | trun/scheduler.py:512-563 | `set_status` with all its recursive calls keeps every step filed under exactly its own status and has exactly the effect of the value function, on every step; the measure of the recursion bounds its depth by two |
| SchedulerState.SimpleStepState.SetMembersStatus | trun/scheduler.py:529-533 | the loop over the batch changes exactly the BATCH_RUNNING members of the batch and takes their batch id away |
| SchedulerState.SimpleStepState.GetBatchRunningSteps | trun/scheduler.py:467-472 | the result lists exactly the BATCH_RUNNING steps with the batch id, each once |
| SchedulerState.SimpleStepState.ReEnable | trun/scheduler.py:498-503 | the disable time and both generations of failures are cleared around the move to FAILED |
| SchedulerState.SimpleStepState.FailDeadWorkerStep | trun/scheduler.py:565-573 | a running step is failed just if its owner is neither a stakeholder nor an assistant |
| SchedulerState.SimpleStepState.UpdateStatus | trun/scheduler.py:575-591 | removal stamp, expired disable and due retry, in this order and each on the result of the one before |
| SchedulerState.SimpleStepState.InactivateStep | trun/scheduler.py:596-602 | the step leaves both the step table and the index of its status, where its key is present |
| SchedulerState.SimpleStepState.InactivateSteps | trun/scheduler.py:596-602 | exactly the given steps are removed and the indexes still agree |
| SchedulerState.SimpleStepState.FindStep | trun/scheduler.py:487-493 | an unknown step becomes active and is filed under its status; a known one is found unchanged |
| SchedulerState.SimpleStepState.FindWorker | trun/scheduler.py:620-621 | an unknown worker becomes active without steps; a known one is found unchanged |
| SchedulerState.SimpleStepState.InactivateWorkers | trun/scheduler.py:623-633 | the workers disappear from the table, from every step and from every stakeholder set, and steps and workers still refer to each other both ways |
| SchedulerState.SimpleStepState.DisableWorkers | trun/scheduler.py:635-640 | a disabled worker keeps its stakes but is on no step any more, and no step is on it |
| CentralScheduler.Scheduler.constructor | trun/scheduler.py:657-677 | the scheduler starts empty, unpaused and consistent |
| CentralScheduler.Scheduler.UpdatePriority | trun/scheduler.py:734-745 | the recursion ends on cyclic graphs too and lifts exactly the steps that a path of lower priorities reaches |
| CentralScheduler.Scheduler.PruneWorkers | trun/scheduler.py:701-708 | exactly the silent workers are inactivated |
| CentralScheduler.Scheduler.PruneOne | trun/scheduler.py:714-719 | one round of the loop: dead worker, status update, and whether the step may go |
| CentralScheduler.Scheduler.PruneSteps | trun/scheduler.py:710-721 | the loop over the steps in any order, and the removal of exactly those that may go |
| CentralScheduler.Scheduler.Prune | trun/scheduler.py:694-699 | `prune` is the event of the value model, the workers keep exactly the removed steps that they could run, and all invariants of the objects are kept |
| CentralScheduler.Scheduler.UpdateWorker | trun/scheduler.py:727-732 | the worker is found or made, and its times are refreshed |
| CentralScheduler.Scheduler.CopyBatchResources | trun/scheduler.py:831-836 | raises an exception just if the batch has no BATCH_RUNNING member, or its first one has no running resources |
| CentralScheduler.Scheduler.ReportStatus | trun/scheduler.py:860-870 | the status is changed just if the step is not running, the owner reports a start or an end, or there are new dependencies; SUSPENDED becomes PENDING |
| CentralScheduler.Scheduler.AddStakeholders | trun/scheduler.py:902-909 | the worker becomes a stakeholder of the step and of its dependencies, and missing dependencies become UNKNOWN steps |
| CentralScheduler.Scheduler.Link | trun/scheduler.py:917-919 | step and worker refer to each other afterwards, and nothing else changes |
| CentralScheduler.Scheduler.AddStep | trun/scheduler.py:779-920 | `add_step` on objects is the event of the value model, with the same early returns and the same exception, and keeps all invariants |
| CentralScheduler.Scheduler.ResetOrphanedSteps | trun/scheduler.py:1053-1064 | exactly the BATCH_RUNNING steps of the worker whose batch has no RUNNING step on that worker go back to PENDING |
| CentralScheduler.Scheduler.LookUpStatus | trun/scheduler.py:1256-1282 | raises an exception just for an id that is DONE, and says "skip" only for an id that is disabled or still waits for dependencies |
| CentralScheduler.Scheduler.CountRunning | trun/scheduler.py:1073-1084 | the first loop raises an exception just if it comes upon an id that is DONE; it makes owners of running steps active, all of them if there is no exception, except those of ids whose upstream status may be disabled |
| CentralScheduler.Scheduler.CountWaiting | trun/scheduler.py:1085-1090 | the second loop raises an exception just if it comes upon an id that is DONE, and changes nothing |
| CentralScheduler.Scheduler.CountSteps | trun/scheduler.py:1067-1097 | both loops over the steps of the worker, the removed ones that the shortcut shows among them |
| CentralScheduler.Scheduler.CheckKey | trun/scheduler.py:553-554 | the key that is popped is that of the step itself just if the step is active; for a removed pending step it is missing, or it is that of a newer step with the same id |
| CentralScheduler.Scheduler.GrantStep | trun/scheduler.py:1232-1237 | the granted step runs on the worker with a copy of its demand as running resources |
| CentralScheduler.Scheduler.StartBatchSteps | trun/scheduler.py:505-510 | every step of the batch up to the first removed one becomes BATCH_RUNNING under the batch id, with running resources that are the demand itself; the outcome says which key a removed one pops |
| CentralScheduler.Scheduler.HandOutWork | trun/scheduler.py:1215-1246 | nothing, one step or a batch is handed out, up to the first removed step, with the outcome of that |
| CentralScheduler.Scheduler.Serve | trun/scheduler.py:1148-1248 | search, count and hand out, each with its exceptions: the state and the outcome are those of the value model with removed steps, for some order of the scan |
| CentralScheduler.Scheduler.GetWork | trun/scheduler.py:1101-1248 | `get_work` on objects is a turn of the value model with removed steps, in the state it leaves and in the reply or exception it ends with, for orders and choices that the source could make; it keeps all invariants |
| CentralScheduler.Scheduler.CountPendingSteps | trun/scheduler.py:1067-1097 | the call on its own, with its effect on the worker table and its exception |
| CentralScheduler.Scheduler.MarkAsDone | trun/scheduler.py:766-776 | RUNNING, FAILED and DISABLED steps become DONE, others stay as they are |
| CentralScheduler.Scheduler.ForgiveFailures | trun/scheduler.py:752-763 | a FAILED step becomes PENDING and keeps its failures |
| CentralScheduler.Scheduler.ReEnableStep | trun/scheduler.py:1536-1542 | only a step that the scheduler disabled is enabled again |
| CentralScheduler.Scheduler.DecreaseStep | trun/scheduler.py:1595-1598 | every positive decrease is taken from the running resources down to zero at most, also where they are the same object as the demand; a step that never got running resources raises an exception |
| CentralScheduler.Scheduler.DecreaseRunningStepResources | trun/scheduler.py:1589-1603 | a running step and the BATCH_RUNNING members of its batch are decreased, and nothing else; it raises an exception just if one of them has no running resources, after some of the members have been decreased |
| CentralScheduler.Scheduler.AddWorker | trun/scheduler.py:939-940 | the information is merged into that of the worker |
| CentralScheduler.Scheduler.DisableWorker | trun/scheduler.py:943-944 | the call disables exactly the worker, which lets go of its steps, the removed ones too |
| CentralScheduler.Scheduler.Ping | trun/scheduler.py:1251-1254 | only the activity of the worker is refreshed |
| CentralScheduler.Scheduler.AddStepBatcher | trun/scheduler.py:748-749 | the batcher is filed under worker and family |
| CentralScheduler.Scheduler.UpdateResource | trun/scheduler.py:1004-1008 | negative amounts are refused, others replace the total |
| CentralScheduler.Scheduler.UpdateResources | trun/scheduler.py:998-1001 | the amounts replace the totals, negative ones too |
| CentralScheduler.Scheduler.Pause | trun/scheduler.py:988-990 | pauses just if pausing is enabled |
| CentralScheduler.Scheduler.Unpause | trun/scheduler.py:993-995 | ends the pause just if pausing is enabled |
| CentralScheduler.Scheduler.Perform | trun/scheduler.py:694-1603 | whichever call is made, it is a possible turn of the value model with removed steps, and leads to the state and ends in the reply or the exception that the model says, those of `add_step` and of the decrease included |
| CentralScheduler.Scheduler.Run | trun/scheduler.py:694-1603 | every sequence of calls on a new scheduler is a run of the value model with removed steps, with the indexes consistent throughout, up to the first call, if any, that takes another step out of the index; without batch ids, batchers and reports of assistants there is no such call, the run is a run of the value model, and a call raises an exception just if it decreases the resources of a running step that has none; without reports of running steps every exception comes from a removed step in the way, and without any of these there is no exception |
| WorkSearch.StepsByStatus | trun/scheduler.py:458-459 | reading the index of some statuses finds exactly the active steps that have them |
| WorkSearch.GetSteps | trun/scheduler.py:356-362 | both branches find the active steps of the worker with the statuses; the branch over the own steps of the worker also finds exactly the removed steps with the statuses that it holds |
| WorkSearch.SortByRank | trun/scheduler.py:1035-1042 | the steps by falling priority and, within one priority, by rising time |
| WorkSearch.CheckResources | trun/scheduler.py:1015-1023 | true just if every demanded amount fits next to the used one into the total, which is 1 by default |
| WorkSearch.SumUsedResources | trun/scheduler.py:1025-1033 | the sum over all RUNNING steps, in any order, of what each is charged |
| WorkSearch.IsSchedulable | trun/scheduler.py:1044-1051 | PENDING, and every dependency is present and DONE |
| WorkSearch.TakeWorker | trun/scheduler.py:1202-1212 | the first candidate with a free process pays with one process and the demand of the step |
| WorkSearch.FindBest | trun/scheduler.py:1164-1186 | the scan stops at the first position at which the step can be granted, given what the greedy simulation has left after the steps before |
| WorkSearch.FindUnclaimed | trun/scheduler.py:1137-1142 | the result has the highest rank among the RUNNING steps of the worker that it does not know about |
| WorkSearch.FindOrphans | trun/scheduler.py:1053-1062 | exactly the orphaned members of batches are found |
| WorkSearch.Joins | trun/scheduler.py:1168-1171 | same family, same unbatched parameters, same demand, batchable and schedulable |
| WorkSearch.CollectBatch | trun/scheduler.py:1167-1176 | the batch behind the best step holds the joining steps in the order of the scan, up to the maximal size, removed ones included |
| WorkSearch.FindBatch | trun/scheduler.py:1186-1200 | a batch is started just if the family has a batcher, the step is batchable and has all the batched parameters |
| WorkSearch.IsTrivialWorker | trun/scheduler.py:364-373 | no assistant, and no PENDING step that `get_steps` shows demands resources, removed ones included |
| WorkSearch.RelevantSteps | trun/scheduler.py:1150-1158 | nothing while paused, the open steps that `get_steps` shows to a trivial worker, and all open steps otherwise |
| WorkSearch.Search | trun/scheduler.py:1148-1212 | the search finds what the value model with removed steps chooses, for a valid order of the scan |
| SchedulerInvariants.NextKeepsInv | trun/scheduler.py:512-930 | every call keeps the invariant: a disable time implies DISABLED, FAILED implies a retry time, RUNNING implies an owner, workers on a step are active, enabled and listed once, stakeholders are active |
| SchedulerInvariants.ReachableStatesAreOk | trun/scheduler.py:498-591 | the invariant holds in every state of every run, whatever the clock does |
| SchedulerInvariants.SetStatusAt | trun/scheduler.py:512-563 | `set_status` touches nothing but the lives of the step and of the members of the batch it leaves |
| SchedulerInvariants.DecisionIsKnown | trun/scheduler.py:1167-1248 | in every reachable state of the value model, which has no removed steps, `get_work` hands out only steps that are active |
| RemovedSteps.SystemNextOk | trun/scheduler.py:593-640 | every call keeps the invariant: what a worker holds beyond its active steps are removed objects, none of them in the table, and all of them with the worker among their workers |
| RemovedSteps.CountRaisesJust | trun/scheduler.py:1072-1090 | `count_pending` raises a KeyError just if the worker holds a removed step whose id is active again and DONE, and the shortcut of `get_steps` is taken for the status of the removed one |
| RemovedSteps.GetWorkRaisesJust | trun/scheduler.py:1101-1248 | for given orders and choices, `get_work` ends with an exception or a damaged index just if the worker is enabled and either the count raises or, if no step is sent again, the scan chooses a removed step |
| RemovedSteps.ChosenArePending | trun/scheduler.py:1164-1186 | whatever is chosen is PENDING, so that a removed step takes its key from the index of the pending steps |
| RemovedSteps.EventSystemOk | trun/scheduler.py:694-1603 | a call other than `get_work` and `count_pending` is the event of the value model, whatever removed steps are held, and keeps the invariant |
| RemovedSteps.UndisturbedIsEvent | trun/scheduler.py:1067-1248 | a call in which no walk over the steps of the worker comes upon a removed one is the event of the value model; `get_work` and `count_pending` then raise no exception, `add_step` raises one just if it looks for running resources of a batch and finds none, and the decrease just if a step has none |
| RemovedChoices.RemovedIsChosenJust | trun/scheduler.py:1150-1176 | some order of equally ranked steps makes the search choose a removed step, just if the worker is trivial, the shortcut is taken, and a removed step that is ready is outranked by no other, or joins the batch behind such a step with room left by those that outrank it |
| RemovedChoices.GetWorkMayRaiseJust | trun/scheduler.py:1101-1248 | some order makes `get_work` end with an exception or a damaged index, just if the worker is enabled and the count raises, or nothing has to be sent again and the search may choose a removed step; the condition speaks of the state before the scan only |
| RemovedChoices.CollectsIfRoom | trun/scheduler.py:1167-1176 | a joining step is collected if the joining steps in front of it leave room |
| RemovedChoices.CollectedHadRoom | trun/scheduler.py:1167-1176 | a collected step had room behind the joining steps in front of it |
| RemovedRuns.ReachableSystemsAreOk | trun/scheduler.py:694-1603 | the invariant with removed steps holds in every state of every run, whatever exceptions were raised before |
| RemovedRuns.QuietTurnIsEvent | trun/scheduler.py:694-1603 | while no worker holds a removed step, a call without batch id, batcher and report of an assistant is the event of the value model and leaves no removed step held; it raises an exception just if it decreases the resources of a running step that has none |
| RemovedRuns.QuietRunsAreRuns | trun/scheduler.py:694-1603 | in a run of such calls no worker ever holds a removed step, the run is a run of the value model, and a call raises an exception just if it decreases the resources of a running step that has none |
| RunningResources.NextFurnished | trun/scheduler.py:505-510 | every call that does not report a running step keeps the invariant that steps that run have running resources |
| RunningResources.AddStepFurnished | trun/scheduler.py:831-836 | and such an `add_step` raises no exception |
| RemovedRuns.OnlyRemovedStepsRaise | trun/scheduler.py:694-1603 | in every run without reports of running steps, batches and assistants or not, every exception comes from a removed step that is in the way of the call |
| RemovedRuns.QuietRunsRaiseNothing | trun/scheduler.py:694-1603 | a run without batch ids, batchers, reports of assistants and reports of running steps raises no exception |
| RemovedExamples.NoRunningResourcesIsReached | trun/scheduler.py:1589-1600 | a run without batches and assistants after which the decrease raises an AttributeError: a worker has reported a step as running that was not granted |
| RemovedExamples.NoBatchResourcesIsReached | trun/scheduler.py:831-836 | a report of a running step of a batch that has no member raises an exception in a new scheduler |
| RemovedExamples.MissingKeyIsReached | trun/scheduler.py:553-554 | a run from the start after which `get_work` pops a missing key |
| RemovedExamples.ForeignKeyIsReached | trun/scheduler.py:553-554 | a run from the start after which `get_work` takes a newer step with the same id out of the index |
| RemovedExamples.LookupFailureIsReached | trun/scheduler.py:1085-1090 | a run from the start after which `get_work` raises a KeyError in the second loop of `count_pending`: the removed step had failed, and its id is DONE |
| FailureWindow.NextRecords | trun/scheduler.py:278-310 | every call, whatever it is, appends to the queue of a step exactly the failures that it counts against the step and clears it exactly where it forgives the step, up to entries that have left the window |
| FailureWindow.CountIsExact | trun/scheduler.py:289-298 | in every run with a clock that does not go back, the pruned queue of an active step is exactly the part of its whole history of failures since the last clearing that lies in the window |
| FailureWindow.FirstFailureIsFirst | trun/scheduler.py:278-287 | in every run with a clock past zero, the first failure time of an active step is that of the first failure of its history |
| FailureWindow.FailureDisablesExactly | trun/scheduler.py:300-317 | in every run, a whole `add_step` with which the owner of a running step reports its failure leaves the step DISABLED exactly if the failures of its history inside the window reach the retry count, or the first one is as old as the hard timeout, and FAILED otherwise |
| SchedulerBatches.BatchLeavesTogether | trun/scheduler.py:529-533 | a running step that leaves its batch, for whatever status, takes exactly the members along in the same call: same status, or DISABLED exactly by their own failure limit, and no other step changes |
| SchedulerBatches.PruneKeepsBatchesTogether | trun/scheduler.py:565-591 | `prune` stops the running step of a batch exactly if it loses its owner, and then no member of the batch runs on, whether the step is removed in the same `prune` or not; otherwise the loop leaves the step as it is |
| SchedulerBatches.MemberLeftBehindJust | trun/scheduler.py:575-602 | a member of a batch runs on after a `prune` without its running step, just if a removal stamp from before the grant is due for that step, neither the member nor any step that runs the batch has lost its owner, and no stamp is due for the member |
| BatchExamples.StampedStepLeavesMember | trun/scheduler.py:575-602 | a run from the start in which this happens: a step reported as part of a granted batch by an assistant is stamped, granted and removed |
| BatchExamples.RenamedBatchLeavesMember | trun/scheduler.py:829-870 | a run from the start after which the running step of a batch has stopped, because the report names another batch, and the members run on |
| SchedulerBatches.EventKeepsBatchesTogether | trun/scheduler.py:752-920 | in every call other than `prune` and `get_work`, when the running step of a batch stops, a member runs on exactly if the call is a report that has put another batch id on that step first |
| SchedulerBatches.GetWorkKeepsRunning | trun/scheduler.py:1101-1248 | after its own `prune`, `get_work` takes no step out of RUNNING |
| SchedulerBatches.ReportKeepsBatchesTogether | trun/scheduler.py:863-870 | the status change of a report stops the members of the batch that is recorded on the step at that time, and of no other |
| SchedulerBatches.OwnersAreActiveAfterPrune | trun/scheduler.py:701-721 | after `prune` every RUNNING or BATCH_RUNNING step with a recorded owner is owned by an active worker |
| SchedulerBatches.OnlyDoneReleases | trun/scheduler.py:521-527 | while the disable time is set, `set_status` changes the status to DONE and to nothing else |
| SchedulerBatches.DisableLasts | trun/scheduler.py:498-591 | in every reachable state a scheduler disable outlasts every call except a DONE report, `mark_as_done`, `re_enable_step` and a `prune` after its expiry |
| SchedulerResources.ResourcesStayWithinTotals | trun/scheduler.py:1015-1033 | in every run of reports, fresh grants, decreases and prunes with fixed totals and no batching, the running resources of the RUNNING steps never add up to more than the total of any resource |
| SchedulerResources.GetWorkWithinTotals | trun/scheduler.py:1183-1237 | the step of that induction for a fresh grant |
| SchedulerResources.PassSetsAside | trun/scheduler.py:1178-1212 | the greedy reservations are the sum of what running steps are charged and what reserved steps demand |
| SchedulerResources.GrantLeavesRoom | trun/scheduler.py:1183-1186 | the granted demand fits on top of all that the pass has set aside for higher ranked steps |
| SchedulerResources.FreshGrantLeavesRoom | trun/scheduler.py:1164-1212 | the same for the decision of `get_work` |
| SystemTheorems.SystemCountIsExact | trun/scheduler.py:289-298 | the same as `CountIsExact` in every run of the scheduler with removed steps |
| SystemTheorems.SystemFirstFailureIsFirst | trun/scheduler.py:278-287 | the same as `FirstFailureIsFirst` in every run of the scheduler with removed steps |
| SystemTheorems.SystemFailureDisablesExactly | trun/scheduler.py:300-317 | the same as `FailureDisablesExactly` in every run of the scheduler with removed steps |
| SystemTheorems.SystemDisableLasts | trun/scheduler.py:498-591 | the same as `DisableLasts` for every call, whatever removed steps are in its way |
| SystemTheorems.SystemKeepsRunning | trun/scheduler.py:1101-1248 | after its own `prune`, `get_work` takes no step out of RUNNING, whatever removed steps are in its way |
| SystemTheorems.SystemStaysWithinTotals | trun/scheduler.py:1015-1033 | the same as `ResourcesStayWithinTotals` in every run of the scheduler with removed steps |
| SchedulerProgress.ScansAgree | trun/scheduler.py:356-373 | two scans, one of the own steps with nothing in use and one of all steps with any use and any reservations, stop or fail together and stop at steps of the same rank |
| SchedulerProgress.ShortcutKeepsMeaning | trun/scheduler.py:1150-1165 | for a trivial worker the short scan selects a step of the same rank as the full scan, and nothing exactly if the full scan selects nothing |
| SchedulerProgress.SomeStepIsSchedulable | trun/scheduler.py:1044-1051 | an acyclic graph with open steps has one that can be scheduled |
| SchedulerProgress.ReadyGrants | trun/scheduler.py:1167-1237 | a ready worker is granted a schedulable step whenever one is open, also if `get_work` prunes first, provided the scheduler has heard of the worker within the disconnect delay and the worker is a stakeholder of unstamped steps |
| SchedulerProgress.TurnMakesProgress | trun/worker.py:1216-1242 | one round of the worker, a request and a DONE report, turns exactly one open step into a done one, with and without pruning |
| SchedulerProgress.EveryStepIsRun | trun/worker.py:1216-1242 | with and without pruning, every request is granted until all steps are done, no step twice, and in a topological order of the dependencies |
| SchedulerProgress.EveryStepIsDone | trun/worker.py:1216-1242 | after as many rounds as there were open steps all steps are DONE, and the next request finds no work, with and without pruning |
| SchedulerPriority.PrioritiesOnlyRise | trun/scheduler.py:740 | no priority is lowered, the step itself gets the larger of the two, and nothing else about any step changes |
| SchedulerPriority.EdgesInOrder | trun/scheduler.py:734-745 | if every edge that does not leave the step was in order, every edge is in order afterwards |
| SchedulerPriority.RaisedIsUpdated | trun/scheduler.py:741-745 | the steps that the recursion has visited are exactly those on paths of lower priorities |
| SchedulerPriority.BelowShrinks | trun/scheduler.py:743-745 | the number of steps below the new priority falls with every recursive call, also on cycles |
| UpstreamStatus.WorstNamesWorstEnd | trun/scheduler.py:43-57 | the recursive value is disabled exactly if some path of pending steps ends in a DISABLED step, failed exactly if none does and some path ends in a FAILED one, missing input if then one ends in a PENDING step without dependencies, running if then one ends in a running one, and clear otherwise |
| UpstreamStatus.UpstreamStatus | trun/scheduler.py:1256-1282 | the explicit stack ends on every graph; it raises a KeyError just for a step that is DONE and has no table entry; it keeps the table free of DONE steps; on acyclic graphs with UNKNOWN steps without dependencies it returns the recursive worst severity and leaves every table entry equal to it |
| UpstreamStatus.WorstBounds | trun/scheduler.py:1265-1280 | no path of waiting steps ends in anything worse than the recursive value |
| UpstreamStatus.WorstIsReached | trun/scheduler.py:1265-1280 | the recursive value is what some path of waiting steps ends in |
| StatusLaws.StatusIsSet | trun/scheduler.py:512-563 | on the fields: `set_status` leaves all as it is for a running step that is to be disabled and for a scheduler disable with another target than DONE or DISABLED; otherwise the step gets the target and what belongs to it, and if it stops as the head of a batch, exactly the running members get the same by their own records and lose their batch id |
| StatusLaws.FailureIsCounted | trun/scheduler.py:278-317 | a failure disables the step just if the first one is as old as the hard timeout or as many as the policy allows are left behind the old ones at the front of the queue; otherwise the step has failed and waits for the retry delay |
| StatusLaws.StatusCalls | trun/scheduler.py:752-776 | the calls that mark a step as done, forgive it or enable it again change exactly the steps with the statuses they are for; forgiving keeps the failures, enabling again drops them |
| PruneLaws.PruneIsExact | trun/scheduler.py:565-602 | on the fields and in every order of the steps: of the steps that keep their owner, exactly those with a due stamp are gone, and every other has the life that its old one, the clock and the delays say; lost workers are taken from its stakeholders and workers |
| PruneLaws.FailedIsRetried | trun/scheduler.py:589-591 | a failed step that is not to be removed is PENDING after `prune` exactly if the retry delay is not negative and its time has passed, and FAILED otherwise |
| PruneLaws.DisableExpires | trun/scheduler.py:584-587 | a step disabled by the scheduler has failed, with an empty queue, exactly if that was longer ago than a disable lasts; otherwise its life does not change |
| PruneLaws.UnwantedIsRemoved | trun/scheduler.py:577-602 | a step without stakeholders is stamped with the remove delay unless it has a stamp, and a step is gone exactly if its stamp is not zero and due |
| PruneLaws.OrphanFails | trun/scheduler.py:565-573 | a running step whose owner is lost, or neither stakeholder nor assistant, has failed by its own record, has no owner any more, and waits for the retry delay |
| PruneLaws.LostWorkersAreGone | trun/scheduler.py:701-708 | exactly the workers that were silent for longer than the disconnect delay are gone |
| ReportLaws.ReportSetsPlaces | trun/scheduler.py:893-919 | on the fields: reported dependencies replace the old ones and new ones are added, for known and new steps; the worker becomes a stakeholder and one of the workers, under the conditions of the source, the priority can only rise, and the policy is that of the report |
| ReportLaws.ReportDescribes | trun/scheduler.py:817-827 | family and parameters are filled in only where there are none, the demand is always that of the report |
| ReportLaws.ReportSetsStatus | trun/scheduler.py:829-870 | the status changes as `set_status` says exactly if the step does not run, its owner reports a start or an end, or there are new dependencies; otherwise only batch id, owner and stamp are updated |
| ReportLaws.ReportReachesOthers | trun/scheduler.py:902-909 | another step changes only as a dependency that gets the worker as stakeholder, by a higher priority, or as a member of a batch whose head ends; dependencies that were not known are added as UNKNOWN steps without anything |
| ReportLaws.ReportFailsJust | trun/scheduler.py:829-836 | the call raises an exception just if it starts an unowned step in a batch without members or with a first member without running resources |
| ReportLaws.TurnedAwayChangesNothing | trun/scheduler.py:808-815 | a report of a disabled worker about a step that does not run, and a PENDING report about a step that was done just now, change no step |
| GrantLaws.GrantByTheRules | trun/scheduler.py:1144-1212 | on the fields: for some order of the open steps by falling priority and rising time, the reply is the first step that is pending with all dependencies done, may run on the worker, and fits beside what is used and beside what the steps before it have set aside on the first worker with a free process; or the batch behind it |
| GrantLaws.UndemandingGrantIsHighest | trun/scheduler.py:1035-1051 | a worker whose pending steps demand nothing gets, of all pending steps it may run whose dependencies are done, one of the highest priority and of those the oldest; it gets none only if there is none |
| GrantLaws.OutrankingWereBlocked | trun/scheduler.py:1164-1186 | every scanned step with a higher priority, or the same for longer, was not pending, waited for a dependency, was not for the worker, or demanded more than fits beside the running steps or beside what was set aside before it |
| GrantLaws.ResentIsHighest | trun/scheduler.py:1137-1142 | if a step runs on the worker without its knowing, one with the highest priority, and of those the oldest, is handed out again, and nothing else |
| GrantLaws.CollectsFitting | trun/scheduler.py:1167-1176 | a batch is the best step followed by the first steps behind it in the scan that are ready, batchable, of the same family and demand, and equal in all parameters that are not batched, as many as the maximum allows |
| RemovedGrants.ChosenByTheRules | trun/scheduler.py:1144-1212 | the same rules for the choice among all steps that the worker sees, removed ones included |
| RemovedGrants.ChosenIsHighest | trun/scheduler.py:1035-1051 | a worker whose pending steps demand nothing gets the highest and oldest ready step that fits the totals, of all that it sees |
| RemovedGrants.SeenAre | trun/scheduler.py:1150-1158 | what the worker sees are the open active steps, only its own if its pending ones demand nothing, and then also the open removed steps it holds if it has fewer steps than are open |
| HandOutLaws.WorkIsHandedOut | trun/scheduler.py:1214-1248 | a disabled worker gets nothing; otherwise exactly the granted step, or the members of the granted batch, run on the worker and are charged with their demand, and no other step changes |
| HandOutLaws.BatchIsReady | trun/scheduler.py:1167-1200 | a batch has more than one and at most the maximal number of different members, is headed by a step with all batched parameters, and all its members are ready and fit it |
| HandOutLaws.BeforeTheScan | trun/scheduler.py:1114-1146 | before the scan the call has pruned if it is configured to, registered the worker, and put back exactly the members of batches that the worker has given up |
| DependencyLaws.StartsWhenReady | trun/scheduler.py:1044-1051 | whatever removed steps are in the way, `get_work` starts a pending step only if all its dependencies are present and DONE |
| DependencyLaws.TurnKeepsDeps | trun/scheduler.py:893-897 | no call takes a dependency from a step but a report that names a whole new set |
| DependencyLaws.NothingStartsEarly | trun/scheduler.py:893-1212 | in every run: once a report has named dependencies of a step, the step is not started before all of them are DONE, unless another report replaces them or the step is removed |
| DecreaseLaws.DecreaseGivesBack | trun/scheduler.py:1589-1603 | on the amounts: the running step and every member of its batch that is reached keeps, of each resource, the old amount less what was asked for, never below zero, and nothing is taken if nothing was asked for; without an exception all members are reached, and no other step changes |
| DecreaseLaws.UseFallsByReleased | trun/scheduler.py:1025-1033 | the use of each resource by all running steps falls by exactly what the running step has released |
| DecreaseLaws.UseAddsUp | trun/scheduler.py:1025-1033 | the use is the sum over the steps of their running resources, or of their demands where there are none |
| WorkerLaws.DisabledGetsNothing | trun/scheduler.py:1125-1132 | a disabled worker is handed out nothing, its reports count for running steps only, and it is among the workers of no step |
| WorkerLaws.DisabledStays | trun/scheduler.py:635-640 | a worker stays disabled through every call until it is forgotten for its silence |
| GraphTraversal.TraverseGraph | trun/scheduler.py:1327-1386 | each id is serialized once and at most as many as the limit; below the limit the result is exactly the reachable set; at the limit no omitted node is closer to the root than a returned one |
| GraphTraversal.ReachableByPath | trun/scheduler.py:1349-1378 | a node is reachable just if a path leads to it on which every step is known and has a family, and no step that is done is entered if those are to be left out; each is shown with exactly the targets of its edges |
| GraphTraversal.DoneIsNearest | trun/scheduler.py:1349-1386 | nodes still in the queue are no closer to the root than nodes already serialized |
| GraphTraversal.FoundByLevel | trun/scheduler.py:1376-1380 | every node within some distance has been found or lies behind the queue |
| OrderedSets.OrderedSet.constructor | trun/scheduler.py:158-163 | the empty ring |
| OrderedSets.OrderedSet.From | trun/scheduler.py:158-163 | the items in the order of their first occurrence |
| OrderedSets.OrderedSet.Len | trun/scheduler.py:165-166 | the number of keys |
| OrderedSets.OrderedSet.Contains | trun/scheduler.py:168-169 | membership |
| OrderedSets.OrderedSet.Add | trun/scheduler.py:171-175 | a new key goes to the end, and ring and map stay consistent |
| OrderedSets.OrderedSet.Discard | trun/scheduler.py:177-181 | exactly the key is unlinked, and the order of the others is kept |
| OrderedSets.OrderedSet.Unlink | trun/scheduler.py:179-181 | taking one node out leaves a doubly linked ring of the others |
| OrderedSets.OrderedSet.Peek | trun/scheduler.py:197-201 | the key at the asked end, or an error for the empty set |
| OrderedSets.OrderedSet.Pop | trun/scheduler.py:203-206 | that key is returned and removed |
| OrderedSets.OrderedSet.Iterate | trun/scheduler.py:183-188 | forward iteration ends with the sequence |
| OrderedSets.OrderedSet.IterateBackwards | trun/scheduler.py:190-195 | reverse iteration ends with its reverse |
| OrderedSets.OrderedSet.Run | trun/scheduler.py:151-206 | any run of calls refines the same run on a sequence without duplicates |
| OrderedSets.KeysInOrderOfBirth | trun/scheduler.py:151-206 | after any run the keys are distinct and stand in the order in which they were last added while absent |
| OrderedSets.EndIsExtreme | trun/scheduler.py:197-201 | `peek` finds the most recently or the least recently added key |
| OrderedSets.MemberIfAddedLast | trun/scheduler.py:171-181 | a key is in the set just if the last call about it added it |
| LockFreeQueue.LFQueue.GetNextToWriteTo | src/dblogger.cpp:51-53 | below the capacity the slot is none of those that wait to be read |
| LockFreeQueue.LFQueue.UpdateWriteIndex | src/dblogger.cpp:55-58 | what was written to the slot becomes the newest element |
| LockFreeQueue.LFQueue.GetNextToRead | src/dblogger.cpp:60-62 | the oldest element, or nothing for the empty queue |
| LockFreeQueue.LFQueue.UpdateReadIndex | src/dblogger.cpp:64-68 | the oldest element is given up, and the others stay in order |
| LockFreeQueue.EveryStateIsOk | src/dblogger.cpp:51-72 | the invariant of slots, indexes and counter holds after every interleaving of single accesses |
| LockFreeQueue.ReadsArePrefix | src/dblogger.cpp:51-72 | the values read are a prefix of the values written, and none is read half written |
| LockFreeQueue.AssertionHolds | src/dblogger.cpp:64-68 | the assertion never fails, and the counter stays within the capacity |
| LockFreeQueue.NothingIsOverwritten | src/dblogger.cpp:51-58 | no access of the producer touches an unread slot or the one being read |
| LockFreeQueue.CheckIsExact | src/dblogger.cpp:51-53 | the slot at the write index is free exactly if `size()` is below the capacity |
| LockFreeQueue.NothingIsLost | src/dblogger.cpp:51-72 | between operations, what was written is what was read followed by what is stored, in order |
| EditDistance.EditDistance | trun/step_register.py:182-197 | the two-row loop computes the recursive distance, and 0 for an empty first argument |
| EditDistance.FillRow | trun/step_register.py:188-195 | one round of the outer loop turns the row of a prefix into the row of the next prefix |
| EditDistance.IdentityIsEquality | trun/step_register.py:192 | the result is the Levenshtein distance if equal characters of the two strings are the same object |
| EditDistance.IdentityMatters | trun/step_register.py:192 | otherwise two equal one-character names are at distance 1 |
| EditDistance.LevenshteinJustForSharedObjects | trun/step_register.py:182-197 | on all pairs of names over a character set the result is the Levenshtein distance just where the first name is not empty or both are, exactly if the interpreter has one object for each character of the set |
| EditDistance.DistanceIsLeastCost | trun/step_register.py:183-184 | the Levenshtein distance is the least cost of any script of insertions, deletions and substitutions |
| EditDistance.Symmetry | trun/step_register.py:183-197 | the distance is symmetric |
| EditDistance.TriangleInequality | trun/step_register.py:183-197 | the distance satisfies the triangle inequality |
| EditDistance.AtMostTheLongerLength | trun/step_register.py:183-197 | the distance is at most the longer length |
| EditDistance.EditDistanceIsMetric | trun/step_register.py:182-197 | on names that are not empty and whose characters are shared objects, the computed distance is a metric and at most the longer length |
| AsOfJoins.CombineIndicators | src/main.cpp:7-49 | an exception just if some series has unequal lengths; otherwise one row per distinct timestamp in increasing order with the value of each series as of that time, and 0.0 before the first observation |
| AsOfJoins.CombineIndicatorsVector | src/main.cpp:132-185 | the same rows through sorting and binary search, with empty cells before the first observation |
| AsOfJoins.LowerBound | src/main.cpp:165 | the first position whose timestamp is not below the searched one |
| AsOfJoins.TimelineIsComplete | src/main.cpp:138-146 | sorting and removing equal neighbours leaves every timestamp of every series once, in increasing order |
| AsOfJoins.AsOfIsLatest | src/main.cpp:30-46 | the value as of a time is that of the latest observation up to it, the last one in the series among equal timestamps |
| AsOfJoins.JoinsAgree | src/main.cpp:7-185 | the two joins have the same rows and differ exactly in the cells before the first observation of a series |
| AsOfJoins.CombineIndicatorsGrid | src/example.cpp:50-76 | each grid point holds the value in front of the two pointers once they have passed the latest grid time so far; a negative 32-bit size is an error |
| AsOfJoins.PointerIsAsOf | src/example.cpp:67-71 | on a sorted series that value is the value as of the time reached |
| AsOfJoins.GridReachesEnd | src/example.cpp:54 | the grid has one point for every whole interval up to the end and one more; a number of points that is not an `int` is stored as a negative one, or as zero |
| AsOfJoins.GridPoint | src/example.cpp:65-72 | a point of a grid that fits holds, for a sorted series, the value of the last observation up to its time, and 0.0 before the first |
| AsOfJoins.GridIsAsOfJustIfItFits | src/example.cpp:54-72 | the grid is the as-of join of all sorted series exactly if it does not run past the largest 32-bit timestamp, as is the case whenever its start is not after its end |
| PendingReasons.PendingStepsArePartitioned | trun/execution_summary.py:75-99 | every step that was once pending is completed, failed or still pending, and only one of these |
| PendingReasons.PartitionIs | trun/execution_summary.py:75-99 | each set holds exactly the steps with the right entries in the history: completed were PENDING and DONE, failed were FAILED and not completed, still pending were neither, and they are searched or missing by how they were entered |
| PendingReasons.SetSteps.DepthFirstSearch | trun/execution_summary.py:118-146 | the search ends on every graph and notes exactly what its recursive definition says; what it notes as blocked is true on every graph, and it is complete for all steps searched if the graph has no cycle of pending steps |
| PendingReasons.SetSteps.PopulateUnknownStatuses | trun/execution_summary.py:109-116 | without a cycle of pending steps, the three upstream sets are exactly the steps that reach a reason through runnable pending steps, and `not_run` is exactly the rest that are not run by another worker and have no direct scheduling error |
| PendingReasons.CompleteJustIfClosed | trun/execution_summary.py:124-146 | on every graph, a set of true notes is complete exactly if one more round over the requirements would add nothing |
| ReasonsFirst.ExactIfReasonsComeFirst | trun/execution_summary.py:109-146 | on a graph with cycles the three upstream sets and `not_run` are exact too, if every step that leads to a reason has a requirement that is one, or that leads to one and does not lead back to the step or finds its own reason before it looks at any requirement that leads back to it |
| ReasonsFirst.SearchSettles | trun/execution_summary.py:118-146 | under that condition every search leaves the step, and all others that are not being searched, rightly noted |
| ReasonsFirst.AcyclicMeansReasonsFirst | trun/execution_summary.py:118-146 | a graph without a cycle of pending steps meets the condition |
| ReasonsFirst.HarmlessCycleIsReasonsFirst | trun/execution_summary.py:118-146 | a graph with a cycle that meets it |
| PendingReasons.CycleNotesTwice | trun/execution_summary.py:118-146 | two steps on a cycle, one of which is noted both as not run and as blocked by a failure |
| PendingReasons.CycleMissesReason | trun/execution_summary.py:118-146 | three steps on a cycle, one of which leads to a failure that is not noted |
| PendingReasons.CycleMayBeHarmless | trun/execution_summary.py:118-146 | a cycle on which every step is noted rightly, whichever step the search starts from |
| PendingReasons.LeadsToByOne | trun/execution_summary.py:128-139 | reaching a reason along a path is having a requirement that is one or that reaches one |
| ExplanationQueue.ExplQueue.Enqueue | trun/batch_notifier.py:40-44 | the queue stays the tail of the distinct items of its history |
| ExplanationQueue.QueueHoldsTheMostRecent | trun/batch_notifier.py:35-44 | after any history a queue of size k holds the last min(k, number of distinct items) distinct items by last occurrence; for a size of zero or less it is empty |
| ExplanationQueue.OrderIsUnique | trun/batch_notifier.py:40-44 | there is only one order of the distinct items by last occurrence |
| TimeDelta.RoundTrip | trun/parameter.py:847-877 | parsing the text of a duration gives the duration back exactly if it is not negative and has no fraction of a second |
| TimeDelta.ParseOfSerialize | trun/parameter.py:847-877 | what comes back in the other cases: fractions are lost, and negative durations are rejected |
| TimeDelta.NegativeIsRejected | trun/parameter.py:840-866 | no branch accepts the text of a negative duration |
| TimeDelta.NumberOfPrint | trun/parameter.py:822-823 | printing and reading of numbers are inverse |
| TimeDelta.ReadsPrinted | trun/parameter.py:840-845 | the simple branch reads the five fields back and combines them |
| TimeDelta.FieldsMean | trun/parameter.py:814-827 | the fields of a text are read as a duration of as many seconds, with 604800 for a week, 86400 for a day, 3600 for an hour and 60 for a minute; only too many days are an error |
| TimeDelta.PrintedMeans | trun/parameter.py:868-877 | the printed fields have as many seconds as the duration, with less than 7 days, 24 hours, 60 minutes and 60 seconds |
| TimeDelta.IsoIsRead | trun/parameter.py:829-838 | the ISO 8601 text with days, hours, minutes and seconds (section 4.4.3.2 of ISO 8601:2004) is read as its fields, but the zero duration in this form is rejected |

## Left out

- HTTP and RPC, the database history, pickling, e-mail, logging and metrics have no effect on the modelled state.
- Step fields without an effect on the properties are not modelled: explanations, tracking URL, status message, progress, module, visibility of parameters, messages; and neither are the counts and texts in replies.
- The clock is read once per call; the source reads it several times during one call.
- Batch ids are the joined step ids themselves, so the MD5 digest is taken to be injective; the empty sequence stands for the empty text.
- The scheduler configuration is fixed during a run.
- Python's limit on the depth of recursion is not modelled.
- The workers of a step are a sequence without duplicates in the step's record; `OrderedSets` proves that the linked ring behaves like this sequence, with the same functions, but the scheduler objects do not hold the ring itself.
- CentralScheduler.Scheduler.Run: after a call that takes another step out of the index, the run ends; what the source does with the damaged index is not modelled.  After the other exceptions the run goes on.
- WorkSearch.FindBest: the source goes on with the same loop to collect a batch and ignores the loop after a re-sent step; here the search for the best step, the collection of the batch and the re-sent step are three parts.
- CentralScheduler.Scheduler.CountRunning: the counts and the list of running steps in the reply are left out; if an exception ends the loop, the owners that have been made active are some of those it can reach.
- CentralScheduler.Scheduler.LookUpStatus: whether an id is skipped is bounded from above (disabled, or waiting for dependencies); its exact value on acyclic graphs is the subject of `UpstreamStatus`.
- UpstreamStatus.UpstreamStatus: the recursive value is stated for acyclic graphs in which steps of status UNKNOWN have no dependencies, which is how placeholders are created.
- PruneLaws.PruneIsExact: it speaks of steps that keep their owner and whose head does; `OrphanFails` has the steps that lose their owner, and `SchedulerBatches` the members of a batch whose head loses it.
- SchedulerResources.ResourcesStayWithinTotals: batching and re-sent RUNNING steps are excluded, because BATCH_RUNNING steps are not counted as users of resources and a re-sent step is started without a check; so are reports of the status RUNNING, and demands and totals are not negative.  The same holds of `SystemStaysWithinTotals`.
- SchedulerProgress.EveryStepIsRun: nobody but the worker calls the scheduler.
- FailureWindow.CountIsExact: the length of the window is fixed during the run; a report can change it in the source.  The same holds of the other theorems of the module.
- SchedulerProgress.TurnMakesProgress: it speaks of the model without removed steps, like the other theorems of the module; `UndisturbedIsEvent` and `QuietRunsAreRuns` say which calls and runs of the objects that covers.
- LockFreeQueue.ReadsArePrefix: accesses are sequentially consistent, as the default order of the atomics is; the stores to the slots are modelled as two accesses, of which the first leaves the slot without a value.
- EditDistance.EditDistance: the relation "is the same object" is a parameter that implies equality.
- AsOfJoins.CombineIndicatorsVector: series with more timestamps than values are undefined behaviour in the source and are excluded.
- AsOfJoins.CombineIndicatorsGrid: the rows are filled one after the other, where the source fills them in parallel; a grid interval of zero is undefined behaviour and is excluded; doubles are real numbers.
- PendingReasons.SetSteps.PopulateUnknownStatuses: the requirements of a step are a fixed finite graph.
- ExplanationQueue.ExplQueue.Enqueue: the time stamps stored with the items are never read and are left out.
- TimeDelta.RoundTrip: the parser of floating point numbers is a parameter that accepts no text with the letter w; digits are ASCII digits.
- `combineIndicatorsSample`, `sampleIndicators`, the trading engine, the configuration loaders, command lines, targets and formats are not modelled.
- Worker processes, signals and result queues are left out; of `Worker.run` only the order of requests and reports is modelled.
