# Enterprise orchestrator: verified model

Dafny model of the hard core of the enterprise orchestrator, with proofs.

The orchestrator turns a request into a plan of dependent tasks, dispatches ready tasks to workers one at a
time, has a critic judge each result, pauses for a human where the critic asks for one, and runs many such
workflows side by side on a bounded worker pool with idempotent submission.

- `PlanGraph`, `PlanChecks`, `Lists`: plans as dependency graphs, and the two cycle checks (planner and evaluation
  scorer) as loops over degree tables, proved against "there is a rank".
- `Workflow` and the files that start with it: the supervisor graph as a state machine. `Workflow` gives each node,
  the routers and the edges on values; planner, workers, critic and human answer anything they are allowed to.
  `WorkflowVisits` says what every node does in terms of its input, `WorkflowSafety` and `WorkflowRuns` hold the
  invariant and deadlock freedom, `WorkflowStuck` and `WorkflowDeadlock` the plans and decisions that break it,
  `WorkflowOrder` completion order and retry budgets, `WorkflowReversal` the decisions that take COMPLETED back,
  `WorkflowBound` termination and `WorkflowLongest` the longest runs, `WorkflowCompletion` what COMPLETED means,
  `WorkflowObjects` the same machine as objects whose fields change in place.
- `Pool` and the files that start with it: the execution backend (queue, workers, store, futures) with the
  idempotency ledger. One step is the code between two real suspension points. `PoolSafety` and `PoolSteps` hold the
  invariant, `PoolProgress` what never goes back, `PoolOutcomes` what every call answers and leaves behind,
  `PoolPromises`, `PoolLedger` and `PoolSharing` the results for callers who keep to the rules, `PoolRuns`,
  `PoolCancellation` and `PoolTerminal` the results against callers who keep to none, `PoolExamples` runs that show the
  limits, `PoolObjects` the futures, the ledger and the backend as objects.
- `RateLimiter`, `Chunker`, `ProviderRouter`, `EventBroadcast`: four loops, each proved against a plain reference.

`dafny verify dfyconfig.toml` checks everything.

What the proofs assume about the surroundings: state stores and event publishers do not raise and do not suspend;
a cancelled runtime call ends in its cancellation; a waiting worker that is cancelled ends without taking a
termination signal; nobody who awaits a future is cancelled while waiting, which would cancel the future for all who
share it (`OrchestrationService.create_and_run` and `submit_human_decision` await it directly). The pool invariant
further rests on callers who submit new runs under new ids and resume a run only while no item of it is in the pool:
`PoolSteps.SubmitKeepsIff` and `PoolSteps.ResumeKeepsIff` are exact about every other call. What cancellation and
terminal states promise without these rules has its exact condition in `PoolCancellation.NotStartedIff`,
`PoolCancellation.StoredCancelledInTheEndIff` and `PoolTerminal.TerminalStaysIff`, each for every state that any calls
whatever can reach; `PoolCancellation.CancellationIsFinalIff` is for calls of any kind after a state that callers who
kept to the rules have reached. All of them are about what happens before a new submission under the run's own id.

Where the code does less than its documentation says, the code is modelled and the exact condition is proved:

- A decision is not checked against the open request, and a MODIFIED decision without payload strands its task:
  `WorkflowDeadlock.DecisionDeadlocksIff` says which decisions can end in a deadlock, `WorkflowRuns.ResumeKeepsIffSound`
  which keep the invariant; `WorkflowRuns.EmptyModificationIsPossible` and `WorkflowRuns.WrongApprovalIsPossible` are
  runs that show it.
- A rejection, or a modification with a payload, that names an earlier request takes COMPLETED back from its task
  (`WorkflowReversal.DecisionRevertsIff`, `WorkflowReversal.CompletedIsTakenBack`).
- A ready SYNTHESIS task ends a run with other tasks undone (`WorkflowCompletion.CompletedMeansAllDoneIff`).
- Cancellation is not final for a run in a resumed segment while another worker is there: it can be resumed and
  started again before its cancelled call is back (`PoolCancellation.CancellationIsFinalIff`,
  `PoolExamples.CancelledRunIsStartedAgain`).
- Nothing stops a second resume while the first item of the run is outstanding. Then COMPLETED can be undone
  (`PoolTerminal.TerminalStaysIff`, `PoolExamples.CompletedRunIsUndone`), and a cancelled run can end COMPLETED
  (`PoolCancellation.StoredCancelledInTheEndIff`, `PoolExamples.CancelledRunCompletes`).
- A key claimed by a submission the full queue refuses is never released, although the ledger promises that
  identical submissions wait on an in-flight future (`PoolPromises.RefusedKeyNeverSettles`,
  `PoolExamples.ClaimIsRefused`).
- Shutdown returns only if the queue takes enough termination signals (`PoolPromises.ShutdownReturnsIff`,
  `PoolExamples.WorkerIsStarved`).
- The rate limiter takes a window per call and forgets what a later window that starts earlier would need
  (`RateLimiter.DecidesAsHistoryIff`, `RateLimiter.WindowChangeHarmlessIff`, `RateLimiter.GrowingWindowForgets`).

## Model

| member | source | states |
|---|---|---|
| `PlanChecks.ValidatePlanDag` | src/enterprise_orchestrator/agents/planner.py:56-120 | accepts exactly the non-empty lists with distinct ids, existing references and a rank that puts every dependency strictly below its dependent; each error code has its exact condition, and the reference fault reported is the first one in plan order |
| `PlanChecks.CheckReferences` | src/enterprise_orchestrator/agents/planner.py:79-93 | reports nothing exactly when no task depends on itself or on an unknown id, and otherwise the first fault |
| `PlanChecks.PeelLayers` | src/enterprise_orchestrator/agents/planner.py:104-113 | the popping loop pops each id at most once, only ids of the plan, and visits all of them exactly when the edges admit a rank, repeated dependency entries included |
| `PlanChecks.BuildTables` | src/enterprise_orchestrator/agents/planner.py:95-102 | the degree table counts the dependency entries of each id and the waiting lists hold one entry for each of them |
| `PlanChecks.BuildScorerTables` | src/enterprise_orchestrator/evaluation/scorers/planning.py:49-60 | the same for a list with repeated ids, whose tasks share an entry; unknown references are reported in order instead of counted |
| `PlanChecks.ScoreFeasibility` | src/enterprise_orchestrator/evaluation/scorers/planning.py:49-74 | on any non-empty list, acyclic means distinct ids and a rank for the known dependencies; the invalid list is exactly the unknown references |
| `PlanChecks.NoUnknownReferences` | src/enterprise_orchestrator/evaluation/scorers/planning.py:54-57 | nothing is reported exactly when every dependency names a task of the plan |
| `PlanChecks.UnknownInOrder` | src/enterprise_orchestrator/evaluation/scorers/planning.py:54-57 | of one task's dependencies, each unknown one is reported as often as it stands there, in order |
| `PlanChecks.ReportedInOrder` | src/enterprise_orchestrator/evaluation/scorers/planning.py:53-57 | and so for one task after the other in plan order |
| `PlanChecks.ChecksAgree` | src/enterprise_orchestrator/evaluation/scorers/planning.py:49-74 | on every list the planner's check accepts exactly when the list is non-empty and the scorer finds it acyclic with known dependencies; both mean a valid dependency graph |
| `PlanChecks.PassesIff` | src/enterprise_orchestrator/evaluation/scorers/planning.py:73-91 | the scorer's verdict with its threshold: passed exactly if acyclic, dependencies known, and not a COMPLETED run with less than a quarter of its tasks done |
| `PlanChecks.ScoreIsShared` | src/enterprise_orchestrator/evaluation/scorers/planning.py:73-89 | the score lies between 0 and 1; 1 exactly for a feasible plan whose COMPLETED run has done everything, or whose other run has something alive; a fault costs a third, nothing alive a sixth, an unfinished COMPLETED run its undone part of a third |
| `Workflow.ReadyTasksExact` | src/enterprise_orchestrator/core/task.py:68-76 | the ready list holds exactly the pending tasks whose dependencies are all COMPLETED, in plan order |
| `WorkflowSafety.SomeTaskIsReady` | src/enterprise_orchestrator/core/task.py:68-76 | in a plan with a rank, if nothing failed and nothing is in progress, the lowest unfinished task is ready |
| `WorkflowSafety.SupervisorChoice` | src/enterprise_orchestrator/orchestration/nodes.py:60-107 | in every reachable state with a plan and nothing pending, the first ready task is dispatched to the node of its kind, or everything is done, or a task failed: the deadlock branch is never needed |
| `WorkflowSafety.ValidatorKeeps` | src/enterprise_orchestrator/orchestration/nodes.py:313-419 | whatever the critic answers, including for a task the worker failed, the run invariant survives the validator |
| `WorkflowSafety.GateKeepsIffSound` | src/enterprise_orchestrator/orchestration/nodes.py:426-523 | the human gate keeps the run invariant exactly for sound decisions: APPROVED and REJECTED that name the open request, MODIFIED that names it and has a payload or a task the worker had failed, and answers that leave the gate waiting unharmed |
| `WorkflowVisits.FirstReadyGoesToItsNode` | src/enterprise_orchestrator/orchestration/nodes.py:78-95 | the first ready task becomes the current one and goes to the retrieval node exactly if it is a RETRIEVAL task, to the planner if PLANNING, to synthesis if SYNTHESIS, and to the tool node if TOOL_EXECUTION, VALIDATION or CUSTOM |
| `WorkflowVisits.SupervisorGoes` | src/enterprise_orchestrator/orchestration/nodes.py:60-107 | with no ready task the gate is visited exactly for a decision or an open question, the planner exactly without a plan, synthesis exactly for a finished plan, the failed node exactly otherwise, with the deadlock error exactly if nothing failed; nothing else changes |
| `WorkflowVisits.NodesMeetTheirKinds` | src/enterprise_orchestrator/orchestration/runtime.py:104-127 | in every run a RETRIEVAL task is at the retrieval node, a PLANNING one at a planner that has a plan, a SYNTHESIS one or a finished plan at synthesis, and a task of another kind at the tool node |
| `WorkflowVisits.PlannerInstalls` | src/enterprise_orchestrator/orchestration/nodes.py:109-178 | a valid plan is installed with every task PENDING, no retry used and three allowed; any other answer fails the run and keeps the plan |
| `WorkflowVisits.WorkerMarks` | src/enterprise_orchestrator/orchestration/nodes.py:180-311 | a worker changes its own task to IN_PROGRESS or FAILED, records an error exactly when it fails, and goes to the validator |
| `WorkflowVisits.TaskIsMissing` | src/enterprise_orchestrator/orchestration/nodes.py:182-190 | a worker whose task is not in the plan fails the run, a critic without one hands back to the supervisor |
| `WorkflowVisits.CriticDecides` | src/enterprise_orchestrator/orchestration/nodes.py:337-414 | for any answer of the critic, from its fields: PAUSED exactly if it escalates or requires a human, else COMPLETED exactly if VALID or successful and valid, else one retry charged exactly if NEEDS_RETRY or flagged, PENDING exactly while the budget lasts, else FAILED at the old retry count |
| `WorkflowVisits.CriticTouchesNothingElse` | src/enterprise_orchestrator/orchestration/nodes.py:337-414 | the request it opens, the exhausted-budget error and the next node exactly; every other task, request and error stays |
| `WorkflowVisits.DecisionIsRecorded` | src/enterprise_orchestrator/core/state.py:116-121 | for any state and decision, after the gate: the first request with the decision's id has exactly the decision's status and keeps its id and task; no other request changes, and an unknown id changes none |
| `WorkflowVisits.RecordingSettlesTheRun` | src/enterprise_orchestrator/core/state.py:123-128 | recording by itself requires a human exactly while some request is open, and sets RUNNING exactly when none is |
| `WorkflowVisits.GateActsOnItsTask` | src/enterprise_orchestrator/orchestration/nodes.py:432-503 | a decision completes, fails, or sends back with its payload merged in exactly the task the gate acts on - the current one, or else the one the first request with the decision's id asks about - and no other |
| `WorkflowVisits.DecisionGoes` | src/enterprise_orchestrator/orchestration/nodes.py:440-523 | APPROVED and MODIFIED go on RUNNING with nothing required, REJECTED fails the run with one error, any other answer stops it PAUSED |
| `WorkflowVisits.GateWaits` | src/enterprise_orchestrator/orchestration/nodes.py:521-523 | without a decision the gate stops the run PAUSED and changes nothing else |
| `WorkflowVisits.SynthesisCompletes` | src/enterprise_orchestrator/orchestration/nodes.py:525-541 | exactly the SYNTHESIS tasks and the run become COMPLETED |
| `WorkflowVisits.FailureIsFinal` | src/enterprise_orchestrator/orchestration/nodes.py:543-548 | the failed node ends the run FAILED, with one more error exactly if it had not failed before |
| `WorkflowRuns.RunsKeep` | src/enterprise_orchestrator/orchestration/runtime.py:84-171 | the invariant holds after every run of node visits, pauses and sound resumes |
| `WorkflowRuns.DeadlockUnreachable` | src/enterprise_orchestrator/orchestration/nodes.py:98-107 | the dependency-deadlock branch is taken in no run, across retries, replans, pauses and resumes |
| `WorkflowRuns.UnfinishedMeansReady` | src/enterprise_orchestrator/orchestration/nodes.py:78-107 | at the supervisor, with no decision to apply, no failed task and some unfinished task, some task is ready |
| `WorkflowRuns.WorkersRunReadyTasks` | src/enterprise_orchestrator/orchestration/nodes.py:180-190 | a worker is visited only for a pending task of the plan whose dependencies are all COMPLETED |
| `WorkflowRuns.SegmentsEndAtTheGate` | src/enterprise_orchestrator/core/state.py:95-129 | every segment ends COMPLETED, FAILED or PAUSED; it is paused exactly when a human is required, exactly when one request is pending; that one is the last in the list, names an uncompleted task of the plan, and is what the service shows |
| `WorkflowRuns.ResumeKeepsIffSound` | src/enterprise_orchestrator/orchestration/nodes.py:432-523 | for any stopped run and any decision at all, the invariant holds again after the gate exactly if the decision is sound |
| `WorkflowRuns.StrandedTaskDeadlocks` | src/enterprise_orchestrator/orchestration/nodes.py:98-107 | with a task stranded in progress and nothing else to do, the supervisor reports a deadlock |
| `WorkflowRuns.EmptyModificationDeadlocks` | src/enterprise_orchestrator/orchestration/nodes.py:469-475 | a modification without a payload leaves its task in progress and the run ends in the deadlock branch |
| `WorkflowRuns.EmptyModificationIsPossible` | src/enterprise_orchestrator/orchestration/nodes.py:469-475 | a concrete run from the start that reaches such a decision and the deadlock error |
| `WorkflowRuns.WrongApprovalIsPossible` | src/enterprise_orchestrator/orchestration/nodes.py:432-467 | a concrete run from the start in which an approval naming another request leaves the open request pending and its task in progress, and ends in the deadlock error |
| `WorkflowDeadlock.DecisionDeadlocksIff` | src/enterprise_orchestrator/orchestration/nodes.py:440-494 | for a waiting run and any decision at all: some continuation of the resumed segment reports a dependency deadlock exactly when the decision approves or modifies and leaves a stuck plan |
| `WorkflowStuck.DeadlockAheadIff` | src/enterprise_orchestrator/orchestration/nodes.py:78-107 | for any valid plan in any mix of PENDING, IN_PROGRESS, COMPLETED and FAILED tasks: the supervisor runs into the deadlock branch, if every worker succeeds and everything is accepted, exactly if the plan is stuck - nothing failed, some task is in progress, and every pending SYNTHESIS or PLANNING task depends on such a task, directly or through other pending tasks |
| `WorkflowStuck.StuckByDependence` | src/enterprise_orchestrator/orchestration/nodes.py:78-107 | where every task that is not pending has its dependencies completed, stuck means: nothing failed, some task is in progress, and every SYNTHESIS or PLANNING task transitively depends on one in progress |
| `WorkflowOrder.MoveChange` | src/enterprise_orchestrator/orchestration/nodes.py:180-523 | a visit that keeps the plan changes at most one task of it, and starts a worker only on a ready one |
| `WorkflowOrder.CompletionIsLinearExtension` | src/enterprise_orchestrator/orchestration/nodes.py:369-414 | over every run whose decisions are sound the order in which tasks other than SYNTHESIS become COMPLETED is a linear extension of the dependencies, lists exactly the completed ones, and COMPLETED never reverts |
| `WorkflowReversal.DecisionRevertsIff` | src/enterprise_orchestrator/orchestration/nodes.py:432-503 | for a waiting run and any decision at all: COMPLETED is taken back from a task exactly when the decision rejects, or modifies with a payload, a request whose task is COMPLETED |
| `WorkflowReversal.CompletedIsTakenBack` | src/enterprise_orchestrator/orchestration/nodes.py:469-475 | a concrete run from the start: one task is escalated and approved, a second one escalated, and a modification that names the first request makes the first, COMPLETED task PENDING |
| `WorkflowOrder.RetryBudget` | src/enterprise_orchestrator/orchestration/nodes.py:388-414 | over every run whose decisions are sound, for max_retries >= 1: retry_count never exceeds max_retries, is below it while the task is pending or in progress, and a task is dispatched at most max_retries times plus once per MODIFIED decision on it |
| `WorkflowBound.VisitSpends` | src/enterprise_orchestrator/orchestration/nodes.py:388-414 | every node visit lowers the number of visits that can still come, except the one that fixes the plan |
| `WorkflowBound.SegmentBound` | src/enterprise_orchestrator/orchestration/runtime.py:232-235 | without PLANNING tasks a new run, or a run with a plan that is resumed with any decision whatever, visits at most 4 + 3 * (sum of max(1, max_retries)) nodes before it ends |
| `WorkflowBound.FreshRunBound` | src/enterprise_orchestrator/orchestration/runtime.py:47 | with the default of three retries a run over n tasks makes at most 4 + 9n visits, so at most 49 for five tasks |
| `WorkflowLongest.LongestRun` | src/enterprise_orchestrator/orchestration/nodes.py:388-414 | for every n >= 1 a fresh run over n tasks makes exactly 4 + 9n visits: each task is retried twice and then accepted |
| `WorkflowLongest.LimitCoversIff` | src/enterprise_orchestrator/orchestration/runtime.py:230-235 | a limit on visits covers all fresh runs over n tasks exactly if it is at least 4 + 9n, so the default of 50 covers them exactly for n <= 5 |
| `WorkflowCompletion.ConcludedCovers` | src/enterprise_orchestrator/orchestration/nodes.py:525-541 | a COMPLETED run over a plan whose SYNTHESIS tasks depend on all other work has completed every task, by induction along dependency chains |
| `WorkflowCompletion.CompletedMeansAllDoneIff` | src/enterprise_orchestrator/orchestration/nodes.py:89-100 | for every valid plan without PLANNING tasks: all runs that end COMPLETED have completed every task exactly when each SYNTHESIS task transitively depends on every other kind of task; otherwise a run that leaves one undone is constructed |
| `WorkflowObjects.WorkflowRun.GetTask` | src/enterprise_orchestrator/core/task.py:61-66 | finds the first task with the id, or nobody |
| `WorkflowObjects.WorkflowRun.GetReadyTasks` | src/enterprise_orchestrator/core/task.py:68-76 | returns the task objects at the positions of the ready list, in plan order |
| `WorkflowObjects.WorkflowRun.SupervisorNode` | src/enterprise_orchestrator/orchestration/nodes.py:60-107 | changes the run object exactly as the value-level supervisor step |
| `WorkflowObjects.WorkflowRun.PlannerNode` | src/enterprise_orchestrator/orchestration/nodes.py:109-178 | installs new task objects for an accepted plan or fails the run, exactly as the value-level step |
| `WorkflowObjects.WorkflowRun.WorkerNode` | src/enterprise_orchestrator/orchestration/nodes.py:180-311 | marks the current task object in progress or failed in place, exactly as the value-level step |
| `WorkflowObjects.WorkflowRun.ValidatorNode` | src/enterprise_orchestrator/orchestration/nodes.py:313-419 | completes, charges a retry to, fails or escalates the current task object, exactly as the value-level step |
| `WorkflowObjects.WorkflowRun.ApplyHumanDecision` | src/enterprise_orchestrator/core/state.py:116-129 | resolves the first request with the decision's id and recomputes whether a human is required |
| `WorkflowObjects.WorkflowRun.HumanGateNode` | src/enterprise_orchestrator/orchestration/nodes.py:426-523 | records and applies a decision to the task object, or pauses, exactly as the value-level step |
| `WorkflowObjects.WorkflowRun.SynthesisNode` | src/enterprise_orchestrator/orchestration/nodes.py:525-541 | completes all SYNTHESIS task objects and the run, and no other task |
| `WorkflowObjects.WorkflowRun.Superstep` | src/enterprise_orchestrator/orchestration/runtime.py:98-171 | one visit and the edge behind it is one step of the value-level machine |
| `WorkflowObjects.WorkflowRun.Invoke` | src/enterprise_orchestrator/orchestration/runtime.py:230-248 | the driving loop ends within the step limit exactly when the segment is that short, then stands where the value-level run stands, and always ends when the limit covers the visit bound |
| `PoolSafety.LeavingKeepsCore` | src/enterprise_orchestrator/execution/local_async.py:194-235 | an item that leaves settles its future and its key and disturbs no other item, key or run |
| `PoolSafety.TakeKeeps` | src/enterprise_orchestrator/execution/local_async.py:119-145 | taking an item keeps the pool invariant, whether the item is finalized unrun or started |
| `PoolSafety.FinishKeeps` | src/enterprise_orchestrator/execution/local_async.py:194-240 | so does a runtime call that returns or raises |
| `PoolSafety.DeliverKeeps` | src/enterprise_orchestrator/execution/local_async.py:224-225 | so does a call that ends in its cancellation |
| `PoolSafety.AdmitKeeps` | src/enterprise_orchestrator/execution/local_async.py:334-374 | so does a new item of a run that has none in the pool |
| `PoolOutcomes.SubmissionAnswer` | src/enterprise_orchestrator/execution/local_async.py:292-332 | the exact condition of each answer to a submission - shutdown, conflict, join, full queue, admission - and the future it names |
| `PoolOutcomes.SubmissionAdmittedLeaves` | src/enterprise_orchestrator/execution/local_async.py:334-374 | an admitted submission leaves a new open future, the run stored IDLE, a QUEUED job, the item behind all others and an open record for its key; no other run, future or record changes |
| `PoolOutcomes.SubmissionRefusedLeaves` | src/enterprise_orchestrator/execution/local_async.py:304-332 | a keyed submission the full queue refuses leaves a record with a future of its own, and nothing else |
| `PoolOutcomes.JoinLeaves` | src/enterprise_orchestrator/execution/local_async.py:309-322 | a join changes no record, run or job; of a completed key the future has the cached result |
| `PoolOutcomes.ResumeAnswer` | src/enterprise_orchestrator/execution/local_async.py:382-422 | the exact condition of each answer to a resume, and that a refused one changes nothing |
| `PoolOutcomes.ResumeAdmittedLeaves` | src/enterprise_orchestrator/execution/local_async.py:424-451 | an admitted resume leaves a new open future, a QUEUED job without a cancellation mark and the item behind all others; the stored run stays |
| `PoolOutcomes.ItemIsStarted` | src/enterprise_orchestrator/execution/local_async.py:133-166 | a started item: the job is RUNNING, a resumed run is stored RUNNING, the run is active at this worker, and every future and record stays |
| `PoolSteps.JoiningChangesNothing` | src/enterprise_orchestrator/execution/local_async.py:301-322 | a submission that is refused by shutdown, conflicts, joins a claimed key, or has no key and meets a full queue changes nothing: a cached result is already in its future |
| `PoolSteps.RefusalKeeps` | src/enterprise_orchestrator/execution/local_async.py:324-332 | a keyed submission the full queue turns away keeps the invariant and leaves its claim |
| `PoolSteps.SubmitKeepsIff` | src/enterprise_orchestrator/execution/local_async.py:282-374 | any submission at all keeps the invariant exactly when it is not admitted or its run id is neither in the pool nor cancelled |
| `PoolSteps.ResumeKeepsIff` | src/enterprise_orchestrator/execution/local_async.py:376-451 | any resume at all keeps the invariant exactly when it is not admitted or no item of the run is in the pool |
| `PoolSteps.CancelKeeps` | src/enterprise_orchestrator/execution/local_async.py:453-490 | cancelling anything at any time keeps the invariant |
| `PoolSteps.DrainKeeps` | src/enterprise_orchestrator/execution/local_async.py:502-511 | draining finalizes every waiting item and empties the queue |
| `PoolSteps.RunsKeep` | src/enterprise_orchestrator/execution/local_async.py:115-240 | the invariant holds after any interleaving of submissions, resumes, cancellations, worker steps and shutdown |
| `PoolProgress.RunsAdvance` | src/enterprise_orchestrator/execution/local_async.py:115-280 | over any such run no settled future, finished item, terminal run, refused key or accepted cancellation is undone |
| `PoolPromises.Conservation` | src/enterprise_orchestrator/execution/local_async.py:93-240 | items put on the queue = items queued + active runs + items marked done; active runs never exceed the concurrency, the queue never its capacity |
| `PoolPromises.FirstComeFirstServed` | src/enterprise_orchestrator/execution/local_async.py:119 | the next item a worker gets was admitted before every other waiting one |
| `PoolPromises.SettledExactlyOnce` | src/enterprise_orchestrator/execution/local_async.py:194-235 | over any run, an item that has left has a settled future, and neither its place nor a settled value changes any more |
| `PoolPromises.OutcomeDelivered` | src/enterprise_orchestrator/execution/local_async.py:194-240 | what the runtime returned is in this item's future, in the store and cached under its key; what it raised is in the future and frees the key, with the store unchanged; no other future, run or key is touched |
| `PoolPromises.CancelAnswer` | src/enterprise_orchestrator/execution/local_async.py:453-490 | true exactly for a run that is active or stored in a status that is not terminal; false changes neither store nor futures |
| `PoolOutcomes.CancelWaiting` | src/enterprise_orchestrator/execution/local_async.py:467-490 | a cancellation that answered true for a run no worker is busy with: whoever awaits its open future gets exactly the stored state with status CANCELLED, the run is stored so and its job is CANCELLED; no other future, run, job or record changes |
| `PoolOutcomes.WaitingCallerGetsCancelled` | src/enterprise_orchestrator/execution/local_async.py:467-490 | in every state callers who keep to the rules reach, the future of a waiting run is open, so that caller gets the CANCELLED state |
| `PoolOutcomes.CancelBusy` | src/enterprise_orchestrator/execution/local_async.py:453-465 | a cancellation of an active run cancels the call of the worker that is busy with it and marks run and job; stored run and futures stay until the call is back |
| `PoolOutcomes.CancelRefused` | src/enterprise_orchestrator/execution/local_async.py:453-490 | a cancellation that answered false leaves its marks only |
| `PoolOutcomes.CancellationDelivered` | src/enterprise_orchestrator/execution/local_async.py:224-263 | a cancelled call that is back: this item's open future, the store and the record of its key hold the CANCELLED state, its job is CANCELLED, and no other future, run, job, record or worker changes |
| `PoolOutcomes.CancelledItemIsDropped` | src/enterprise_orchestrator/execution/local_async.py:130-136 | a waiting item of a cancelled run is finalized unrun with the same outcome, unless its caller has an answer already, and the worker goes on |
| `PoolOutcomes.ShutdownCancelsWaiting` | src/enterprise_orchestrator/execution/local_async.py:500-511 | when shutdown begins exactly the waiting runs are stored CANCELLED with CANCELLED jobs, every waiting caller without an answer gets that state, and no other run, job or future changes |
| `PoolOutcomes.ForcedStop` | src/enterprise_orchestrator/execution/local_async.py:518-533 | the forced stop cancels exactly the running calls, ends the resting workers, and sends the smaller of queue bound and worker count as signals |
| `PoolOutcomes.CompletingAKey` | src/enterprise_orchestrator/execution/idempotency.py:91-99 | the record of a key carries the result from then on and its open future gets it; no other record or future changes, and an unknown key changes nothing |
| `PoolOutcomes.FailingAKey` | src/enterprise_orchestrator/execution/idempotency.py:101-107 | the record of a key is gone and its open future gets the failure; no other record or future changes |
| `PoolRuns.AnyRunBasic` | src/enterprise_orchestrator/execution/local_async.py:115-280 | from a fresh pool and whatever its callers do, rules kept or not: what waits or runs is stored and has a job, whoever is entered as active for a run is busy with it, the queue keeps its capacity and is empty once shutdown has begun |
| `PoolCancellation.NotStartedIff` | src/enterprise_orchestrator/execution/local_async.py:119-145 | in every such state, while all calls that work on a run are being cancelled and with no submission under its id: the runtime is never started for the run exactly if the pool is closed, or no worker is free of the run, or no unmarked item of it waits and no resume of it can be admitted |
| `PoolCancellation.StoredCancelledInTheEndIff` | src/enterprise_orchestrator/execution/local_async.py:453-490 | after a cancellation that answered true in every such state, with no submission under the run's id afterwards: the run is stored CANCELLED whenever nobody works on it, exactly if every call that works on it is being cancelled and no free worker can get an item of it to run |
| `PoolCancellation.CancellationIsFinalIff` | src/enterprise_orchestrator/execution/local_async.py:453-490 | after a cancellation that answered true in a state that callers who kept to the rules have reached, and whatever follows but a submission under the run's id - resumes of it included: the runtime is never started for the run again, and the run is stored CANCELLED whenever nobody works on it, each exactly unless the run is in a resumed segment of a serving pool that has another worker |
| `PoolPromises.CancellationIsFinal` | src/enterprise_orchestrator/execution/local_async.py:453-490 | for every run, the ones in a resumed segment included: after a cancellation that answered true and while callers go on keeping to the rules, no worker starts the run again, and it is stored CANCELLED as soon as it is not active |
| `PoolCancellation.CancelledResumeAdmittedIff` | src/enterprise_orchestrator/execution/local_async.py:382-430 | where callers have kept to the rules so far, a resume of a cancelled run is admitted exactly while its stored state still requires a human and is not yet CANCELLED, that is only while the cancelled call has not come back, in a serving pool with room in the queue |
| `PoolTerminal.TerminalStaysIff` | src/enterprise_orchestrator/execution/local_async.py:376-451 | in every state callers of any kind can reach: a COMPLETED, FAILED or CANCELLED run stays stored as it is over all steps up to the next admitted submission under its id, exactly if it is settled - nobody works on a COMPLETED or FAILED run and no item of it waits; all calls that work on a CANCELLED one are being cancelled and no free worker can get an item of it |
| `PoolTerminal.SettledStaysIff` | src/enterprise_orchestrator/execution/local_async.py:282-451 | over any one sequence of steps a settled state stays exactly if no submission under the run's id is admitted on the way |
| `PoolTerminal.TerminalIsSettled` | src/enterprise_orchestrator/execution/local_async.py:376-451 | where callers have kept to the rules so far, every terminal state is settled |
| `PoolExamples.CompletedRunIsUndone` | src/enterprise_orchestrator/execution/local_async.py:376-451 | a concrete run from a fresh pool in which a paused run is resumed twice: the first item returns COMPLETED, and the second makes the stored run RUNNING again without any submission |
| `PoolExamples.CancelledRunCompletes` | src/enterprise_orchestrator/execution/local_async.py:453-490 | a concrete run in which both items of a run that was resumed twice are being worked on when shutdown begins: the cancellation answers true and reaches one of them, the other returns, and the run ends stored COMPLETED |
| `PoolExamples.CancelledRunIsStartedAgain` | src/enterprise_orchestrator/execution/local_async.py:424-451 | a concrete run from a fresh pool of two workers: the cancellation answers true, a resume is admitted all the same, and the second worker starts the run |
| `PoolPromises.SegmentResumableIff` | src/enterprise_orchestrator/execution/local_async.py:398-410 | what a finished workflow segment leaves in the store can be resumed exactly if the segment ended PAUSED |
| `PoolPromises.RefusalLeavesClaim` | src/enterprise_orchestrator/execution/local_async.py:304-332 | a keyed submission answered with a full queue has claimed its key for its payload |
| `PoolExamples.ClaimIsRefused` | src/enterprise_orchestrator/execution/local_async.py:304-332 | a concrete run that reaches such a claim in a serving pool: a queue of one, one submission, one more with a key |
| `PoolPromises.RefusedKeyNeverSettles` | src/enterprise_orchestrator/execution/local_async.py:304-332 | a claim left by the full queue stays open forever: every later request with that key and payload joins a future nobody settles |
| `PoolPromises.ShutdownSettlesEverything` | src/enterprise_orchestrator/execution/local_async.py:496-540 | when shutdown has begun and no worker is busy, every item ever admitted has left with a settled future, and only refused claims are still open |
| `PoolPromises.ShutdownReturnsIff` | src/enterprise_orchestrator/execution/local_async.py:524-535 | once all cancelled calls are back, all workers have ended exactly when no more workers overran the grace period than the queue takes termination signals; otherwise shutdown waits forever |
| `PoolExamples.WorkerIsStarved` | src/enterprise_orchestrator/execution/local_async.py:524-535 | a concrete run that leaves a worker waiting forever: two workers overrun the grace period with a queue of one |
| `PoolLedger.SingleFlight` | src/enterprise_orchestrator/execution/idempotency.py:63-107 | in any run of the backend, between two claims of a key the earlier one was released by a failure |
| `PoolLedger.OneLedgerCallPerItem` | src/enterprise_orchestrator/execution/local_async.py:194-280 | a keyed item makes no ledger call while in the pool and exactly one complete or fail in all once it has left; an item without a key makes none |
| `PoolLedger.OpenRecordHasOneItem` | src/enterprise_orchestrator/execution/idempotency.py:63-107 | an open record has exactly one item in the pool, the one that carries its future, unless its submission was refused by the full queue |
| `PoolSharing.JoinersShareTheResult` | src/enterprise_orchestrator/execution/idempotency.py:63-89 | after any run of the backend a submission with the payload of a completed key is given a future that holds exactly the state cached for that key, and changes nothing |
| `PoolObjects.IdempotencyLedger.AcquireOrJoin` | src/enterprise_orchestrator/execution/idempotency.py:63-89 | a new key gets a record with a new open future; a known one conflicts on another payload and otherwise is joined, with the cached result if completed |
| `PoolObjects.IdempotencyLedger.Complete` | src/enterprise_orchestrator/execution/idempotency.py:91-99 | marks an existing record completed with the result and settles its future if open |
| `PoolObjects.IdempotencyLedger.Fail` | src/enterprise_orchestrator/execution/idempotency.py:101-107 | removes an existing record and settles its future if open |
| `PoolObjects.LocalBackend.SubmitRun` | src/enterprise_orchestrator/execution/local_async.py:282-374 | changes the backend's fields exactly as the value-level submission, with the same answer |
| `PoolObjects.LocalBackend.SubmitResume` | src/enterprise_orchestrator/execution/local_async.py:376-451 | changes the fields exactly as the value-level resume, with the same answer |
| `PoolObjects.LocalBackend.CancelRun` | src/enterprise_orchestrator/execution/local_async.py:453-490 | changes the fields exactly as the value-level cancellation, with the same answer |
| `PoolObjects.LocalBackend.Take` | src/enterprise_orchestrator/execution/local_async.py:119-145 | one turn of the worker loop up to the runtime call |
| `PoolObjects.LocalBackend.Finish` | src/enterprise_orchestrator/execution/local_async.py:194-240 | the rest of the turn when the call returns or raises |
| `PoolObjects.LocalBackend.DeliverCancel` | src/enterprise_orchestrator/execution/local_async.py:224-240 | the rest of the turn when the call is cancelled |
| `PoolObjects.LocalBackend.FinalizeCancelled` | src/enterprise_orchestrator/execution/local_async.py:242-263 | stores CANCELLED, settles the future, and completes or releases the key |
| `PoolObjects.LocalBackend.BeginShutdown` | src/enterprise_orchestrator/execution/local_async.py:500-511 | the drain loop equals finalizing all waiting items in order |
| `PoolObjects.LocalBackend.ForceStop` | src/enterprise_orchestrator/execution/local_async.py:518-533 | sends as many termination signals as fit and cancels all workers |
| `PoolObjects.LocalBackend.Serve` | src/enterprise_orchestrator/execution/local_async.py:115-240 | any run of legal steps performed on the object keeps the pool invariant and ends where the value-level run ends |
| `RateLimiter.DecidesAsHistoryIff` | src/enterprise_orchestrator/security/rate_limiter.py:41-75 | every call with its own key, limit and window, on a clock that never goes back: for all limits and store sizes the limiter decides as the whole accepted history would, exactly when nothing a call may forget - its own key behind its window, another key behind two windows - lies in a window that a later call looks at |
| `RateLimiter.LimiterRefinesFullHistory` | src/enterprise_orchestrator/security/rate_limiter.py:41-75 | so every decision is the one of the whole history when windows never start earlier than the one before, one fixed window included |
| `RateLimiter.WindowChangeHarmlessIff` | src/enterprise_orchestrator/security/rate_limiter.py:58-61 | two successive calls of a key with different windows: after every harmless run the limiter still decides as the whole history would exactly when the second window does not start before the first |
| `RateLimiter.PruningHarmlessIff` | src/enterprise_orchestrator/security/rate_limiter.py:58-61 | pruning at one cutoff and looking behind another loses nothing of any list exactly when the second is not before the first |
| `RateLimiter.GrowingWindowForgets` | src/enterprise_orchestrator/security/rate_limiter.py:58-61 | the shown input: a short window between two long ones lets a third request pass that the whole history would refuse |
| `RateLimiter.EvictionLeaves` | src/enterprise_orchestrator/security/rate_limiter.py:51-56 | evicting a stale key takes no entry out of a later window that looks at nothing the eviction may forget |
| `RateLimiter.WindowsBoundedIffSpaced` | src/enterprise_orchestrator/security/rate_limiter.py:63-75 | a history has at most `limit` entries in every window exactly when each entry was accepted below the limit |
| `RateLimiter.NoWindowOverfull` | src/enterprise_orchestrator/security/rate_limiter.py:41-75 | a key that keeps its limit and window never has more requests accepted by the limiter in a window than the limit, provided only that no call for another key evicts what this key's window still needs; a limit below one accepts none |
| `RateLimiter.AcceptedAgainIff` | src/enterprise_orchestrator/security/rate_limiter.py:63-75 | with nothing accepted in between, a refused request is accepted exactly once the entry that blocks it has left the window, also for a key above its limit |
| `RateLimiter.RetryAfterIsExactIff` | src/enterprise_orchestrator/security/rate_limiter.py:63-68 | refused before now + retry_after and accepted from then on, exactly if that is when the blocking entry leaves; for a key at its limit retry_after is never too early, and exact unless the floor of a tenth of a second applies |
| `RateLimiter.RetryAfterIsNear` | src/enterprise_orchestrator/security/rate_limiter.py:65-67 | a refused caller is told at least a tenth of a second, never less than the time until the first entry of the window leaves, and more than that by less than a tenth of a second |
| `RateLimiter.RemainingIsWhatFits` | src/enterprise_orchestrator/security/rate_limiter.py:70-75 | an accepted caller is told how many more requests its window takes, and none exactly if the same request would be refused now |
| `RateLimiter.LimitBelowOne` | src/enterprise_orchestrator/security/rate_limiter.py:63-68 | a limit below one accepts nobody: refused with an entry in the window, and the lookup of the earliest entry fails without one |
| `RateLimiter.SlidingWindowLimiter.CheckRateLimit` | src/enterprise_orchestrator/security/rate_limiter.py:41-75 | updates the store in place and decides exactly as the value-level check, the empty-list lookup for limits below one included |
| `Chunker.MakeConfig` | src/enterprise_orchestrator/retrieval/chunking.py:41-49 | a configuration is accepted exactly if 0 <= overlap < size |
| `Chunker.WindowCount` | src/enterprise_orchestrator/retrieval/chunking.py:77-107 | a text of length n > size takes exactly ceil((n - size) / (size - overlap)) + 1 windows, a shorter one takes one; the last window reaches the end and neighbours share exactly `overlap` characters |
| `Chunker.WindowsRebuildText` | src/enterprise_orchestrator/retrieval/chunking.py:77-107 | the first window followed by every later one without its first `overlap` characters is the text |
| `Chunker.ChunksAreNumbered` | src/enterprise_orchestrator/retrieval/chunking.py:81-103 | chunks are numbered from 0 without gaps, carry document id and chunk id, and show the stripped text between start_char and end_char |
| `Chunker.NothingVisibleIsLost` | src/enterprise_orchestrator/retrieval/chunking.py:52-109 | every character of the document that is not white space is in some chunk, at the place start_char and the two stripped prefixes give |
| `Chunker.ChunkContentIsInDocument` | src/enterprise_orchestrator/retrieval/chunking.py:52-109 | the content of every chunk stands in the document at that place |
| `Chunker.HasChunksIff` | src/enterprise_orchestrator/retrieval/chunking.py:54-56 | a document has chunks exactly when something in it is not white space |
| `Chunker.ShortDocument` | src/enterprise_orchestrator/retrieval/chunking.py:58-75 | the short-document case is the general case for one window |
| `Chunker.ChunkIdInjective` | src/enterprise_orchestrator/retrieval/chunking.py:69 | equal chunk ids mean the same document id and the same index |
| `Chunker.ChunkIdReadsBack` | src/enterprise_orchestrator/retrieval/chunking.py:69 | a chunk id is the document id, `_chunk_` and decimal digits without leading zero that read back as the index |
| `Chunker.ChunksAreTheVisibleWindows` | src/enterprise_orchestrator/retrieval/chunking.py:81-103 | one chunk for each window of the stripped text in which something is visible, in the order of the windows, and no other |
| `Chunker.CollectionIdsDistinctIff` | src/enterprise_orchestrator/retrieval/chunking.py:29-35 | the chunk ids of a collection are distinct exactly when no two documents that have chunks share an id |
| `Chunker.SimpleTextChunker.ChunkDocument` | src/enterprise_orchestrator/retrieval/chunking.py:52-109 | the branches for empty and short documents compute the specified chunks |
| `Chunker.SimpleTextChunker.SlideOver` | src/enterprise_orchestrator/retrieval/chunking.py:77-109 | the window loop computes the specified chunks and always ends by reaching the end of the text |
| `Chunker.SimpleTextChunker.ChunkDocuments` | src/enterprise_orchestrator/retrieval/chunking.py:29-35 | the chunks of all documents in order |
| `ProviderRouter.LLMRouter.Generate` | src/enterprise_orchestrator/providers/router.py:60-120 | the loop returns the outcome of the first decisive name in the order primary, fallback, rest by registration, with the failures before it as history, and calls exactly the providers up to it |
| `ProviderRouter.OrderIsComplete` | src/enterprise_orchestrator/providers/router.py:104-110 | the order starts with the primary and holds primary, fallback and every registered provider exactly once |
| `ProviderRouter.CalledOnce` | src/enterprise_orchestrator/providers/router.py:71-73 | each provider is called at most once, and only registered ones are |
| `ProviderRouter.WithoutFallback` | src/enterprise_orchestrator/providers/router.py:96-99 | with fallback disabled at most one provider is called and its outcome is the result |
| `ProviderRouter.OrderIsByRegistration` | src/enterprise_orchestrator/providers/router.py:98-110 | the primary, another fallback if named, then every other registered provider in the order of registration |
| `ProviderRouter.FirstStopDecides` | src/enterprise_orchestrator/providers/router.py:71-110 | the first provider that is not unavailable, timed out or failing retryably decides: its reply is returned with exactly the failures before it as history, its failure is raised as it is, an unknown name is reported; exactly the providers up to it were called |
| `ProviderRouter.NobodyStops` | src/enterprise_orchestrator/providers/router.py:112-120 | if all of them let the request through, all were called and the report names each with its failure |
| `ProviderRouter.FallbackAnswers` | src/enterprise_orchestrator/providers/router.py:50-105 | a primary that is unavailable, times out or fails retryably and another fallback that replies: that reply, the one failure as history, two calls |
| `ProviderRouter.PrimaryFailureIsRaised` | src/enterprise_orchestrator/providers/router.py:93-97 | a non-retryable or other failure of the primary, or any with fallback disabled, is raised as it is after one call |
| `ProviderRouter.AnsweredIff` | src/enterprise_orchestrator/providers/router.py:71-120 | for any providers, names and failures: a request is answered exactly when some registered provider in the order answers and every name before it is registered and fails in a way that allows a fallback |
| `ProviderRouter.AllFailedIff` | src/enterprise_orchestrator/providers/router.py:112-120 | all providers are reported failed exactly when nobody in the order was decisive; then every registered one was called |
| `EventBroadcast.OfferKeeps` | src/enterprise_orchestrator/services/orchestration_service.py:62-79 | offering an event keeps the order, the capacity and the latest critical event of a subscriber's queue |
| `EventBroadcast.FullQueueTakesLifecycle` | src/enterprise_orchestrator/services/orchestration_service.py:25-79 | a queue with room takes every event; a full one takes exactly the seven lifecycle kinds, each in place of its oldest event, and keeps what it has against any other |
| `EventBroadcast.ReceivedAndQueuedAreSubsequence` | src/enterprise_orchestrator/services/orchestration_service.py:188-220 | in any interleaving, events received followed by events queued are an order-preserving part of those published since the subscriber joined, and at most 100 wait |
| `EventBroadcast.CriticalLostOnlyToLater` | src/enterprise_orchestrator/services/orchestration_service.py:63-74 | a critical event is lost only to a later critical one that is received or still waits; so the latest is never lost before it is read |
| `EventBroadcast.NothingLostWithoutPressure` | src/enterprise_orchestrator/services/orchestration_service.py:75-79 | a subscriber whose queue is never found full loses nothing |
| `EventBroadcast.SubscriberLearnsOfTheEnd` | src/enterprise_orchestrator/services/orchestration_service.py:216-221 | once the latest critical event published is a closing one, a subscriber that reads on reads a closing event, however many events were dropped |
| `EventBroadcast.ListenReadsUpToTheEnd` | src/enterprise_orchestrator/services/orchestration_service.py:211-221 | a listener reads its queue in order up to and including the first run_completed, run_failed or run_cancelled, or all of it |
| `EventBroadcast.LastLifecycleEventArrives` | src/enterprise_orchestrator/services/orchestration_service.py:62-79 | the last lifecycle event published - a review request as well as the end of the run - is received or still waits, and the end of the run is read by listening on |
| `EventBroadcast.EventHub.PublishEvent` | src/enterprise_orchestrator/services/orchestration_service.py:53-79 | every subscriber of the run is offered the event once, and nobody else's queue changes |
| `EventBroadcast.EventHub.Subscribe` | src/enterprise_orchestrator/services/orchestration_service.py:177-192 | a new subscriber gets an empty queue of its own, unless the run has as many as it may have |
| `EventBroadcast.EventHub.Unsubscribe` | src/enterprise_orchestrator/services/orchestration_service.py:231-235 | the subscriber is removed and nobody else is |

## Left out

- WorkflowBound.SegmentBound: plans with PLANNING tasks, because a ready one replaces the whole plan and only the recursion limit of the graph library bounds that loop.
- WorkflowLongest.LimitCoversIff: a plan is measured as it stands at the end of the run; how the graph library counts supersteps against its limit is not part of this model, visits are counted.
- WorkflowCompletion.CompletedMeansAllDoneIff: plans with PLANNING tasks, for the same reason.
- WorkflowRuns.RunsKeep: a worker, planner or critic that raises out of its node ends the graph call with that exception; no further node is visited.
- WorkflowObjects.WorkflowRun.Invoke: the loop is driven by a list of environment answers that reaches the end of the segment; the graph library that calls the nodes is not modelled.
- Task outputs, messages, errors' texts, timestamps, durations, agent names, audit records, traces and metrics: they do not influence control.
- Requests carry their task id directly; the second place the gate looks for it (the request's context) always holds the same id.
- `PoolObjects.LocalBackend` has one method per turn of the worker loop instead of the endless loop itself, and futures are numbered instead of being objects that records, items and runs share.
- PoolSteps.RunsKeep: runs begin with the workers waiting; starting twice, restarting after shutdown or on another event loop is not covered.
- Relabelling of checkpoints and traces when the runtime answers under another run id; the resulting state is stored under the caller's id.
- Key and payload hashes are opaque values that are equal or not.
- RateLimiter.RetryAfterIsExactIff: times are whole hundredths of a second, so the rounding of retry_after to hundredths has nothing to round.
- RateLimiter.LimiterRefinesFullHistory: `reset` forgets everything on purpose and is not a call of these runs; the order of keys in the store is never read and is not modelled.
- Chunk metadata copied from the document; white space is a set of characters given as a parameter.
- The structured variant of the router runs the same loop with another provider call (src/enterprise_orchestrator/providers/router.py:122-179) and is not repeated.
- The stream's first status event, the two error events and the timeout check of the store; only the queue side is modelled.
- Providers, prompts, parsing of answers, vector search, databases, HTTP routes, settings and authentication, the remaining scorers and the benchmark.
