/** What every node does, read off its input and its outcome alone: where the run goes next, what the critic's and the
    human's answers come to, and what each of them leaves untouched. */
module WorkflowVisits {
  import opened PlanGraph
  import opened Workflow
  import opened WorkflowSafety
  import opened WorkflowRuns
  import opened WorkflowOrder
  import opened WorkflowDeadlock
  import opened WorkflowReversal

  // ---- Which node gets which task ----

  /** The first task of the plan that is ready. */
  predicate FirstReady(tasks: Tasks, r: nat) {
    r < |tasks| && IsReady(tasks, r) && forall i | 0 <= i < r :: !IsReady(tasks, i)
  }

  lemma FirstReadyIs(tasks: Tasks, r: nat)
    requires FirstReady(tasks, r)
    ensures ReadyTasks(tasks) != [] && ReadyTasks(tasks)[0] == r
  {
    hide IsReady, ReadyTasks;
    ReadyTasksAreReady(tasks);
    assert IsReady(tasks, ReadyTasks(tasks)[0]);
  }

  /** At the supervisor with nothing to ask and nothing failed: the first ready task becomes the current one and goes to
      the node of its kind. */
  lemma FirstReadyGoesToItsNode(g: Graph, r: nat)
    requires g.at == Supervisor && g.decision.None? && g.state.status != RunFailed && !g.state.requiresHuman
    requires g.state.plan.Some? && FirstReady(g.state.plan.value, r)
    ensures var g1 := Visit(g, Quiet);
            && g1.currentTask == Some(g.state.plan.value[r].vertex.id) && g1.decision.None?
            && g1.state == g.state.(step := g.state.step + 1)
            && match g.state.plan.value[r].vertex.kind
               case Retrieval => g1.at == NodeName.Retrieval
               case Planning => g1.at == Planner
               case Synthesis => g1.at == NodeName.Synthesis
               case ToolExecution => g1.at == Tool
               case Validation => g1.at == Tool
               case Custom => g1.at == Tool
  {
    hide FirstReady, ReadyTasks;
    FirstReadyIs(g.state.plan.value, r);
  }

  predicate NothingReady(tasks: Tasks) {
    forall i | 0 <= i < |tasks| :: !IsReady(tasks, i)
  }

  predicate Finished(tasks: Tasks) {
    tasks != [] && forall i | 0 <= i < |tasks| :: tasks[i].status == Completed || tasks[i].status == Skipped
  }

  /** With no ready task to dispatch: the gate gets a decision or an open question, the planner a run without a plan,
      synthesis a finished one, and the failed node all others; the deadlock error is for those in which nothing
      failed. */
  lemma SupervisorGoes(g: Graph)
    requires g.at == Supervisor && (g.state.plan.Some? ==> NothingReady(g.state.plan.value))
    ensures var g1, s := Visit(g, Quiet), g.state;
            var asks := g.decision.Some? || (s.status != RunFailed && s.requiresHuman);
            var stuck := !asks && s.status != RunFailed && s.plan.Some? && !Finished(s.plan.value)
                         && forall t | t in s.plan.value :: t.status != Failed;
            && g1.decision == g.decision && g1.currentTask == g.currentTask
            && g1.state == s.(step := s.step + 1, errors := s.errors + if stuck then [DependencyDeadlock] else [])
            && (g1.at == HumanGate <==> asks)
            && (g1.at == Planner <==> !asks && s.status != RunFailed && s.plan.None?)
            && (g1.at == NodeName.Synthesis <==>
                  !asks && s.status != RunFailed && s.plan.Some? && Finished(s.plan.value))
            && (g1.at == FailedNode <==>
                  !asks && (s.status == RunFailed || (s.plan.Some? && !Finished(s.plan.value))))
  {
    hide ReadyTasks, IsReady;
    if g.state.plan.Some? {
      ReadyTasksAreReady(g.state.plan.value);
      FailedMembers(g.state.plan.value);
    }
    assert g.state.errors + [] == g.state.errors;
  }

  lemma FailedMembers(tasks: Tasks)
    ensures HasFailedTasks(tasks) <==> exists t :: t in tasks && t.status == Failed
    ensures AllCompleted(tasks) <==> Finished(tasks)
  {
  }

  /** The task the graph points at has this kind. */
  predicate PointsAt(g: Graph, kinds: set<TaskType>) {
    var at := g.state.Lookup(g.currentTask);
    at.Some? && g.state.plan.value[at.value].vertex.kind in kinds && g.state.plan.value[at.value].status == Pending
  }

  lemma DispatchedKinds(g: Graph, at: NodeName)
    requires Dispatched(g, at)
    ensures at == NodeName.Retrieval ==> PointsAt(g, {TaskType.Retrieval})
    ensures at == Tool ==> PointsAt(g, {ToolExecution, Validation, Custom})
    ensures at == Planner ==> PointsAt(g, {Planning})
    ensures at == NodeName.Synthesis ==> PointsAt(g, {TaskType.Synthesis})
  {
    hide FindFrom;
  }

  /** In every run: the retrieval node is visited for RETRIEVAL tasks, the planner with a plan for PLANNING tasks,
      synthesis for SYNTHESIS tasks or when all is done, and the tool node for every other kind. */
  lemma NodesMeetTheirKinds(moves: seq<Move>)
    requires Run(moves).Some?
    ensures var g := Run(moves).value;
            && (g.at == NodeName.Retrieval ==> PointsAt(g, {TaskType.Retrieval}))
            && (g.at == Tool ==> PointsAt(g, {ToolExecution, Validation, Custom}))
            && (g.at == Planner && g.state.plan.Some? ==> PointsAt(g, {Planning}))
            && (g.at == NodeName.Synthesis ==>
                  PointsAt(g, {TaskType.Synthesis}) || (g.state.plan.Some? && AllCompleted(g.state.plan.value)))
  {
    FreshKeeps();
    RunsKeep(Fresh(), moves);
    hide Dispatched, PointsAt, AllCompleted, Between, RunFrom;
    var g := Run(moves).value;
    if Dispatched(g, g.at) {
      DispatchedKinds(g, g.at);
    }
  }

  // ---- The planner and the workers ----

  /** A valid plan is installed with every task PENDING, no retry used and three allowed; anything else fails the
      run. */
  lemma PlannerInstalls(g: Graph, o: Outcome)
    requires g.at == Planner && Fits(g, o)
    ensures var s, s1 := g.state.(step := g.state.step + 1), Visit(g, o).state;
            if o.Planned? && ValidDag(ItemShape(o.items)) then
              && s1 == s.(plan := s1.plan) && s1.plan.Some? && |s1.plan.value| == |o.items|
              && forall i | 0 <= i < |o.items| ::
                   s1.plan.value[i] == TaskRecord(o.items[i].vertex, Pending, 0, 3, o.items[i].input)
            else s1 == s.(status := RunFailed, errors := s.errors + [Fatal])
    ensures Visit(g, o).at == Supervisor && Visit(g, o).decision == g.decision
              && Visit(g, o).currentTask == g.currentTask
  {
    hide ValidDag;
  }

  /** A worker marks its own task IN_PROGRESS, or FAILED with an entry in the errors, and nothing else. */
  lemma WorkerMarks(g: Graph, o: Outcome, i: nat)
    requires g.at in {NodeName.Retrieval, Tool} && Fits(g, o) && g.state.Lookup(g.currentTask) == Some(i)
    ensures var s, tasks := g.state.(step := g.state.step + 1), g.state.plan.value;
            Visit(g, o).state ==
            if o.WorkerOk? then s.(plan := Some(tasks[i := tasks[i].(status := InProgress)]))
            else s.(plan := Some(tasks[i := tasks[i].(status := Failed)]),
                    errors := s.errors + [WorkerError(tasks[i].vertex.id)])
    ensures Visit(g, o).at == Validator && Visit(g, o).currentTask == g.currentTask
              && Visit(g, o).decision == g.decision
  {
    hide FindFrom;
  }

  /** A worker or a critic whose task is not in the plan: the worker fails the run, the critic hands back to the
      supervisor, and no task changes. */
  lemma TaskIsMissing(g: Graph, o: Outcome)
    requires g.at in {NodeName.Retrieval, Tool, Validator} && Fits(g, o) && g.state.Lookup(g.currentTask).None?
    ensures g.at != Validator ==>
              Visit(g, o).at == Validator
              && Visit(g, o).state == g.state.(status := RunFailed, errors := g.state.errors + [Fatal])
    ensures g.at == Validator ==> Visit(g, o).at == Supervisor && Visit(g, o).state == g.state
    ensures Visit(g, o).currentTask == g.currentTask && Visit(g, o).decision == g.decision
  {
    hide FindFrom;
  }

  // ---- The critic's verdict ----

  predicate AsksHuman(r: CriticResult) {
    r.status == EscalateHuman || r.requiresHuman
  }

  predicate Approves(r: CriticResult) {
    !AsksHuman(r) && (r.critique.status == Some(Valid) || (r.status == Success && r.critique.isValid))
  }

  predicate WantsRetry(r: CriticResult) {
    !AsksHuman(r) && !Approves(r) && (r.critique.status == Some(NeedsRetry) || r.critique.needsRetry)
  }

  /** For any task under review and any answer of the critic: the run is PAUSED for a human exactly if the answer
      escalates or requires a human; otherwise the task is COMPLETED exactly if the answer says VALID, or SUCCESS
      and valid; otherwise one retry is charged exactly if it says NEEDS_RETRY or flags a retry, and the budget
      decides between PENDING and FAILED; otherwise the task is FAILED at its old retry count. */
  lemma CriticDecides(g: Graph, o: Outcome, i: nat)
    requires g.at == Validator && Fits(g, o) && g.state.Lookup(g.currentTask) == Some(i)
    requires g.state.status == Running && g.state.plan.value[i].status in {InProgress, Failed}
    ensures var r, t, t1 := o.result, g.state.plan.value[i], PlanTasks(Visit(g, o))[i..];
            && t1 != []
            && (Visit(g, o).state.status == PausedForHuman <==> AsksHuman(r))
            && (t1[0].status == Completed <==> Approves(r))
            && (t1[0].retryCount == t.retryCount + 1 <==> WantsRetry(r))
            && (t1[0].retryCount == t.retryCount <==> !WantsRetry(r))
            && (t1[0].status == Pending <==> WantsRetry(r) && t.retryCount + 1 < t.maxRetries)
            && (AsksHuman(r) ==> t1[0] == t)
            && (!AsksHuman(r) && !Approves(r) && !WantsRetry(r) ==> t1[0] == t.(status := Failed))
            && (WantsRetry(r) && t.retryCount + 1 >= t.maxRetries ==> t1[0].status == Failed)
  {
    hide FindFrom;
  }

  /** What the verdict leaves of everything else: the request it opens, the error of an exhausted budget, the next
      node. */
  lemma CriticTouchesNothingElse(g: Graph, o: Outcome, i: nat)
    requires g.at == Validator && Fits(g, o) && g.state.Lookup(g.currentTask) == Some(i)
    ensures var r, s, s1, t := o.result, g.state, Visit(g, o).state, g.state.plan.value[i];
            && s1.plan.Some? && |s1.plan.value| == |s.plan.value| && s1.step == s.step + 1
            && (forall j | 0 <= j < |s.plan.value| && j != i :: s1.plan.value[j] == s.plan.value[j])
            && s1.plan.value[i] == t.(status := s1.plan.value[i].status, retryCount := s1.plan.value[i].retryCount)
            && s1.requests == (if AsksHuman(r) then s.requests + [HumanRequest(o.requestId, t.vertex.id, Awaiting)]
                               else s.requests)
            && s1.requiresHuman == (AsksHuman(r) || s.requiresHuman)
            && s1.status == (if AsksHuman(r) then PausedForHuman else s.status)
            && s1.errors == (if WantsRetry(r) && t.retryCount + 1 >= t.maxRetries
                             then s.errors + [RetriesExhausted(t.vertex.id)] else s.errors)
    ensures Visit(g, o).at == (if AsksHuman(o.result) then HumanGate else Supervisor)
    ensures Visit(g, o).currentTask == (if Approves(o.result) then None else g.currentTask)
              && Visit(g, o).decision == g.decision
  {
    hide FindFrom;
  }

  // ---- The human's decision ----

  /** The first request that carries the id. */
  predicate FirstNamed(requests: seq<HumanRequest>, id: string, i: nat) {
    i < |requests| && requests[i].requestId == id && forall j | 0 <= j < i :: requests[j].requestId != id
  }

  /** For any state and any decision, after the gate: the first request with the decision's id has exactly the
      decision's status; nothing else of it, and no other request, changes. */
  lemma DecisionIsRecorded(s: State, d: Decision)
    ensures var after := Decided(s, d).state.requests;
            && |after| == |s.requests|
            && forall i: nat | i < |s.requests| ::
                 && after[i].requestId == s.requests[i].requestId && after[i].taskId == s.requests[i].taskId
                 && after[i].status == (if FirstNamed(s.requests, d.requestId, i) then d.status
                                        else s.requests[i].status)
  {
    hide FindFrom, FindRequest, ReadyTasks, SupervisorNode;
    var at := FindRequest(s.requests, d.requestId);
    var gate := Passed(s, d);
    assert gate.state.requests == s.requests;
    forall i: nat | i < |s.requests| ensures FirstNamed(s.requests, d.requestId, i) <==> at == Some(i) {
    }
  }

  predicate SomeAwaiting(requests: seq<HumanRequest>) {
    exists i :: 0 <= i < |requests| && requests[i].status == Awaiting
  }

  /** Recording a decision by itself: a human is required exactly while some request is open, and the run is RUNNING
      again exactly when none is. */
  lemma RecordingSettlesTheRun(s: State, d: Decision)
    ensures var s1 := ApplyDecision(s, d);
            && s1.requiresHuman == SomeAwaiting(s1.requests)
            && s1.status == (if SomeAwaiting(s1.requests) then s.status else Running)
            && s1.plan == s.plan && s1.errors == s.errors && s1.step == s.step
  {
    hide FindRequest;
  }

  /** Where the run goes: on after APPROVED and MODIFIED, to its failure after REJECTED, and to a stop after any other
      answer. */
  lemma DecisionGoes(s: State, d: Decision)
    ensures var g1 := Decided(s, d);
            var s1 := g1.state;
            && s1.step == s.step + 1 && g1.currentTask.None?
            && match d.status
               case Approved =>
                 g1.at == Supervisor && g1.decision.None? && s1.status == Running && s1.errors == s.errors
                 && !s1.requiresHuman
               case Modified =>
                 g1.at == Supervisor && g1.decision.None? && s1.status == Running && s1.errors == s.errors
                 && !s1.requiresHuman
               case Rejected =>
                 g1.at == FailedNode && g1.decision.None? && s1.status == RunFailed
                 && s1.errors == s.errors + [Fatal] && s1.requiresHuman == SomeAwaiting(s1.requests)
               case _ =>
                 g1.at == End && g1.decision == Some(d) && s1.status == PausedForHuman && s1.errors == s.errors
                 && s1.requiresHuman == SomeAwaiting(s1.requests)
  {
    hide FindFrom, FindRequest, ReadyTasks, SupervisorNode;
    PassedAlone(s, d);
  }

  predicate FirstTask(tasks: Tasks, id: TaskId, i: nat) {
    i < |tasks| && tasks[i].vertex.id == id && forall j | 0 <= j < i :: tasks[j].vertex.id != id
  }

  /** The task the gate acts on: the current one, or else the one the decision's request asks about. */
  ghost predicate GateTarget(g: Graph, i: nat) {
    && g.decision.Some? && g.state.plan.Some?
    && if g.currentTask.Some? then FirstTask(g.state.plan.value, g.currentTask.value, i)
       else exists k: nat ::
              FirstNamed(g.state.requests, g.decision.value.requestId, k)
              && FirstTask(g.state.plan.value, g.state.requests[k].taskId, i)
  }

  lemma GateTargetIs(g: Graph, i: nat)
    requires g.decision.Some? && g.state.plan.Some?
    ensures GateTarget(g, i) <==> g.state.Lookup(GateTask(g)) == Some(i)
  {
    hide FindFrom, FindRequest;
    var at := FindRequest(g.state.requests, g.decision.value.requestId);
    forall k: nat ensures FirstNamed(g.state.requests, g.decision.value.requestId, k) <==> at == Some(k) {
    }
    if g.currentTask.Some? {
      FirstTaskIs(g.state.plan.value, g.currentTask.value, i);
    } else if at.Some? {
      FirstTaskIs(g.state.plan.value, g.state.requests[at.value].taskId, i);
    }
  }

  lemma FirstTaskIs(tasks: Tasks, id: TaskId, i: nat)
    ensures FirstTask(tasks, id, i) <==> Find(tasks, id) == Some(i)
  {
    hide FindFrom;
  }

  /** What a decision does to the plan: it completes, fails, or sends back with its payload merged in, exactly the task
      the gate acts on; every other task, and every task after any other answer, stays as it is. */
  lemma GateActsOnItsTask(g: Graph)
    requires g.at == HumanGate && g.decision.Some? && g.state.plan.Some?
    ensures var tasks, after, d := g.state.plan.value, PlanTasks(Visit(g, Quiet)), g.decision.value;
            && |after| == |tasks|
            && forall i: nat | i < |tasks| ::
                 after[i] ==
                 if !GateTarget(g, i) then tasks[i]
                 else match d.status
                   case Approved => tasks[i].(status := Completed)
                   case Rejected => tasks[i].(status := Failed)
                   case Modified =>
                     if d.payload == map[] then tasks[i]
                     else tasks[i].(status := Pending, input := tasks[i].input + d.payload)
                   case _ => tasks[i]
  {
    hide FindFrom, FindRequest, GateTarget, GateTask;
    assert ApplyDecision(g.state, g.decision.value).plan == g.state.plan;
    forall i: nat | i < |g.state.plan.value| ensures GateTarget(g, i) <==> g.state.Lookup(GateTask(g)) == Some(i) {
      GateTargetIs(g, i);
    }
  }

  /** Without a decision the gate stops the run PAUSED and changes nothing else. */
  lemma GateWaits(g: Graph)
    requires g.at == HumanGate && g.decision.None?
    ensures Visit(g, Quiet).at == End && Visit(g, Quiet).state == g.state.(status := PausedForHuman)
  {
  }

  // ---- The two ends ----

  /** Synthesis completes the SYNTHESIS tasks and the run, and touches no other task. */
  lemma SynthesisCompletes(g: Graph)
    requires g.at == NodeName.Synthesis && g.state.plan.Some?
    ensures var s, s1 := g.state, Visit(g, Quiet).state;
            && s1 == s.(plan := s1.plan, status := RunCompleted, step := s.step + 1) && Visit(g, Quiet).at == End
            && s1.plan.Some? && |s1.plan.value| == |s.plan.value|
            && forall i | 0 <= i < |s.plan.value| ::
                 s1.plan.value[i] == if s.plan.value[i].vertex.kind == TaskType.Synthesis
                                     then s.plan.value[i].(status := Completed) else s.plan.value[i]
  {
  }

  lemma FailureIsFinal(g: Graph)
    requires g.at == FailedNode
    ensures Visit(g, Quiet).at == End
    ensures Visit(g, Quiet).state == if g.state.status == RunFailed then g.state
                                     else g.state.(status := RunFailed, errors := g.state.errors + [Fatal])
  {
  }
}
