/** The workflow as the program runs it: task objects changed in place inside a run object whose node
    methods follow the value-level node functions. */
module WorkflowObjects {
  import opened PlanGraph
  import opened Workflow
  import PlanChecks
  import opened WorkflowRuns
  import opened WorkflowBound
  import opened WorkflowOrder

  class Task {
    const vertex: Vertex
    const maxRetries: nat
    var status: TaskStatus
    var retryCount: nat
    var input: Payload

    constructor (vertex: Vertex, input: Payload)
      ensures View() == TaskRecord(vertex, Pending, 0, DEFAULT_MAX_RETRIES, input)
    {
      this.vertex, this.maxRetries, this.input := vertex, DEFAULT_MAX_RETRIES, input;
      status, retryCount := Pending, 0;
    }

    function View(): TaskRecord
      reads this
    {
      TaskRecord(vertex, status, retryCount, maxRetries, input)
    }

    method MarkInProgress()
      modifies this`status
      ensures View() == old(View()).(status := InProgress)
    {
      status := InProgress;
    }

    method MarkCompleted()
      modifies this`status
      ensures View() == old(View()).(status := Completed)
    {
      status := Completed;
    }

    method MarkFailed()
      modifies this`status
      ensures View() == old(View()).(status := Failed)
    {
      status := Failed;
    }

    predicate CanRetry()
      reads this
      ensures CanRetry() <==> View().CanRetry()
    {
      retryCount < maxRetries
    }
  }

  class WorkflowRun {
    var hasPlan: bool
    var tasks: seq<Task>
    var requests: seq<HumanRequest>
    var requiresHuman: bool
    var status: RunStatus
    var step: nat
    var errors: seq<ErrorEntry>

    var currentTask: Option<TaskId>
    var decision: Option<Decision>
    var nextAction: Action
    var at: NodeName

    /** The plan as values. */
    ghost var views: Tasks

    /** No task object occurs twice in the plan, and `views` shows the objects as they are. */
    ghost predicate Valid()
      reads this`tasks, this`views, tasks
    {
      && |views| == |tasks|
      && (forall i | 0 <= i < |tasks| :: tasks[i].View() == views[i])
      && forall i, j | 0 <= i < j < |tasks| :: tasks[i] != tasks[j]
    }

    ghost function StateView(): State
      reads this
    {
      State(if hasPlan then Some(views) else None, requests, requiresHuman, status, step, errors)
    }

    ghost function View(): Graph
      reads this
    {
      Graph(StateView(), currentTask, decision, nextAction, at)
    }

    constructor ()
      ensures Valid() && View() == Fresh() && tasks == []
    {
      hasPlan, tasks, views, requests, requiresHuman := false, [], [], [], false;
      status, step, errors := Running, 0, [];
      currentTask, decision, nextAction, at := None, None, Unset, Supervisor;
    }

    // ---- Plan queries ----

    method GetTask(id: TaskId) returns (found: Task?)
      requires Valid() && hasPlan
      ensures found == null <==> Find(views, id).None?
      ensures found != null ==> found == tasks[Find(views, id).value]
    {
      for i := 0 to |tasks|
        invariant FindFrom(views, id, i) == Find(views, id)
      {
        if tasks[i].vertex.id == id {
          return tasks[i];
        }
      }
      return null;
    }

    /** The object a graph state points at, and where it stands in the plan. */
    method LookupTask(id: Option<TaskId>) returns (found: Task?, ghost index: nat)
      requires Valid()
      ensures found == null <==> StateView().Lookup(id).None?
      ensures found != null ==> index < |tasks| && found == tasks[index] && StateView().Lookup(id) == Some(index)
    {
      found, index := null, 0;
      if hasPlan && id.Some? {
        found := GetTask(id.value);
        if found != null {
          index := Find(views, id.value).value;
        }
      }
    }

    method CompletedIdSet() returns (ids: set<TaskId>)
      requires Valid()
      ensures ids == CompletedIds(views)
    {
      ids := {};
      for i := 0 to |tasks|
        invariant ids == set j | 0 <= j < i && tasks[j].status == Completed :: tasks[j].vertex.id
      {
        if tasks[i].status == Completed {
          ids := ids + {tasks[i].vertex.id};
        }
      }
    }

    method GetReadyTasks() returns (ready: seq<Task>)
      requires Valid()
      ensures |ready| == |ReadyTasks(views)|
      ensures forall k | 0 <= k < |ready| :: ready[k] == tasks[ReadyTasks(views)[k]]
    {
      var completedIds := CompletedIdSet();
      ready := [];
      for i := 0 to |tasks|
        invariant |ready| == |ReadyUpTo(views, i)|
        invariant forall k | 0 <= k < |ready| :: ready[k] == tasks[ReadyUpTo(views, i)[k]]
      {
        if tasks[i].status == Pending {
          if forall dep | dep in tasks[i].vertex.dependencies :: dep in completedIds {
            ready := ready + [tasks[i]];
          }
        }
      }
    }

    method PlanAllCompleted() returns (all: bool)
      requires Valid()
      ensures all <==> AllCompleted(views)
    {
      all := tasks != [];
      for i := 0 to |tasks|
        invariant all <==> tasks != [] && forall j | 0 <= j < i :: views[j].status in {Completed, Skipped}
      {
        all := all && tasks[i].status in {Completed, Skipped};
      }
    }

    method PlanHasFailed() returns (failed: bool)
      requires Valid()
      ensures failed <==> HasFailedTasks(views)
    {
      failed := false;
      for i := 0 to |tasks|
        invariant failed <==> exists j :: 0 <= j < i && views[j].status == Failed
      {
        failed := failed || tasks[i].status == Failed;
      }
    }

    // ---- Nodes ----

    method FailRun()
      modifies this`status, this`errors
      ensures StateView() == old(StateView()).Failing()
    {
      errors := errors + [Fatal];
      status := RunFailed;
    }

    method IncrementStep()
      modifies this`step
      ensures StateView() == old(StateView()).Stepped()
    {
      step := step + 1;
    }

    /** What the supervisor finds in the plan: a first ready task, or how the plan stands without one. */
    method SurveyPlan() returns (first: Task?, all: bool, failed: bool)
      requires Valid()
      ensures first == null <==> ReadyTasks(views) == []
      ensures first != null ==> first.vertex == views[ReadyTasks(views)[0]].vertex
      ensures first == null ==> (all <==> AllCompleted(views)) && (failed <==> HasFailedTasks(views))
    {
      first, all, failed := null, false, false;
      var ready := GetReadyTasks();
      if ready != [] {
        first := ready[0];
      } else {
        all := PlanAllCompleted();
        failed := PlanHasFailed();
      }
    }

    method SupervisorNode()
      requires Valid()
      modifies this
      ensures Valid() && tasks == old(tasks) && View() == Workflow.SupervisorNode(old(View()))
    {
      hide ReadyTasks, AllCompleted, HasFailedTasks;
      IncrementStep();
      if decision.Some? {
        nextAction := ToHumanGate;
      } else if status == RunFailed {
        nextAction := ToFailed;
      } else if requiresHuman {
        nextAction := ToHumanGate;
      } else if !hasPlan {
        nextAction := ToPlanner;
      } else {
        var first, all, failed := SurveyPlan();
        if first != null {
          currentTask := Some(first.vertex.id);
          nextAction := DispatchAction(first.vertex.kind);
        } else if all {
          nextAction := ToSynthesis;
        } else if failed {
          nextAction := ToFailed;
        } else {
          errors := errors + [DependencyDeadlock];
          nextAction := ToFailed;
        }
      }
    }

    method InstallPlan(items: seq<PlannedTask>)
      modifies this`hasPlan, this`tasks, this`views
      ensures Valid() && hasPlan && views == DomainTasks(items)
      ensures forall i | 0 <= i < |tasks| :: fresh(tasks[i])
    {
      var domain: seq<Task> := [];
      for i := 0 to |items|
        invariant |domain| == i && forall j | 0 <= j < i :: fresh(domain[j])
        invariant forall j, k | 0 <= j < k < i :: domain[j] != domain[k]
        invariant forall j | 0 <= j < i :: domain[j].View() == DomainTasks(items)[j]
      {
        var t := new Task(items[i].vertex, items[i].input);
        domain := domain + [t];
      }
      tasks := domain;
      views := DomainTasks(items);
      hasPlan := true;
    }

    method PlannerNode(o: Outcome)
      requires Valid()
      modifies this
      ensures Valid() && View() == Workflow.PlannerNode(old(View()), o)
      ensures forall i | 0 <= i < |tasks| :: tasks[i] in old(tasks) || fresh(tasks[i])
    {
      step := step + 1;
      if o.Planned? {
        var verdict := PlanChecks.ValidatePlanDag(ItemShape(o.items));
        if verdict.Accepted? {
          InstallPlan(o.items);
          nextAction := ToSupervisor;
          return;
        }
      }
      FailRun();
      nextAction := ToFailed;
    }

    method WorkerNode(o: Outcome)
      requires Valid()
      modifies this, tasks
      ensures Valid() && tasks == old(tasks) && View() == Workflow.WorkerNode(old(View()), o)
    {
      hide Find;
      var task, i := LookupTask(currentTask);
      if task == null {
        FailRun();
        nextAction := ToFailed;
        return;
      }
      task.MarkInProgress();
      IncrementStep();
      if !o.WorkerOk? {
        task.MarkFailed();
        errors := errors + [WorkerError(task.vertex.id)];
      }
      nextAction := ToValidator;
      views := views[i := task.View()];
    }

    method RequestHumanEscalation(requestId: string, task: TaskId)
      modifies this`requests, this`requiresHuman, this`status
      ensures StateView() == RequestEscalation(old(StateView()), requestId, task)
    {
      requests := requests + [HumanRequest(requestId, task, Awaiting)];
      requiresHuman := true;
      status := PausedForHuman;
    }

    /** Charge a retry to a task and either put it back in line or fail it. */
    method RetryTask(task: Task, ghost i: nat)
      requires Valid() && hasPlan && i < |tasks| && task == tasks[i]
      modifies this`errors, this`views, task
      ensures Valid()
      ensures StateView() == RulingState(old(StateView()), i, Retry, "")
    {
      task.retryCount := task.retryCount + 1;
      if task.CanRetry() {
        task.status := Pending;
      } else {
        task.MarkFailed();
        errors := errors + [RetriesExhausted(task.vertex.id)];
      }
      views := views[i := task.View()];
    }

    method SettleTask(task: Task, accepted: bool, ghost i: nat)
      requires Valid() && hasPlan && i < |tasks| && task == tasks[i]
      modifies this`views, task
      ensures Valid() && StateView() == old(StateView()).WithTask(i,
                old(views)[i].(status := if accepted then Completed else Failed))
    {
      if accepted {
        task.MarkCompleted();
      } else {
        task.MarkFailed();
      }
      views := views[i := task.View()];
    }

    /** What a ruling does to its task and to the run. */
    method ActOnRuling(task: Task, ruling: Ruling, requestId: string, ghost i: nat)
      requires Valid() && hasPlan && i < |tasks| && task == tasks[i]
      modifies this`views, this`requests, this`requiresHuman, this`status, this`errors, task
      ensures Valid() && StateView() == RulingState(old(StateView()), i, ruling, requestId)
    {
      match ruling {
        case Escalate => RequestHumanEscalation(requestId, task.vertex.id);
        case Accept => SettleTask(task, true, i);
        case Retry => RetryTask(task, i);
        case Reject => SettleTask(task, false, i);
      }
    }

    method ValidatorNode(result: CriticResult, requestId: string)
      requires Valid()
      modifies this, tasks
      ensures Valid() && tasks == old(tasks) && View() == Workflow.ValidatorNode(old(View()), result, requestId)
    {
      hide RulingState, Rule, Find;
      var task, i := LookupTask(currentTask);
      if task == null {
        nextAction := ToSupervisor;
        return;
      }
      IncrementStep();
      var ruling := Rule(result);
      ActOnRuling(task, ruling, requestId, i);
      if ruling == Accept {
        currentTask := None;
      }
      nextAction := if ruling == Escalate then ToHumanGate else ToSupervisor;
    }

    /** Record a decision on the first request that carries its id. */
    method ApplyHumanDecision(d: Decision)
      modifies this`requests, this`requiresHuman, this`status
      ensures StateView() == ApplyDecision(old(StateView()), d)
    {
      var i := 0;
      while i < |requests|
        invariant i <= |requests| && requests == old(requests)
        invariant FindRequest(requests, d.requestId, i) == FindRequest(requests, d.requestId)
      {
        if requests[i].requestId == d.requestId {
          requests := requests[i := requests[i].(status := d.status)];
          break;
        }
        i := i + 1;
      }
      var pending := false;
      for k := 0 to |requests|
        invariant pending <==> exists j :: 0 <= j < k && requests[j].status == Awaiting
      {
        pending := pending || requests[k].status == Awaiting;
      }
      requiresHuman := pending;
      if !pending {
        status := Running;
      }
    }

    method TaskOfDecision(d: Decision) returns (id: Option<TaskId>)
      requires decision == Some(d)
      ensures id == GateTask(View())
    {
      id := currentTask;
      if currentTask.None? {
        for k := 0 to |requests|
          invariant id.None? && FindRequest(requests, d.requestId, k) == FindRequest(requests, d.requestId)
        {
          if requests[k].requestId == d.requestId {
            return Some(requests[k].taskId);
          }
        }
      }
    }

    /** What a recorded decision does to its task and to the run. */
    method ActOnTask(task: Task?, d: Decision, ghost i: nat)
      requires Valid() && (task != null ==> hasPlan && i < |tasks| && task == tasks[i])
      modifies this`views, this`requiresHuman, this`status, this`errors, if task == null then {} else {task}
      ensures Valid() && StateView() == GateState(old(StateView()), if task != null then Some(i) else None, d)
    {
      match d.status {
        case Approved =>
          if task != null {
            SettleTask(task, true, i);
          }
          requiresHuman, status := false, Running;
        case Modified =>
          if task != null && d.payload != map[] {
            task.input := task.input + d.payload;
            task.status := Pending;
            views := views[i := task.View()];
          }
          requiresHuman, status := false, Running;
        case Rejected =>
          if task != null {
            SettleTask(task, false, i);
          }
          FailRun();
        case _ =>
          status := PausedForHuman;
      }
    }

    /** Find the task a decision is about, record the decision, and act on the task. */
    method ResolveDecision(d: Decision)
      requires Valid() && decision == Some(d)
      modifies this`requests, this`views, this`requiresHuman, this`status, this`errors, tasks
      ensures Valid()
      ensures StateView() == GateState(ApplyDecision(old(StateView()), d), old(StateView().Lookup(GateTask(View()))), d)
    {
      var id := TaskOfDecision(d);
      var task, i := LookupTask(id);
      ApplyHumanDecision(d);
      ActOnTask(task, d, i);
    }

    method HumanGateNode()
      requires Valid()
      modifies this, tasks
      ensures Valid() && tasks == old(tasks) && View() == Workflow.HumanGateNode(old(View()))
    {
      hide GateState, ApplyDecision, GateTask, Find;
      if decision.None? {
        status := PausedForHuman;
        nextAction := ToPaused;
        return;
      }
      var d := decision.value;
      ResolveDecision(d);
      match d.status {
        case Approved => decision, currentTask, nextAction := None, None, ToSupervisor;
        case Modified => decision, currentTask, nextAction := None, None, ToSupervisor;
        case Rejected => decision, currentTask, nextAction := None, None, ToFailed;
        case _ => nextAction := ToPaused;
      }
    }

    method SynthesisNode()
      requires Valid()
      modifies this, tasks
      ensures Valid() && tasks == old(tasks) && View() == Workflow.SynthesisNode(old(View()))
    {
      step := step + 1;
      if hasPlan {
        for i := 0 to |tasks|
          invariant forall j | 0 <= j < i :: tasks[j].View() == Synthesized(views)[j]
          invariant forall j | i <= j < |tasks| :: tasks[j].View() == views[j]
          modifies tasks
        {
          if tasks[i].vertex.kind == TaskType.Synthesis && tasks[i].status != Completed {
            tasks[i].MarkCompleted();
          }
        }
        views := Synthesized(views);
      }
      status := RunCompleted;
      nextAction := ToComplete;
    }

    method FailedNode()
      requires Valid()
      modifies this
      ensures Valid() && tasks == old(tasks) && View() == FinishFailed(old(View()))
    {
      if status != RunFailed {
        FailRun();
      }
      nextAction := ToComplete;
    }

    // ---- Driving the graph ----

    /** One superstep: visit the current node, then follow its edge. */
    method Superstep(o: Outcome)
      requires Valid() && at != End && Fits(View(), o)
      modifies this, tasks
      ensures Valid() && View() == Visit(old(View()), o)
      ensures forall i | 0 <= i < |tasks| :: tasks[i] in old(tasks) || fresh(tasks[i])
    {
      var here := at;
      match here {
        case Supervisor => SupervisorNode();
        case Planner => PlannerNode(o);
        case Retrieval => WorkerNode(o);
        case Tool => WorkerNode(o);
        case Validator => ValidatorNode(o.result, o.requestId);
        case HumanGate => HumanGateNode();
        case Synthesis => SynthesisNode();
        case FailedNode => FailedNode();
      }
      at := Route(here, nextAction);
    }

    /** Start a resume segment on a stopped run. */
    method BeginResume(d: Decision)
      requires Valid()
      modifies this
      ensures Valid() && tasks == old(tasks) && View() == Resumed(old(StateView()), d)
    {
      currentTask, decision, nextAction, at := None, Some(d), Unset, Supervisor;
    }

    /** One superstep of a known run of the value-level machine. */
    method FollowRun(o: Outcome, ghost g0: Graph, ghost moves: seq<Move>, ghost k: nat)
      requires Valid() && RunFrom(g0, moves).Some? && k < |moves| && moves[k] == Node(o)
      requires RunFrom(g0, moves[..k]) == Some(View())
      modifies this, tasks
      ensures Valid() && RunFrom(g0, moves[..k + 1]) == Some(View())
      ensures forall i | 0 <= i < |tasks| :: tasks[i] in old(tasks) || fresh(tasks[i])
    {
      NextPrefix(g0, moves, k);
      Superstep(o);
    }

    /** Run a segment to its end under a step limit; `outcomes` are the environment's answers up to the end. */
    method Invoke(outcomes: seq<Outcome>, maxSteps: nat) returns (finished: bool)
      requires Valid()
      requires RunFrom(View(), Nodes(outcomes)).Some? && RunFrom(View(), Nodes(outcomes)).value.at == End
      modifies this, tasks
      ensures Valid()
      ensures finished <==> |outcomes| <= maxSteps
      ensures finished ==> View() == RunFrom(old(View()), Nodes(outcomes)).value
      ensures FitsLimit(old(View()), outcomes, maxSteps) ==> finished
    {
      hide RunFrom;
      ghost var g0 := View();
      ghost var moves := Nodes(outcomes);
      FitsLimitFinishes(g0, outcomes, maxSteps);
      var k := 0;
      assert moves[..0] == [];
      RunNothing(g0);
      while k < |outcomes| && k < maxSteps
        invariant k <= |outcomes| && k <= maxSteps
        invariant Valid() && RunFrom(g0, moves[..k]) == Some(View())
        invariant forall i | 0 <= i < |tasks| :: tasks[i] in old(tasks) || fresh(tasks[i])
      {
        FollowRun(outcomes[k], g0, moves, k);
        k := k + 1;
      }
      assert moves[..|moves|] == moves;
      finished := k == |outcomes|;
    }
  }

  lemma RunNothing(g0: Graph)
    ensures RunFrom(g0, []) == Some(g0)
  {
  }

  /** The step limit covers the bound for the plan the segment works on. */
  ghost predicate FitsLimit(g0: Graph, outcomes: seq<Outcome>, maxSteps: nat)
    requires RunFrom(g0, Nodes(outcomes)).Some?
  {
    && SegmentStart(g0) && NoPlanning(PlanTasks(g0))
    && (forall m | m in Nodes(outcomes) :: PlainMove(m))
    && 4 + 3 * Capacity(PlanTasks(RunFrom(g0, Nodes(outcomes)).value)) <= maxSteps
  }

  lemma FitsLimitFinishes(g0: Graph, outcomes: seq<Outcome>, maxSteps: nat)
    requires RunFrom(g0, Nodes(outcomes)).Some?
    ensures FitsLimit(g0, outcomes, maxSteps) ==> |outcomes| <= maxSteps
  {
    if FitsLimit(g0, outcomes, maxSteps) {
      SegmentBound(g0, Nodes(outcomes));
    }
  }

  lemma NextPrefix(g0: Graph, moves: seq<Move>, k: nat)
    requires RunFrom(g0, moves).Some? && k < |moves|
    ensures RunFrom(g0, moves[..k]).Some? && Admissible(RunFrom(g0, moves[..k]).value, moves[k])
    ensures RunFrom(g0, moves[..k + 1]) == Some(Next(RunFrom(g0, moves[..k]).value, moves[k]))
  {
    PrefixRuns(g0, moves, k + 1);
    assert moves[..k + 1][..k] == moves[..k];
  }

  function Nodes(outcomes: seq<Outcome>): (moves: seq<Move>)
    ensures |moves| == |outcomes| && forall i | 0 <= i < |moves| :: moves[i] == Node(outcomes[i])
  {
    seq(|outcomes|, i requires 0 <= i < |outcomes| => Node(outcomes[i]))
  }

  lemma {:induction false} PrefixRuns(g0: Graph, moves: seq<Move>, k: nat)
    requires RunFrom(g0, moves).Some? && k <= |moves|
    ensures RunFrom(g0, moves[..k]).Some?
  {
    if k < |moves| {
      PrefixRuns(g0, moves[..|moves| - 1], k);
      assert moves[..|moves| - 1][..k] == moves[..k];
    } else {
      assert moves[..k] == moves;
    }
  }
}
