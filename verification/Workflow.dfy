/** The supervisor workflow on values: the orchestration state, one function for each graph node,
    the routers between them, and runs as lists of node visits and human decisions. The planner,
    the workers, the critic and the human are outcomes chosen by the environment. */
module Workflow {
  import opened PlanGraph

  datatype Option<+T> = None | Some(value: T)

  // ---- Tasks and plans ----

  datatype TaskStatus = Pending | InProgress | Completed | Failed | Blocked | Skipped | Cancelled

  type Payload = map<string, string>

  datatype TaskRecord = TaskRecord(vertex: Vertex, status: TaskStatus, retryCount: nat, maxRetries: nat,
      input: Payload) {
    function Id(): TaskId { vertex.id }
    predicate CanRetry() { retryCount < maxRetries }
  }

  const DEFAULT_MAX_RETRIES: nat := 3

  type Tasks = seq<TaskRecord>

  function Shape(tasks: Tasks): (plan: seq<Vertex>)
    ensures |plan| == |tasks| && forall i | 0 <= i < |tasks| :: plan[i] == tasks[i].vertex
  {
    seq(|tasks|, i requires 0 <= i < |tasks| => tasks[i].vertex)
  }

  function CompletedIds(tasks: Tasks): set<TaskId> {
    set i | 0 <= i < |tasks| && tasks[i].status == Completed :: tasks[i].Id()
  }

  predicate DependenciesIn(v: Vertex, done: set<TaskId>) {
    forall d | d in v.dependencies :: d in done
  }

  predicate IsReady(tasks: Tasks, i: nat)
    requires i < |tasks|
  {
    tasks[i].status == Pending && DependenciesIn(tasks[i].vertex, CompletedIds(tasks))
  }

  /** Indices of the ready tasks among the first `n`, in plan order. */
  function ReadyUpTo(tasks: Tasks, n: nat): (ready: seq<nat>)
    requires n <= |tasks|
    ensures forall k | 0 <= k < |ready| :: ready[k] < n
  {
    if n == 0 then []
    else ReadyUpTo(tasks, n - 1) + (if IsReady(tasks, n - 1) then [n - 1] else [])
  }

  function ReadyTasks(tasks: Tasks): (ready: seq<nat>)
    ensures forall k | 0 <= k < |ready| :: ready[k] < |tasks|
  {
    ReadyUpTo(tasks, |tasks|)
  }

  lemma {:induction false} ReadyEntry(tasks: Tasks, n: nat, k: nat)
    requires n <= |tasks| && k < |ReadyUpTo(tasks, n)|
    ensures IsReady(tasks, ReadyUpTo(tasks, n)[k])
  {
    hide IsReady;
    if k < |ReadyUpTo(tasks, n - 1)| {
      ReadyEntry(tasks, n - 1, k);
    }
  }

  lemma {:induction false} ReadyListed(tasks: Tasks, n: nat, i: nat)
    requires i < n <= |tasks| && IsReady(tasks, i)
    ensures ReadyUpTo(tasks, n) != [] && ReadyUpTo(tasks, n)[0] <= i
  {
    hide IsReady;
    if i < n - 1 {
      ReadyListed(tasks, n - 1, i);
    }
  }

  lemma {:induction false} ReadyOrdered(tasks: Tasks, n: nat, i: nat)
    requires i < n <= |tasks| && IsReady(tasks, i)
    ensures i in ReadyUpTo(tasks, n)
  {
    hide IsReady;
    if i < n - 1 {
      ReadyOrdered(tasks, n - 1, i);
    }
  }

  lemma {:induction false} ReadyIncreasing(tasks: Tasks, n: nat, k: nat, l: nat)
    requires n <= |tasks| && k < l < |ReadyUpTo(tasks, n)|
    ensures ReadyUpTo(tasks, n)[k] < ReadyUpTo(tasks, n)[l]
  {
    hide IsReady;
    if l < |ReadyUpTo(tasks, n - 1)| {
      ReadyIncreasing(tasks, n - 1, k, l);
    }
  }

  /** The list holds ready tasks only, and starts with the first one of the plan. */
  lemma ReadyTasksAreReady(tasks: Tasks)
    ensures forall k | 0 <= k < |ReadyTasks(tasks)| :: IsReady(tasks, ReadyTasks(tasks)[k])
    ensures forall i | 0 <= i < |tasks| && IsReady(tasks, i) :: ReadyTasks(tasks) != [] && ReadyTasks(tasks)[0] <= i
    ensures (forall i | 0 <= i < |tasks| :: !IsReady(tasks, i)) ==> ReadyTasks(tasks) == []
  {
    hide IsReady, ReadyUpTo;
    forall k | 0 <= k < |ReadyTasks(tasks)| ensures IsReady(tasks, ReadyTasks(tasks)[k]) {
      ReadyEntry(tasks, |tasks|, k);
    }
    forall i | 0 <= i < |tasks| && IsReady(tasks, i) ensures ReadyTasks(tasks) != [] && ReadyTasks(tasks)[0] <= i {
      ReadyListed(tasks, |tasks|, i);
    }
    if |ReadyTasks(tasks)| > 0 {
      ReadyEntry(tasks, |tasks|, 0);
    }
  }

  /** The list holds exactly the ready tasks, in plan order. */
  lemma ReadyTasksExact(tasks: Tasks)
    ensures forall i: nat :: i in ReadyTasks(tasks) <==> i < |tasks| && IsReady(tasks, i)
    ensures forall k, l | 0 <= k < l < |ReadyTasks(tasks)| :: ReadyTasks(tasks)[k] < ReadyTasks(tasks)[l]
  {
    hide IsReady, ReadyUpTo;
    ReadyTasksAreReady(tasks);
    forall i: nat | i < |tasks| && IsReady(tasks, i) ensures i in ReadyTasks(tasks) {
      ReadyOrdered(tasks, |tasks|, i);
    }
    forall k, l | 0 <= k < l < |ReadyTasks(tasks)| ensures ReadyTasks(tasks)[k] < ReadyTasks(tasks)[l] {
      ReadyIncreasing(tasks, |tasks|, k, l);
    }
  }

  predicate AllCompleted(tasks: Tasks) {
    tasks != [] && forall i | 0 <= i < |tasks| :: tasks[i].status in {Completed, Skipped}
  }

  predicate HasFailedTasks(tasks: Tasks) {
    exists i :: 0 <= i < |tasks| && tasks[i].status == Failed
  }

  /** The first task from position `i` on that carries the id. */
  function FindFrom(tasks: Tasks, id: TaskId, i: nat): (r: Option<nat>)
    requires i <= |tasks|
    ensures r.Some? ==> i <= r.value < |tasks| && tasks[r.value].Id() == id
    ensures r.Some? ==> forall j | i <= j < r.value :: tasks[j].Id() != id
    ensures r.None? ==> forall j | i <= j < |tasks| :: tasks[j].Id() != id
    decreases |tasks| - i
  {
    if i == |tasks| then None
    else if tasks[i].Id() == id then Some(i)
    else FindFrom(tasks, id, i + 1)
  }

  function Find(tasks: Tasks, id: TaskId): (r: Option<nat>)
    ensures r.Some? ==> r.value < |tasks| && tasks[r.value].Id() == id
    ensures r.None? ==> forall j | 0 <= j < |tasks| :: tasks[j].Id() != id
  {
    FindFrom(tasks, id, 0)
  }

  // ---- Orchestration state ----

  datatype RunStatus = Idle | Running | PausedForHuman | RunCompleted | RunFailed | RunCancelled

  datatype RequestStatus = Awaiting | Approved | Rejected | Modified | TimedOut

  datatype HumanRequest = HumanRequest(requestId: string, taskId: TaskId, status: RequestStatus)

  /** An absent payload and an empty one are the same decision. */
  datatype Decision = Decision(requestId: string, status: RequestStatus, payload: Payload)

  datatype ErrorEntry = WorkerError(task: TaskId) | RetriesExhausted(task: TaskId) | DependencyDeadlock | Fatal

  datatype State = State(
    plan: Option<Tasks>,
    requests: seq<HumanRequest>,
    requiresHuman: bool,
    status: RunStatus,
    step: nat,
    errors: seq<ErrorEntry>) {

    function Stepped(): State { this.(step := step + 1) }

    function Failing(): State { this.(status := RunFailed, errors := errors + [Fatal]) }

    function WithTask(i: nat, t: TaskRecord): State
      requires plan.Some? && i < |plan.value|
    {
      this.(plan := Some(plan.value[i := t]))
    }

    /** The task a graph state points at, if the plan has it. */
    function Lookup(id: Option<TaskId>): (r: Option<nat>)
      ensures r.Some? ==> plan.Some? && id.Some? && r.value < |plan.value| && plan.value[r.value].Id() == id.value
    {
      if plan.Some? && id.Some? then Find(plan.value, id.value) else None
    }
  }

  predicate HasPending(requests: seq<HumanRequest>) {
    exists i :: 0 <= i < |requests| && requests[i].status == Awaiting
  }

  function FindRequest(requests: seq<HumanRequest>, id: string, i: nat := 0): (r: Option<nat>)
    requires i <= |requests|
    ensures r.Some? ==> i <= r.value < |requests| && requests[r.value].requestId == id
    ensures r.Some? ==> forall j | i <= j < r.value :: requests[j].requestId != id
    ensures r.None? ==> forall j | i <= j < |requests| :: requests[j].requestId != id
    decreases |requests| - i
  {
    if i == |requests| then None
    else if requests[i].requestId == id then Some(i)
    else FindRequest(requests, id, i + 1)
  }

  function RequestEscalation(s: State, requestId: string, task: TaskId): State {
    s.(requests := s.requests + [HumanRequest(requestId, task, Awaiting)], requiresHuman := true,
        status := PausedForHuman)
  }

  function ApplyDecision(s: State, d: Decision): State {
    var at := FindRequest(s.requests, d.requestId);
    var requests := if at.Some? then s.requests[at.value := s.requests[at.value].(status := d.status)] else s.requests;
    var pending := HasPending(requests);
    s.(requests := requests, requiresHuman := pending, status := if pending then s.status else Running)
  }

  /** What the service shows a human. */
  function PendingReview(s: State): Option<HumanRequest> {
    if s.requiresHuman && s.requests != [] then Some(s.requests[|s.requests| - 1]) else None
  }

  // ---- Graph nodes ----

  datatype NodeName = Supervisor | Planner | Retrieval | Tool | Validator | HumanGate | Synthesis | FailedNode | End

  datatype Action =
    | Unset | ToSupervisor | ToPlanner | ToRetrieval | ToTool | ToValidator | ToHumanGate | ToSynthesis | ToFailed
    | ToPaused | ToComplete

  datatype Graph = Graph(state: State, currentTask: Option<TaskId>, decision: Option<Decision>, nextAction: Action,
      at: NodeName)

  datatype AgentStatus = Success | Failure | RetryableFailure | EscalateHuman | AgentCancelled

  datatype ValidationStatus = Valid | Invalid | NeedsRetry | NeedsHumanReview

  /** The validation part of a critic's answer; all of it may be missing. */
  datatype Critique = Critique(status: Option<ValidationStatus>, isValid: bool, needsRetry: bool)

  datatype CriticResult = CriticResult(status: AgentStatus, requiresHuman: bool, critique: Critique)

  datatype PlannedTask = PlannedTask(vertex: Vertex, input: Payload)

  /** What the environment answers during one node visit. */
  datatype Outcome =
    | Quiet
    | Planned(items: seq<PlannedTask>)
    | PlannerError
    | WorkerOk
    | WorkerFailed
    | Judged(result: CriticResult, requestId: string)

  function ItemShape(items: seq<PlannedTask>): (plan: seq<Vertex>)
    ensures |plan| == |items| && forall i | 0 <= i < |items| :: plan[i] == items[i].vertex
  {
    seq(|items|, i requires 0 <= i < |items| => items[i].vertex)
  }

  function DomainTasks(items: seq<PlannedTask>): (tasks: Tasks)
    ensures |tasks| == |items|
    ensures forall i | 0 <= i < |items| ::
              tasks[i] == TaskRecord(items[i].vertex, Pending, 0, DEFAULT_MAX_RETRIES, items[i].input)
  {
    seq(|items|, i requires 0 <= i < |items| => TaskRecord(items[i].vertex, Pending, 0, DEFAULT_MAX_RETRIES,
        items[i].input))
  }

  function DispatchAction(kind: TaskType): Action {
    match kind
    case Retrieval => ToRetrieval
    case Planning => ToPlanner
    case Synthesis => ToSynthesis
    case _ => ToTool
  }

  function SupervisorNode(g: Graph): Graph {
    var s := g.state.Stepped();
    var g := g.(state := s);
    if g.decision.Some? then g.(nextAction := ToHumanGate)
    else if s.status == RunFailed then g.(nextAction := ToFailed)
    else if s.requiresHuman then g.(nextAction := ToHumanGate)
    else if s.plan.None? then g.(nextAction := ToPlanner)
    else
      var ready := ReadyTasks(s.plan.value);
      if ready != [] then
        var t := s.plan.value[ready[0]];
        g.(currentTask := Some(t.Id()), nextAction := DispatchAction(t.vertex.kind))
      else if AllCompleted(s.plan.value) then g.(nextAction := ToSynthesis)
      else if HasFailedTasks(s.plan.value) then g.(nextAction := ToFailed)
      else g.(state := s.(errors := s.errors + [DependencyDeadlock]), nextAction := ToFailed)
  }

  ghost function PlannerNode(g: Graph, o: Outcome): Graph {
    var s := g.state.Stepped();
    if o.Planned? && ValidDag(ItemShape(o.items)) then
      g.(state := s.(plan := Some(DomainTasks(o.items))), nextAction := ToSupervisor)
    else
      g.(state := s.Failing(), nextAction := ToFailed)
  }

  /** The retrieval and the tool node change the task in the same way. */
  function WorkerNode(g: Graph, o: Outcome): Graph {
    var at := g.state.Lookup(g.currentTask);
    if at.None? then g.(state := g.state.Failing(), nextAction := ToFailed)
    else
      var t := g.state.plan.value[at.value];
      var s := g.state.Stepped();
      if o.WorkerOk? then
        g.(state := s.WithTask(at.value, t.(status := InProgress)), nextAction := ToValidator)
      else
        var failed := s.WithTask(at.value, t.(status := Failed));
        g.(state := failed.(errors := s.errors + [WorkerError(t.Id())]), nextAction := ToValidator)
  }

  datatype Ruling = Escalate | Accept | Retry | Reject

  /** How the validator node reads a critic's answer. */
  function Rule(r: CriticResult): Ruling {
    if r.status == EscalateHuman || r.requiresHuman then Escalate
    else if r.critique.status == Some(Valid) || (r.status == Success && r.critique.isValid) then Accept
    else if r.critique.status == Some(NeedsRetry) || r.critique.needsRetry then Retry
    else Reject
  }

  /** What a ruling does to task `i` and to the run. */
  function RulingState(s: State, i: nat, ruling: Ruling, requestId: string): State
    requires s.plan.Some? && i < |s.plan.value|
  {
    var t := s.plan.value[i];
    match ruling
    case Escalate => RequestEscalation(s, requestId, t.Id())
    case Accept => s.WithTask(i, t.(status := Completed))
    case Retry =>
      var again := t.(retryCount := t.retryCount + 1);
      if again.CanRetry() then s.WithTask(i, again.(status := Pending))
      else s.WithTask(i, again.(status := Failed)).(errors := s.errors + [RetriesExhausted(t.Id())])
    case Reject => s.WithTask(i, t.(status := Failed))
  }

  function ValidatorNode(g: Graph, result: CriticResult, requestId: string): Graph {
    var at := g.state.Lookup(g.currentTask);
    if at.None? then g.(nextAction := ToSupervisor)
    else
      var ruling := Rule(result);
      g.(state := RulingState(g.state.Stepped(), at.value, ruling, requestId),
         currentTask := if ruling == Accept then None else g.currentTask,
         nextAction := if ruling == Escalate then ToHumanGate else ToSupervisor)
  }

  /** The task a decision acts on: the current one, or else the one its request names. */
  function GateTask(g: Graph): Option<TaskId> {
    if g.decision.Some? && g.currentTask.None? then
      var at := FindRequest(g.state.requests, g.decision.value.requestId);
      if at.Some? then Some(g.state.requests[at.value].taskId) else None
    else g.currentTask
  }

  /** The state after a recorded decision has acted on its task, number `at` of the plan if there is one. */
  function GateState(s: State, at: Option<nat>, d: Decision): State
    requires at.Some? ==> s.plan.Some? && at.value < |s.plan.value|
  {
    match d.status
    case Approved =>
      var s1 := if at.Some? then s.WithTask(at.value, s.plan.value[at.value].(status := Completed)) else s;
      s1.(requiresHuman := false, status := Running)
    case Modified =>
      var s1 :=
        if at.Some? && d.payload != map[] then
          var t := s.plan.value[at.value];
          s.WithTask(at.value, t.(input := t.input + d.payload, status := Pending))
        else s;
      s1.(requiresHuman := false, status := Running)
    case Rejected =>
      var s1 := if at.Some? then s.WithTask(at.value, s.plan.value[at.value].(status := Failed)) else s;
      s1.Failing()
    case _ => s.(status := PausedForHuman)
  }

  function HumanGateNode(g: Graph): Graph {
    if g.decision.None? then
      g.(state := g.state.(status := PausedForHuman), nextAction := ToPaused)
    else
      var d := g.decision.value;
      var s := GateState(ApplyDecision(g.state, d), g.state.Lookup(GateTask(g)), d);
      match d.status
      case Approved => Graph(s, None, None, ToSupervisor, g.at)
      case Modified => Graph(s, None, None, ToSupervisor, g.at)
      case Rejected => Graph(s, None, None, ToFailed, g.at)
      case _ => g.(state := s, nextAction := ToPaused)
  }

  function Synthesized(tasks: Tasks): (r: Tasks)
    ensures |r| == |tasks|
    ensures forall i | 0 <= i < |tasks| ::
              r[i] == if tasks[i].vertex.kind == TaskType.Synthesis then tasks[i].(status := Completed) else tasks[i]
  {
    seq(|tasks|, i requires 0 <= i < |tasks| =>
      if tasks[i].vertex.kind == TaskType.Synthesis then tasks[i].(status := Completed) else tasks[i])
  }

  function SynthesisNode(g: Graph): Graph {
    var s := g.state.Stepped();
    var s1 := if s.plan.Some? then s.(plan := Some(Synthesized(s.plan.value))) else s;
    g.(state := s1.(status := RunCompleted), nextAction := ToComplete)
  }

  function FinishFailed(g: Graph): Graph {
    var s := if g.state.status != RunFailed then g.state.Failing() else g.state;
    g.(state := s, nextAction := ToComplete)
  }

  // ---- Edges ----

  function Route(at: NodeName, action: Action): NodeName {
    match at
    case Supervisor =>
      (match action
       case ToPlanner => Planner
       case ToRetrieval => NodeName.Retrieval
       case ToTool => Tool
       case ToHumanGate => HumanGate
       case ToSynthesis => NodeName.Synthesis
       case _ => FailedNode)
    case Planner => Supervisor
    case Retrieval => Validator
    case Tool => Validator
    case Validator => if action == ToHumanGate then HumanGate else Supervisor
    case HumanGate => if action == ToFailed then FailedNode else if action == ToSupervisor then Supervisor else End
    case _ => End
  }

  /** An answer the environment may give at this node. A new request gets an unused id. */
  predicate Fits(g: Graph, o: Outcome) {
    match g.at
    case Planner => o.Planned? || o.PlannerError?
    case Retrieval => o.WorkerOk? || o.WorkerFailed?
    case Tool => o.WorkerOk? || o.WorkerFailed?
    case Validator => o.Judged? && (Rule(o.result) == Escalate ==> forall r | r in g.state.requests ::
        r.requestId != o.requestId)
    case _ => o.Quiet?
  }

  ghost function Visit(g: Graph, o: Outcome): Graph
    requires g.at != End && Fits(g, o)
  {
    var g1 := match g.at
      case Supervisor => SupervisorNode(g)
      case Planner => PlannerNode(g, o)
      case Retrieval => WorkerNode(g, o)
      case Tool => WorkerNode(g, o)
      case Validator => ValidatorNode(g, o.result, o.requestId)
      case HumanGate => HumanGateNode(g)
      case Synthesis => SynthesisNode(g)
      case FailedNode => FinishFailed(g);
    g1.(at := Route(g.at, g1.nextAction))
  }

  // ---- Runs ----

  function Fresh(): Graph {
    Graph(State(None, [], false, Running, 0, []), None, None, Unset, Supervisor)
  }

  function Resumed(s: State, d: Decision): Graph {
    Graph(s, None, Some(d), Unset, Supervisor)
  }

  datatype Move = Node(outcome: Outcome) | Resume(decision: Decision)

  /** A node is visited while the graph runs; a decision is admitted once it has stopped for one. */
  predicate Enabled(g: Graph, m: Move) {
    match m
    case Node(o) => g.at != End && Fits(g, o)
    case Resume(d) => g.at == End && g.state.requiresHuman && g.state.status !in {RunCompleted, RunFailed, RunCancelled}
  }

  ghost function Next(g: Graph, m: Move): Graph
    requires Enabled(g, m)
  {
    match m
    case Node(o) => Visit(g, o)
    case Resume(d) => Resumed(g.state, d)
  }
}
