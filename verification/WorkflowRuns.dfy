/** Whole runs of the supervisor workflow: any node visits the environment can cause, interleaved with
    any sound human decisions. */
module WorkflowRuns {
  import opened PlanGraph
  import opened Workflow
  import opened WorkflowSafety

  ghost predicate Admissible(g: Graph, m: Move) {
    Enabled(g, m) && (m.Resume? ==> Sound(g.state, m.decision))
  }

  /** The graph after a list of moves, or nothing if some move could not happen. */
  ghost function RunFrom(g0: Graph, moves: seq<Move>): Option<Graph> {
    if moves == [] then Some(g0)
    else
      var before := RunFrom(g0, moves[..|moves| - 1]);
      var m := moves[|moves| - 1];
      if before.Some? && Admissible(before.value, m) then Some(Next(before.value, m)) else None
  }

  ghost function Run(moves: seq<Move>): Option<Graph> {
    RunFrom(Fresh(), moves)
  }

  lemma Extend(g0: Graph, moves: seq<Move>, m: Move)
    requires RunFrom(g0, moves).Some? && Admissible(RunFrom(g0, moves).value, m)
    ensures RunFrom(g0, moves + [m]) == Some(Next(RunFrom(g0, moves).value, m))
  {
    assert (moves + [m])[..|moves|] == moves;
  }

  lemma MoveKeeps(g: Graph, m: Move)
    requires Inv(g) && Admissible(g, m)
    ensures Inv(Next(g, m))
  {
    match m
    case Resume(d) =>
    case Node(o) =>
      match g.at
      case Supervisor => SupervisorKeeps(g);
      case Planner => PlannerKeeps(g, o);
      case Retrieval => WorkerKeeps(g, o);
      case Tool => WorkerKeeps(g, o);
      case Validator => ValidatorKeeps(g, o);
      case HumanGate => if g.decision.Some? { GateKeepsIffSound(g); }
      case Synthesis => SynthesisKeeps(g);
      case FailedNode =>
  }

  lemma {:induction false} RunsKeep(g0: Graph, moves: seq<Move>)
    requires Inv(g0) && RunFrom(g0, moves).Some?
    ensures Inv(RunFrom(g0, moves).value)
  {
    if moves != [] {
      RunsKeep(g0, moves[..|moves| - 1]);
      MoveKeeps(RunFrom(g0, moves[..|moves| - 1]).value, moves[|moves| - 1]);
    }
  }

  lemma FreshKeeps()
    ensures Inv(Fresh())
  {
  }

  // ---- Safety over whole runs ----

  /** The dependency-deadlock branch is taken in no run. */
  lemma DeadlockUnreachable(moves: seq<Move>)
    requires Run(moves).Some?
    ensures DependencyDeadlock !in Run(moves).value.state.errors
  {
    FreshKeeps();
    RunsKeep(Fresh(), moves);
  }

  /** Stated on the state itself: at the supervisor, with no decision to apply, nothing failed and
      something unfinished, some task is ready. */
  lemma UnfinishedMeansReady(moves: seq<Move>)
    requires Run(moves).Some?
    requires var g := Run(moves).value;
             && g.at == Supervisor && g.decision.None? && g.state.plan.Some?
             && !HasFailedTasks(g.state.plan.value) && !AllCompleted(g.state.plan.value)
    ensures exists i :: 0 <= i < |Run(moves).value.state.plan.value| && IsReady(Run(moves).value.state.plan.value, i)
  {
    FreshKeeps();
    RunsKeep(Fresh(), moves);
    var tasks := Run(moves).value.state.plan.value;
    NoDeadlock(tasks);
    ReadyTasksAreReady(tasks);
    assert IsReady(tasks, ReadyTasks(tasks)[0]);
  }

  /** A worker is only ever visited for a pending task of the plan whose dependencies are all completed. */
  lemma WorkersRunReadyTasks(moves: seq<Move>)
    requires Run(moves).Some? && Run(moves).value.at in {NodeName.Retrieval, Tool}
    ensures var s := Run(moves).value.state;
            var i := s.Lookup(Run(moves).value.currentTask);
            i.Some? && s.plan.value[i.value].status == Pending
            && DependenciesIn(s.plan.value[i.value].vertex, CompletedIds(s.plan.value))
  {
    FreshKeeps();
    RunsKeep(Fresh(), moves);
  }

  predicate OnlyPending(requests: seq<HumanRequest>, i: nat) {
    i < |requests| && forall j | 0 <= j < |requests| :: requests[j].status == Awaiting <==> j == i
  }

  /** The state of a finished segment: COMPLETED, FAILED or PAUSED. It is paused exactly when a human is
      required, exactly when one request is open; that one is the last, is what the service shows, and
      asks about an unfinished task of the plan. */
  ghost predicate GateInvariant(s: State) {
    && s.status in {RunCompleted, RunFailed, PausedForHuman}
    && (s.status == PausedForHuman <==> s.requiresHuman)
    && (s.requiresHuman <==> exists i: nat :: OnlyPending(s.requests, i))
    && (!s.requiresHuman <==> !HasPending(s.requests))
    && (!s.requiresHuman ==> PendingReview(s).None?)
    && (s.requiresHuman ==>
          && s.requests != [] && OnlyPending(s.requests, |s.requests| - 1)
          && PendingReview(s) == Some(s.requests[|s.requests| - 1])
          && s.plan.Some? && var i := Find(s.plan.value, PendingReview(s).value.taskId);
             i.Some? && s.plan.value[i.value].status != Completed)
  }

  lemma WaitingGate(s: State)
    requires Waiting(s)
    ensures GateInvariant(s)
  {
    var n := |s.requests| - 1;
    forall j | 0 <= j < |s.requests| ensures s.requests[j].status == Awaiting <==> j == n {
      assert j < n ==> s.requests[..n][j] == s.requests[j];
    }
    assert OnlyPending(s.requests, n);
  }

  lemma CalmGate(s: State)
    requires Calm(s) && s.status in {RunCompleted, RunFailed}
    ensures GateInvariant(s)
  {
    forall i: nat ensures !OnlyPending(s.requests, i) {
      assert i < |s.requests| ==> s.requests[i].status != Awaiting;
    }
  }

  lemma SegmentsEndAtTheGate(moves: seq<Move>)
    requires Run(moves).Some? && Run(moves).value.at == End
    ensures GateInvariant(Run(moves).value.state)
  {
    FreshKeeps();
    RunsKeep(Fresh(), moves);
    var s := Run(moves).value.state;
    if Waiting(s) {
      WaitingGate(s);
    } else {
      CalmGate(s);
    }
  }

  // ---- The decisions a paused run survives ----

  /** For any stopped run that waits for a human and any decision at all: the run invariant holds again
      after the gate exactly when the decision is sound. */
  lemma ResumeKeepsIffSound(g: Graph, d: Decision)
    requires Inv(g) && Enabled(g, Resume(d))
    ensures var g1 := Visit(Resumed(g.state, d), Quiet);
            g1.at == HumanGate && (Inv(Visit(g1, Quiet)) <==> Sound(g.state, d))
  {
    hide PlannerNode, WorkerNode, ValidatorNode, HumanGateNode, SynthesisNode, FinishFailed, ReadyTasks, FindFrom,
        Acyclic, FindRequest;
    var g1 := Visit(Resumed(g.state, d), Quiet);
    assert Waiting(g1.state);
    GateKeepsIffSound(g1);
    assert Sound(g1.state, d) == Sound(g.state, d);
  }

  /** With nothing pending and a task stranded in progress, the supervisor reports a deadlock. */
  lemma StrandedTaskDeadlocks(g: Graph, i: nat)
    requires g.at == Supervisor && g.decision.None? && g.state.status == Running && !g.state.requiresHuman
    requires g.state.plan.Some? && i < |g.state.plan.value| && g.state.plan.value[i].status == InProgress
    requires forall j | 0 <= j < |g.state.plan.value| :: g.state.plan.value[j].status in {InProgress, Completed}
    ensures DependencyDeadlock in Visit(g, Quiet).state.errors
  {
    hide ReadyUpTo;
    ReadyTasksAreReady(g.state.plan.value);
  }

  /** A modification with no payload strands a task in progress. With everything else done, the run
      then takes the branch that is otherwise unreachable. */
  lemma EmptyModificationDeadlocks(g: Graph, d: Decision)
    requires Inv(g) && Enabled(g, Resume(d))
    requires d.status == Modified && d.payload == map[]
              && d.requestId == g.state.requests[|g.state.requests| - 1].requestId
    requires var tasks := g.state.plan.value;
             forall j | 0 <= j < |tasks| :: tasks[j].status in {InProgress, Completed}
    ensures var g1 := Visit(Visit(Resumed(g.state, d), Quiet), Quiet);
            g1.at == Supervisor && DependencyDeadlock in Visit(g1, Quiet).state.errors
  {
    var s := g.state;
    var i := Find(s.plan.value, s.requests[|s.requests| - 1].taskId).value;
    var gate := Visit(Resumed(s, d), Quiet);
    assert gate.at == HumanGate && gate.state == s.Stepped();
    var g1 := Visit(gate, Quiet);
    assert g1.state.plan == s.plan;
    StrandedTaskDeadlocks(g1, i);
  }

  const LONELY: Vertex := Vertex("a", ToolExecution, [])

  /** One task of a one-task plan, as the run reaches it. */
  function LonelyTask(status: TaskStatus): TaskRecord {
    TaskRecord(LONELY, status, 0, DEFAULT_MAX_RETRIES, map[])
  }

  function Escalation(): Outcome {
    Judged(CriticResult(EscalateHuman, true, Critique(None, false, false)), "r")
  }

  lemma LonelyPlan()
    ensures ValidDag(ItemShape([PlannedTask(LONELY, map[])]))
    ensures DomainTasks([PlannedTask(LONELY, map[])]) == [LonelyTask(Pending)]
  {
    var plan := ItemShape([PlannedTask(LONELY, map[])]);
    assert plan[0].id in Ids(plan);
    assert Ranked(plan, map["a" := 0]);
  }

  lemma LonelyDispatch()
    returns (moves: seq<Move>)
    ensures Run(moves) == Some(Graph(State(Some([LonelyTask(Pending)]), [], false, Running, 3, []), Some("a"),
              None, ToTool, Tool))
  {
    LonelyPlan();
    var plan := Node(Planned([PlannedTask(LONELY, map[])]));
    Extend(Fresh(), [], Node(Quiet));
    Extend(Fresh(), [Node(Quiet)], plan);
    var g := Run([Node(Quiet)] + [plan]).value;
    assert g == Graph(State(Some([LonelyTask(Pending)]), [], false, Running, 2, []), None, None, ToSupervisor,
        Supervisor);
    assert IsReady([LonelyTask(Pending)], 0);
    ReadyTasksAreReady([LonelyTask(Pending)]);
    Extend(Fresh(), [Node(Quiet)] + [plan], Node(Quiet));
    moves := [Node(Quiet)] + [plan] + [Node(Quiet)];
  }

  lemma LonelyWorked()
    returns (moves: seq<Move>)
    ensures Run(moves) == Some(Graph(State(Some([LonelyTask(InProgress)]), [], false, Running, 4, []), Some("a"),
              None, ToValidator, Validator))
  {
    var m := LonelyDispatch();
    var g := Run(m).value;
    Extend(Fresh(), m, Node(WorkerOk));
    moves := m + [Node(WorkerOk)];
    assert g.state.Lookup(g.currentTask) == Some(0);
    assert [LonelyTask(Pending)][0 := LonelyTask(InProgress)] == [LonelyTask(InProgress)];
    assert WorkerNode(g, WorkerOk).state == State(Some([LonelyTask(InProgress)]), [], false, Running, 4, []);
  }

  lemma LonelyJudged()
    returns (moves: seq<Move>)
    ensures Run(moves) == Some(Graph(
              State(Some([LonelyTask(InProgress)]), [HumanRequest("r", "a", Awaiting)], true, PausedForHuman, 5, []),
              Some("a"), None, ToHumanGate, HumanGate))
  {
    var m := LonelyWorked();
    var g := Run(m).value;
    Extend(Fresh(), m, Node(Escalation()));
    moves := m + [Node(Escalation())];
    assert g.state.Lookup(g.currentTask) == Some(0);
    assert ValidatorNode(g, Escalation().result, "r").state ==
           State(Some([LonelyTask(InProgress)]), [HumanRequest("r", "a", Awaiting)], true, PausedForHuman, 5, []);
  }

  lemma LonelyEscalated()
    returns (moves: seq<Move>)
    ensures Run(moves) == Some(Graph(
              State(Some([LonelyTask(InProgress)]), [HumanRequest("r", "a", Awaiting)], true, PausedForHuman, 5, []),
              Some("a"), None, ToPaused, End))
  {
    var m := LonelyJudged();
    Extend(Fresh(), m, Node(Quiet));
    moves := m + [Node(Quiet)];
  }

  /** Such a stopped run exists: one tool task, run once and escalated. */
  lemma EmptyModificationIsPossible()
    returns (moves: seq<Move>, d: Decision)
    ensures Run(moves).Some? && Enabled(Run(moves).value, Resume(d)) && !Sound(Run(moves).value.state, d)
    ensures var g := Visit(Visit(Resumed(Run(moves).value.state, d), Quiet), Quiet);
            g.at == Supervisor && DependencyDeadlock in Visit(g, Quiet).state.errors
  {
    moves := LonelyEscalated();
    d := Decision("r", Modified, map[]);
    FreshKeeps();
    RunsKeep(Fresh(), moves);
    EmptyModificationDeadlocks(Run(moves).value, d);
  }

  /** So does an approval that names another request: the run moves on past the open one and its task. */
  lemma WrongApprovalIsPossible()
    returns (moves: seq<Move>, d: Decision)
    ensures Run(moves).Some? && Enabled(Run(moves).value, Resume(d)) && d.status == Approved
    ensures Run(moves).value.state.requests != []
    ensures d.requestId != Run(moves).value.state.requests[|Run(moves).value.state.requests| - 1].requestId
    ensures var g := Visit(Visit(Resumed(Run(moves).value.state, d), Quiet), Quiet);
            g.at == Supervisor && HasPending(g.state.requests) && DependencyDeadlock in Visit(g, Quiet).state.errors
  {
    moves := LonelyEscalated();
    d := Decision("s", Approved, map[]);
    var s := Run(moves).value.state;
    var gate := Visit(Resumed(s, d), Quiet);
    assert gate.at == HumanGate && gate.state == s.Stepped();
    assert "r"[0] != "s"[0];
    assert FindRequest(s.requests, "s").None?;
    var g := Visit(gate, Quiet);
    assert g.state.requests == s.requests && s.requests[0].status == Awaiting;
    assert g.state.plan == Some([LonelyTask(InProgress)]);
    StrandedTaskDeadlocks(g, 0);
  }
}
