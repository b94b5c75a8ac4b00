/** Which human decisions take COMPLETED back from a task. */
module WorkflowReversal {
  import opened PlanGraph
  import opened Workflow
  import opened WorkflowSafety
  import opened WorkflowRuns
  import opened WorkflowOrder
  import opened WorkflowDeadlock
  import opened WorkflowLongest

  /** Some task of the plan was COMPLETED and is not any more. */
  predicate Reverts(before: Tasks, after: Tasks)
    requires |before| == |after|
  {
    exists i :: 0 <= i < |before| && before[i].status == Completed && after[i].status != Completed
  }

  /** The task that the request with this id asks about, if there is one. */
  function TaskAsked(s: State, requestId: string): (r: Option<nat>)
    ensures r.Some? ==> s.plan.Some? && r.value < |s.plan.value|
  {
    var at := FindRequest(s.requests, requestId);
    if s.plan.Some? && at.Some? then Find(s.plan.value, s.requests[at.value].taskId) else None
  }

  /** The decision rejects, or modifies with a payload, a request whose task is COMPLETED. */
  predicate NamesCompleted(s: State, d: Decision) {
    && (d.status == Rejected || (d.status == Modified && d.payload != map[]))
    && TaskAsked(s, d.requestId).Some?
    && s.plan.value[TaskAsked(s, d.requestId).value].status == Completed
  }

  lemma DecidedTask(s: State, d: Decision)
    requires s.plan.Some?
    ensures var at, tasks := TaskAsked(s, d.requestId), s.plan.value;
            PlanTasks(Decided(s, d)) ==
            if at.None? then tasks
            else match d.status
              case Approved => tasks[at.value := tasks[at.value].(status := Completed)]
              case Rejected => tasks[at.value := tasks[at.value].(status := Failed)]
              case Modified =>
                if d.payload == map[] then tasks
                else tasks[at.value := tasks[at.value].(input := tasks[at.value].input + d.payload, status := Pending)]
              case _ => tasks
  {
    hide FindFrom, FindRequest, SupervisorNode, ReadyTasks;
    var gate := Passed(s, d);
    PassedAlone(s, d);
    assert ApplyDecision(gate.state, d).plan == s.plan;
  }

  lemma PassedAlone(s: State, d: Decision)
    ensures Passed(s, d).currentTask.None?
  {
  }

  /** For a run that waits for a human and any decision at all: a COMPLETED task goes back to FAILED or PENDING exactly
      if the decision rejects, or modifies with a payload, a request about a COMPLETED task. */
  lemma DecisionRevertsIff(g: Graph, d: Decision)
    requires Inv(g) && Enabled(g, Resume(d))
    ensures g.state.plan.Some? && |PlanTasks(Decided(g.state, d))| == |g.state.plan.value|
    ensures Reverts(g.state.plan.value, PlanTasks(Decided(g.state, d))) <==> NamesCompleted(g.state, d)
  {
    hide Inv, Enabled, Decided, TaskAsked;
    WaitingPlan(g, d);
    DecidedTask(g.state, d);
    if NamesCompleted(g.state, d) {
      var i := TaskAsked(g.state, d.requestId).value;
      assert PlanTasks(Decided(g.state, d))[i].status != Completed;
    }
  }

  // ---- Such a run ----

  function EscalateAs(id: string): Outcome {
    Judged(CriticResult(EscalateHuman, true, Critique(None, false, false)), id)
  }

  /** The run waits for a human: the last request, `id`, asks about task `r`, which is in progress. */
  ghost predicate Asks(g: Graph, tasks: Tasks, r: nat, requests: seq<HumanRequest>, id: string) {
    && r < |tasks| && g.at == End && g.state.status == PausedForHuman && g.state.requiresHuman
    && g.state.plan == Some(tasks[r := tasks[r].(status := InProgress)])
    && g.state.requests == requests + [HumanRequest(id, tasks[r].Id(), Awaiting)]
  }

  lemma WorkAndEscalate(g: Graph, tasks: Tasks, r: nat, id: string)
    requires g.at in {NodeName.Retrieval, Tool} && g.decision.None? && g.state.plan == Some(tasks)
              && DistinctIds(Shape(tasks))
    requires g.state.Lookup(g.currentTask) == Some(r) && r < |tasks| && g.state.status == Running
    requires forall q | q in g.state.requests :: q.requestId != id
    ensures var g1 := Visit(g, WorkerOk);
            g1.at == Validator && Fits(g1, EscalateAs(id))
            && Visit(g1, EscalateAs(id)).at == HumanGate
            && Asks(Visit(Visit(g1, EscalateAs(id)), Quiet), tasks, r, g.state.requests, id)
  {
    hide FindFrom, DistinctIds;
    var working := tasks[r := tasks[r].(status := InProgress)];
    var g1 := Visit(g, WorkerOk);
    assert g1.state.plan == Some(working) && Shape(working) == Shape(tasks);
    FindsTheTask(tasks, r);
    FindsTheTask(working, r);
    var g2 := Visit(g1, EscalateAs(id));
    assert g2.decision.None? && g2.state == RequestEscalation(g1.state.Stepped(), id, tasks[r].Id());
  }

  function AskTurn(id: string): seq<Move> {
    Turn(EscalateAs(id)) + [Node(Quiet)]
  }

  /** The first ready task is dispatched, done, and escalated. */
  lemma EscalateFirst(g: Graph, tasks: Tasks, id: string)
    requires AtPlan(g, tasks) && ReadyTasks(tasks) != [] && !EndsRun(tasks[ReadyTasks(tasks)[0]].vertex.kind)
    requires forall q | q in g.state.requests :: q.requestId != id
    ensures RunFrom(g, AskTurn(id)).Some?
    ensures Asks(RunFrom(g, AskTurn(id)).value, tasks, ReadyTasks(tasks)[0], g.state.requests, id)
  {
    hide Visit, RunFrom, ReadyTasks, EscalateAs, Asks;
    DispatchFirst(g, tasks);
    var g1 := Visit(g, Quiet);
    WorkAndEscalate(g1, tasks, ReadyTasks(tasks)[0], id);
    var g2 := Visit(g1, WorkerOk);
    var g3 := Visit(g2, EscalateAs(id));
    RunOne(g, Quiet);
    RunOne(g1, WorkerOk);
    RunOne(g2, EscalateAs(id));
    RunOne(g3, Quiet);
    RunAppend(g, [Node(Quiet)], [Node(WorkerOk)]);
    RunAppend(g, [Node(Quiet)] + [Node(WorkerOk)], [Node(EscalateAs(id))]);
    RunAppend(g, Turn(EscalateAs(id)), [Node(Quiet)]);
  }

  function ApproveTurn(id: string): seq<Move> {
    [Resume(Decision(id, Approved, map[]))] + [Node(Quiet), Node(Quiet)]
  }

  lemma DecidedRequests(s: State, d: Decision)
    ensures Decided(s, d).state.requests == ApplyDecision(s, d).requests
  {
    hide FindFrom, FindRequest, ReadyTasks, SupervisorNode;
    SameWithStep(s, d);
  }

  lemma SameWithStep(s: State, d: Decision)
    ensures ApplyDecision(s.Stepped(), d).requests == ApplyDecision(s, d).requests
  {
  }

  /** The open request is approved: its task is COMPLETED and the supervisor goes on. */
  lemma ApproveOpen(g: Graph, tasks: Tasks, r: nat, requests: seq<HumanRequest>, id: string)
    requires Inv(g) && Asks(g, tasks, r, requests, id) && DistinctIds(Shape(tasks))
    requires forall q | q in requests :: q.requestId != id
    ensures RunFrom(g, ApproveTurn(id)).Some?
    ensures var u := RunFrom(g, ApproveTurn(id)).value;
            AtPlan(u, tasks[r := tasks[r].(status := Completed)])
            && u.state.requests == requests + [HumanRequest(id, tasks[r].Id(), Approved)]
  {
    hide Inv, Visit, RunFrom, Decided, AtPlan, FindFrom, DistinctIds;
    var d := Decision(id, Approved, map[]);
    var s := g.state;
    OpenIsFound(s.requests, requests, id, tasks[r].Id());
    assert Admissible(g, Resume(d));
    ResumeOne(g, d);
    ReachDecided(s, d);
    RunAppend(g, [Resume(d)], [Node(Quiet), Node(Quiet)]);
    AfterDecision(g, d);
    DecidedTask(s, d);
    DecidedRequests(s, d);
    var working := s.plan.value;
    assert Shape(working) == Shape(tasks);
    FindsTheTask(working, r);
    assert TaskAsked(s, id) == Some(r);
    assert working[r := working[r].(status := Completed)] == tasks[r := tasks[r].(status := Completed)];
    assert s.requests[|requests| := HumanRequest(id, tasks[r].Id(), Approved)] ==
           requests + [HumanRequest(id, tasks[r].Id(), Approved)];
  }

  lemma ResumeOne(g: Graph, d: Decision)
    requires Admissible(g, Resume(d))
    ensures RunFrom(g, [Resume(d)]) == Some(Resumed(g.state, d))
  {
    assert [Resume(d)][..0] == [];
  }

  lemma OpenIsFound(all: seq<HumanRequest>, requests: seq<HumanRequest>, id: string, task: TaskId)
    requires all == requests + [HumanRequest(id, task, Awaiting)] && forall q | q in requests :: q.requestId != id
    ensures FindRequest(all, id) == Some(|requests|)
  {
    assert all[|requests|].requestId == id;
    forall j | 0 <= j < |requests| ensures all[j].requestId != id {
      assert requests[j] in requests;
    }
  }

  /** Two tool tasks: the first is escalated and approved, the second is escalated; a modification that names the
      first request again makes its COMPLETED task PENDING. */
  lemma CompletedIsTakenBack() returns (moves: seq<Move>, d: Decision)
    ensures Run(moves).Some? && Enabled(Run(moves).value, Resume(d)) && Inv(Run(moves).value)
    ensures Run(moves).value.state.plan.Some? && d.status == Modified
    ensures var s := Run(moves).value.state;
            && |PlanTasks(Decided(s, d))| == |s.plan.value| == 2
            && s.plan.value[0].status == Completed && PlanTasks(Decided(s, d))[0].status == Pending
  {
    hide Inv, Visit, RunFrom, Decided, AtPlan, FindFrom, FindRequest, AskTurn, ApproveTurn, ReadyTasks;
    moves := PlanMade(2);
    var tasks := Reached(2, 0, 0);
    ReachedReady(2, 0, 0);
    EscalateFirst(Run(moves).value, tasks, "r");
    RunAppend(Fresh(), moves, AskTurn("r"));
    moves := moves + AskTurn("r");
    FreshKeeps();
    RunsKeep(Fresh(), moves);
    PlanIsDistinct(2);
    ApproveOpen(Run(moves).value, tasks, 0, [], "r");
    RunAppend(Fresh(), moves, ApproveTurn("r"));
    moves := moves + ApproveTurn("r");
    var half := tasks[0 := tasks[0].(status := Completed)];
    SecondReady(half);
    assert "q"[0] != "r"[0];
    EscalateFirst(Run(moves).value, half, "q");
    RunAppend(Fresh(), moves, AskTurn("q"));
    moves := moves + AskTurn("q");
    RunsKeep(Fresh(), moves);
    d := Decision("r", Modified, map["note" := "again"]);
    assert "note" in d.payload;
    NamesFirst(Run(moves).value.state, d, half);
    DecidedTask(Run(moves).value.state, d);
  }

  lemma PlanIsDistinct(n: nat)
    ensures DistinctIds(Shape(Reached(n, 0, 0)))
  {
    forall i, j | 0 <= i < j < n ensures Name(i) != Name(j) {
      assert |Name(i)| != |Name(j)|;
    }
  }

  lemma SecondReady(half: Tasks)
    requires half == Reached(2, 0, 0)[0 := Reached(2, 0, 0)[0].(status := Completed)]
    ensures ReadyTasks(half) != [] && ReadyTasks(half)[0] == 1
  {
    hide ReadyUpTo;
    ReadyTasksAreReady(half);
    assert IsReady(half, 1) && !IsReady(half, 0);
    assert IsReady(half, ReadyTasks(half)[0]);
  }

  lemma NamesFirst(s: State, d: Decision, half: Tasks)
    requires |half| == 2 && half[0].Id() == Name(0) && half[0].status == Completed && half[1].Id() == Name(1)
    requires s.plan == Some(half[1 := half[1].(status := InProgress)]) && d.requestId == "r"
    requires s.requests == [HumanRequest("r", Name(0), Approved)] + [HumanRequest("q", Name(1), Awaiting)]
    ensures TaskAsked(s, "r") == Some(0) && s.plan.value[0].status == Completed
  {
    assert s.requests[0].requestId == "r";
    assert FindRequest(s.requests, "r") == Some(0);
    assert s.plan.value[0].Id() == Name(0);
  }
}
