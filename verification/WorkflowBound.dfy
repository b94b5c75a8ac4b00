/** How many node visits one run or resume segment can take. */
module WorkflowBound {
  import opened PlanGraph
  import opened Workflow
  import opened WorkflowSafety
  import opened WorkflowRuns
  import opened WorkflowOrder

  function Max(a: int, b: int): int {
    if a < b then b else a
  }

  /** Dispatches a pending task may still cause in this segment. */
  function Weight(t: TaskRecord): nat {
    if t.status == Pending then Max(1, t.maxRetries - t.retryCount) else 0
  }

  function Weights(tasks: Tasks): nat {
    if tasks == [] then 0 else Weights(tasks[..|tasks| - 1]) + Weight(tasks[|tasks| - 1])
  }

  function Capacity(tasks: Tasks): nat {
    if tasks == [] then 0 else Capacity(tasks[..|tasks| - 1]) + Max(1, tasks[|tasks| - 1].maxRetries)
  }

  lemma {:induction false} ReplaceWeight(tasks: Tasks, i: nat, t: TaskRecord)
    requires i < |tasks| && t.maxRetries == tasks[i].maxRetries
    ensures Weights(tasks[i := t]) + Weight(tasks[i]) == Weights(tasks) + Weight(t)
    ensures Capacity(tasks[i := t]) == Capacity(tasks)
  {
    var n := |tasks| - 1;
    var after := tasks[i := t];
    if i == n {
      assert after[..n] == tasks[..n];
    } else {
      assert after[..n] == tasks[..n][i := t];
      ReplaceWeight(tasks[..n], i, t);
    }
  }

  lemma {:induction false} WeightsWithinCapacity(tasks: Tasks)
    ensures Weights(tasks) <= Capacity(tasks)
    ensures (forall i | 0 <= i < |tasks| :: tasks[i].status == Pending && tasks[i].retryCount == 0) ==>
              Weights(tasks) == Capacity(tasks)
  {
    if tasks != [] {
      WeightsWithinCapacity(tasks[..|tasks| - 1]);
    }
  }

  lemma {:induction false} SynthesizedCapacity(tasks: Tasks)
    ensures Capacity(Synthesized(tasks)) == Capacity(tasks)
  {
    if tasks != [] {
      var n := |tasks| - 1;
      SynthesizedCapacity(tasks[..n]);
      assert Synthesized(tasks)[..n] == Synthesized(tasks[..n]);
    }
  }

  lemma {:induction false} DefaultCapacity(tasks: Tasks)
    requires forall i | 0 <= i < |tasks| :: tasks[i].maxRetries == DEFAULT_MAX_RETRIES
    ensures Capacity(tasks) == 3 * |tasks|
  {
    if tasks != [] {
      DefaultCapacity(tasks[..|tasks| - 1]);
    }
  }

  /** What a task under review can still cost if the critic asks for a retry. */
  function Again(t: TaskRecord): nat {
    Max(0, t.maxRetries - t.retryCount - 1)
  }

  function CurrentAgain(g: Graph): nat {
    var at := g.state.Lookup(g.currentTask);
    if at.Some? then Again(g.state.plan.value[at.value]) else 0
  }

  /** An upper bound on the visits left in this segment, once a plan is fixed. */
  function VisitsLeft(g: Graph): nat {
    var w := Weights(PlanTasks(g));
    var c := Capacity(PlanTasks(g));
    match g.at
    case Supervisor =>
      if g.decision.Some? then 4 + 3 * c
      else if g.state.status == RunFailed then 2
      else if g.state.plan.None? then 4
      else 3 * w + 2
    case Planner => 3
    case Retrieval => 3 * w + 1
    case Tool => 3 * w + 1
    case Validator => 3 * (w + CurrentAgain(g)) + 3
    case HumanGate => if g.decision.Some? then 3 * c + 3 else 1
    case Synthesis => 1
    case FailedNode => 1
    case End => 0
  }

  predicate NoPlanning(tasks: Tasks) {
    forall i | 0 <= i < |tasks| :: tasks[i].vertex.kind != TaskType.Planning
  }

  /** The planner proposes no PLANNING task in this move. */
  predicate PlainMove(m: Move) {
    m.Node? && (m.outcome.Planned? ==> forall p | p in m.outcome.items :: p.vertex.kind != TaskType.Planning)
  }

  /** What the bound rests on: ids are distinct, a worker is at a pending task, the critic at one that is not. */
  ghost predicate Orderly(g: Graph) {
    && (g.state.plan.Some? ==> DistinctIds(Shape(g.state.plan.value)))
    && (g.decision.Some? ==> g.state.plan.Some? && g.at in {Supervisor, HumanGate, End})
    && var at := g.state.Lookup(g.currentTask);
       match g.at
       case Planner => g.state.plan.None? && g.state.status != RunFailed
       case Retrieval => at.Some? && g.state.plan.value[at.value].status == Pending
       case Tool => at.Some? && g.state.plan.value[at.value].status == Pending
       case Validator => at.Some? && g.state.plan.value[at.value].status != Pending
       case _ => true
  }

  /** One task changes and keeps its vertex and its ceiling. */
  ghost predicate OneChange(g: Graph, g1: Graph, i: nat, t: TaskRecord) {
    && g.state.plan.Some? && i < |g.state.plan.value| && g1.state.plan == Some(g.state.plan.value[i := t])
    && t.vertex == g.state.plan.value[i].vertex && t.maxRetries == g.state.plan.value[i].maxRetries
  }

  lemma ChangeKeepsShape(g: Graph, g1: Graph, i: nat, t: TaskRecord)
    requires OneChange(g, g1, i, t)
    ensures Shape(PlanTasks(g1)) == Shape(PlanTasks(g)) && Capacity(PlanTasks(g1)) == Capacity(PlanTasks(g))
    ensures Weights(PlanTasks(g1)) + Weight(PlanTasks(g)[i]) == Weights(PlanTasks(g)) + Weight(t)
    ensures NoPlanning(PlanTasks(g)) ==> NoPlanning(PlanTasks(g1))
  {
    ReplaceWeight(PlanTasks(g), i, t);
    assert Shape(PlanTasks(g1)) == Shape(PlanTasks(g));
  }

  /** The visit costs what it should, and the plan it leaves is as good as before. */
  ghost predicate Spends(g: Graph, g1: Graph) {
    && VisitsLeft(g1) < VisitsLeft(g) && Capacity(PlanTasks(g1)) == Capacity(PlanTasks(g))
    && Orderly(g1) && NoPlanning(PlanTasks(g1)) && g1.at != Planner
  }

  lemma WorkerSpends(g: Graph, o: Outcome)
    requires Orderly(g) && NoPlanning(PlanTasks(g)) && g.at in {NodeName.Retrieval, Tool} && Fits(g, o)
    ensures Spends(g, Visit(g, o))
  {
    hide SupervisorNode, PlannerNode, ValidatorNode, HumanGateNode, SynthesisNode, FinishFailed, ReadyTasks, FindFrom;
    var i := g.state.Lookup(g.currentTask).value;
    var t := PlanTasks(g)[i].(status := if o.WorkerOk? then InProgress else Failed);
    var g1 := Visit(g, o);
    assert OneChange(g, g1, i, t);
    ChangeKeepsShape(g, g1, i, t);
    FindsTheTask(PlanTasks(g), i);
    FindsTheTask(PlanTasks(g1), i);
  }

  lemma ValidatorSpends(g: Graph, o: Outcome)
    requires Orderly(g) && NoPlanning(PlanTasks(g)) && g.at == Validator && Fits(g, o)
    ensures Spends(g, Visit(g, o))
  {
    hide SupervisorNode, PlannerNode, WorkerNode, HumanGateNode, SynthesisNode, FinishFailed, ReadyTasks, FindFrom;
    var i := g.state.Lookup(g.currentTask).value;
    var g1 := Visit(g, o);
    var t := g1.state.plan.value[i];
    assert Rule(o.result) == Escalate ==> PlanTasks(g)[i := t] == PlanTasks(g);
    assert OneChange(g, g1, i, t);
    ChangeKeepsShape(g, g1, i, t);
  }

  /** The gate changes at most the task of the decision. */
  lemma GateTouches(g: Graph)
    requires Orderly(g) && g.at == HumanGate && Fits(g, Quiet)
    ensures Visit(g, Quiet).state.plan == g.state.plan || exists i, t :: OneChange(g, Visit(g, Quiet), i, t)
  {
    hide FindFrom, FindRequest;
    if g.decision.Some? {
      var at := g.state.Lookup(GateTask(g));
      assert ApplyDecision(g.state, g.decision.value).plan == g.state.plan;
      if at.Some? {
        var i := at.value;
        var t := Visit(g, Quiet).state.plan.value[i];
        assert PlanTasks(g)[i := PlanTasks(g)[i]] == PlanTasks(g);
        assert OneChange(g, Visit(g, Quiet), i, t);
      }
    }
  }

  lemma GateExit(g: Graph)
    requires g.at == HumanGate
    ensures Visit(g, Quiet).at in {Supervisor, FailedNode, End}
    ensures Visit(g, Quiet).at != End ==> Visit(g, Quiet).decision.None? && g.decision.Some?
    ensures Visit(g, Quiet).at == Supervisor ==> Visit(g, Quiet).state.status == Running && g.decision.Some?
    ensures Visit(g, Quiet).decision.Some? ==> g.decision.Some?
  {
  }

  lemma GateSpends(g: Graph)
    requires Orderly(g) && NoPlanning(PlanTasks(g)) && g.at == HumanGate && Fits(g, Quiet)
    ensures Spends(g, Visit(g, Quiet))
  {
    hide HumanGateNode;
    var g1 := Visit(g, Quiet);
    GateExit(g);
    GateTouches(g);
    if g1.state.plan != g.state.plan {
      var i, t :| OneChange(g, g1, i, t);
      ChangeKeepsShape(g, g1, i, t);
    }
    WeightsWithinCapacity(PlanTasks(g1));
  }

  lemma SupervisorSpends(g: Graph)
    requires Orderly(g) && NoPlanning(PlanTasks(g)) && g.at == Supervisor
    ensures var g1 := Visit(g, Quiet);
            VisitsLeft(g1) < VisitsLeft(g) && PlanTasks(g1) == PlanTasks(g) && Orderly(g1)
            && (g1.at == Planner ==> g.state.plan.None? && g.decision.None?)
  {
    hide PlannerNode, WorkerNode, ValidatorNode, HumanGateNode, SynthesisNode, FinishFailed, ReadyTasks, FindFrom;
    if g.state.plan.Some? {
      var tasks := g.state.plan.value;
      ReadyTasksAreReady(tasks);
      if ReadyTasks(tasks) != [] {
        FindsTheTask(tasks, ReadyTasks(tasks)[0]);
      }
    }
  }

  lemma PlannerSpends(g: Graph, o: Outcome)
    requires Orderly(g) && g.at == Planner && Fits(g, o) && PlainMove(Node(o))
    ensures var g1 := Visit(g, o);
            && Orderly(g1) && NoPlanning(PlanTasks(g1)) && g1.at == Supervisor
            && (if Replans(g, Node(o)) then VisitsLeft(g1) == 2 + 3 * Capacity(PlanTasks(g1))
                else VisitsLeft(g1) < VisitsLeft(g) && PlanTasks(g1) == PlanTasks(g))
  {
    hide SupervisorNode, WorkerNode, ValidatorNode, HumanGateNode, SynthesisNode, FinishFailed, ReadyTasks, FindFrom;
    if Replans(g, Node(o)) {
      var tasks := DomainTasks(o.items);
      WeightsWithinCapacity(tasks);
      assert Shape(tasks) == ItemShape(o.items);
    }
  }

  lemma EndSpends(g: Graph)
    requires Orderly(g) && NoPlanning(PlanTasks(g)) && g.at in {NodeName.Synthesis, FailedNode}
    ensures Spends(g, Visit(g, Quiet))
  {
    SynthesizedCapacity(PlanTasks(g));
    assert Shape(Synthesized(PlanTasks(g))) == Shape(PlanTasks(g));
  }

  /** Every visit lowers the bound, except the one that fixes the plan. */
  lemma VisitSpends(g: Graph, m: Move)
    requires Orderly(g) && Enabled(g, m) && PlainMove(m) && NoPlanning(PlanTasks(g))
    ensures Orderly(Next(g, m)) && NoPlanning(PlanTasks(Next(g, m)))
    ensures Next(g, m).at == Planner ==> g.at == Supervisor && g.state.plan.None? && g.decision.None?
    ensures if Replans(g, m) then VisitsLeft(Next(g, m)) == 2 + 3 * Capacity(PlanTasks(Next(g, m)))
            else VisitsLeft(Next(g, m)) < VisitsLeft(g) && Capacity(PlanTasks(Next(g, m))) == Capacity(PlanTasks(g))
  {
    hide Visit, VisitsLeft, Orderly;
    match g.at
    case Supervisor => SupervisorSpends(g);
    case Planner => PlannerSpends(g, m.outcome);
    case Retrieval => WorkerSpends(g, m.outcome);
    case Tool => WorkerSpends(g, m.outcome);
    case Validator => ValidatorSpends(g, m.outcome);
    case HumanGate => GateSpends(g);
    case Synthesis => EndSpends(g);
    case FailedNode => EndSpends(g);
  }

  /** Where a segment starts: a new run, or a run with a plan that is resumed with any decision whatever. */
  ghost predicate SegmentStart(g: Graph) {
    g == Fresh()
    || (g.state.plan.Some? && DistinctIds(Shape(g.state.plan.value)) && exists d :: g == Resumed(g.state, d))
  }

  /** A segment visits at most 4 + 3 * (sum of max(1, max_retries)) nodes of its plan, whatever the decision it starts
      with. */
  lemma {:induction false} SegmentBound(g0: Graph, moves: seq<Move>)
    requires SegmentStart(g0) && NoPlanning(PlanTasks(g0))
    requires forall m | m in moves :: PlainMove(m)
    requires RunFrom(g0, moves).Some?
    ensures var g := RunFrom(g0, moves).value;
            && NoPlanning(PlanTasks(g)) && Orderly(g)
            && |moves| + VisitsLeft(g) <= 4 + 3 * Capacity(PlanTasks(g))
            && (g.at == Planner ==> |moves| == 1)
            && (g.at == Supervisor && g.state.plan.None? && g.state.status != RunFailed ==> |moves| == 0)
  {
    if moves != [] {
      var front, m := moves[..|moves| - 1], moves[|moves| - 1];
      SegmentBound(g0, front);
      assert m in moves;
      VisitSpends(RunFrom(g0, front).value, m);
    }
  }

  /** Every run that waits for a human can be resumed with any decision and then starts a bounded segment. */
  lemma WaitingStartsSegment(g: Graph, d: Decision)
    requires Inv(g) && Enabled(g, Resume(d))
    ensures SegmentStart(Resumed(g.state, d))
  {
  }

  /** With the planner's default of three retries: a fresh run over n tasks makes at most 4 + 9 * n visits. */
  lemma FreshRunBound(moves: seq<Move>)
    requires Run(moves).Some? && forall m | m in moves :: PlainMove(m)
    ensures |moves| <= 4 + 9 * |PlanTasks(Run(moves).value)|
    ensures |PlanTasks(Run(moves).value)| <= 5 ==> |moves| <= 49
  {
    SegmentBound(Fresh(), moves);
    DefaultRetries(moves);
    DefaultCapacity(PlanTasks(Run(moves).value));
  }

  lemma {:induction false} DefaultRetries(moves: seq<Move>)
    requires Run(moves).Some?
    ensures forall t | t in PlanTasks(Run(moves).value) :: t.maxRetries == DEFAULT_MAX_RETRIES
  {
    if moves != [] {
      var front, m := moves[..|moves| - 1], moves[|moves| - 1];
      DefaultRetries(front);
      FreshKeeps();
      RunsKeep(Fresh(), front);
      var g := Run(front).value;
      if PlanKept(g, m) && PlanTasks(g) != [] {
        var i, t := MoveChange(g, m);
        assert PlanTasks(g)[i] in PlanTasks(g);
      }
    }
  }
}
