/** Exactly which human decisions let the resumed run report a dependency deadlock. */
module WorkflowDeadlock {
  import opened PlanGraph
  import opened Workflow
  import opened WorkflowSafety
  import opened WorkflowRuns
  import opened WorkflowOrder
  import opened WorkflowStuck

  // ---- What the prospect depends on ----

  /** The same tasks in the same states; retry counts and inputs may differ. */
  predicate SameProgress(a: Tasks, b: Tasks) {
    |a| == |b| && forall i | 0 <= i < |a| :: a[i].vertex == b[i].vertex && a[i].status == b[i].status
  }

  lemma {:induction false} SameReady(a: Tasks, b: Tasks, n: nat)
    requires SameProgress(a, b) && n <= |a|
    ensures ReadyUpTo(a, n) == ReadyUpTo(b, n)
  {
    if n > 0 {
      SameReady(a, b, n - 1);
      assert CompletedIds(a) == CompletedIds(b) by {
        SameCompleted(a, b);
        SameCompleted(b, a);
      }
    }
  }

  lemma SameCompleted(a: Tasks, b: Tasks)
    requires SameProgress(a, b)
    ensures CompletedIds(a) <= CompletedIds(b)
  {
    forall x | x in CompletedIds(a) ensures x in CompletedIds(b) {
      var j :| 0 <= j < |a| && a[j].status == Completed && a[j].Id() == x;
      assert b[j].Id() == x;
    }
  }

  lemma {:induction false} SameProspect(a: Tasks, b: Tasks)
    requires SameProgress(a, b)
    ensures DeadlockAhead(a) <==> DeadlockAhead(b)
    decreases PendingAt(a)
  {
    SameReady(a, b, |a|);
    hide ReadyUpTo;
    assert HasFailedTasks(a) <==> HasFailedTasks(b);
    if ReadyTasks(a) != [] {
      ReadyTasksAreReady(a);
      var r := ReadyTasks(a)[0];
      DoneShrinks(a, r);
      SameProspect(Done(a, r), Done(b, r));
    }
  }

  /** A plan in which nothing runs gets never stuck. */
  lemma SettledProspect(tasks: Tasks)
    requires PlanOk(tasks) && Settled(tasks)
    ensures !DeadlockAhead(tasks)
  {
    hide Acyclic;
    forall i | 0 <= i < |tasks| ensures tasks[i].status in {Pending, InProgress, Completed, Failed} {
      assert TaskOk(tasks[i], CompletedIds(tasks));
    }
    DeadlockAheadIff(tasks);
  }

  lemma FailedProspect(tasks: Tasks, i: nat)
    requires i < |tasks| && tasks[i].status == Failed
    ensures !DeadlockAhead(tasks)
  {
  }

  // ---- Where no deadlock can come any more ----

  /** Task `i` is the one the supervisor dispatched, and its completion leads to no deadlock. */
  ghost predicate Harmless(tasks: Tasks, i: nat) {
    && i < |tasks| && !DeadlockAhead(Done(tasks, i))
    && var waiting := tasks[i := tasks[i].(status := Pending)];
       ReadyTasks(waiting) != [] && ReadyTasks(waiting)[0] == i && !EndsRun(tasks[i].vertex.kind)
  }

  ghost predicate Escaped(g: Graph) {
    && DependencyDeadlock !in g.state.errors
    && (g.state.plan.Some? ==> DistinctIds(Shape(g.state.plan.value)))
    && (g.at in {Supervisor, Planner, NodeName.Retrieval, Tool, Validator, HumanGate} ==> g.decision.None?)
    && var at := g.state.Lookup(g.currentTask);
       match g.at
       case Supervisor =>
         g.state.status == RunFailed || g.state.requiresHuman
         || g.state.plan.None? || !DeadlockAhead(g.state.plan.value)
       case Retrieval => at.Some? && Harmless(g.state.plan.value, at.value)
       case Tool => at.Some? && Harmless(g.state.plan.value, at.value)
       case Validator => at.Some? && Harmless(g.state.plan.value, at.value)
       case _ => true
  }

  lemma DispatchHarmless(tasks: Tasks)
    requires !DeadlockAhead(tasks) && ReadyTasks(tasks) != [] && !EndsRun(tasks[ReadyTasks(tasks)[0]].vertex.kind)
    ensures Harmless(tasks, ReadyTasks(tasks)[0])
  {
    hide ReadyUpTo;
    ReadyTasksAreReady(tasks);
    var r := ReadyTasks(tasks)[0];
    assert tasks[r := tasks[r].(status := Pending)] == tasks;
    if HasFailedTasks(tasks) {
      var j :| 0 <= j < |tasks| && tasks[j].status == Failed;
      FailedProspect(Done(tasks, r), j);
    }
  }

  lemma SupervisorEscapes(g: Graph)
    requires Escaped(g) && g.at == Supervisor
    ensures Escaped(Visit(g, Quiet))
  {
    hide PlannerNode, WorkerNode, ValidatorNode, HumanGateNode, SynthesisNode, FinishFailed, ReadyTasks, FindFrom,
      DistinctIds, Harmless;
    if g.state.plan.Some? && ReadyTasks(g.state.plan.value) != [] {
      var tasks := g.state.plan.value;
      ReadyTasksAreReady(tasks);
      FindsTheTask(tasks, ReadyTasks(tasks)[0]);
      if !DeadlockAhead(tasks) && !EndsRun(tasks[ReadyTasks(tasks)[0]].vertex.kind) {
        DispatchHarmless(tasks);
      }
    }
  }

  lemma PlannerEscapes(g: Graph, o: Outcome)
    requires Escaped(g) && g.at == Planner && Fits(g, o)
    ensures Escaped(Visit(g, o))
  {
    hide SupervisorNode, WorkerNode, ValidatorNode, HumanGateNode, SynthesisNode, FinishFailed, ReadyTasks, FindFrom,
      Acyclic, DeadlockAhead;
    if o.Planned? && ValidDag(ItemShape(o.items)) {
      var tasks := DomainTasks(o.items);
      assert Shape(tasks) == ItemShape(o.items);
      SettledProspect(tasks);
    }
  }

  /** Another status of the dispatched task does not change the prospect of its completion. */
  lemma StillHarmless(tasks: Tasks, i: nat, t: TaskRecord)
    requires Harmless(tasks, i) && t == tasks[i].(status := t.status)
    ensures Harmless(tasks[i := t], i) && Shape(tasks[i := t]) == Shape(tasks)
  {
    hide DeadlockAhead, ReadyTasks;
    var after := tasks[i := t];
    assert Done(after, i) == Done(tasks, i);
    assert after[i := after[i].(status := Pending)] == tasks[i := tasks[i].(status := Pending)];
    assert Shape(after) == Shape(tasks);
  }

  lemma WorkerEscapes(g: Graph, o: Outcome)
    requires Escaped(g) && g.at in {NodeName.Retrieval, Tool} && Fits(g, o)
    ensures Escaped(Visit(g, o))
  {
    hide SupervisorNode, PlannerNode, ValidatorNode, HumanGateNode, SynthesisNode, FinishFailed, ReadyTasks, FindFrom,
      DistinctIds, Harmless, DeadlockAhead;
    var tasks, i := g.state.plan.value, g.state.Lookup(g.currentTask).value;
    var t := tasks[i].(status := if o.WorkerOk? then InProgress else Failed);
    StillHarmless(tasks, i, t);
    FindsTheTask(tasks, i);
    FindsTheTask(tasks[i := t], i);
  }

  /** Whatever the critic makes of the task: completed, failed, or pending again. */
  lemma JudgedHarmless(tasks: Tasks, i: nat, t: TaskRecord)
    requires Harmless(tasks, i) && t.vertex == tasks[i].vertex && t.status in {Completed, Failed, Pending}
    ensures !DeadlockAhead(tasks[i := t]) && Shape(tasks[i := t]) == Shape(tasks)
  {
    hide ReadyUpTo;
    var after := tasks[i := t];
    assert Shape(after) == Shape(tasks);
    if t.status == Completed {
      SameProspect(after, Done(tasks, i));
    } else if t.status == Failed {
      FailedProspect(after, i);
    } else {
      var waiting := tasks[i := tasks[i].(status := Pending)];
      SameProspect(after, waiting);
      assert Done(waiting, i) == Done(tasks, i);
    }
  }

  lemma ValidatorEscapes(g: Graph, o: Outcome)
    requires Escaped(g) && g.at == Validator && Fits(g, o)
    ensures Escaped(Visit(g, o))
  {
    hide SupervisorNode, PlannerNode, WorkerNode, HumanGateNode, SynthesisNode, FinishFailed, ReadyTasks, FindFrom,
      DistinctIds, Harmless, DeadlockAhead;
    var tasks, i := g.state.plan.value, g.state.Lookup(g.currentTask).value;
    var t := Visit(g, o).state.plan.value[i];
    if Rule(o.result) != Escalate {
      JudgedHarmless(tasks, i, t);
    }
  }

  lemma VisitEscapes(g: Graph, o: Outcome)
    requires Escaped(g) && g.at != End && Fits(g, o)
    ensures Escaped(Visit(g, o))
  {
    hide Visit, Escaped;
    match g.at
    case Supervisor => SupervisorEscapes(g);
    case Planner => PlannerEscapes(g, o);
    case Retrieval => WorkerEscapes(g, o);
    case Tool => WorkerEscapes(g, o);
    case Validator => ValidatorEscapes(g, o);
    case HumanGate => OtherEscapes(g);
    case Synthesis => OtherEscapes(g);
    case FailedNode => OtherEscapes(g);
  }

  lemma OtherEscapes(g: Graph)
    requires Escaped(g) && g.at in {HumanGate, NodeName.Synthesis, FailedNode}
    ensures Escaped(Visit(g, Quiet))
  {
    hide DeadlockAhead, Harmless;
    if g.state.plan.Some? {
      assert Shape(Synthesized(g.state.plan.value)) == Shape(g.state.plan.value);
    }
  }

  // ---- The way to the deadlock ----

  lemma {:induction false} RunAppend(g0: Graph, a: seq<Move>, b: seq<Move>)
    requires RunFrom(g0, a).Some?
    ensures RunFrom(g0, a + b) == RunFrom(RunFrom(g0, a).value, b)
  {
    hide Admissible, Next;
    if b == [] {
      assert a + b == a;
    } else {
      var n := |b| - 1;
      RunAppend(g0, a, b[..n]);
      assert (a + b)[..|a + b| - 1] == a + b[..n] && (a + b)[|a + b| - 1] == b[n];
    }
  }

  lemma RunOne(g: Graph, o: Outcome)
    requires g.at != End && Fits(g, o)
    ensures RunFrom(g, [Node(o)]) == Some(Visit(g, o))
  {
    assert [Node(o)][..0] == [];
  }

  predicate NodesOnly(moves: seq<Move>) {
    forall m | m in moves :: m.Node?
  }

  /** The supervisor with a plan and nothing else to look at. */
  ghost predicate AtPlan(g: Graph, tasks: Tasks) {
    && g.at == Supervisor && g.decision.None? && g.state.status == Running && !g.state.requiresHuman
    && g.state.plan == Some(tasks) && DistinctIds(Shape(tasks))
  }

  function Acceptance(): Outcome {
    Judged(CriticResult(Success, false, Critique(Some(Valid), true, false)), "")
  }

  /** What a ruling makes of the task it is about. */
  function Ruled(t: TaskRecord, ruling: Ruling): TaskRecord {
    match ruling
    case Escalate => t
    case Accept => t.(status := Completed)
    case Retry => t.(retryCount := t.retryCount + 1,
                     status := if t.retryCount + 1 < t.maxRetries then Pending else Failed)
    case Reject => t.(status := Failed)
  }

  lemma DispatchFirst(g: Graph, tasks: Tasks)
    requires AtPlan(g, tasks) && ReadyTasks(tasks) != [] && !EndsRun(tasks[ReadyTasks(tasks)[0]].vertex.kind)
    ensures var g1, r := Visit(g, Quiet), ReadyTasks(tasks)[0];
            g1.at in {NodeName.Retrieval, Tool} && g1.state == g.state.Stepped() && g1.decision.None?
            && g1.state.Lookup(g1.currentTask) == Some(r)
  {
    hide ReadyTasks, FindFrom, DistinctIds;
    FindsTheTask(tasks, ReadyTasks(tasks)[0]);
  }

  lemma WorkAndJudge(g: Graph, tasks: Tasks, r: nat, o: Outcome)
    requires g.at in {NodeName.Retrieval, Tool} && g.decision.None? && g.state.plan == Some(tasks)
              && DistinctIds(Shape(tasks))
    requires g.state.Lookup(g.currentTask) == Some(r) && r < |tasks| && g.state.status == Running
              && !g.state.requiresHuman
    requires o.Judged? && Rule(o.result) != Escalate
    ensures var g1 := Visit(g, WorkerOk);
            g1.at == Validator && Fits(g1, o) && AtPlan(Visit(g1, o), tasks[r := Ruled(tasks[r], Rule(o.result))])
  {
    hide FindFrom, DistinctIds, Rule;
    var working := tasks[r := tasks[r].(status := InProgress)];
    var g1 := Visit(g, WorkerOk);
    assert g1.state.plan == Some(working) && Shape(working) == Shape(tasks);
    FindsTheTask(tasks, r);
    FindsTheTask(working, r);
    assert g1.state.Lookup(g1.currentTask) == Some(r);
    var t := Ruled(tasks[r], Rule(o.result));
    assert Ruled(working[r], Rule(o.result)) == t && working[r := t] == tasks[r := t];
    assert Shape(tasks[r := t]) == Shape(tasks);
  }

  /** Supervisor, worker, critic. */
  function Turn(o: Outcome): seq<Move> {
    [Node(Quiet)] + [Node(WorkerOk)] + [Node(o)]
  }

  /** The first ready task is dispatched, done and judged. */
  lemma OneTurn(g: Graph, tasks: Tasks, o: Outcome)
    requires AtPlan(g, tasks) && ReadyTasks(tasks) != [] && !EndsRun(tasks[ReadyTasks(tasks)[0]].vertex.kind)
    requires o.Judged? && Rule(o.result) != Escalate
    ensures RunFrom(g, Turn(o)).Some?
    ensures var r := ReadyTasks(tasks)[0];
            AtPlan(RunFrom(g, Turn(o)).value, tasks[r := Ruled(tasks[r], Rule(o.result))])
  {
    hide Visit, RunFrom, ReadyTasks, Rule;
    DispatchFirst(g, tasks);
    var g1 := Visit(g, Quiet);
    WorkAndJudge(g1, tasks, ReadyTasks(tasks)[0], o);
    var g2 := Visit(g1, WorkerOk);
    RunOne(g, Quiet);
    RunOne(g1, WorkerOk);
    RunOne(g2, o);
    RunAppend(g, [Node(Quiet)], [Node(WorkerOk)]);
    RunAppend(g, [Node(Quiet)] + [Node(WorkerOk)], [Node(o)]);
  }

  lemma StuckReports(g: Graph, tasks: Tasks)
    requires AtPlan(g, tasks) && DeadlockAhead(tasks) && ReadyTasks(tasks) == []
    ensures DependencyDeadlock in Visit(g, Quiet).state.errors
  {
  }

  lemma {:induction false} DeadlockIsReached(g: Graph, tasks: Tasks) returns (moves: seq<Move>)
    requires AtPlan(g, tasks) && DeadlockAhead(tasks)
    ensures NodesOnly(moves) && RunFrom(g, moves).Some? && DependencyDeadlock in RunFrom(g, moves).value.state.errors
    decreases PendingAt(tasks)
  {
    hide RunFrom, Visit;
    if ReadyTasks(tasks) == [] {
      StuckReports(g, tasks);
      RunOne(g, Quiet);
      moves := [Node(Quiet)];
    } else {
      ReadyTasksAreReady(tasks);
      var r := ReadyTasks(tasks)[0];
      DoneShrinks(tasks, r);
      var first := Turn(Acceptance());
      OneTurn(g, tasks, Acceptance());
      var rest := DeadlockIsReached(RunFrom(g, first).value, Done(tasks, r));
      RunAppend(g, first, rest);
      moves := first + rest;
    }
  }

  // ---- The decisions ----

  /** The graph after the supervisor has passed a decision to the gate and the gate has acted on it. */
  ghost function Decided(s: State, d: Decision): Graph {
    Visit(Passed(s, d), Quiet)
  }

  ghost function Passed(s: State, d: Decision): (g: Graph)
    ensures g.at == HumanGate && g.state == s.Stepped() && g.decision == Some(d)
  {
    Visit(Resumed(s, d), Quiet)
  }

  lemma DecidedWhere(s: State, d: Decision)
    ensures var g1 := Decided(s, d);
            && (if d.status in {Approved, Modified}
                then g1.at == Supervisor && g1.decision.None? && g1.state.status == Running && !g1.state.requiresHuman
                else g1.at in {FailedNode, End})
            && (DependencyDeadlock in g1.state.errors ==> DependencyDeadlock in s.errors)
  {
    hide FindFrom, FindRequest, ReadyTasks, SupervisorNode;
  }

  lemma DecidedPlan(s: State, d: Decision)
    requires s.plan.Some?
    ensures Decided(s, d).state.plan.Some? && Shape(Decided(s, d).state.plan.value) == Shape(s.plan.value)
  {
    hide FindFrom, FindRequest, ReadyTasks, SupervisorNode;
    var gate := Passed(s, d);
    assert ApplyDecision(gate.state, d).plan == s.plan;
    assert Shape(PlanTasks(Decided(s, d))) == Shape(s.plan.value);
  }

  lemma AfterDecision(g: Graph, d: Decision)
    requires Inv(g) && Enabled(g, Resume(d))
    ensures var g1 := Decided(g.state, d);
            if d.status in {Approved, Modified} then AtPlan(g1, PlanTasks(g1)) else g1.at in {FailedNode, End}
    ensures DependencyDeadlock !in Decided(g.state, d).state.errors
    ensures g.state.plan.Some? && DistinctIds(Shape(PlanTasks(Decided(g.state, d))))
              && Decided(g.state, d).state.plan.Some?
  {
    hide Decided, DistinctIds, Acyclic;
    DecidedWhere(g.state, d);
    DecidedPlan(g.state, d);
  }

  /** A run that starts at the decision and is not yet over has passed through the gate. */
  lemma {:induction false} SegmentEscapes(g: Graph, d: Decision, moves: seq<Move>)
    requires Inv(g) && Enabled(g, Resume(d))
    requires !(d.status in {Approved, Modified} && DeadlockAhead(PlanTasks(Decided(g.state, d))))
    requires NodesOnly(moves) && RunFrom(Resumed(g.state, d), moves).Some?
    ensures var u := RunFrom(Resumed(g.state, d), moves).value;
            if |moves| == 0 then u == Resumed(g.state, d) else if |moves| == 1 then u ==
                Passed(g.state, d) else Escaped(u)
  {
    hide Inv, DeadlockAhead, Visit, Escaped;
    if moves != [] {
      var front, m := moves[..|moves| - 1], moves[|moves| - 1];
      assert m in moves;
      SegmentEscapes(g, d, front);
      var u := RunFrom(Resumed(g.state, d), front).value;
      if |moves| == 2 {
        AfterDecision(g, d);
        DecidedEscapes(g, d);
      } else if |moves| > 2 {
        VisitEscapes(u, m.outcome);
      }
    }
  }

  lemma DecidedEscapes(g: Graph, d: Decision)
    requires Inv(g) && Enabled(g, Resume(d))
    requires !(d.status in {Approved, Modified} && DeadlockAhead(PlanTasks(Decided(g.state, d))))
    ensures Escaped(Decided(g.state, d))
  {
    hide Inv, DeadlockAhead, Decided, Enabled;
    AfterDecision(g, d);
  }

  lemma DecidedStates(s: State, d: Decision)
    requires s.plan.Some? && FourStates(s.plan.value)
    ensures FourStates(PlanTasks(Decided(s, d)))
  {
    hide FindFrom, FindRequest, ReadyTasks, SupervisorNode;
    var gate := Passed(s, d);
    assert ApplyDecision(gate.state, d).plan == s.plan;
  }

  lemma WaitingPlan(g: Graph, d: Decision)
    requires Inv(g) && Enabled(g, Resume(d))
    ensures g.state.plan.Some? && PlanOk(g.state.plan.value) && FourStates(g.state.plan.value)
  {
    hide Acyclic;
    var tasks := g.state.plan.value;
    forall i | 0 <= i < |tasks| ensures tasks[i].status in {Pending, InProgress, Completed, Failed} {
      assert TaskOk(tasks[i], CompletedIds(tasks));
    }
  }

  /** What the decision leaves gets stuck exactly if the plan says so. */
  lemma DecidedStuck(g: Graph, d: Decision)
    requires Inv(g) && Enabled(g, Resume(d))
    ensures DeadlockAhead(PlanTasks(Decided(g.state, d))) <==> Stuck(PlanTasks(Decided(g.state, d)))
  {
    hide Inv, Enabled, Decided, FourStates, DeadlockAhead, Stuck;
    WaitingPlan(g, d);
    DecidedPlan(g.state, d);
    DecidedStates(g.state, d);
    DeadlockAheadIff(PlanTasks(Decided(g.state, d)));
  }

  /** For a run that waits for a human and any decision: some continuation of the resumed segment reports a
      dependency deadlock exactly when the decision lets the run go on and leaves it a plan that gets stuck. */
  lemma DecisionDeadlocksIff(g: Graph, d: Decision)
    requires Inv(g) && Enabled(g, Resume(d))
    ensures (exists moves | NodesOnly(moves) && RunFrom(Resumed(g.state, d), moves).Some? ::
               DependencyDeadlock in RunFrom(Resumed(g.state, d), moves).value.state.errors)
            <==> d.status in {Approved, Modified} && Stuck(PlanTasks(Decided(g.state, d)))
  {
    hide Inv, DeadlockAhead, Stuck, Decided, RunFrom, Visit, Escaped, Enabled;
    var start := Resumed(g.state, d);
    DecidedStuck(g, d);
    if d.status in {Approved, Modified} && DeadlockAhead(PlanTasks(Decided(g.state, d))) {
      AfterDecision(g, d);
      var rest := DeadlockIsReached(Decided(g.state, d), PlanTasks(Decided(g.state, d)));
      ReachDecided(g.state, d);
      RunAppend(start, [Node(Quiet), Node(Quiet)], rest);
      var moves := [Node(Quiet), Node(Quiet)] + rest;
      assert NodesOnly(moves);
    } else {
      forall moves | NodesOnly(moves) && RunFrom(start, moves).Some?
        ensures DependencyDeadlock !in RunFrom(start, moves).value.state.errors
      {
        SegmentEscapes(g, d, moves);
        NoReport(g, d, RunFrom(start, moves).value);
      }
    }
  }

  lemma NoReport(g: Graph, d: Decision, u: Graph)
    requires Inv(g) && (u == Resumed(g.state, d) || u == Passed(g.state, d) || Escaped(u))
    ensures DependencyDeadlock !in u.state.errors
  {
    hide Located, Harmless, DeadlockAhead;
  }

  lemma ReachDecided(s: State, d: Decision)
    ensures RunFrom(Resumed(s, d), [Node(Quiet), Node(Quiet)]) == Some(Decided(s, d))
  {
    hide SupervisorNode, HumanGateNode;
    RunOne(Resumed(s, d), Quiet);
    RunOne(Passed(s, d), Quiet);
    RunAppend(Resumed(s, d), [Node(Quiet)], [Node(Quiet)]);
    assert [Node(Quiet)] + [Node(Quiet)] == [Node(Quiet), Node(Quiet)];
  }
}
