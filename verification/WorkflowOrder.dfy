/** What whole runs promise about tasks: completion order, retry budgets, and how long a segment can take. */
module WorkflowOrder {
  import opened Lists
  import opened PlanGraph
  import opened Workflow
  import opened WorkflowSafety
  import opened WorkflowRuns

  // ---- The effect of one move on the plan ----

  /** The only change a visit can make to a plan outside planning and synthesis: task `i` becomes `t`. */
  ghost predicate Change(g: Graph, i: nat, t: TaskRecord)
    requires g.state.plan.Some? && i < |g.state.plan.value|
  {
    var was := g.state.plan.value[i];
    && t.vertex == was.vertex && t.maxRetries == was.maxRetries
    && (t == was
        || match g.at
           case Retrieval => Starts(g, i, t)
           case Tool => Starts(g, i, t)
           case Validator =>
             UnderReview(was)
             && if t.retryCount == was.retryCount then t.status in {Completed, Failed}
                else t.retryCount == was.retryCount + 1 && t.status == if t.CanRetry() then Pending else Failed
           case HumanGate =>
             && UnderReview(was) && t.retryCount == was.retryCount && g.decision.Some?
             && t.status == (match g.decision.value.status
                             case Approved => Completed case Modified => Pending case _ => Failed)
           case _ => false)
  }

  ghost predicate Starts(g: Graph, i: nat, t: TaskRecord)
    requires g.state.plan.Some? && i < |g.state.plan.value|
  {
    var was := g.state.plan.value[i];
    IsReady(g.state.plan.value, i) && t.status in {InProgress, Failed} && t.retryCount == was.retryCount
  }

  predicate PlanKept(g: Graph, m: Move) {
    g.state.plan.Some? && (m.Node? ==> g.at != Planner && g.at != NodeName.Synthesis)
  }

  lemma GateChange(g: Graph) returns (i: nat, t: TaskRecord)
    requires Inv(g) && g.at == HumanGate && g.decision.Some?
    ensures i < |g.state.plan.value| && Change(g, i, t)
    ensures Visit(g, Quiet).state.plan == Some(g.state.plan.value[i := t])
    ensures t != g.state.plan.value[i] ==> GateTask(g) == Some(g.state.plan.value[i].Id())
  {
    var s, d := g.state, g.decision.value;
    var n := |s.requests| - 1;
    AfterApply(s, d);
    FindOpenRequest(s, d);
    i := Find(s.plan.value, s.requests[n].taskId).value;
    t := s.plan.value[i];
    assert TaskOk(t, CompletedIds(s.plan.value));
    assert s.plan.value[i := t] == s.plan.value;
    if d.status.Approved? {
      t := t.(status := Completed);
    } else if d.status.Modified? && d.payload != map[] {
      t := t.(input := t.input + d.payload, status := Pending);
    } else if d.status.Rejected? {
      t := t.(status := Failed);
    }
  }

  lemma MoveChange(g: Graph, m: Move) returns (i: nat, t: TaskRecord)
    requires Inv(g) && Admissible(g, m) && PlanKept(g, m) && (g.at == End ==> m.Resume?)
    requires g.state.plan.value != []
    ensures i < |g.state.plan.value|
    ensures m.Node? ==> Change(g, i, t)
    ensures m.Resume? ==> t == g.state.plan.value[i]
    ensures Next(g, m).state.plan == Some(g.state.plan.value[i := t])
    ensures m.Node? && g.at in {NodeName.Retrieval, Tool} ==>
              g.currentTask == Some(g.state.plan.value[i].Id()) && t != g.state.plan.value[i]
    ensures m.Node? && g.at == HumanGate && t != g.state.plan.value[i] ==>
              GateTask(g) == Some(g.state.plan.value[i].Id())
  {
    hide ReadyTasks, FindFrom, Acyclic;
    var s := g.state;
    var tasks := s.plan.value;
    i, t := 0, tasks[0];
    assert tasks[0 := tasks[0]] == tasks;
    if m.Resume? || g.at in {Supervisor, FailedNode} || (g.at == HumanGate && g.decision.None?) {
      assert Next(g, m).state.plan == s.plan;
    } else if g.at == HumanGate {
      i, t := GateChange(g);
    } else {
      i := Find(tasks, g.currentTask.value).value;
      t := Next(g, m).state.plan.value[i];
      assert TaskOk(tasks[i], CompletedIds(tasks));
      assert g.at == Validator && Rule(m.outcome.result) == Escalate ==> tasks[i := t] == tasks;
    }
  }

  function PlanTasks(g: Graph): Tasks {
    if g.state.plan.Some? then g.state.plan.value else []
  }

  /** A planner visit that installs a new plan. */
  ghost predicate Replans(g: Graph, m: Move) {
    m.Node? && g.at == Planner && m.outcome.Planned? && ValidDag(ItemShape(m.outcome.items))
  }

  // ---- Completion order ----

  ghost function NewlyDone(before: Tasks, after: Tasks): (ids: seq<TaskId>)
    ensures forall x | x in ids :: x in CompletedWork(after) && x !in CompletedWork(before)
    ensures ids == [] <==> CompletedWork(after) <= CompletedWork(before)
    ensures |ids| <= 1
  {
    if CompletedWork(after) <= CompletedWork(before) then []
    else var x :| x in CompletedWork(after) && x !in CompletedWork(before); [x]
  }

  /** The ids of non-SYNTHESIS tasks in the order they became COMPLETED, since the current plan was made. */
  ghost function CompletionOrder(moves: seq<Move>): seq<TaskId>
    requires Run(moves).Some?
  {
    if moves == [] then []
    else
      var front, m := moves[..|moves| - 1], moves[|moves| - 1];
      var g := Run(front).value;
      if Replans(g, m) then []
      else CompletionOrder(front) + NewlyDone(PlanTasks(g), PlanTasks(Next(g, m)))
  }

  /** Each id once, and after everything it depends on. */
  ghost predicate LinearExtension(order: seq<TaskId>, plan: seq<Vertex>) {
    && NoDup(order)
    && forall k, i | 0 <= k < |order| && 0 <= i < |plan| && plan[i].id == order[k] ::
        DependenciesIn(plan[i], SetOf(order[..k]))
  }

  ghost predicate WorkGrows(before: Tasks, after: Tasks) {
    && Shape(after) == Shape(before)
    && CompletedWork(after) == CompletedWork(before) + SetOf(NewlyDone(before, after))
    && forall i | 0 <= i < |before| && before[i].Id() in SetOf(NewlyDone(before, after)) ::
         DependenciesIn(before[i].vertex, CompletedWork(before))
  }

  lemma TaskWorkStep(tasks: Tasks, i: nat, t: TaskRecord)
    requires PlanOk(tasks) && i < |tasks| && t.vertex == tasks[i].vertex && tasks[i].status != Completed
    requires t.status == Completed ==> tasks[i].status != Pending
    ensures WorkGrows(tasks, tasks[i := t])
  {
    assert TaskOk(tasks[i], CompletedIds(tasks));
    ReplaceWork(tasks, i, t);
    WorkIsEverything(tasks);
    OnlyOneTask(tasks, i);
  }

  /** How one move changes the finished work: at most one task is added, once all it needs is finished. */
  lemma WorkStep(g: Graph, m: Move)
    requires Inv(g) && Admissible(g, m) && !Replans(g, m)
    ensures WorkGrows(PlanTasks(g), PlanTasks(Next(g, m)))
  {
    var tasks := PlanTasks(g);
    if g.state.plan.None? || (m.Node? && g.at == Planner) || tasks == [] {
      assert PlanTasks(Next(g, m)) == tasks;
    } else if m.Node? && g.at == NodeName.Synthesis {
      SynthesizedWork(tasks);
    } else {
      var i, t := MoveChange(g, m);
      if t == tasks[i] {
        assert tasks[i := t] == tasks;
      } else {
        assert g.at in {NodeName.Retrieval, Tool, Validator, HumanGate};
        TaskWorkStep(tasks, i, t);
      }
    }
  }

  lemma ReplaceWork(tasks: Tasks, i: nat, t: TaskRecord)
    requires i < |tasks| && t.vertex == tasks[i].vertex && tasks[i].status != Completed
    ensures Shape(tasks[i := t]) == Shape(tasks)
    ensures CompletedWork(tasks[i := t]) ==
            CompletedWork(tasks) + (if t.status == Completed
                && t.vertex.kind != TaskType.Synthesis then {t.Id()} else {})
  {
    var after := tasks[i := t];
    assert Shape(after) == Shape(tasks);
    forall x | x in CompletedWork(tasks) ensures x in CompletedWork(after) {
      var j :| 0 <= j < |tasks| && tasks[j].status == Completed && tasks[j].vertex.kind != TaskType.Synthesis
          && tasks[j].Id() == x;
      assert after[j] == tasks[j];
    }
    if t.status == Completed {
      assert after[i] == t;
    }
    forall x | x in CompletedWork(after) && !(t.status == Completed && x == t.Id()) ensures x in CompletedWork(tasks) {
      var j :| 0 <= j < |after| && after[j].status == Completed && after[j].vertex.kind != TaskType.Synthesis
          && after[j].Id() == x;
      assert after[j] == tasks[j];
    }
  }

  lemma AppendCompletion(order: seq<TaskId>, x: TaskId, plan: seq<Vertex>)
    requires LinearExtension(order, plan) && x !in order
    requires forall i | 0 <= i < |plan| && plan[i].id == x :: DependenciesIn(plan[i], SetOf(order))
    ensures LinearExtension(order + [x], plan)
    ensures SetOf(order + [x]) == SetOf(order) + {x}
  {
    var all := order + [x];
    assert all[..|order|] == order;
    assert forall k | 0 <= k < |order| :: all[..k] == order[..k];
    assert forall k | 0 <= k < |order| :: all[k] == order[k];
  }

  /** Over any run whose decisions are sound, work is finished in dependency order, nothing finished is ever lost, and
      the order lists exactly the tasks that are COMPLETED. */
  lemma {:induction false} CompletionIsLinearExtension(moves: seq<Move>)
    requires Run(moves).Some?
    ensures LinearExtension(CompletionOrder(moves), Shape(PlanTasks(Run(moves).value)))
    ensures SetOf(CompletionOrder(moves)) == CompletedWork(PlanTasks(Run(moves).value))
  {
    if moves == [] {
      return;
    }
    var front, m := moves[..|moves| - 1], moves[|moves| - 1];
    CompletionIsLinearExtension(front);
    FreshKeeps();
    RunsKeep(Fresh(), front);
    var g := Run(front).value;
    var before, after := PlanTasks(g), PlanTasks(Next(g, m));
    if Replans(g, m) {
      assert CompletedWork(after) == {};
      return;
    }
    WorkStep(g, m);
    var order, added := CompletionOrder(front), NewlyDone(before, after);
    if added == [] {
      assert order + [] == order;
    } else {
      var x := added[0];
      assert added == [x];
      forall i | 0 <= i < |Shape(before)|
          && Shape(before)[i].id == x ensures DependenciesIn(Shape(before)[i], SetOf(order)) {
        assert before[i].Id() in SetOf(added);
      }
      AppendCompletion(order, x, Shape(before));
    }
  }

  // ---- Retry budget ----

  function Started(g: Graph, m: Move, id: TaskId): nat {
    if m.Node? && g.at in {NodeName.Retrieval, Tool} && g.currentTask == Some(id) then 1 else 0
  }

  function ModifiedBy(g: Graph, m: Move, id: TaskId): nat {
    if m.Node? && g.at == HumanGate && g.decision.Some? && g.decision.value.status == Modified
        && GateTask(g) == Some(id) then 1
    else 0
  }

  /** How often a worker was started on a task since the current plan was made. */
  ghost function Dispatches(moves: seq<Move>, id: TaskId): nat
    requires Run(moves).Some?
  {
    if moves == [] then 0
    else
      var front, m := moves[..|moves| - 1], moves[|moves| - 1];
      var g := Run(front).value;
      if Replans(g, m) then 0 else Dispatches(front, id) + Started(g, m, id)
  }

  /** How many MODIFIED decisions were applied to a task since the current plan was made. */
  ghost function Modifications(moves: seq<Move>, id: TaskId): nat
    requires Run(moves).Some?
  {
    if moves == [] then 0
    else
      var front, m := moves[..|moves| - 1], moves[|moves| - 1];
      var g := Run(front).value;
      if Replans(g, m) then 0 else Modifications(front, id) + ModifiedBy(g, m, id)
  }

  /** The retry count stays within its ceiling, strictly while the task can still be started;
      dispatches so far are bounded by retries and modifications so far. */
  predicate DispatchBound(t: TaskRecord, dispatched: nat, modified: nat) {
    && WithinBudget(t)
    && (t.status == Pending ==> dispatched <= t.retryCount + modified)
    && dispatched <= t.retryCount + modified + 1
    && (t.maxRetries >= 1 ==> dispatched <= t.maxRetries + modified)
  }

  lemma ChangeKeepsBound(g: Graph, m: Move, i: nat, t: TaskRecord, dispatched: nat, modified: nat)
    requires Inv(g) && Admissible(g, m) && PlanKept(g, m) && m.Node? && i < |g.state.plan.value|
    requires Change(g, i, t) && t != g.state.plan.value[i]
    requires PlanOk(g.state.plan.value) && DispatchBound(g.state.plan.value[i], dispatched, modified)
    requires g.at in {NodeName.Retrieval, Tool} ==> g.currentTask == Some(t.Id())
    requires g.at == HumanGate ==> GateTask(g) == Some(t.Id())
    ensures DispatchBound(t, dispatched + Started(g, m, t.Id()), modified + ModifiedBy(g, m, t.Id()))
  {
    assert TaskOk(g.state.plan.value[i], CompletedIds(g.state.plan.value));
  }

  lemma MoveKeepsBound(g: Graph, m: Move, i: nat, dispatched: nat, modified: nat)
    requires Inv(g) && Admissible(g, m) && !Replans(g, m) && i < |PlanTasks(g)| == |PlanTasks(Next(g, m))|
    requires DispatchBound(PlanTasks(g)[i], dispatched, modified)
    ensures PlanTasks(Next(g, m))[i].vertex == PlanTasks(g)[i].vertex
    ensures var id := PlanTasks(g)[i].Id();
            DispatchBound(PlanTasks(Next(g, m))[i], dispatched + Started(g, m, id), modified + ModifiedBy(g, m, id))
  {
    hide ReadyTasks, FindFrom, Acyclic;
    if m.Node? && (g.at == Planner || g.at == NodeName.Synthesis) {
      return;
    }
    var before := PlanTasks(g);
    var k, t := MoveChange(g, m);
    if i == k && t != before[k] {
      ChangeKeepsBound(g, m, k, t, dispatched, modified);
    } else if m.Node? && g.at in {NodeName.Retrieval, Tool} {
      OnlyOneTask(before, k);
    }
  }

  /** Over any run whose decisions are sound, every task keeps its retry budget, and a worker is started on a task at
      most `maxRetries` times, plus once for each MODIFIED decision on it. */
  lemma {:induction false} RetryBudget(moves: seq<Move>, i: nat)
    requires Run(moves).Some? && i < |PlanTasks(Run(moves).value)|
    ensures var t := PlanTasks(Run(moves).value)[i];
            DispatchBound(t, Dispatches(moves, t.Id()), Modifications(moves, t.Id()))
  {
    if moves != [] {
      var front, m := moves[..|moves| - 1], moves[|moves| - 1];
      FreshKeeps();
      RunsKeep(Fresh(), front);
      var g := Run(front).value;
      if !Replans(g, m) {
        WorkStep(g, m);
        assert |Shape(PlanTasks(g))| == |Shape(PlanTasks(Next(g, m)))|;
        RetryBudget(front, i);
        var id := PlanTasks(g)[i].Id();
        MoveKeepsBound(g, m, i, Dispatches(front, id), Modifications(front, id));
      }
    }
  }
}
