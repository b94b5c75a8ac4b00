/** What every node visit and every human decision keeps: the plan invariant, deadlock freedom,
    the human-gate invariant, and the exact condition on decisions under which they hold. */
module WorkflowSafety {
  import opened PlanGraph
  import opened Workflow

  // ---- The plan invariant ----

  predicate EndsRun(kind: TaskType) {
    kind == TaskType.Synthesis || kind == TaskType.Planning
  }

  predicate WithinBudget(t: TaskRecord) {
    t.maxRetries >= 1 ==>
      t.retryCount <= t.maxRetries && (t.status in {Pending, InProgress} ==> t.retryCount < t.maxRetries)
  }

  predicate TaskOk(t: TaskRecord, done: set<TaskId>) {
    && t.status in {Pending, InProgress, Completed, Failed}
    && (t.status != Pending ==> DependenciesIn(t.vertex, done))
    && (EndsRun(t.vertex.kind) ==> t.status == Pending)
    && WithinBudget(t)
  }

  ghost predicate PlanOk(tasks: Tasks) {
    ValidDag(Shape(tasks)) && forall i | 0 <= i < |tasks| :: TaskOk(tasks[i], CompletedIds(tasks))
  }

  /** No task but possibly number `i` is in progress. */
  predicate OnlyActive(tasks: Tasks, i: int) {
    forall j | 0 <= j < |tasks| && j != i :: tasks[j].status != InProgress
  }

  predicate Settled(tasks: Tasks) {
    OnlyActive(tasks, -1)
  }

  /** A task that was dispatched and is still being judged. */
  predicate UnderReview(t: TaskRecord) {
    t.status in {InProgress, Failed} && (t.maxRetries >= 1 ==> t.retryCount < t.maxRetries)
  }

  lemma ReplaceTask(tasks: Tasks, i: nat, t: TaskRecord)
    requires i < |tasks| && t.vertex == tasks[i].vertex && tasks[i].status != Completed
    ensures Shape(tasks[i := t]) == Shape(tasks)
    ensures CompletedIds(tasks[i := t]) == CompletedIds(tasks) + (if t.status == Completed then {t.Id()} else {})
    ensures PlanOk(tasks) && TaskOk(t, CompletedIds(tasks)) ==> PlanOk(tasks[i := t])
  {
    var after := tasks[i := t];
    assert Shape(after) == Shape(tasks);
    forall x | x in CompletedIds(tasks) ensures x in CompletedIds(after) {
      var j :| 0 <= j < |tasks| && tasks[j].status == Completed && tasks[j].Id() == x;
      assert after[j] == tasks[j];
    }
    if t.status == Completed {
      assert after[i] == t;
    }
    forall x | x in CompletedIds(after) && !(t.status == Completed && x == t.Id()) ensures x in CompletedIds(tasks) {
      var j :| 0 <= j < |after| && after[j].status == Completed && after[j].Id() == x;
      assert j != i && after[j] == tasks[j];
    }
    if PlanOk(tasks) && TaskOk(t, CompletedIds(tasks)) {
      forall j | 0 <= j < |after| ensures TaskOk(after[j], CompletedIds(after)) {
        assert TaskOk(if j == i then t else tasks[j], CompletedIds(tasks));
      }
    }
  }

  lemma FindsTheTask(tasks: Tasks, i: nat)
    requires DistinctIds(Shape(tasks)) && i < |tasks|
    ensures Find(tasks, tasks[i].Id()) == Some(i)
  {
    var r := Find(tasks, tasks[i].Id());
    assert r.Some?;
    assert Shape(tasks)[r.value].id == Shape(tasks)[i].id;
  }

  /** The heart of deadlock freedom: if nothing runs and nothing failed, the lowest unfinished task
      in the rank order is ready. */
  lemma {:induction false} SomeTaskIsReady(tasks: Tasks, rank: map<TaskId, nat>, i: nat) returns (r: nat)
    requires PlanOk(tasks) && Settled(tasks) && !HasFailedTasks(tasks)
    requires Ranked(Shape(tasks), rank)
    requires i < |tasks| && tasks[i].status != Completed && tasks[i].Id() in rank
    ensures r < |tasks| && IsReady(tasks, r)
    decreases rank[tasks[i].Id()]
  {
    var plan := Shape(tasks);
    assert TaskOk(tasks[i], CompletedIds(tasks)) && plan[i].id in Ids(plan);
    assert tasks[i].status == Pending;
    if IsReady(tasks, i) {
      return i;
    }
    var d :| d in tasks[i].vertex.dependencies && d !in CompletedIds(tasks);
    assert d in plan[i].dependencies && ReferencesExist(plan);
    assert d in Ids(plan);
    var j :| 0 <= j < |plan| && plan[j].id == d;
    assert tasks[j].status != Completed;
    r := SomeTaskIsReady(tasks, rank, j);
  }

  lemma NoDeadlock(tasks: Tasks)
    requires PlanOk(tasks) && Settled(tasks)
    ensures ReadyTasks(tasks) != [] || AllCompleted(tasks) || HasFailedTasks(tasks)
  {
    if !AllCompleted(tasks) && !HasFailedTasks(tasks) {
      assert Shape(tasks) != [];
      var i :| 0 <= i < |tasks| && tasks[i].status !in {Completed, Skipped};
      var rank :| Ranked(Shape(tasks), rank);
      assert Shape(tasks)[i].id in Ids(Shape(tasks));
      var r := SomeTaskIsReady(tasks, rank, i);
      ReadyTasksAreReady(tasks);
    }
  }

  // ---- The run invariant ----

  predicate DistinctRequests(requests: seq<HumanRequest>) {
    forall i, j | 0 <= i < j < |requests| :: requests[i].requestId != requests[j].requestId
  }

  /** Nobody is being asked anything. */
  predicate Calm(s: State) {
    !s.requiresHuman && !HasPending(s.requests)
  }

  /** Exactly one request is open: the last one, about a dispatched and unfinished task of the plan. */
  ghost predicate Waiting(s: State) {
    && s.requiresHuman && s.status == PausedForHuman
    && s.requests != [] && s.requests[|s.requests| - 1].status == Awaiting
    && !HasPending(s.requests[..|s.requests| - 1])
    && s.plan.Some? && PlanOk(s.plan.value)
    && var i := Find(s.plan.value, s.requests[|s.requests| - 1].taskId);
       i.Some? && UnderReview(s.plan.value[i.value]) && OnlyActive(s.plan.value, i.value)
  }

  ghost predicate Between(s: State) {
    Calm(s) && (s.plan.Some? ==> PlanOk(s.plan.value) && Settled(s.plan.value))
  }

  /** Tasks other than SYNTHESIS ones that are done. */
  function CompletedWork(tasks: Tasks): set<TaskId> {
    set i | 0 <= i < |tasks| && tasks[i].status == Completed && tasks[i].vertex.kind != TaskType.Synthesis ::
        tasks[i].Id()
  }

  /** What a COMPLETED run leaves: finished work is closed under dependencies, and either all of
      it is finished or some SYNTHESIS task had everything it asked for. */
  ghost predicate Concluded(tasks: Tasks) {
    && ValidDag(Shape(tasks))
    && (forall i | 0 <= i < |tasks| && tasks[i].vertex.kind == TaskType.Synthesis :: tasks[i].status == Completed)
    && (forall i | 0 <= i < |tasks| && tasks[i].status == Completed && tasks[i].vertex.kind != TaskType.Synthesis ::
          DependenciesIn(tasks[i].vertex, CompletedWork(tasks)))
    && ((forall i | 0 <= i < |tasks| :: tasks[i].status == Completed)
        || exists i :: 0 <= i < |tasks| && tasks[i].vertex.kind == TaskType.Synthesis
                       && DependenciesIn(tasks[i].vertex, CompletedWork(tasks)))
  }

  /** The current task exists, is ready, and has the given kind of node. */
  ghost predicate Dispatched(g: Graph, at: NodeName) {
    && g.state.plan.Some? && g.currentTask.Some?
    && var i := Find(g.state.plan.value, g.currentTask.value);
       i.Some? && IsReady(g.state.plan.value, i.value)
       && Route(Supervisor, DispatchAction(g.state.plan.value[i.value].vertex.kind)) == at
  }

  /** The current task is in the plan, dispatched, and the only one that may be in progress. */
  ghost predicate Judging(g: Graph) {
    && g.decision.None? && Calm(g.state) && g.state.status == Running
    && g.state.plan.Some? && PlanOk(g.state.plan.value) && g.currentTask.Some?
    && var i := Find(g.state.plan.value, g.currentTask.value);
       i.Some? && UnderReview(g.state.plan.value[i.value]) && OnlyActive(g.state.plan.value, i.value)
  }

  ghost predicate AtSupervisor(g: Graph) {
    if g.decision.Some? then g.currentTask.None? && Waiting(g.state) && Sound(g.state, g.decision.value)
    else Between(g.state) && g.state.status in {Running, RunFailed}
  }

  ghost predicate Working(g: Graph) {
    g.decision.None? && Between(g.state) && g.state.status == Running
  }

  ghost predicate AtSynthesis(g: Graph) {
    Working(g) && g.state.plan.Some? && (AllCompleted(g.state.plan.value) || Dispatched(g, NodeName.Synthesis))
  }

  ghost predicate AtHumanGate(g: Graph) {
    && Waiting(g.state)
    && (g.decision.Some? ==> g.currentTask.None? && Sound(g.state, g.decision.value))
  }

  ghost predicate Stopped(s: State) {
    || Waiting(s)
    || (Calm(s) && s.status == RunFailed)
    || (Calm(s) && s.status == RunCompleted && s.plan.Some? && Concluded(s.plan.value))
  }

  ghost predicate Located(g: Graph) {
    match g.at
    case Supervisor => AtSupervisor(g)
    case Planner => Working(g) && (g.state.plan.Some? ==> Dispatched(g, Planner))
    case Retrieval => Working(g) && Dispatched(g, NodeName.Retrieval)
    case Tool => Working(g) && Dispatched(g, Tool)
    case Validator => Judging(g)
    case HumanGate => AtHumanGate(g)
    case Synthesis => AtSynthesis(g)
    case FailedNode => Calm(g.state) && g.state.status in {Running, RunFailed}
    case End => Stopped(g.state)
  }

  ghost predicate Inv(g: Graph) {
    DependencyDeadlock !in g.state.errors && DistinctRequests(g.state.requests) && Located(g)
  }

  /** The decisions a paused run survives. Documented verdicts must answer the open request, and a
      modification must carry a payload unless the worker had already failed the task. */
  predicate Sound(s: State, d: Decision)
  {
    if s.requests == [] || s.plan.None? then false
    else
      var open := s.requests[|s.requests| - 1];
      match d.status
      case Approved => d.requestId == open.requestId
      case Rejected => d.requestId == open.requestId
      case Modified =>
        d.requestId == open.requestId
        && (d.payload != map[]
            || exists i :: 0 <= i < |s.plan.value| && s.plan.value[i].Id() == open.taskId
                && s.plan.value[i].status == Failed)
      case Awaiting => d.requestId == open.requestId || FindRequest(s.requests, d.requestId).None?
      case TimedOut => d.requestId != open.requestId
  }

  // ---- Every visit keeps the invariant ----

  /** With a plan and nothing pending, the supervisor dispatches the first ready task, or has finished
      the plan, or has seen a failure; it never reports a deadlock. */
  lemma SupervisorChoice(g: Graph)
    requires Inv(g) && g.at == Supervisor && g.decision.None? && g.state.status == Running && g.state.plan.Some?
    ensures var tasks := g.state.plan.value;
            var g1 := SupervisorNode(g);
            && g1.state == g.state.Stepped()
            && (if ReadyTasks(tasks) != [] then
                  && g1.currentTask == Some(tasks[ReadyTasks(tasks)[0]].Id())
                  && g1.nextAction == DispatchAction(tasks[ReadyTasks(tasks)[0]].vertex.kind)
                  && Find(tasks, g1.currentTask.value) == Some(ReadyTasks(tasks)[0])
                  && IsReady(tasks, ReadyTasks(tasks)[0])
                else if AllCompleted(tasks) then g1.nextAction == ToSynthesis
                else HasFailedTasks(tasks) && g1.nextAction == ToFailed)
    ensures var tasks := g.state.plan.value;
            ReadyTasks(tasks) != [] ==>
              match tasks[ReadyTasks(tasks)[0]].vertex.kind
              case Retrieval => Visit(g, Quiet).at == NodeName.Retrieval
              case Planning => Visit(g, Quiet).at == Planner
              case Synthesis => Visit(g, Quiet).at == NodeName.Synthesis
              case _ => Visit(g, Quiet).at == Tool
  {
    var tasks := g.state.plan.value;
    NoDeadlock(tasks);
    ReadyTasksAreReady(tasks);
    if ReadyTasks(tasks) != [] {
      FindsTheTask(tasks, ReadyTasks(tasks)[0]);
    }
  }

  lemma SupervisorKeeps(g: Graph)
    requires Inv(g) && g.at == Supervisor
    ensures Inv(Visit(g, Quiet))
  {
    hide PlannerNode, WorkerNode, ValidatorNode, HumanGateNode, SynthesisNode, FinishFailed, ReadyTasks, FindFrom,
        Acyclic;
    if g.decision.None? && g.state.status == Running && g.state.plan.Some? {
      SupervisorChoice(g);
      var g1 := SupervisorNode(g);
      var ready := ReadyTasks(g.state.plan.value);
      if ready != [] {
        assert Dispatched(g1, Route(Supervisor, g1.nextAction));
      }
    }
  }

  lemma PlannerKeeps(g: Graph, o: Outcome)
    requires Inv(g) && g.at == Planner && Fits(g, o)
    ensures Inv(Visit(g, o))
  {
    hide SupervisorNode, WorkerNode, ValidatorNode, HumanGateNode, SynthesisNode, FinishFailed, ReadyTasks,
        FindFrom, Acyclic;
    if o.Planned? && ValidDag(ItemShape(o.items)) {
      var tasks := DomainTasks(o.items);
      assert Shape(tasks) == ItemShape(o.items);
    }
  }

  lemma WorkerKeeps(g: Graph, o: Outcome)
    requires Inv(g) && g.at in {NodeName.Retrieval, Tool} && Fits(g, o)
    ensures Inv(Visit(g, o))
  {
    hide SupervisorNode, PlannerNode, ValidatorNode, HumanGateNode, SynthesisNode, FinishFailed, ReadyTasks,
        FindFrom, Acyclic;
    var tasks := g.state.plan.value;
    var i := Find(tasks, g.currentTask.value).value;
    var t := tasks[i].(status := if o.WorkerOk? then InProgress else Failed);
    assert TaskOk(tasks[i], CompletedIds(tasks));
    ReplaceTask(tasks, i, t);
    FindsTheTask(tasks[i := t], i);
  }

  lemma SettledAfter(tasks: Tasks, i: nat, t: TaskRecord)
    requires PlanOk(tasks) && i < |tasks| && OnlyActive(tasks, i) && t.vertex == tasks[i].vertex
              && tasks[i].status != Completed
    requires TaskOk(t, CompletedIds(tasks)) && t.status != InProgress
    ensures PlanOk(tasks[i := t]) && Settled(tasks[i := t])
  {
    ReplaceTask(tasks, i, t);
  }

  lemma EscalationKeeps(g: Graph, o: Outcome)
    requires Inv(g) && g.at == Validator && Fits(g, o) && Rule(o.result) == Escalate
    ensures Inv(Visit(g, o))
  {
    hide SupervisorNode, PlannerNode, WorkerNode, HumanGateNode, SynthesisNode, FinishFailed, FindFrom, ValidDag;
    var s := g.state;
    var i := Find(s.plan.value, g.currentTask.value).value;
    var requests := s.requests + [HumanRequest(o.requestId, s.plan.value[i].Id(), Awaiting)];
    assert requests[..|requests| - 1] == s.requests;
  }

  lemma RulingKeeps(g: Graph, o: Outcome)
    requires Inv(g) && g.at == Validator && Fits(g, o) && Rule(o.result) != Escalate
    ensures Inv(Visit(g, o))
  {
    hide SupervisorNode, PlannerNode, WorkerNode, HumanGateNode, SynthesisNode, FinishFailed, FindFrom, ValidDag, Rule;
    var tasks := g.state.plan.value;
    var i := Find(tasks, g.currentTask.value).value;
    var t := tasks[i];
    assert TaskOk(t, CompletedIds(tasks));
    var again := t.(retryCount := t.retryCount + 1);
    var after := match Rule(o.result)
      case Accept => t.(status := Completed)
      case Retry => again.(status := if again.CanRetry() then Pending else Failed)
      case _ => t.(status := Failed);
    SettledAfter(tasks, i, after);
    assert Visit(g, o).state.plan == Some(tasks[i := after]);
  }

  lemma ValidatorKeeps(g: Graph, o: Outcome)
    requires Inv(g) && g.at == Validator && Fits(g, o)
    ensures Inv(Visit(g, o))
  {
    hide Inv, Visit;
    if Rule(o.result) == Escalate {
      EscalationKeeps(g, o);
    } else {
      RulingKeeps(g, o);
    }
  }

  lemma SynthesizedWork(tasks: Tasks)
    ensures Shape(Synthesized(tasks)) == Shape(tasks)
    ensures CompletedWork(Synthesized(tasks)) == CompletedWork(tasks)
  {
    var done := Synthesized(tasks);
    assert Shape(done) == Shape(tasks);
    forall x | x in CompletedWork(tasks) ensures x in CompletedWork(done) {
      var j :| 0 <= j < |tasks| && tasks[j].status == Completed && tasks[j].vertex.kind != TaskType.Synthesis
          && tasks[j].Id() == x;
      assert done[j] == tasks[j];
    }
    forall x | x in CompletedWork(done) ensures x in CompletedWork(tasks) {
      var j :| 0 <= j < |done| && done[j].status == Completed && done[j].vertex.kind != TaskType.Synthesis
          && done[j].Id() == x;
      assert done[j] == tasks[j];
    }
  }

  lemma SynthesisKeeps(g: Graph)
    requires Inv(g) && g.at == NodeName.Synthesis
    ensures Inv(Visit(g, Quiet))
  {
    hide SupervisorNode, PlannerNode, WorkerNode, ValidatorNode, HumanGateNode, FinishFailed, ReadyTasks, FindFrom,
        Acyclic;
    var tasks := g.state.plan.value;
    var done := Synthesized(tasks);
    SynthesizedWork(tasks);
    WorkIsEverything(tasks);
    forall i | 0 <= i < |tasks| ensures TaskOk(tasks[i], CompletedIds(tasks)) && done[i].vertex == tasks[i].vertex {
    }
    if !AllCompleted(tasks) {
      var i := Find(tasks, g.currentTask.value).value;
      assert done[i].vertex.kind == TaskType.Synthesis && DependenciesIn(done[i].vertex, CompletedWork(done));
    }
  }

  /** Before the end, no SYNTHESIS task is completed. */
  lemma WorkIsEverything(tasks: Tasks)
    requires PlanOk(tasks)
    ensures CompletedWork(tasks) == CompletedIds(tasks)
  {
    forall x | x in CompletedIds(tasks) ensures x in CompletedWork(tasks) {
      var j :| 0 <= j < |tasks| && tasks[j].status == Completed && tasks[j].Id() == x;
      assert TaskOk(tasks[j], CompletedIds(tasks));
    }
  }

  // ---- The human gate ----

  lemma FindOpenRequest(s: State, d: Decision)
    requires Waiting(s) && DistinctRequests(s.requests)
    ensures FindRequest(s.requests, s.requests[|s.requests| - 1].requestId) == Some(|s.requests| - 1)
  {
    var n := |s.requests| - 1;
    var r := FindRequest(s.requests, s.requests[n].requestId);
    assert r.Some?;
  }

  /** A decision closes the open request exactly when it names it and is not itself PENDING;
      an old request can only be re-opened by naming it with status PENDING. */
  lemma AfterApply(s: State, d: Decision)
    requires Waiting(s) && DistinctRequests(s.requests)
    ensures var n := |s.requests| - 1;
            var at := FindRequest(s.requests, d.requestId);
            var r := ApplyDecision(s, d).requests;
            && |r| == |s.requests| && DistinctRequests(r) && r[n].taskId == s.requests[n].taskId
            && r[n].requestId == s.requests[n].requestId
            && (r[n].status == Awaiting <==> d.requestId != s.requests[n].requestId || d.status == Awaiting)
            && (HasPending(r[..n]) <==> at.Some? && at.value < n && d.status == Awaiting)
            && (HasPending(r) <==> HasPending(r[..n]) || r[n].status == Awaiting)
            && (at == Some(n) <==> d.requestId == s.requests[n].requestId)
  {
    FindOpenRequest(s, d);
    var n := |s.requests| - 1;
    var at := FindRequest(s.requests, d.requestId);
    var r := ApplyDecision(s, d).requests;
    forall i | 0 <= i < n ensures r[..n][i].status == Awaiting <==> at == Some(i) && d.status == Awaiting {
      assert !HasPending(s.requests[..n]) && s.requests[..n][i] == s.requests[i];
      assert s.requests[i].status != Awaiting;
    }
    if at.Some? && at.value < n && d.status == Awaiting {
      assert r[..n][at.value].status == Awaiting;
    }
    if HasPending(r) {
      var i :| 0 <= i < |r| && r[i].status == Awaiting;
      assert i == n || r[..n][i].status == Awaiting;
    }
    if HasPending(r[..n]) {
      var i :| 0 <= i < n && r[..n][i].status == Awaiting;
      assert r[i].status == Awaiting;
    }
  }

  ghost predicate AtGate(g: Graph) {
    && g.at == HumanGate && g.decision.Some? && g.currentTask.None? && Waiting(g.state)
    && DistinctRequests(g.state.requests) && DependencyDeadlock !in g.state.errors
  }

  /** A verdict on another request leaves the open one pending behind a run that moves on. */
  lemma WrongVerdict(g: Graph)
    requires AtGate(g) && g.decision.value.status in {Approved, Modified, Rejected}
    requires g.decision.value.requestId != g.state.requests[|g.state.requests| - 1].requestId
    ensures !Inv(Visit(g, Quiet))
  {
    hide SupervisorNode, PlannerNode, WorkerNode, ValidatorNode, SynthesisNode, FinishFailed, ReadyTasks, FindFrom,
        Acyclic, FindRequest, HasPending;
    AfterApply(g.state, g.decision.value);
    var g1 := Visit(g, Quiet);
    assert g1.at in {Supervisor, FailedNode} && g1.decision.None?;
    assert HasPending(g1.state.requests);
    assert !Calm(g1.state);
  }

  /** Any other answer about another request stops the run again, unharmed unless it re-opened an old request. */
  lemma WrongAnswer(g: Graph)
    requires AtGate(g) && (g.decision.value.status.Awaiting? || g.decision.value.status.TimedOut?)
    requires g.decision.value.requestId != g.state.requests[|g.state.requests| - 1].requestId
    ensures Inv(Visit(g, Quiet)) <==> Sound(g.state, g.decision.value)
  {
    hide SupervisorNode, PlannerNode, WorkerNode, ValidatorNode, SynthesisNode, FinishFailed, ReadyTasks, FindFrom,
        Acyclic, FindRequest, HasPending;
    AfterApply(g.state, g.decision.value);
    var g1 := Visit(g, Quiet);
    assert g1.at == End && g1.state == ApplyDecision(g.state, g.decision.value).(status := PausedForHuman);
    assert Waiting(g1.state) <==> Sound(g.state, g.decision.value);
  }

  ghost predicate AnswersOpenRequest(g: Graph)
    requires AtGate(g)
  {
    g.decision.value.requestId == g.state.requests[|g.state.requests| - 1].requestId
  }

  lemma ApprovalKeeps(g: Graph)
    requires AtGate(g) && AnswersOpenRequest(g) && g.decision.value.status == Approved
    ensures Inv(Visit(g, Quiet))
  {
    hide SupervisorNode, PlannerNode, WorkerNode, ValidatorNode, SynthesisNode, FinishFailed, ReadyTasks, FindFrom,
        Acyclic, FindRequest, HasPending;
    var s := g.state;
    AfterApply(s, g.decision.value);
    var tasks := s.plan.value;
    var i := Find(tasks, s.requests[|s.requests| - 1].taskId).value;
    assert TaskOk(tasks[i], CompletedIds(tasks));
    ReplaceTask(tasks, i, tasks[i].(status := Completed));
  }

  lemma ModificationKeepsIffEffective(g: Graph)
    requires AtGate(g) && AnswersOpenRequest(g) && g.decision.value.status == Modified
    ensures Inv(Visit(g, Quiet)) <==> Sound(g.state, g.decision.value)
  {
    hide SupervisorNode, PlannerNode, WorkerNode, ValidatorNode, SynthesisNode, FinishFailed, ReadyTasks, FindFrom,
        Acyclic, FindRequest;
    var s, d := g.state, g.decision.value;
    AfterApply(s, d);
    var tasks := s.plan.value;
    var i := Find(tasks, s.requests[|s.requests| - 1].taskId).value;
    var t := tasks[i];
    assert TaskOk(t, CompletedIds(tasks));
    OnlyOneTask(tasks, i);
    if d.payload != map[] {
      ReplaceTask(tasks, i, t.(input := t.input + d.payload, status := Pending));
    } else if t.status == InProgress {
      assert !Settled(tasks);
    }
  }

  lemma OtherAnswers(g: Graph)
    requires AtGate(g) && AnswersOpenRequest(g)
    requires g.decision.value.status.Rejected? || g.decision.value.status.Awaiting? || g.decision.value.status.TimedOut?
    ensures Inv(Visit(g, Quiet)) <==> Sound(g.state, g.decision.value)
  {
    hide SupervisorNode, PlannerNode, WorkerNode, ValidatorNode, SynthesisNode, FinishFailed, ReadyTasks, FindFrom,
        Acyclic, FindRequest, HasPending;
    AfterApply(g.state, g.decision.value);
  }

  lemma OnlyOneTask(tasks: Tasks, i: nat)
    requires DistinctIds(Shape(tasks)) && i < |tasks|
    ensures forall j | 0 <= j < |tasks| && tasks[j].Id() == tasks[i].Id() :: j == i
  {
    forall j | 0 <= j < |tasks| && tasks[j].Id() == tasks[i].Id() ensures j == i {
      assert Shape(tasks)[j].id == Shape(tasks)[i].id;
    }
  }

  /** The human gate keeps the run invariant exactly for sound decisions. */
  lemma GateKeepsIffSound(g: Graph)
    requires AtGate(g)
    ensures Inv(Visit(g, Quiet)) <==> Sound(g.state, g.decision.value)
  {
    var verdict := g.decision.value.status;
    if !AnswersOpenRequest(g) {
      if verdict.Awaiting? || verdict.TimedOut? {
        WrongAnswer(g);
      } else {
        WrongVerdict(g);
      }
    } else if verdict.Approved? {
      ApprovalKeeps(g);
    } else if verdict.Modified? {
      ModificationKeepsIffEffective(g);
    } else {
      OtherAnswers(g);
    }
  }
}
