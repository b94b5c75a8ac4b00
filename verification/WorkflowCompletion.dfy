/** When COMPLETED means that every task of the plan was completed. */
module WorkflowCompletion {
  import opened PlanGraph
  import opened Workflow
  import opened WorkflowSafety
  import opened WorkflowRuns
  import opened WorkflowOrder

  /** Positions in the plan, each a direct dependency of the one before it. */
  ghost predicate Chain(plan: seq<Vertex>, path: seq<nat>) {
    && (forall k | 0 <= k < |path| :: path[k] < |plan|)
    && (forall k | 0 <= k < |path| - 1 :: plan[path[k + 1]].id in plan[path[k]].dependencies)
  }

  ghost predicate Connects(plan: seq<Vertex>, path: seq<nat>, s: nat, u: nat) {
    Chain(plan, path) && |path| >= 2 && path[0] == s && path[|path| - 1] == u
  }

  /** Task `s` depends on task `u`, directly or through others. */
  ghost predicate DependsOn(plan: seq<Vertex>, s: nat, u: nat) {
    exists path :: Connects(plan, path, s, u)
  }

  /** Every SYNTHESIS task depends on every other kind of task. */
  ghost predicate SynthesisCoversWork(plan: seq<Vertex>) {
    forall s, u | 0 <= s < |plan| && 0 <= u < |plan|
                  && plan[s].kind == TaskType.Synthesis && plan[u].kind != TaskType.Synthesis :: DependsOn(plan, s, u)
  }

  predicate AllDone(tasks: Tasks) {
    forall i | 0 <= i < |tasks| :: tasks[i].status == Completed
  }

  /** A run over `plan` that has ended COMPLETED. */
  ghost predicate Completes(moves: seq<Move>, plan: seq<Vertex>) {
    && Run(moves).Some? && Run(moves).value.at == End && Run(moves).value.state.status == RunCompleted
    && Shape(PlanTasks(Run(moves).value)) == plan
  }

  // ---- If the plan covers, COMPLETED means everything ----

  lemma {:induction false} ChainIsDone(tasks: Tasks, path: seq<nat>, s: nat, k: nat)
    requires Concluded(tasks) && Chain(Shape(tasks), path) && 1 <= k < |path| && path[0] == s
    requires DependenciesIn(tasks[s].vertex, CompletedWork(tasks))
    ensures tasks[path[k]].Id() in CompletedWork(tasks)
  {
    var plan := Shape(tasks);
    assert plan[path[k]].id in plan[path[k - 1]].dependencies;
    if k > 1 {
      ChainIsDone(tasks, path, s, k - 1);
      var j := path[k - 1];
      OnlyOneTask(tasks, j);
      assert tasks[j].status == Completed && tasks[j].vertex.kind != TaskType.Synthesis;
    }
  }

  lemma ConcludedCovers(tasks: Tasks)
    requires Concluded(tasks) && SynthesisCoversWork(Shape(tasks))
    ensures AllDone(tasks)
  {
    if !AllDone(tasks) {
      var s :| 0 <= s < |tasks| && tasks[s].vertex.kind == TaskType.Synthesis
          && DependenciesIn(tasks[s].vertex, CompletedWork(tasks));
      forall u | 0 <= u < |tasks| ensures tasks[u].status == Completed {
        if tasks[u].vertex.kind != TaskType.Synthesis {
          assert DependsOn(Shape(tasks), s, u);
          var path :| Connects(Shape(tasks), path, s, u);
          ChainIsDone(tasks, path, s, |path| - 1);
          OnlyOneTask(tasks, u);
        }
      }
    }
  }

  // ---- If it does not, some run completes without everything ----

  lemma DependsFurther(plan: seq<Vertex>, s: nat, a: nat, b: nat)
    requires s < |plan| && a < |plan| && b < |plan| && plan[b].id in plan[a].dependencies
    requires a == s || DependsOn(plan, s, a)
    ensures DependsOn(plan, s, b)
  {
    if a == s {
      assert Connects(plan, [s, b], s, b);
    } else {
      var path :| Connects(plan, path, s, a);
      assert Connects(plan, path + [b], s, b);
    }
  }

  /** A steered run: what `s` depends on is completed, everything else is rejected. */
  ghost predicate Steered(tasks: Tasks, s: nat) {
    && s < |tasks| && tasks[s].status == Pending
    && forall i | 0 <= i < |tasks| ::
         && (tasks[i].status == Completed ==> DependsOn(Shape(tasks), s, i))
         && (tasks[i].status == Failed ==> !DependsOn(Shape(tasks), s, i))
  }

  /** The lowest unfinished task among `s` and what it depends on is ready. */
  lemma {:induction false} SteeredHasReady(tasks: Tasks, s: nat, rank: map<TaskId, nat>, i: nat)
    requires PlanOk(tasks) && Settled(tasks) && Steered(tasks, s) && Ranked(Shape(tasks), rank)
    requires i < |tasks| && (i == s || DependsOn(Shape(tasks), s, i)) && tasks[i].status != Completed
    requires tasks[i].Id() in rank
    ensures ReadyTasks(tasks) != []
    decreases rank[tasks[i].Id()]
  {
    var plan := Shape(tasks);
    assert TaskOk(tasks[i], CompletedIds(tasks));
    assert tasks[i].status == Pending;
    ReadyTasksAreReady(tasks);
    if !IsReady(tasks, i) {
      var d :| d in tasks[i].vertex.dependencies && d !in CompletedIds(tasks);
      assert d in plan[i].dependencies && ReferencesExist(plan);
      assert d in Ids(plan);
      var j :| 0 <= j < |plan| && plan[j].id == d;
      assert plan[i].id in Ids(plan);
      DependsFurther(plan, s, i, j);
      SteeredHasReady(tasks, s, rank, j);
    }
  }

  function Unstarted(tasks: Tasks): set<nat> {
    set i | 0 <= i < |tasks| && tasks[i].status == Pending
  }

  ghost predicate SteeringPoint(g: Graph, s: nat, plan: seq<Vertex>) {
    && Inv(g) && g.at == Supervisor && g.decision.None? && g.state.status == Running && g.state.plan.Some?
    && Shape(PlanTasks(g)) == plan && Steered(PlanTasks(g), s)
  }

  function Verdict(accept: bool): Outcome {
    Judged(CriticResult(Success, false, Critique(Some(if accept then Valid else Invalid), accept, false)), "")
  }

  /** Task `r` of the plan is at its worker. */
  ghost predicate AtWorker(g: Graph, tasks: Tasks, r: nat) {
    && Inv(g) && g.at in {NodeName.Retrieval, Tool} && r < |tasks| && g.state.plan == Some(tasks)
    && g.state.Lookup(g.currentTask) == Some(r)
  }

  lemma SteerDispatch(g: Graph, s: nat, plan: seq<Vertex>)
    requires SteeringPoint(g, s, plan)
    requires ReadyTasks(PlanTasks(g)) != [] && !EndsRun(PlanTasks(g)[ReadyTasks(PlanTasks(g))[0]].vertex.kind)
    ensures AtWorker(Visit(g, Quiet), PlanTasks(g), ReadyTasks(PlanTasks(g))[0])
  {
    SupervisorChoice(g);
    SupervisorKeeps(g);
  }

  lemma SteerWork(g: Graph, tasks: Tasks, r: nat)
    requires AtWorker(g, tasks, r)
    ensures var g1 := Visit(g, WorkerOk);
            && Inv(g1) && g1.at == Validator && g1.state.plan == Some(tasks[r := tasks[r].(status := InProgress)])
            && g1.state.Lookup(g1.currentTask) == Some(r)
  {
    WorkerKeeps(g, WorkerOk);
    var busy := tasks[r].(status := InProgress);
    assert Shape(tasks[r := busy]) == Shape(tasks);
    FindsTheTask(tasks[r := busy], r);
  }

  lemma SteerJudge(g: Graph, r: nat, accept: bool)
    requires Inv(g) && g.at == Validator && g.state.Lookup(g.currentTask) == Some(r)
    ensures var g1 := Visit(g, Verdict(accept));
            && Inv(g1) && g1.at == Supervisor && g1.decision.None? && g1.state.status == Running
            && g1.state.plan ==
               Some(PlanTasks(g)[r := PlanTasks(g)[r].(status := if accept then Completed else Failed)])
  {
    ValidatorKeeps(g, Verdict(accept));
  }

  lemma StillSteered(tasks: Tasks, s: nat, r: nat, done: TaskRecord)
    requires Steered(tasks, s) && r < |tasks| && IsReady(tasks, r) && r != s
    requires done == tasks[r].(status := if DependsOn(Shape(tasks), s, r) then Completed else Failed)
    ensures Steered(tasks[r := done], s) && Shape(tasks[r := done]) == Shape(tasks)
    ensures Unstarted(tasks[r := done]) < Unstarted(tasks)
  {
    assert Shape(tasks[r := done]) == Shape(tasks);
    assert r in Unstarted(tasks) && r !in Unstarted(tasks[r := done]);
  }

  /** Dispatch the first ready task and have it accepted or rejected. */
  lemma SteerOneTask(moves: seq<Move>, s: nat, plan: seq<Vertex>) returns (longer: seq<Move>)
    requires Run(moves).Some? && SteeringPoint(Run(moves).value, s, plan) && plan[s].kind == TaskType.Synthesis
    requires var tasks := PlanTasks(Run(moves).value);
             ReadyTasks(tasks) != [] && !EndsRun(tasks[ReadyTasks(tasks)[0]].vertex.kind)
    ensures Run(longer).Some? && SteeringPoint(Run(longer).value, s, plan)
    ensures Unstarted(PlanTasks(Run(longer).value)) < Unstarted(PlanTasks(Run(moves).value))
  {
    hide ReadyTasks, FindFrom, Acyclic, RunFrom;
    var g := Run(moves).value;
    var tasks := PlanTasks(g);
    var r := ReadyTasks(tasks)[0];
    ReadyTasksAreReady(tasks);
    assert tasks[s].vertex == plan[s];
    var v := Verdict(DependsOn(plan, s, r));
    SteerDispatch(g, s, plan);
    Extend(Fresh(), moves, Node(Quiet));
    var m1 := moves + [Node(Quiet)];
    SteerWork(Run(m1).value, tasks, r);
    Extend(Fresh(), m1, Node(WorkerOk));
    var m2 := m1 + [Node(WorkerOk)];
    SteerJudge(Run(m2).value, r, DependsOn(plan, s, r));
    Extend(Fresh(), m2, Node(v));
    longer := m2 + [Node(v)];
    var done := tasks[r].(status := if DependsOn(plan, s, r) then Completed else Failed);
    assert tasks[r := tasks[r].(status := InProgress)][r := done] == tasks[r := done];
    StillSteered(tasks, s, r, done);
  }

  /** Synthesis is reached: the run ends COMPLETED with `u` untouched or rejected. */
  lemma SteerToTheEnd(moves: seq<Move>, s: nat, u: nat, plan: seq<Vertex>) returns (longer: seq<Move>)
    requires Run(moves).Some? && SteeringPoint(Run(moves).value, s, plan)
    requires u < |plan| && plan[u].kind != TaskType.Synthesis && !DependsOn(plan, s, u)
    requires var tasks := PlanTasks(Run(moves).value);
             ReadyTasks(tasks) != [] && tasks[ReadyTasks(tasks)[0]].vertex.kind == TaskType.Synthesis
    ensures Completes(longer, plan) && !AllDone(PlanTasks(Run(longer).value))
  {
    hide ReadyTasks, FindFrom, Acyclic, RunFrom;
    var g := Run(moves).value;
    SupervisorChoice(g);
    Extend(Fresh(), moves, Node(Quiet));
    var m1 := moves + [Node(Quiet)];
    Extend(Fresh(), m1, Node(Quiet));
    longer := m1 + [Node(Quiet)];
    var tasks := PlanTasks(g);
    SynthesizedWork(tasks);
    assert PlanTasks(Run(longer).value) == Synthesized(tasks);
    assert Synthesized(tasks)[u] == tasks[u];
    assert tasks[u].vertex == plan[u];
  }

  lemma {:induction false} Steer(moves: seq<Move>, s: nat, u: nat, plan: seq<Vertex>) returns (longer: seq<Move>)
    requires Run(moves).Some? && SteeringPoint(Run(moves).value, s, plan)
    requires u < |plan| && plan[u].kind != TaskType.Synthesis && !DependsOn(plan, s, u)
    requires plan[s].kind == TaskType.Synthesis
    requires forall v | v in plan :: v.kind != TaskType.Planning
    ensures Completes(longer, plan) && !AllDone(PlanTasks(Run(longer).value))
    decreases Unstarted(PlanTasks(Run(moves).value))
  {
    var tasks := PlanTasks(Run(moves).value);
    var rank :| Ranked(plan, rank);
    assert plan[s].id in Ids(plan);
    SteeredHasReady(tasks, s, rank, s);
    var r := ReadyTasks(tasks)[0];
    assert plan[r] in plan && tasks[r].vertex == plan[r];
    if tasks[r].vertex.kind == TaskType.Synthesis {
      longer := SteerToTheEnd(moves, s, u, plan);
    } else {
      longer := SteerOneTask(moves, s, plan);
      longer := Steer(longer, s, u, plan);
    }
  }

  lemma StartSteering(items: seq<PlannedTask>, s: nat) returns (moves: seq<Move>)
    requires ValidDag(ItemShape(items)) && s < |items|
    ensures Run(moves).Some? && SteeringPoint(Run(moves).value, s, ItemShape(items))
  {
    Extend(Fresh(), [], Node(Quiet));
    var m := [Node(Quiet)];
    Extend(Fresh(), m, Node(Planned(items)));
    moves := m + [Node(Planned(items))];
    FreshKeeps();
    RunsKeep(Fresh(), moves);
    assert PlanTasks(Run(moves).value) == DomainTasks(items);
    assert Shape(DomainTasks(items)) == ItemShape(items);
  }

  /** For every valid plan without PLANNING tasks: each run over it that ends COMPLETED has completed every
      task exactly when each SYNTHESIS task depends on each other kind of task. */
  lemma CompletedMeansAllDoneIff(items: seq<PlannedTask>)
    requires ValidDag(ItemShape(items)) && forall v | v in ItemShape(items) :: v.kind != TaskType.Planning
    ensures (forall moves | Completes(moves, ItemShape(items)) :: AllDone(PlanTasks(Run(moves).value)))
            <==> SynthesisCoversWork(ItemShape(items))
  {
    var plan := ItemShape(items);
    if SynthesisCoversWork(plan) {
      forall moves | Completes(moves, plan) ensures AllDone(PlanTasks(Run(moves).value)) {
        FreshKeeps();
        RunsKeep(Fresh(), moves);
        ConcludedCovers(PlanTasks(Run(moves).value));
      }
    } else {
      var s, u :| 0 <= s < |plan| && 0 <= u < |plan|
        && plan[s].kind == TaskType.Synthesis && plan[u].kind != TaskType.Synthesis && !DependsOn(plan, s, u);
      var start := StartSteering(items, s);
      var moves := Steer(start, s, u, plan);
      assert Completes(moves, plan) && !AllDone(PlanTasks(Run(moves).value));
    }
  }
}
