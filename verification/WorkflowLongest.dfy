/** The longest fresh runs: the visit bound is reached for every number of tasks. */
module WorkflowLongest {
  import opened PlanGraph
  import opened Workflow
  import opened WorkflowSafety
  import opened WorkflowRuns
  import opened WorkflowOrder
  import opened WorkflowBound
  import opened WorkflowDeadlock

  const DEFAULT_MAX_STEPS: nat := 50

  /** The name of task `i`, one letter longer than the name before. */
  function Name(i: nat): (id: TaskId)
    ensures |id| == i + 1
  {
    seq(i + 1, _ => 'a')
  }

  /** `n` tool tasks that depend on nothing. */
  function Items(n: nat): (items: seq<PlannedTask>)
    ensures |items| == n
    ensures forall i | 0 <= i < n :: items[i] == PlannedTask(Vertex(Name(i), ToolExecution, []), map[])
  {
    seq(n, i requires 0 <= i < n => PlannedTask(Vertex(Name(i), ToolExecution, []), map[]))
  }

  lemma ItemsAreValid(n: nat)
    requires n > 0
    ensures ValidDag(ItemShape(Items(n)))
  {
    var plan := ItemShape(Items(n));
    forall i, j | 0 <= i < j < n ensures plan[i].id != plan[j].id {
      assert |plan[i].id| == i + 1 && |plan[j].id| == j + 1;
    }
    assert Ranked(plan, map x | x in Ids(plan) :: 0);
  }

  /** The first `k` tasks are completed at their third attempt; task `k` has `retries` attempts behind it. */
  function Reached(n: nat, k: nat, retries: nat): (tasks: Tasks)
    requires k <= n
    ensures |tasks| == n
    ensures forall i | 0 <= i < n ::
              tasks[i] == TaskRecord(Vertex(Name(i), ToolExecution, []), if i < k then Completed else Pending,
                  if i < k then 2 else if i == k then retries else 0, DEFAULT_MAX_RETRIES, map[])
  {
    seq(n, i requires 0 <= i < n =>
      TaskRecord(Vertex(Name(i), ToolExecution, []), if i < k then Completed else Pending,
                 if i < k then 2 else if i == k then retries else 0, DEFAULT_MAX_RETRIES, map[]))
  }

  lemma ReachedReady(n: nat, k: nat, retries: nat)
    requires k < n
    ensures ReadyTasks(Reached(n, k, retries)) != [] && ReadyTasks(Reached(n, k, retries))[0] == k
  {
    var tasks := Reached(n, k, retries);
    ReadyTasksAreReady(tasks);
    assert IsReady(tasks, k);
    assert forall i | 0 <= i < k :: !IsReady(tasks, i);
    assert IsReady(tasks, ReadyTasks(tasks)[0]);
  }

  function AgainPlease(): Outcome {
    Judged(CriticResult(RetryableFailure, false, Critique(Some(NeedsRetry), false, true)), "")
  }

  /** The critic asks for a retry, twice, and then accepts. */
  function ThreeTurns(): seq<Move> {
    Turn(AgainPlease()) + Turn(AgainPlease()) + Turn(Acceptance())
  }

  lemma TryOnce(g: Graph, n: nat, k: nat, retries: nat, o: Outcome, after: Tasks)
    requires k < n && AtPlan(g, Reached(n, k, retries))
    requires (o == AgainPlease() && retries < 2 && after == Reached(n, k, retries + 1))
             || (o == Acceptance() && retries == 2 && after == Reached(n, k + 1, 0))
    ensures RunFrom(g, Turn(o)).Some? && AtPlan(RunFrom(g, Turn(o)).value, after)
  {
    hide RunFrom, ReadyTasks, AtPlan, Turn;
    var tasks := Reached(n, k, retries);
    ReachedReady(n, k, retries);
    OneTurn(g, tasks, o);
    assert tasks[k := Ruled(tasks[k], Rule(o.result))] == after;
  }

  lemma TryThreeTimes(g: Graph, n: nat, k: nat)
    requires k < n && AtPlan(g, Reached(n, k, 0))
    ensures RunFrom(g, ThreeTurns()).Some? && AtPlan(RunFrom(g, ThreeTurns()).value, Reached(n, k + 1, 0))
  {
    hide RunFrom, AtPlan, Turn, AgainPlease, Acceptance;
    var a, b := Turn(AgainPlease()), Turn(Acceptance());
    TryOnce(g, n, k, 0, AgainPlease(), Reached(n, k, 1));
    TryOnce(RunFrom(g, a).value, n, k, 1, AgainPlease(), Reached(n, k, 2));
    RunAppend(g, a, a);
    TryOnce(RunFrom(g, a + a).value, n, k, 2, Acceptance(), Reached(n, k + 1, 0));
    RunAppend(g, a + a, b);
  }

  predicate Plain(moves: seq<Move>) {
    forall m | m in moves :: PlainMove(m)
  }

  lemma TurnsArePlain()
    ensures Plain(ThreeTurns()) && |ThreeTurns()| == 9
  {
  }

  /** The tasks from `k` on, each in three turns. */
  lemma {:induction false} TryAll(g: Graph, n: nat, k: nat) returns (moves: seq<Move>)
    requires k <= n && AtPlan(g, Reached(n, k, 0))
    ensures |moves| == 9 * (n - k) && Plain(moves) && RunFrom(g, moves).Some?
    ensures AtPlan(RunFrom(g, moves).value, Reached(n, n, 0))
    decreases n - k
  {
    if k == n {
      moves := [];
    } else {
      hide RunFrom, AtPlan, ThreeTurns, Plain;
      TryThreeTimes(g, n, k);
      TurnsArePlain();
      var rest := TryAll(RunFrom(g, ThreeTurns()).value, n, k + 1);
      RunAppend(g, ThreeTurns(), rest);
      PlainAppend(ThreeTurns(), rest);
      moves := ThreeTurns() + rest;
    }
  }

  lemma PlainAppend(a: seq<Move>, b: seq<Move>)
    requires Plain(a) && Plain(b)
    ensures Plain(a + b)
  {
  }

  lemma PlanMade(n: nat) returns (moves: seq<Move>)
    requires n > 0
    ensures |moves| == 2 && Plain(moves) && Run(moves).Some? && AtPlan(Run(moves).value, Reached(n, 0, 0))
    ensures Run(moves).value.state.requests == []
  {
    ItemsAreValid(n);
    var plan := Node(Planned(Items(n)));
    Extend(Fresh(), [], Node(Quiet));
    Extend(Fresh(), [Node(Quiet)], plan);
    moves := [Node(Quiet)] + [plan];
    assert DomainTasks(Items(n)) == Reached(n, 0, 0);
    assert Shape(Reached(n, 0, 0)) == ItemShape(Items(n));
  }

  /** With everything completed, the supervisor passes on to synthesis, and the run is over. */
  lemma LastTwo(g: Graph, n: nat)
    requires n > 0 && AtPlan(g, Reached(n, n, 0))
    ensures var last := [Node(Quiet)] + [Node(Quiet)];
            RunFrom(g, last).Some? && |PlanTasks(RunFrom(g, last).value)| == n && RunFrom(g, last).value.at == End
  {
    hide ReadyUpTo;
    ReadyTasksAreReady(Reached(n, n, 0));
    assert AllCompleted(Reached(n, n, 0));
    var g1 := Visit(g, Quiet);
    RunOne(g, Quiet);
    RunOne(g1, Quiet);
    RunAppend(g, [Node(Quiet)], [Node(Quiet)]);
  }

  /** For every number of tasks some fresh run makes exactly 4 + 9 * n visits: each task is retried twice. */
  lemma LongestRun(n: nat) returns (moves: seq<Move>)
    requires n > 0
    ensures Run(moves).Some? && Plain(moves) && |PlanTasks(Run(moves).value)| == n && |moves| == 4 + 9 * n
  {
    hide RunFrom, AtPlan;
    var last := [Node(Quiet)] + [Node(Quiet)];
    var first := PlanMade(n);
    var middle := TryAll(Run(first).value, n, 0);
    RunAppend(Fresh(), first, middle);
    LastTwo(Run(first + middle).value, n);
    RunAppend(Fresh(), first + middle, last);
    PlainAppend(first, middle);
    PlainAppend(first + middle, last);
    moves := first + middle + last;
  }

  /** A limit on visits covers all fresh runs over `n` tasks exactly if it is at least 4 + 9 * n; the default of 50
      does for up to five tasks. */
  lemma LimitCoversIff(n: nat, limit: nat)
    requires n > 0
    ensures (forall moves | Run(moves).Some? && Plain(moves) && |PlanTasks(Run(moves).value)| == n :: |moves| <= limit)
            <==> 4 + 9 * n <= limit
    ensures limit == DEFAULT_MAX_STEPS ==> (4 + 9 * n <= limit <==> n <= 5)
  {
    hide RunFrom;
    var longest := LongestRun(n);
    if 4 + 9 * n <= limit {
      forall moves | Run(moves).Some? && Plain(moves) && |PlanTasks(Run(moves).value)| == n ensures |moves| <= limit {
        FreshRunBound(moves);
      }
    }
  }
}
