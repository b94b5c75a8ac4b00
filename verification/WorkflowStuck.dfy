/** Which plans get stuck although every worker succeeds and every result is accepted, read off the plan itself. */
module WorkflowStuck {
  import opened PlanGraph
  import opened Workflow
  import opened WorkflowSafety
  import opened WorkflowCompletion

  function PendingAt(tasks: Tasks): set<nat> {
    set i: nat | i < |tasks| && tasks[i].status == Pending
  }

  function Done(tasks: Tasks, i: nat): Tasks
    requires i < |tasks|
  {
    tasks[i := tasks[i].(status := Completed)]
  }

  lemma DoneShrinks(tasks: Tasks, i: nat)
    requires i < |tasks| && tasks[i].status == Pending
    ensures PendingAt(Done(tasks, i)) < PendingAt(tasks)
  {
    assert i in PendingAt(tasks) && i !in PendingAt(Done(tasks, i));
  }

  /** The supervisor's own course if every worker succeeds and the critic accepts everything: nothing failed, no
      SYNTHESIS or PLANNING task comes up, and in the end nothing is ready though something is unfinished. */
  predicate DeadlockAhead(tasks: Tasks)
    decreases PendingAt(tasks)
  {
    if HasFailedTasks(tasks) then false
    else if ReadyTasks(tasks) == [] then !AllCompleted(tasks)
    else
      ReadyTasksAreReady(tasks);
      var r := ReadyTasks(tasks)[0];
      DoneShrinks(tasks, r);
      !EndsRun(tasks[r].vertex.kind) && DeadlockAhead(Done(tasks, r))
  }

  // ---- The same, as a property of the plan ----

  /** The path leads from task to task that it depends on, over pending tasks, to one that is in progress. */
  ghost predicate Blocks(tasks: Tasks, path: seq<nat>, i: nat, j: nat) {
    && Connects(Shape(tasks), path, i, j) && tasks[j].status == InProgress
    && forall k | 0 <= k < |path| - 1 :: tasks[path[k]].status == Pending
  }

  /** Task `i` is pending and, directly or through other pending tasks, depends on one that is in progress. */
  ghost predicate WaitsForever(tasks: Tasks, i: nat) {
    exists path, j :: Blocks(tasks, path, i, j)
  }

  /** Nothing failed, a task is in progress that nobody works on, and no pending SYNTHESIS or PLANNING task comes up
      before it. */
  ghost predicate Stuck(tasks: Tasks) {
    && !HasFailedTasks(tasks)
    && (exists i :: 0 <= i < |tasks| && tasks[i].status == InProgress)
    && forall i | 0 <= i < |tasks| && tasks[i].status == Pending && EndsRun(tasks[i].vertex.kind) ::
         WaitsForever(tasks, i)
  }

  predicate FourStates(tasks: Tasks) {
    forall i | 0 <= i < |tasks| :: tasks[i].status in {Pending, InProgress, Completed, Failed}
  }

  lemma OneWithTheId(tasks: Tasks, i: nat)
    requires DistinctIds(Shape(tasks)) && i < |tasks| && tasks[i].Id() in CompletedIds(tasks)
    ensures tasks[i].status == Completed
  {
    var j :| 0 <= j < |tasks| && tasks[j].status == Completed && tasks[j].Id() == tasks[i].Id();
    assert Shape(tasks)[i].id == Shape(tasks)[j].id;
  }

  /** A ready task stands on no such path. */
  lemma ReadyIsFree(tasks: Tasks, path: seq<nat>, i: nat, j: nat, r: nat)
    requires DistinctIds(Shape(tasks)) && Blocks(tasks, path, i, j) && r < |tasks| && IsReady(tasks, r)
    ensures r !in path
  {
    if k :| 0 <= k < |path| && path[k] == r {
      var d := path[k + 1];
      assert Shape(tasks)[d].id in Shape(tasks)[path[k]].dependencies;
      OneWithTheId(tasks, d);
      assert false;
    }
  }

  lemma StillBlocked(tasks: Tasks, i: nat, r: nat)
    requires DistinctIds(Shape(tasks)) && r < |tasks| && IsReady(tasks, r) && WaitsForever(tasks, i)
    ensures i != r && WaitsForever(Done(tasks, r), i)
  {
    var path, j :| Blocks(tasks, path, i, j);
    ReadyIsFree(tasks, path, i, j, r);
    assert path[0] in path && path[|path| - 1] in path;
    assert Shape(Done(tasks, r)) == Shape(tasks);
    forall k | 0 <= k < |path| - 1 ensures Done(tasks, r)[path[k]].status == Pending {
      assert path[k] in path;
    }
    assert Blocks(Done(tasks, r), path, i, j);
  }

  lemma WasBlocked(tasks: Tasks, i: nat, r: nat)
    requires r < |tasks| && tasks[r].status == Pending && WaitsForever(Done(tasks, r), i)
    ensures WaitsForever(tasks, i)
  {
    var path, j :| Blocks(Done(tasks, r), path, i, j);
    assert Shape(Done(tasks, r)) == Shape(tasks);
    assert Blocks(tasks, path, i, j);
  }

  lemma BlockedThrough(tasks: Tasks, i: nat, j: nat)
    requires i < |tasks| && j < |tasks| && tasks[i].status == Pending && tasks[j].Id() in tasks[i].vertex.dependencies
    requires tasks[j].status == InProgress || WaitsForever(tasks, j)
    ensures WaitsForever(tasks, i)
  {
    if tasks[j].status == InProgress {
      assert Blocks(tasks, [i, j], i, j);
    } else {
      var path, l :| Blocks(tasks, path, j, l);
      var longer := [i] + path;
      assert Connects(Shape(tasks), longer, i, l) by {
        assert forall k | 0 < k < |longer| :: longer[k] == path[k - 1];
      }
      assert Blocks(tasks, longer, i, l);
    }
  }

  /** When nothing is ready, every pending task depends on one in progress. */
  lemma {:induction false} NothingReadyBlocks(tasks: Tasks, rank: map<TaskId, nat>, i: nat)
    requires ReferencesExist(Shape(tasks)) && Ranked(Shape(tasks), rank) && FourStates(tasks) && !HasFailedTasks(tasks)
    requires ReadyTasks(tasks) == [] && i < |tasks| && tasks[i].status == Pending && tasks[i].Id() in rank
    ensures WaitsForever(tasks, i)
    decreases rank[tasks[i].Id()]
  {
    var plan := Shape(tasks);
    ReadyTasksAreReady(tasks);
    assert !IsReady(tasks, i);
    var d :| d in tasks[i].vertex.dependencies && d !in CompletedIds(tasks);
    assert d in plan[i].dependencies && plan[i].id in Ids(plan) && d in Ids(plan);
    var j :| 0 <= j < |plan| && plan[j].id == d;
    assert tasks[j].status != Completed;
    if tasks[j].status == Pending {
      NothingReadyBlocks(tasks, rank, j);
    }
    BlockedThrough(tasks, i, j);
  }

  lemma NothingReady(tasks: Tasks)
    requires ValidDag(Shape(tasks)) && FourStates(tasks) && !HasFailedTasks(tasks) && ReadyTasks(tasks) == []
    ensures Stuck(tasks) <==> !AllCompleted(tasks)
  {
    hide ReadyTasks;
    var rank :| Ranked(Shape(tasks), rank);
    assert Shape(tasks) != [];
    forall i | 0 <= i < |tasks| && tasks[i].status == Pending ensures WaitsForever(tasks, i) {
      assert Shape(tasks)[i].id in Ids(Shape(tasks));
      NothingReadyBlocks(tasks, rank, i);
    }
    if !AllCompleted(tasks) {
      var i :| 0 <= i < |tasks| && tasks[i].status !in {Completed, Skipped};
      if tasks[i].status == Pending {
        assert WaitsForever(tasks, i);
        var path, j: nat :| Blocks(tasks, path, i, j);
        assert tasks[j].status == InProgress;
      }
    }
  }

  lemma StuckAfterDone(tasks: Tasks, r: nat)
    requires DistinctIds(Shape(tasks)) && r < |tasks| && IsReady(tasks, r) && !EndsRun(tasks[r].vertex.kind)
    ensures Stuck(Done(tasks, r)) <==> Stuck(tasks)
  {
    var after := Done(tasks, r);
    assert forall i | 0 <= i < |tasks| && i != r :: after[i] == tasks[i];
    forall i: nat ensures WaitsForever(tasks, i) <==> WaitsForever(after, i) {
      if WaitsForever(tasks, i) {
        StillBlocked(tasks, i, r);
      }
      if WaitsForever(after, i) {
        WasBlocked(tasks, i, r);
      }
    }
    hide WaitsForever;
    if i :| 0 <= i < |tasks| && tasks[i].status == InProgress {
      assert after[i].status == InProgress;
    }
    if i :| 0 <= i < |tasks| && tasks[i].status == Failed {
      assert after[i].status == Failed;
    }
  }

  /** For any valid plan: the supervisor runs into a deadlock, if all goes well from here, exactly if nothing failed,
      some task is in progress, and each pending SYNTHESIS or PLANNING task depends on such a task, directly or
      through other pending ones. */
  lemma {:induction false} DeadlockAheadIff(tasks: Tasks)
    requires ValidDag(Shape(tasks)) && FourStates(tasks)
    ensures DeadlockAhead(tasks) <==> Stuck(tasks)
    decreases PendingAt(tasks)
  {
    hide ValidDag, ReadyTasks, WaitsForever;
    if HasFailedTasks(tasks) {
    } else if ReadyTasks(tasks) == [] {
      NothingReady(tasks);
    } else {
      ReadyTasksAreReady(tasks);
      var r := ReadyTasks(tasks)[0];
      Distinct(Shape(tasks));
      if EndsRun(tasks[r].vertex.kind) {
        if WaitsForever(tasks, r) {
          StillBlocked(tasks, r, r);
          assert false;
        }
      } else {
        DoneShrinks(tasks, r);
        StuckAfterDone(tasks, r);
        assert Shape(Done(tasks, r)) == Shape(tasks);
        DeadlockAheadIff(Done(tasks, r));
      }
    }
  }

  lemma Distinct(plan: seq<Vertex>)
    requires ValidDag(plan)
    ensures DistinctIds(plan)
  {
  }

  // ---- Where finished tasks have finished dependencies ----

  lemma DoneIsClosed(tasks: Tasks, path: seq<nat>, k: nat)
    requires PlanOk(tasks) && Chain(Shape(tasks), path) && k < |path|
    requires tasks[path[0]].status == Completed
    ensures tasks[path[k]].status == Completed
  {
    hide Acyclic;
    if k > 0 {
      DoneIsClosed(tasks, path, k - 1);
      assert Shape(tasks)[path[k]].id in Shape(tasks)[path[k - 1]].dependencies;
      assert TaskOk(tasks[path[k - 1]], CompletedIds(tasks));
      OneWithTheId(tasks, path[k]);
    }
  }

  /** Between a pending task and one in progress everything is pending. */
  lemma OnTheWay(tasks: Tasks, path: seq<nat>, i: nat, j: nat, k: nat)
    requires PlanOk(tasks) && Connects(Shape(tasks), path, i, j) && tasks[j].status == InProgress && k < |path| - 1
    requires !HasFailedTasks(tasks)
    ensures tasks[path[k]].status == Pending
  {
    hide Acyclic;
    var x := path[k];
    assert TaskOk(tasks[x], CompletedIds(tasks));
    if tasks[x].status != Pending {
      var d := path[k + 1];
      assert Shape(tasks)[d].id in Shape(tasks)[x].dependencies;
      OneWithTheId(tasks, d);
      var rest := path[k + 1..];
      assert Chain(Shape(tasks), rest) by {
        assert forall m | 0 <= m < |rest| :: rest[m] == path[k + 1 + m];
      }
      DoneIsClosed(tasks, rest, |rest| - 1);
      assert false;
    }
  }

  /** Where no finished task has lost a dependency, plain dependence says the same. */
  lemma StuckByDependence(tasks: Tasks)
    requires PlanOk(tasks)
    ensures Stuck(tasks) <==>
            && !HasFailedTasks(tasks)
            && (exists i :: 0 <= i < |tasks| && tasks[i].status == InProgress)
            && forall i | 0 <= i < |tasks| && EndsRun(tasks[i].vertex.kind) ::
                 exists j :: 0 <= j < |tasks| && tasks[j].status == InProgress && DependsOn(Shape(tasks), i, j)
  {
    hide Acyclic, TaskOk, Chain;
    if !HasFailedTasks(tasks) {
      forall i | 0 <= i < |tasks| && EndsRun(tasks[i].vertex.kind)
          ensures tasks[i].status == Pending
          ensures WaitsForever(tasks, i) <==>
                  exists j :: 0 <= j < |tasks| && tasks[j].status == InProgress && DependsOn(Shape(tasks), i, j) {
        KindIsPending(tasks, i);
        WaitsByDependence(tasks, i);
      }
    }
  }

  lemma KindIsPending(tasks: Tasks, i: nat)
    requires PlanOk(tasks) && i < |tasks| && EndsRun(tasks[i].vertex.kind)
    ensures tasks[i].status == Pending
  {
    assert TaskOk(tasks[i], CompletedIds(tasks));
  }

  lemma WaitsByDependence(tasks: Tasks, i: nat)
    requires PlanOk(tasks) && !HasFailedTasks(tasks)
    ensures WaitsForever(tasks, i) <==>
            exists j :: 0 <= j < |tasks| && tasks[j].status == InProgress && DependsOn(Shape(tasks), i, j)
  {
    hide PlanOk, HasFailedTasks;
    if WaitsForever(tasks, i) {
      var path, j :| Blocks(tasks, path, i, j);
      assert Connects(Shape(tasks), path, i, j);
    }
    if j :| 0 <= j < |tasks| && tasks[j].status == InProgress && DependsOn(Shape(tasks), i, j) {
      var path :| Connects(Shape(tasks), path, i, j);
      forall k | 0 <= k < |path| - 1 ensures tasks[path[k]].status == Pending {
        OnTheWay(tasks, path, i, j, k);
      }
      assert Blocks(tasks, path, i, j);
    }
  }
}
