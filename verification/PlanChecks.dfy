/** The two cycle checks: the planner's validation of a fresh plan and the scorer's later
    feasibility test. Their peeling loops are the same loop; they differ in what they build first. */
module PlanChecks {
  import opened Lists
  import opened PlanGraph

  // ---- Kahn's peeling loop ----

  /** `line` is every id ever queued, in order: each came after everything it depends on. */
  ghost predicate Causal(edges: seq<Edge>, line: seq<TaskId>) {
    forall i, e | 0 <= i < |line| && e in edges && e.target == line[i] :: e.source in line[..i]
  }

  /** The degree table counts, for each id, the edges from ids not yet removed, where `left` are
      the edges of the vertex being removed that still have to be subtracted. */
  ghost predicate Counts(ids: set<TaskId>, edges: seq<Edge>, gone: set<TaskId>, left: seq<TaskId>,
      degree: map<TaskId, int>) {
    degree.Keys == ids && forall x | x in ids :: degree[x] == Incoming(edges, x, gone) + multiset(left)[x]
  }

  ghost predicate ZeroIsQueued(line: seq<TaskId>, degree: map<TaskId, int>) {
    forall x | x in degree :: x in line <==> degree[x] == 0
  }

  lemma {:induction false} QueueOne(ids: set<TaskId>, edges: seq<Edge>, gone: set<TaskId>, line: seq<TaskId>, x: TaskId)
    requires Causal(edges, line) && NoDup(line) && x !in line && gone <= SetOf(line)
    requires Incoming(edges, x, gone) == 0
    ensures Causal(edges, line + [x]) && NoDup(line + [x])
  {
    IncomingZero(edges, x, gone);
    var l := line + [x];
    forall i, e | 0 <= i < |l| && e in edges && e.target == l[i] ensures e.source in l[..i] {
      if i < |line| {
        assert l[..i] == line[..i];
      } else {
        assert l[..i] == line;
      }
    }
  }

  /** Everything queued: positions in the queue are a rank. */
  lemma PositionsRank(ids: set<TaskId>, edges: seq<Edge>, line: seq<TaskId>)
    requires Causal(edges, line) && NoDup(line) && SetOf(line) == ids
    requires forall e | e in edges :: e.source in ids && e.target in ids
    ensures AcyclicEdges(ids, edges)
  {
    var rank: map<TaskId, nat> := map x | x in ids :: Position(line, x);
    forall e | e in edges ensures rank[e.source] < rank[e.target] {
      var i := Position(line, e.target);
      assert e.source in line[..i];
      var j :| 0 <= j < i && line[j] == e.source;
      assert Position(line, e.source) == j;
    }
    assert EdgesRanked(ids, edges, rank);
  }

  ghost function Position(line: seq<TaskId>, x: TaskId): (i: nat)
    requires x in line
    ensures i < |line| && line[i] == x
  {
    var i :| 0 <= i < |line| && line[i] == x; i
  }

  /** With a rank, an id that was never queued would sit above a lower one that was never queued. */
  lemma {:induction false} RankedIsQueued(ids: set<TaskId>, edges: seq<Edge>, line: seq<TaskId>,
                                          degree: map<TaskId, int>, rank: map<TaskId, nat>, x: TaskId)
    requires Counts(ids, edges, SetOf(line), [], degree) && ZeroIsQueued(line, degree)
    requires EdgesRanked(ids, edges, rank) && x in ids
    requires forall e | e in edges :: e.source in ids && e.target in ids
    ensures x in line
    decreases rank[x]
  {
    if x !in line {
      IncomingZero(edges, x, SetOf(line));
      var e :| e in edges && e.target == x && e.source !in SetOf(line);
      RankedIsQueued(ids, edges, line, degree, rank, e.source);
    }
  }

  /** The invariant between two pops: `line[done..]` is the queue, `line[..done]` has been removed. */
  ghost predicate Peeling(ids: set<TaskId>, edges: seq<Edge>, line: seq<TaskId>, done: nat, degree: map<TaskId, int>) {
    && done <= |line| && NoDup(line) && SetOf(line) <= ids && Causal(edges, line)
    && Counts(ids, edges, SetOf(line[..done]), [], degree)
    && ZeroIsQueued(line, degree)
  }

  /** Fill the queue with the ids nothing is required for, in plan order. */
  method SeedQueue(nodes: seq<TaskId>, inDegree: map<TaskId, int>, ghost edges: seq<Edge>) returns (queue: seq<TaskId>)
    requires NoDup(nodes) && Counts(SetOf(nodes), edges, {}, [], inDegree)
    ensures Peeling(SetOf(nodes), edges, queue, 0, inDegree)
  {
    queue := [];
    for k := 0 to |nodes|
      invariant NoDup(queue) && Causal(edges, queue)
      invariant forall x :: x in queue <==> x in nodes[..k] && inDegree[x] == 0
    {
      assert nodes[..k + 1] == nodes[..k] + [nodes[k]];
      if inDegree[nodes[k]] == 0 {
        QueueOne(SetOf(nodes), edges, {}, queue, nodes[k]);
        queue := queue + [nodes[k]];
      }
    }
    assert nodes[..|nodes|] == nodes;
    assert SetOf(queue[..0]) == {};
  }

  lemma StartRemoval(ids: set<TaskId>, edges: seq<Edge>, line: seq<TaskId>, done: nat, degree: map<TaskId, int>)
    requires Peeling(ids, edges, line, done, degree) && done < |line|
    ensures SetOf(line[..done + 1]) == SetOf(line[..done]) + {line[done]}
    ensures Counts(ids, edges, SetOf(line[..done + 1]), Targets(edges, line[done]), degree)
  {
    var v := line[done];
    assert line[..done + 1] == line[..done] + [v];
    assert v !in line[..done];
    assert SetOf(line[..done + 1]) == SetOf(line[..done]) + {v};
    forall x | x in ids
      ensures Incoming(edges, x, SetOf(line[..done])) ==
              Incoming(edges, x, SetOf(line[..done + 1])) + multiset(Targets(edges, v))[x]
    {
      RemoveVertex(edges, x, SetOf(line[..done]), v);
    }
  }

  /** Lower the degree of everything that waits for the popped vertex, queueing what reaches zero. */
  method RemovePopped(waiting: seq<TaskId>, degrees: map<TaskId, int>, queue0: seq<TaskId>,
                      ghost ids: set<TaskId>, ghost edges: seq<Edge>, ghost line0: seq<TaskId>, ghost done: nat)
    returns (inDegree: map<TaskId, int>, queue: seq<TaskId>, ghost line: seq<TaskId>)
    requires done <= |line0| && queue0 == line0[done..]
    requires NoDup(line0) && SetOf(line0) <= ids && Causal(edges, line0) && ZeroIsQueued(line0, degrees)
    requires Counts(ids, edges, SetOf(line0[..done]), waiting, degrees)
    requires forall x | x in waiting :: x in ids
    ensures Peeling(ids, edges, line, done, inDegree)
    ensures line0 <= line && queue == line[done..]
  {
    inDegree, queue, line := degrees, queue0, line0;
    ghost var gone := SetOf(line0[..done]);
    assert waiting[0..] == waiting;
    for k := 0 to |waiting|
      invariant line0 <= line && queue == line[done..] && line[..done] == line0[..done]
      invariant NoDup(line) && SetOf(line) <= ids && Causal(edges, line)
      invariant Counts(ids, edges, gone, waiting[k..], inDegree)
      invariant ZeroIsQueued(line, inDegree)
    {
      var nxt := waiting[k];
      assert waiting[k..] == [nxt] + waiting[k + 1..];
      inDegree := inDegree[nxt := inDegree[nxt] - 1];
      if inDegree[nxt] == 0 {
        QueueOne(ids, edges, gone, line, nxt);
        queue := queue + [nxt];
        line := line + [nxt];
      }
    }
  }

  /** Once the queue is empty, everything was queued exactly when the edges admit a rank. */
  lemma PeeledAll(nodes: seq<TaskId>, edges: seq<Edge>, line: seq<TaskId>, degree: map<TaskId, int>)
    requires NoDup(nodes) && Peeling(SetOf(nodes), edges, line, |line|, degree)
    requires forall e | e in edges :: e.source in nodes && e.target in nodes
    ensures |line| <= |nodes|
    ensures |line| == |nodes| <==> AcyclicEdges(SetOf(nodes), edges)
  {
    var ids := SetOf(nodes);
    assert line[..|line|] == line;
    NoDupSize(nodes);
    NoDupSize(line);
    SubsetSize(SetOf(line), ids);
    if |line| == |nodes| {
      PositionsRank(ids, edges, line);
    }
    if AcyclicEdges(ids, edges) {
      var rank :| EdgesRanked(ids, edges, rank);
      forall x | x in ids ensures x in line {
        RankedIsQueued(ids, edges, line, degree, rank, x);
      }
      assert SetOf(line) == ids;
    }
  }

  /** Popping takes a new id off the line, one of the plan. */
  lemma PopIsNew(ids: set<TaskId>, line: seq<TaskId>, done: nat)
    requires NoDup(line) && SetOf(line) <= ids && done < |line|
    ensures line[done..][0] == line[done] && line[done..][1..] == line[done + 1..]
    ensures line[done] in ids && line[done] !in SetOf(line[..done])
    ensures SetOf(line[..done + 1]) == SetOf(line[..done]) + {line[done]}
  {
    assert line[..done + 1] == line[..done] + [line[done]];
  }

  /** Pop ids with no remaining dependency until none is left; `popped` records the pops. */
  method PeelLayers(nodes: seq<TaskId>, degrees: map<TaskId, int>, dependents: map<TaskId, seq<TaskId>>,
                    ghost edges: seq<Edge>)
    returns (visited: nat, ghost popped: seq<TaskId>)
    requires NoDup(nodes) && dependents.Keys == SetOf(nodes)
    requires Counts(SetOf(nodes), edges, {}, [], degrees)
    requires forall e | e in edges :: e.source in nodes && e.target in nodes
    requires forall x | x in nodes :: dependents[x] == Targets(edges, x)
    ensures visited == |popped| <= |nodes| && NoDup(popped) && SetOf(popped) <= SetOf(nodes)
    ensures visited == |nodes| <==> AcyclicEdges(SetOf(nodes), edges)
  {
    hide Incoming, Targets, Causal, AcyclicEdges, Counts, ZeroIsQueued;
    ghost var ids := SetOf(nodes);
    var inDegree := degrees;
    var queue := SeedQueue(nodes, inDegree, edges);
    visited := 0;
    ghost var line := queue;
    while queue != []
      invariant Peeling(ids, edges, line, visited, inDegree) && queue == line[visited..]
      decreases ids - SetOf(line[..visited])
    {
      var node := queue[0];
      queue := queue[1..];
      ghost var line0 := line;
      PopIsNew(ids, line, visited);
      StartRemoval(ids, edges, line, visited, inDegree);
      TargetsAreTargets(edges, node);
      visited := visited + 1;
      inDegree, queue, line := RemovePopped(dependents[node], inDegree, queue, ids, edges, line, visited);
      assert line[..visited] == line0[..visited];
    }
    popped := line;
    PeeledAll(nodes, edges, line, inDegree);
  }

  lemma {:induction false} SubsetSize(a: set<TaskId>, b: set<TaskId>)
    requires a <= b
    ensures |a| <= |b|
    ensures |a| == |b| ==> a == b
  {
    var c := b - a;
    assert b == a + c;
    assert |b| == |a| + |c|;
  }

  // ---- The tables both checks build ----

  ghost predicate Tables(ids: set<TaskId>, edges: seq<Edge>, degree: map<TaskId, int>,
                         dependents: map<TaskId, seq<TaskId>>) {
    && degree.Keys == ids && dependents.Keys == ids
    && (forall x | x in ids :: degree[x] == Incoming(edges, x, {}))
    && (forall x | x in ids :: dependents[x] == Targets(edges, x))
  }

  lemma AddEdge(ids: set<TaskId>, edges: seq<Edge>, e: Edge, degree: map<TaskId, int>,
                dependents: map<TaskId, seq<TaskId>>)
    requires Tables(ids, edges, degree, dependents) && e.source in ids && e.target in ids
    ensures Tables(ids, edges + [e], degree[e.target := degree[e.target] + 1],
                   dependents[e.source := dependents[e.source] + [e.target]])
  {
    assert (edges + [e])[..|edges|] == edges;
  }

  lemma EdgesPrefix(plan: seq<Vertex>, i: nat, known: set<TaskId>)
    requires i < |plan|
    ensures Edges(plan[..i + 1], known) == Edges(plan[..i], known) + EdgesOf(plan[i].dependencies, plan[i].id, known)
  {
    assert plan[..i + 1][..i] == plan[..i];
  }

  lemma EdgesOfPrefix(deps: seq<TaskId>, k: nat, target: TaskId, known: set<TaskId>)
    requires k < |deps|
    ensures EdgesOf(deps[..k + 1], target, known) ==
            EdgesOf(deps[..k], target, known) + (if deps[k] in known then [Edge(deps[k], target)] else [])
  {
    assert deps[..k + 1][..k] == deps[..k];
  }

  lemma TablesStart(ids: set<TaskId>, edges: seq<Edge>, degree: map<TaskId, int>, dependents: map<TaskId, seq<TaskId>>)
    requires Tables(ids, edges, degree, dependents)
    ensures Counts(ids, edges, {}, [], degree)
  {
  }

  function IdList(plan: seq<Vertex>): (s: seq<TaskId>)
    ensures |s| == |plan| && forall i | 0 <= i < |plan| :: s[i] == plan[i].id
  {
    seq(|plan|, i requires 0 <= i < |plan| => plan[i].id)
  }

  lemma IdListSet(plan: seq<Vertex>)
    ensures SetOf(IdList(plan)) == Ids(plan)
    ensures NoDup(IdList(plan)) <==> DistinctIds(plan)
  {
    forall x | x in Ids(plan) ensures x in IdList(plan) {
      var i :| 0 <= i < |plan| && plan[i].id == x;
      assert IdList(plan)[i] == x;
    }
  }

  // ---- The planner's check ----

  datatype Verdict =
    | Accepted
    | EmptyPlan
    | DuplicateIds
    | SelfDependency(task: TaskId)
    | UnknownDependency(task: TaskId, dependency: TaskId)
    | CyclicPlan

  predicate CleanReferences(v: Vertex, ids: set<TaskId>) {
    v.id !in v.dependencies && forall d | d in v.dependencies :: d in ids
  }

  predicate CleanUpTo(plan: seq<Vertex>, n: nat)
    requires n <= |plan|
  {
    forall i | 0 <= i < n :: CleanReferences(plan[i], Ids(plan))
  }

  /** The reported reference fault is the first one in plan order, a self-dependency before a missing one. */
  ghost predicate FirstFault(plan: seq<Vertex>, i: nat, r: Verdict) {
    && i < |plan| && CleanUpTo(plan, i)
    && match r
       case SelfDependency(t) => t == plan[i].id && t in plan[i].dependencies
       case UnknownDependency(t, d) =>
         && t == plan[i].id && t !in plan[i].dependencies
         && exists k :: 0 <= k < |plan[i].dependencies| && plan[i].dependencies[k] == d && d !in Ids(plan)
                        && forall j | 0 <= j < k :: plan[i].dependencies[j] in Ids(plan)
       case _ => false
  }

  method CheckReferences(plan: seq<Vertex>, taskIdSet: set<TaskId>) returns (r: Verdict)
    requires taskIdSet == Ids(plan)
    ensures r.Accepted? <==> CleanUpTo(plan, |plan|)
    ensures !r.Accepted? ==> exists i: nat :: FirstFault(plan, i, r)
  {
    for i := 0 to |plan|
      invariant CleanUpTo(plan, i)
    {
      var t := plan[i];
      if t.id in t.dependencies {
        r := SelfDependency(t.id);
        assert FirstFault(plan, i, r);
        return;
      }
      for k := 0 to |t.dependencies|
        invariant forall j | 0 <= j < k :: t.dependencies[j] in taskIdSet
      {
        if t.dependencies[k] !in taskIdSet {
          r := UnknownDependency(t.id, t.dependencies[k]);
          assert FirstFault(plan, i, r);
          return;
        }
      }
    }
    r := Accepted;
  }

  /** One more task: each of its dependencies gains a waiting task. */
  method AddTask(t: Vertex, inDegree0: map<TaskId, int>, dependents0: map<TaskId, seq<TaskId>>,
                 ghost known: set<TaskId>, ghost edges: seq<Edge>)
    returns (inDegree: map<TaskId, int>, dependents: map<TaskId, seq<TaskId>>)
    requires Tables(known, edges, inDegree0, dependents0) && t.id in known
    requires forall d | d in t.dependencies :: d in known
    ensures Tables(known, edges + EdgesOf(t.dependencies, t.id, known), inDegree, dependents)
  {
    hide Incoming, Targets;
    inDegree, dependents := inDegree0, dependents0;
    ghost var sofar := edges;
    assert edges + [] == edges;
    for k := 0 to |t.dependencies|
      invariant sofar == edges + EdgesOf(t.dependencies[..k], t.id, known)
      invariant Tables(known, sofar, inDegree, dependents)
    {
      var dep := t.dependencies[k];
      AddEdge(known, sofar, Edge(dep, t.id), inDegree, dependents);
      EdgesOfPrefix(t.dependencies, k, t.id, known);
      sofar := sofar + [Edge(dep, t.id)];
      dependents := dependents[dep := dependents[dep] + [t.id]];
      inDegree := inDegree[t.id := inDegree[t.id] + 1];
    }
    assert t.dependencies[..|t.dependencies|] == t.dependencies;
  }

  /** Fill the degree table and the waiting lists for a plan whose references all resolve. */
  method BuildTables(plan: seq<Vertex>, taskIds: seq<TaskId>)
    returns (inDegree: map<TaskId, int>, dependents: map<TaskId, seq<TaskId>>)
    requires taskIds == IdList(plan) && ReferencesExist(plan)
    ensures Tables(Ids(plan), Edges(plan, Ids(plan)), inDegree, dependents)
  {
    hide EdgesOf;
    ghost var known := Ids(plan);
    IdListSet(plan);
    inDegree := map x | x in taskIds :: 0;
    dependents := map x | x in taskIds :: [];
    for i := 0 to |plan|
      invariant Tables(known, Edges(plan[..i], known), inDegree, dependents)
    {
      EdgesPrefix(plan, i, known);
      inDegree, dependents := AddTask(plan[i], inDegree, dependents, known, Edges(plan[..i], known));
    }
    assert plan[..|plan|] == plan;
  }

  lemma EdgeEndsKnown(plan: seq<Vertex>, known: set<TaskId>)
    requires Ids(plan) <= known
    ensures forall e | e in Edges(plan, known) :: e.source in known && e.target in Ids(plan)
  {
    EdgesMembers(plan, known);
    forall e | e in Edges(plan, known) ensures e.source in known && e.target in Ids(plan) {
      assert HasEdge(plan, known, e);
    }
  }

  method ValidatePlanDag(plan: seq<Vertex>) returns (r: Verdict)
    ensures r.Accepted? <==> ValidDag(plan)
    ensures r.EmptyPlan? <==> plan == []
    ensures r.DuplicateIds? <==> plan != [] && !DistinctIds(plan)
    ensures r.SelfDependency? || r.UnknownDependency? <==> plan != [] && DistinctIds(plan) && !CleanUpTo(plan, |plan|)
    ensures r.SelfDependency? || r.UnknownDependency? ==> exists i: nat :: FirstFault(plan, i, r)
    ensures r.CyclicPlan? <==> plan != [] && DistinctIds(plan) && CleanUpTo(plan, |plan|) && !Acyclic(plan)
  {
    if plan == [] {
      return EmptyPlan;
    }
    var taskIds := IdList(plan);
    IdListSet(plan);
    NoDupSize(taskIds);
    if |taskIds| != |SetOf(taskIds)| {
      return DuplicateIds;
    }
    AcyclicHasNoSelfDependency(plan);
    r := CheckReferences(plan, SetOf(taskIds));
    if !r.Accepted? {
      return;
    }
    var inDegree, dependents := BuildTables(plan, taskIds);
    ghost var edges := Edges(plan, Ids(plan));
    EdgeEndsKnown(plan, Ids(plan));
    TablesStart(Ids(plan), edges, inDegree, dependents);
    var visitedCount, popped := PeelLayers(taskIds, inDegree, dependents, edges);
    AcyclicByEdges(plan);
    if visitedCount != |taskIds| {
      return CyclicPlan;
    }
  }

  lemma AcyclicHasNoSelfDependency(plan: seq<Vertex>)
    ensures Acyclic(plan) ==> forall i | 0 <= i < |plan| :: plan[i].id !in plan[i].dependencies
  {
    if !Acyclic(plan) {
      return;
    }
    var rank :| Ranked(plan, rank);
    forall i | 0 <= i < |plan| ensures plan[i].id !in plan[i].dependencies {
      assert plan[i].id in Ids(plan);
    }
  }

  // ---- The scorer's check ----

  /** The references the scorer reports, in the order it meets them. */
  function UnknownIn(deps: seq<TaskId>, task: TaskId, known: set<TaskId>): seq<Edge> {
    if deps == [] then []
    else
      var rest := UnknownIn(deps[..|deps| - 1], task, known);
      var d := deps[|deps| - 1];
      if d in known then rest else rest + [Edge(d, task)]
  }

  function UnknownReferences(plan: seq<Vertex>, known: set<TaskId>): seq<Edge> {
    if plan == [] then []
    else
      var v := plan[|plan| - 1];
      UnknownReferences(plan[..|plan| - 1], known) + UnknownIn(v.dependencies, v.id, known)
  }

  lemma {:induction false} UnknownInMembers(deps: seq<TaskId>, task: TaskId, known: set<TaskId>)
    ensures forall e :: e in UnknownIn(deps, task, known) <==>
                          e.target == task && e.source in deps && e.source !in known
  {
    if deps != [] {
      UnknownInMembers(deps[..|deps| - 1], task, known);
      assert deps == deps[..|deps| - 1] + [deps[|deps| - 1]];
    }
  }

  predicate DependenciesKnown(plan: seq<Vertex>, known: set<TaskId>) {
    forall i, d | 0 <= i < |plan| && d in plan[i].dependencies :: d in known
  }

  /** Nothing is reported exactly when every dependency names a task of the plan. */
  lemma {:induction false} NoUnknownReferences(plan: seq<Vertex>, known: set<TaskId>)
    ensures UnknownReferences(plan, known) == [] <==> DependenciesKnown(plan, known)
  {
    if plan != [] {
      var front, v := plan[..|plan| - 1], plan[|plan| - 1];
      NoUnknownReferences(front, known);
      UnknownInMembers(v.dependencies, v.id, known);
      var last := UnknownIn(v.dependencies, v.id, known);
      if d :| d in v.dependencies && d !in known {
        assert Edge(d, v.id) in last;
      }
      assert last == [] || last[0] in last;
      assert plan == front + [v];
    }
  }

  /** What is reported, for one task after the other and one dependency after the other: each reference to an id that no
      task has, as often as it is made, in the order of the plan. */
  lemma {:induction false} UnknownInOrder(deps: seq<TaskId>, more: seq<TaskId>, task: TaskId, known: set<TaskId>)
    ensures UnknownIn(deps + more, task, known) == UnknownIn(deps, task, known) + UnknownIn(more, task, known)
    ensures |deps| == 1 ==> UnknownIn(deps, task, known) == if deps[0] in known then [] else [Edge(deps[0], task)]
  {
    if more == [] {
      assert deps + more == deps;
    } else {
      var n := |more| - 1;
      UnknownInOrder(deps, more[..n], task, known);
      assert (deps + more)[..|deps + more| - 1] == deps + more[..n] && (deps + more)[|deps + more| - 1] == more[n];
    }
  }

  lemma {:induction false} ReportedInOrder(plan: seq<Vertex>, more: seq<Vertex>, known: set<TaskId>)
    ensures UnknownReferences(plan + more, known) == UnknownReferences(plan, known) + UnknownReferences(more, known)
    ensures |plan| == 1 ==> UnknownReferences(plan, known) == UnknownIn(plan[0].dependencies, plan[0].id, known)
  {
    hide UnknownIn;
    if more == [] {
      assert plan + more == plan;
    } else {
      var n, all := |more| - 1, plan + more;
      ReportedInOrder(plan, more[..n], known);
      assert all[..|all| - 1] == plan + more[..n] && all[|all| - 1] == more[n];
    }
    if |plan| == 1 {
      assert plan[..0] == [];
    }
  }

  /** Dictionary keys in insertion order: the first occurrence of each id. */
  method InsertionOrder(plan: seq<Vertex>) returns (keys: seq<TaskId>)
    ensures NoDup(keys) && SetOf(keys) == Ids(plan)
  {
    keys := [];
    for i := 0 to |plan|
      invariant NoDup(keys) && SetOf(keys) == Ids(plan[..i])
    {
      assert plan[..i + 1] == plan[..i] + [plan[i]];
      forall x | x in Ids(plan[..i + 1]) ensures x in Ids(plan[..i]) || x == plan[i].id {
        var j :| 0 <= j < i + 1 && plan[..i + 1][j].id == x;
        assert j < i ==> plan[..i][j].id == x;
      }
      forall x | x in Ids(plan[..i]) ensures x in Ids(plan[..i + 1]) {
        var j :| 0 <= j < i && plan[..i][j].id == x;
        assert plan[..i + 1][j].id == x;
      }
      assert plan[..i + 1][i].id == plan[i].id;
      assert Ids(plan[..i + 1]) == Ids(plan[..i]) + {plan[i].id};
      assert SetOf(keys + [plan[i].id]) == SetOf(keys) + {plan[i].id};
      if plan[i].id !in keys {
        keys := keys + [plan[i].id];
      }
    }
    assert plan[..|plan|] == plan;
  }

  /** One more task, references to unknown ids reported instead of counted. */
  method AddScoredTask(t: Vertex, known: set<TaskId>, inDegree0: map<TaskId, int>, adjacency0: map<TaskId, seq<TaskId>>,
                       invalid0: seq<Edge>, ghost edges: seq<Edge>)
    returns (inDegree: map<TaskId, int>, adjacency: map<TaskId, seq<TaskId>>, invalid: seq<Edge>)
    requires Tables(known, edges, inDegree0, adjacency0) && t.id in known
    ensures Tables(known, edges + EdgesOf(t.dependencies, t.id, known), inDegree, adjacency)
    ensures invalid == invalid0 + UnknownIn(t.dependencies, t.id, known)
  {
    hide Incoming, Targets;
    inDegree, adjacency, invalid := inDegree0, adjacency0, invalid0;
    ghost var sofar := edges;
    assert edges + [] == edges;
    for k := 0 to |t.dependencies|
      invariant sofar == edges + EdgesOf(t.dependencies[..k], t.id, known)
      invariant Tables(known, sofar, inDegree, adjacency)
      invariant invalid == invalid0 + UnknownIn(t.dependencies[..k], t.id, known)
    {
      var dep := t.dependencies[k];
      EdgesOfPrefix(t.dependencies, k, t.id, known);
      assert t.dependencies[..k + 1][..k] == t.dependencies[..k];
      if dep !in known {
        invalid := invalid + [Edge(dep, t.id)];
      } else {
        AddEdge(known, sofar, Edge(dep, t.id), inDegree, adjacency);
        sofar := sofar + [Edge(dep, t.id)];
        adjacency := adjacency[dep := adjacency[dep] + [t.id]];
        inDegree := inDegree[t.id := inDegree[t.id] + 1];
      }
    }
    assert t.dependencies[..|t.dependencies|] == t.dependencies;
  }

  /** The scorer's tables: tasks that share an id share an entry. */
  method BuildScorerTables(plan: seq<Vertex>, taskIds: set<TaskId>)
    returns (inDegree: map<TaskId, int>, adjacency: map<TaskId, seq<TaskId>>, invalid: seq<Edge>)
    requires taskIds == Ids(plan)
    ensures Tables(taskIds, Edges(plan, taskIds), inDegree, adjacency)
    ensures invalid == UnknownReferences(plan, taskIds)
  {
    inDegree := map x | x in taskIds :: 0;
    adjacency := map x | x in taskIds :: [];
    invalid := [];
    for i := 0 to |plan|
      invariant Tables(taskIds, Edges(plan[..i], taskIds), inDegree, adjacency)
      invariant invalid == UnknownReferences(plan[..i], taskIds)
    {
      EdgesPrefix(plan, i, taskIds);
      assert plan[..i + 1][..i] == plan[..i];
      inDegree, adjacency, invalid := AddScoredTask(plan[i], taskIds, inDegree, adjacency, invalid,
          Edges(plan[..i], taskIds));
    }
    assert plan[..|plan|] == plan;
  }

  /** On any list, repeated ids included: acyclic means distinct ids and a rank for the known dependencies. */
  method ScoreFeasibility(plan: seq<Vertex>) returns (isAcyclic: bool, invalidDeps: seq<Edge>)
    requires plan != []
    ensures isAcyclic <==> DistinctIds(plan) && Acyclic(plan)
    ensures invalidDeps == UnknownReferences(plan, Ids(plan))
    ensures invalidDeps == [] <==> ReferencesExist(plan)
  {
    var taskIds := Ids(plan);
    var inDegree, adjacency;
    inDegree, adjacency, invalidDeps := BuildScorerTables(plan, taskIds);
    NoUnknownReferences(plan, taskIds);
    var keys := InsertionOrder(plan);
    ghost var edges := Edges(plan, taskIds);
    EdgeEndsKnown(plan, taskIds);
    TablesStart(taskIds, edges, inDegree, adjacency);
    var visitedCount, popped := PeelLayers(keys, inDegree, adjacency, edges);
    isAcyclic := visitedCount == |plan|;
    AcyclicByEdges(plan);
    IdListSet(plan);
    NoDupSize(keys);
    NoDupSize(IdList(plan));
  }

  /** The feasibility score: acyclic, known dependencies, and how far the run has come - the completed part of
      a COMPLETED run, or whether anything is done, running or waiting. */
  function Score(isAcyclic: bool, validDeps: bool, completedRun: bool, completed: nat, total: nat, anyLive: bool): real
    requires total > 0
  {
    var progress := if completedRun then completed as real / total as real else if anyLive then 1.0 else 0.5;
    ((if isAcyclic then 1.0 else 0.0) + (if validDeps then 1.0 else 0.0) + progress) / 3.0
  }

  /** The score of a feasible plan is 1 exactly if all tasks of a COMPLETED run are done, or something is done, running
      or waiting in another run; every fault costs a third, a run with nothing alive a sixth. */
  lemma ScoreIsShared(isAcyclic: bool, validDeps: bool, completedRun: bool, completed: nat, total: nat, anyLive: bool)
    requires 0 < total && completed <= total
    ensures var score := Score(isAcyclic, validDeps, completedRun, completed, total, anyLive);
            && 0.0 <= score <= 1.0
            && (score == 1.0 <==> isAcyclic && validDeps && if completedRun then completed == total else anyLive)
            && (completedRun ==>
                  3.0 * score * total as real ==
                  ((if isAcyclic then total else 0) + (if validDeps then total else 0) + completed) as real)
            && (!completedRun ==>
                  6.0 * score ==
                  (if isAcyclic then 2.0 else 0.0) + (if validDeps then 2.0 else 0.0) + if anyLive then 2.0 else 1.0)
  {
    RatioBounds(completed, total);
    if completedRun {
      var n, ratio := total as real, completed as real / total as real;
      var points := (if isAcyclic then 1.0 else 0.0) + if validDeps then 1.0 else 0.0;
      assert 3.0 * Score(isAcyclic, validDeps, completedRun, completed, total, anyLive) == points + ratio;
      assert (points + ratio) * n == points * n + ratio * n;
    }
  }

  lemma RatioBounds(completed: nat, total: nat)
    requires 0 < total && completed <= total
    ensures var ratio := completed as real / total as real;
            && ratio * total as real == completed as real
            && 0.0 <= ratio <= 1.0 && (ratio == 1.0 <==> completed == total)
  {
    var n, ratio := total as real, completed as real / total as real;
    assert ratio * n == completed as real;
    if ratio > 1.0 {
      Exceeds(ratio, n);
    } else if ratio < 0.0 {
      Negative(ratio, n);
    }
  }

  lemma Exceeds(x: real, y: real)
    requires x > 1.0 && y > 0.0
    ensures x * y > y
  {
    assert (x - 1.0) * y > 0.0;
  }

  lemma Negative(x: real, y: real)
    requires x < 0.0 && y > 0.0
    ensures x * y < 0.0
  {
  }

  predicate Passes(isAcyclic: bool, validDeps: bool, completedRun: bool, completed: nat, total: nat, anyLive: bool)
    requires total > 0
  {
    isAcyclic && validDeps && Score(isAcyclic, validDeps, completedRun, completed, total, anyLive) >= 0.75
  }

  /** The scorer's threshold fails a feasible plan exactly if the run is COMPLETED with less than a quarter of its
      tasks done. */
  lemma PassesIff(isAcyclic: bool, validDeps: bool, completedRun: bool, completed: nat, total: nat, anyLive: bool)
    requires total > 0
    ensures Passes(isAcyclic, validDeps, completedRun, completed, total, anyLive) <==>
            isAcyclic && validDeps && (completedRun ==> 4 * completed >= total)
  {
    var ratio := completed as real / total as real;
    assert ratio * total as real == completed as real;
    assert ratio >= 0.25 <==> completed as real >= 0.25 * total as real;
  }

  /** On every list of tasks the planner accepts exactly when the scorer finds a non-empty list,
      no cycle and no unknown dependency. */
  method ChecksAgree(plan: seq<Vertex>) returns (verdict: Verdict, scorerPasses: bool)
    ensures verdict.Accepted? <==> scorerPasses
    ensures scorerPasses <==> ValidDag(plan)
  {
    verdict := ValidatePlanDag(plan);
    scorerPasses := false;
    if plan != [] {
      var isAcyclic, invalidDeps := ScoreFeasibility(plan);
      scorerPasses := isAcyclic && invalidDeps == [];
    }
  }
}
