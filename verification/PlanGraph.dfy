/** The dependency graph of an execution plan, seen as a list of vertices in plan order, and the
    reference definition of "valid plan" that the two cycle checks and the workflow are proved against. */
module PlanGraph {

  type TaskId = string

  datatype TaskType = Planning | Retrieval | ToolExecution | Validation | Synthesis | Custom

  /** The part of a task that never changes once the plan exists. */
  datatype Vertex = Vertex(id: TaskId, kind: TaskType, dependencies: seq<TaskId>)

  function Ids(plan: seq<Vertex>): set<TaskId> {
    set i | 0 <= i < |plan| :: plan[i].id
  }

  predicate DistinctIds(plan: seq<Vertex>) {
    forall i, j | 0 <= i < j < |plan| :: plan[i].id != plan[j].id
  }

  predicate ReferencesExist(plan: seq<Vertex>) {
    forall i, d | 0 <= i < |plan| && d in plan[i].dependencies :: d in Ids(plan)
  }

  /** `rank` puts every known dependency strictly below the task that needs it. */
  ghost predicate Ranked(plan: seq<Vertex>, rank: map<TaskId, nat>) {
    && Ids(plan) <= rank.Keys
    && forall i, d | 0 <= i < |plan| && d in plan[i].dependencies && d in Ids(plan) ::
         rank[d] < rank[plan[i].id]
  }

  ghost predicate Acyclic(plan: seq<Vertex>) {
    exists rank :: Ranked(plan, rank)
  }

  ghost predicate ValidDag(plan: seq<Vertex>) {
    plan != [] && DistinctIds(plan) && ReferencesExist(plan) && Acyclic(plan)
  }

  // ---- Dependency edges, in the order the checks walk them ----

  /** An edge leads from a dependency to the task that needs it. */
  datatype Edge = Edge(source: TaskId, target: TaskId)

  /** The edges of one task, references to unknown ids skipped. */
  function EdgesOf(deps: seq<TaskId>, target: TaskId, known: set<TaskId>): seq<Edge> {
    if deps == [] then []
    else
      var rest := EdgesOf(deps[..|deps| - 1], target, known);
      var d := deps[|deps| - 1];
      if d in known then rest + [Edge(d, target)] else rest
  }

  function Edges(plan: seq<Vertex>, known: set<TaskId>): seq<Edge> {
    if plan == [] then []
    else
      var v := plan[|plan| - 1];
      Edges(plan[..|plan| - 1], known) + EdgesOf(v.dependencies, v.id, known)
  }

  lemma {:induction false} EdgesOfMembers(deps: seq<TaskId>, target: TaskId, known: set<TaskId>)
    ensures forall e :: e in EdgesOf(deps, target, known) <==>
              e.target == target && e.source in deps && e.source in known
  {
    if deps != [] {
      EdgesOfMembers(deps[..|deps| - 1], target, known);
      assert deps == deps[..|deps| - 1] + [deps[|deps| - 1]];
    }
  }

  ghost predicate HasEdge(plan: seq<Vertex>, known: set<TaskId>, e: Edge) {
    e.source in known && exists i :: 0 <= i < |plan| && plan[i].id == e.target && e.source in plan[i].dependencies
  }

  /** The edge list holds exactly the dependencies on known ids. */
  lemma {:induction false} EdgesMembers(plan: seq<Vertex>, known: set<TaskId>)
    ensures forall e :: e in Edges(plan, known) <==> HasEdge(plan, known, e)
  {
    if plan != [] {
      var n := |plan| - 1;
      EdgesMembers(plan[..n], known);
      EdgesOfMembers(plan[n].dependencies, plan[n].id, known);
      forall e ensures e in Edges(plan, known) <==> HasEdge(plan, known, e) {
        if HasEdge(plan[..n], known, e) {
          var i :| 0 <= i < n && plan[..n][i].id == e.target && e.source in plan[..n][i].dependencies;
          assert plan[i].id == e.target;
        }
        if HasEdge(plan, known, e) {
          var i :| 0 <= i < |plan| && plan[i].id == e.target && e.source in plan[i].dependencies;
          if i < n {
            assert plan[..n][i].id == e.target && e.source in plan[..n][i].dependencies;
          }
        }
      }
    }
  }

  /** How many edges into `x` come from ids outside `gone`. */
  function Incoming(edges: seq<Edge>, x: TaskId, gone: set<TaskId>): nat {
    if edges == [] then 0
    else
      var e := edges[|edges| - 1];
      Incoming(edges[..|edges| - 1], x, gone) + (if e.target == x && e.source !in gone then 1 else 0)
  }

  /** The tasks that wait for `d`, one entry per edge. */
  function Targets(edges: seq<Edge>, d: TaskId): seq<TaskId> {
    if edges == [] then []
    else
      var e := edges[|edges| - 1];
      var rest := Targets(edges[..|edges| - 1], d);
      if e.source == d then rest + [e.target] else rest
  }

  lemma {:induction false} IncomingZero(edges: seq<Edge>, x: TaskId, gone: set<TaskId>)
    ensures Incoming(edges, x, gone) == 0 <==> forall e | e in edges && e.target == x :: e.source in gone
  {
    if edges != [] {
      IncomingZero(edges[..|edges| - 1], x, gone);
      assert edges == edges[..|edges| - 1] + [edges[|edges| - 1]];
    }
  }

  /** Removing a vertex lowers the count of each waiting task by its edges from that vertex. */
  lemma {:induction false} RemoveVertex(edges: seq<Edge>, x: TaskId, gone: set<TaskId>, v: TaskId)
    requires v !in gone
    ensures Incoming(edges, x, gone) == Incoming(edges, x, gone + {v}) + multiset(Targets(edges, v))[x]
  {
    if edges != [] {
      RemoveVertex(edges[..|edges| - 1], x, gone, v);
    }
  }

  lemma {:induction false} TargetsAreTargets(edges: seq<Edge>, d: TaskId)
    ensures forall x :: x in Targets(edges, d) ==> Edge(d, x) in edges
  {
    if edges != [] {
      TargetsAreTargets(edges[..|edges| - 1], d);
      assert edges == edges[..|edges| - 1] + [edges[|edges| - 1]];
    }
  }

  ghost predicate EdgesRanked(ids: set<TaskId>, edges: seq<Edge>, rank: map<TaskId, nat>) {
    && ids <= rank.Keys
    && forall e | e in edges :: e.source in rank && e.target in rank && rank[e.source] < rank[e.target]
  }

  ghost predicate AcyclicEdges(ids: set<TaskId>, edges: seq<Edge>) {
    exists rank :: EdgesRanked(ids, edges, rank)
  }

  lemma AcyclicByEdges(plan: seq<Vertex>)
    ensures Acyclic(plan) <==> AcyclicEdges(Ids(plan), Edges(plan, Ids(plan)))
  {
    var edges := Edges(plan, Ids(plan));
    EdgesMembers(plan, Ids(plan));
    forall rank | EdgesRanked(Ids(plan), edges, rank) ensures Ranked(plan, rank) {
      forall i, d | 0 <= i < |plan| && d in plan[i].dependencies && d in Ids(plan)
        ensures rank[d] < rank[plan[i].id]
      {
        assert HasEdge(plan, Ids(plan), Edge(d, plan[i].id));
      }
    }
    forall rank | Ranked(plan, rank) ensures EdgesRanked(Ids(plan), edges, rank) {
      forall e | e in edges ensures e.source in rank && e.target in rank && rank[e.source] < rank[e.target] {
        assert HasEdge(plan, Ids(plan), e);
      }
    }
  }
}
