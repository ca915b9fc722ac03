/** Batch admission of the task engine: rejection of cyclic graphs by
    depth-first search, and persistence of a batch in dependency order. */
module TaskGraph {
  import opened Graphs

  /** task id -> ids it depends on */
  type Graph = map<nat, seq<nat>>

  function Deps(g: Graph, n: nat): seq<nat> {
    if n in g then g[n] else []
  }

  ghost function DependsOn(g: Graph): Edges {
    set a, b | a in g && b in g[a] :: (a, b)
  }

  /** Every node of the sequence comes after everything it depends on. */
  ghost predicate Topological(g: Graph, order: seq<nat>) {
    forall i, d :: 0 <= i < |order| && d in Deps(g, order[i]) ==> d in order[..i]
  }

  lemma {:induction false} PathDescends(g: Graph, order: seq<nat>, p: seq<nat>, i: nat)
    requires Topological(g, order) && IsPath(DependsOn(g), p)
    requires i < |order| && order[i] == p[0]
    ensures exists j :: 0 <= j <= i && order[j] == p[|p| - 1] && (|p| > 1 ==> j < i)
  {
    if |p| > 1 {
      assert (p[0], p[1]) in DependsOn(g);
      assert p[1] in order[..i];
      var j :| 0 <= j < i && order[..i][j] == p[1];
      PathDescends(g, order, p[1..], j);
    }
  }

  lemma TopologicalAppend(g: Graph, order: seq<nat>, n: nat)
    requires Topological(g, order) && forall d :: d in Deps(g, n) ==> d in order
    ensures Topological(g, order + [n])
  {
    var longer := order + [n];
    forall i, d | 0 <= i < |longer| && d in Deps(g, longer[i])
      ensures d in longer[..i]
    {
      assert longer[..i] == order[..i];
      assert i == |order| ==> order[..i] == order;
    }
  }

  /** A topological order over all nodes leaves no room for a cycle. */
  lemma TopologicalIsAcyclic(g: Graph, order: seq<nat>)
    requires Topological(g, order) && forall n :: n in g ==> n in order
    ensures Acyclic(DependsOn(g))
  {
    forall n | ReachesPlus(DependsOn(g), n, n)
      ensures false
    {
      var p :| IsPath(DependsOn(g), p) && |p| >= 2 && p[0] == n && p[|p| - 1] == n;
      assert (p[0], p[1]) in DependsOn(g);
      var i :| 0 <= i < |order| && order[i] == n;
      NoEarliestOnCycle(g, order, p, i);
    }
  }

  lemma {:induction false} NoEarliestOnCycle(g: Graph, order: seq<nat>, p: seq<nat>, i: nat)
    requires Topological(g, order) && IsPath(DependsOn(g), p) && |p| >= 2
    requires p[0] == p[|p| - 1] && i < |order| && order[i] == p[0]
    ensures false
  {
    PathDescends(g, order, p, i);
    var j :| 0 <= j < i && order[j] == p[|p| - 1];
    NoEarliestOnCycle(g, order, p, j);
  }

  /** The two colour sets that the nested visit function closes over. */
  class CycleSearch {
    const graph: Graph
    var visiting: set<nat>
    var visited: set<nat>
    ghost var finished: seq<nat>

    ghost predicate Valid()
      reads this
    {
      && (forall n :: n in visited <==> n in finished)
      && Topological(graph, finished)
      && visiting !! visited
    }

    constructor (g: Graph)
      ensures Valid() && graph == g && visiting == {} && visited == {} && finished == []
    {
      graph, visiting, visited, finished := g, {}, {}, [];
    }

    /** stack is the chain of unfinished calls that led here, this one last. */
    method Visit(node: nat, ghost stack: seq<nat>) returns (ok: bool)
      requires Valid() && IsPath(DependsOn(graph), stack) && stack[|stack| - 1] == node
      requires forall n :: n in visiting <==> n in stack[..|stack| - 1]
      modifies this
      ensures ok ==> Valid() && visiting == old(visiting) && old(visited) <= visited && node in visited
      ensures !ok ==> !Acyclic(DependsOn(graph))
      decreases graph.Keys - visiting
    {
      hide Acyclic, ReachesPlus;
      if node in visiting {
        StackCloses(DependsOn(graph), stack);
        return false;
      }
      if node in visited {
        return true;
      }
      visiting := visiting + {node};
      var dependencies := Deps(graph, node);
      for k := 0 to |dependencies|
        invariant Valid() && visiting == old(visiting) + {node} && old(visited) <= visited
        invariant forall j :: 0 <= j < k ==> dependencies[j] in visited
      {
        assert (node, dependencies[k]) in DependsOn(graph);
        assert node in graph.Keys - old(visiting);
        ghost var deeper := stack + [dependencies[k]];
        assert deeper[..|deeper| - 1] == stack == stack[..|stack| - 1] + [node];
        ok := Visit(dependencies[k], deeper);
        if !ok {
          return false;
        }
      }
      visiting := visiting - {node};
      visited := visited + {node};
      assert old(visiting) == visiting;
      TopologicalAppend(graph, finished, node);
      finished := finished + [node];
      return true;
    }
  }

  /** Passes exactly on acyclic graphs; a pass also yields an order. */
  method RequireAcyclic(graph: Graph) returns (ok: bool, ghost order: seq<nat>)
    ensures ok <==> Acyclic(DependsOn(graph))
    ensures ok ==> Topological(graph, order) && forall n :: n in graph ==> n in order
  {
    var search := new CycleSearch(graph);
    var remaining := graph.Keys;
    order := [];
    while remaining != {}
      invariant fresh(search) && search.graph == graph && search.Valid() && search.visiting == {}
      invariant forall n :: n in graph && n !in remaining ==> n in search.visited
      decreases remaining
    {
      var node :| node in remaining;
      assert IsPath(DependsOn(graph), [node]);
      ok := search.Visit(node, [node]);
      if !ok {
        return false, [];
      }
      remaining := remaining - {node};
    }
    order := search.finished;
    TopologicalIsAcyclic(graph, order);
    return true, order;
  }
}
