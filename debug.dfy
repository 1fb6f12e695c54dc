/**
 * Cycle detection over the dependency graph of computed params: a
 * depth-first search that keeps the set of visited vertices and the set of
 * vertices on the current search path.
 */
module Debug {

  /** An adjacency list; a vertex that is not a key has no out-edges. */
  type Graph = map<string, seq<string>>

  /** `graph.get(u, [])`. */
  function Succ(g: Graph, u: string): seq<string>
  {
    if u in g then g[u] else []
  }

  predicate Edge(g: Graph, u: string, v: string)
  {
    u in g && v in g[u]
  }

  /** Every vertex the graph mentions, as a key or as a neighbour. */
  ghost function Vertices(g: Graph): set<string>
  {
    g.Keys + set u, j | u in g && 0 <= j < |g[u]| :: g[u][j]
  }

  /** A non-empty walk that comes back to where it started. */
  ghost predicate IsCycle(g: Graph, p: seq<string>)
  {
    |p| >= 2 && p[0] == p[|p| - 1] &&
    forall i :: 0 <= i < |p| - 1 ==> Edge(g, p[i], p[i + 1])
  }

  /** Some vertex reaches itself by a non-empty path. */
  ghost predicate Cyclic(g: Graph)
  {
    exists p :: IsCycle(g, p)
  }

  /**
   * Finish times of the vertices a search has left: every neighbour of a
   * finished vertex finished strictly earlier.
   */
  ghost predicate Ranked(g: Graph, finish: map<string, nat>)
  {
    forall u, j :: u in finish && 0 <= j < |Succ(g, u)| ==>
      Succ(g, u)[j] in finish && finish[Succ(g, u)[j]] < finish[u]
  }

  /** Along a path out of a finished vertex, finish times strictly drop. */
  lemma {:induction false} RankedDescends(g: Graph, finish: map<string, nat>, p: seq<string>, i: nat)
    requires Ranked(g, finish)
    requires i < |p| && p[0] in finish
    requires forall k :: 0 <= k < |p| - 1 ==> Edge(g, p[k], p[k + 1])
    ensures p[i] in finish && finish[p[i]] + i <= finish[p[0]]
  {
    if i > 0 {
      RankedDescends(g, finish, p, i - 1);
      assert Edge(g, p[i - 1], p[i]);
      var j :| 0 <= j < |g[p[i - 1]]| && g[p[i - 1]][j] == p[i];
      assert Succ(g, p[i - 1])[j] == p[i];
    }
  }

  /** A ranking that covers every key rules out any cycle. */
  lemma NoCycleWhenRanked(g: Graph, finish: map<string, nat>)
    requires Ranked(g, finish) && g.Keys <= finish.Keys
    ensures !Cyclic(g)
  {
    if p :| IsCycle(g, p) {
      assert Edge(g, p[0], p[1]);
      RankedDescends(g, finish, p, |p| - 1);
    }
  }

  lemma SubsetCard(x: set<string>, y: set<string>)
    requires x <= y
    ensures |x| <= |y|
  {
    if x != {} {
      var e :| e in x;
      SubsetCard(x - {e}, y - {e});
    }
  }

  /** Marking one more vertex as visited shrinks the unvisited part. */
  lemma FewerUnvisited(all: set<string>, before: set<string>, after: set<string>, u: string)
    requires before <= after && u in all && u !in before && u in after
    ensures |all - after| < |all - before|
  {
    SubsetCard(all - after, (all - before) - {u});
  }

  /**
   * What holds between steps of the search: `path` holds the vertices of
   * `stack`, consecutive stack entries are edges, and the vertices that
   * were visited and left the path carry finish times below `clock`.
   */
  ghost predicate Consistent(g: Graph, visited: set<string>, path: set<string>,
                             stack: seq<string>, finish: map<string, nat>, clock: nat)
  {
    visited <= Vertices(g) &&
    path <= visited &&
    (forall x :: x in path <==> x in stack) &&
    (forall i :: 0 <= i < |stack| - 1 ==> Edge(g, stack[i], stack[i + 1])) &&
    finish.Keys == visited - path &&
    Ranked(g, finish) &&
    (forall b :: b in finish ==> finish[b] < clock)
  }

  /** Entering an unvisited vertex that extends the stack by an edge. */
  lemma Enter(g: Graph, visited: set<string>, path: set<string>,
              stack: seq<string>, finish: map<string, nat>, clock: nat, v: string)
    requires Consistent(g, visited, path, stack, finish, clock)
    requires v in Vertices(g) && v !in visited
    requires stack == [] || Edge(g, stack[|stack| - 1], v)
    ensures Consistent(g, visited + {v}, path + {v}, stack + [v], finish, clock)
  {
    var s := stack + [v];
    forall i | 0 <= i < |s| - 1 ensures Edge(g, s[i], s[i + 1]) {
      if i < |stack| - 1 {
        assert s[i] == stack[i] && s[i + 1] == stack[i + 1];
      }
    }
  }

  /** Leaving a vertex all of whose neighbours have finished. */
  lemma Leave(g: Graph, visited: set<string>, path: set<string>,
              stack: seq<string>, finish: map<string, nat>, clock: nat, v: string)
    requires Consistent(g, visited, path + {v}, stack + [v], finish, clock)
    requires v !in path && v !in stack
    requires forall j :: 0 <= j < |Succ(g, v)| ==> Succ(g, v)[j] in visited - (path + {v})
    ensures Consistent(g, visited, path, stack, finish[v := clock], clock + 1)
  {
    var s := stack + [v];
    forall i | 0 <= i < |stack| - 1 ensures Edge(g, stack[i], stack[i + 1]) {
      assert s[i] == stack[i] && s[i + 1] == stack[i + 1];
    }
    forall x ensures x in path <==> x in stack {
      assert x in stack ==> x in s;
      if x in path {
        assert x in s;
        var k :| 0 <= k < |s| && s[k] == x;
        assert k < |stack|;
      }
    }
  }

  /** Meeting a vertex of the path closes a cycle. */
  lemma BackEdge(g: Graph, visited: set<string>, path: set<string>,
                 stack: seq<string>, finish: map<string, nat>, clock: nat, n: string)
    requires Consistent(g, visited, path, stack, finish, clock)
    requires |stack| > 0 && n in path && Edge(g, stack[|stack| - 1], n)
    ensures Cyclic(g)
  {
    assert n in stack;
    var k :| 0 <= k < |stack| && stack[k] == n;
    var cyc := stack[k..] + [n];
    forall m | 0 <= m < |cyc| - 1 ensures Edge(g, cyc[m], cyc[m + 1]) {
      if m < |cyc| - 2 {
        assert cyc[m] == stack[k + m] && cyc[m + 1] == stack[k + m + 1];
      }
    }
    assert IsCycle(g, cyc);
  }

  /** The state `has_cycle`'s inner `visit` shares: the `visited` and `path` sets. */
  class CycleSearch {
    const graph: Graph
    var visited: set<string>
    var path: set<string>
    /** The vertices of `path` in the order the search entered them. */
    ghost var stack: seq<string>
    /** When each vertex that was visited and left the path finished. */
    ghost var finish: map<string, nat>
    ghost var clock: nat

    ghost predicate Valid()
      reads this
    {
      Consistent(graph, visited, path, stack, finish, clock)
    }

    constructor(graph: Graph)
      ensures this.graph == graph && visited == {} && path == {} && stack == []
      ensures Valid()
    {
      this.graph := graph;
      visited := {};
      path := {};
      stack := [];
      finish := map[];
      clock := 0;
    }

    /**
     * `visit(vertex)`: `true` when the search from `vertex` meets a vertex
     * still on the path.  On `false` the path is as before and `vertex`
     * has been visited.
     */
    method Visit(vertex: string) returns (found: bool)
      requires Valid() && vertex in Vertices(graph)
      requires stack == [] || Edge(graph, stack[|stack| - 1], vertex)
      modifies this
      ensures found ==> Cyclic(graph)
      ensures !found ==> Valid() && path == old(path) && stack == old(stack)
      ensures !found ==> old(visited) <= visited && vertex in visited
      decreases |Vertices(graph) - visited|, 1
    {
      if vertex in visited {
        return false;
      }
      ghost var entry, p0, s0 := visited, path, stack;
      Mark(vertex);
      found := Explore(vertex, entry);
      if found {
        return;
      }
      Unmark(vertex, p0, s0);
    }

    /** `visited.add(vertex)` and `path.add(vertex)`. */
    method Mark(vertex: string)
      requires Valid() && vertex in Vertices(graph) && vertex !in visited
      requires stack == [] || Edge(graph, stack[|stack| - 1], vertex)
      modifies this
      ensures Valid()
      ensures visited == old(visited) + {vertex} && path == old(path) + {vertex}
      ensures stack == old(stack) + [vertex]
    {
      Enter(graph, visited, path, stack, finish, clock, vertex);
      visited := visited + {vertex};
      path := path + {vertex};
      stack := stack + [vertex];
    }

    /** `path.remove(vertex)` once every neighbour has been searched. */
    method Unmark(vertex: string, ghost p0: set<string>, ghost s0: seq<string>)
      requires Valid() && path == p0 + {vertex} && stack == s0 + [vertex]
      requires vertex !in p0 && vertex !in s0
      requires forall j :: 0 <= j < |Succ(graph, vertex)| ==> Succ(graph, vertex)[j] in visited - path
      modifies this
      ensures Valid() && visited == old(visited) && path == p0 && stack == s0
    {
      Leave(graph, visited, p0, s0, finish, clock, vertex);
      path := path - {vertex};
      assert path == p0;
      stack := s0;
      finish := finish[vertex := clock];
      clock := clock + 1;
    }

    /** The loop of `visit` over the neighbours of `vertex`, the top of the path. */
    method Explore(vertex: string, ghost entry: set<string>) returns (found: bool)
      requires Valid() && vertex in Vertices(graph) && vertex !in entry
      requires |stack| > 0 && stack[|stack| - 1] == vertex && vertex in path
      requires entry + {vertex} <= visited
      modifies this
      ensures found ==> Cyclic(graph)
      ensures !found ==> Valid() && path == old(path) && stack == old(stack)
      ensures !found ==> old(visited) <= visited
      ensures !found ==> forall j :: 0 <= j < |Succ(graph, vertex)| ==>
                Succ(graph, vertex)[j] in visited - path
      decreases |Vertices(graph) - entry|, 0
    {
      var ns := Succ(graph, vertex);
      var i := 0;
      while i < |ns|
        invariant 0 <= i <= |ns|
        invariant Valid()
        invariant path == old(path) && stack == old(stack)
        invariant old(visited) <= visited
        invariant forall j :: 0 <= j < i ==> ns[j] in visited - path
      {
        var n := ns[i];
        assert Edge(graph, vertex, n);
        if n in path {
          BackEdge(graph, visited, path, stack, finish, clock, n);
          return true;
        }
        assert n in Vertices(graph);
        FewerUnvisited(Vertices(graph), entry, visited, vertex);
        ghost var before := visited;
        found := Visit(n);
        if found {
          return;
        }
        assert forall j :: 0 <= j <= i ==> ns[j] in visited - path by {
          forall j | 0 <= j <= i ensures ns[j] in visited - path {
            if j < i {
              assert ns[j] in before - path;
            }
          }
        }
        i := i + 1;
      }
      return false;
    }
  }

  /** `has_cycle(graph)`: visits each key in turn until a visit finds a cycle. */
  method HasCycle(graph: Graph) returns (r: bool)
    ensures r <==> Cyclic(graph)
  {
    var s := new CycleSearch(graph);
    var todo := graph.Keys;
    while todo != {}
      invariant s.Valid() && s.graph == graph && s.path == {} && s.stack == []
      invariant todo <= graph.Keys && graph.Keys - todo <= s.visited
      decreases |todo|
    {
      var v :| v in todo;
      var f := s.Visit(v);
      if f {
        return true;
      }
      todo := todo - {v};
    }
    NoCycleWhenRanked(graph, s.finish);
    return false;
  }

  /**
   * What `has_cyclic_dependency` reads from an attribute's `to_dict()`:
   * whether `auto_callback` and `default_callback` are truthy, and the
   * `depends_on` list (`[]` for `None`).
   */
  datatype AttrSpec = AttrSpec(autoCallback: bool, defaultCallback: bool, dependsOn: seq<string>)

  /** A computed attribute: one with a callback. */
  predicate Computed(s: AttrSpec)
  {
    s.autoCallback || s.defaultCallback
  }

  /** The entries of `srcs` that are computed, in order. */
  function ComputedOnly(specOf: string -> AttrSpec, srcs: seq<string>): (r: seq<string>)
    ensures forall x :: x in r <==> x in srcs && Computed(specOf(x))
    ensures |r| <= |srcs|
  {
    if |srcs| == 0 then []
    else
      var last := srcs[|srcs| - 1];
      var init := srcs[..|srcs| - 1];
      assert srcs == init + [last];
      ComputedOnly(specOf, init) + (if Computed(specOf(last)) then [last] else [])
  }

  /** The out-edges of `attr`: its computed sources, if it is computed itself. */
  function DepEdges(specOf: string -> AttrSpec, attr: string): (r: seq<string>)
    ensures forall x :: x in r <==>
      Computed(specOf(attr)) && x in specOf(attr).dependsOn && Computed(specOf(x))
  {
    if Computed(specOf(attr)) then ComputedOnly(specOf, specOf(attr).dependsOn) else []
  }

  /** The dependency graph over the registered nodes and params. */
  ghost function DependencyGraph(attrs: seq<string>, specOf: string -> AttrSpec): Graph
  {
    map a | a in attrs :: DepEdges(specOf, a)
  }

  /** An edge runs from a computed attribute to a computed source it depends on. */
  lemma DependencyEdge(attrs: seq<string>, specOf: string -> AttrSpec, a: string, b: string)
    ensures Edge(DependencyGraph(attrs, specOf), a, b) <==>
      a in attrs && Computed(specOf(a)) && b in specOf(a).dependsOn && Computed(specOf(b))
  {
  }

  /** The loop of `has_cyclic_dependency` that fills `graph`. */
  method BuildGraph(attrs: seq<string>, specOf: string -> AttrSpec) returns (graph: Graph)
    ensures graph == DependencyGraph(attrs, specOf)
  {
    graph := map[];
    for k := 0 to |attrs|
      invariant graph.Keys == set j | 0 <= j < k :: attrs[j]
      invariant forall a :: a in graph ==> graph[a] == DepEdges(specOf, a)
    {
      var attr := attrs[k];
      graph := graph[attr := []];
      var spec := specOf(attr);
      if Computed(spec) {
        if |spec.dependsOn| == 0 {
          continue;
        }
        for m := 0 to |spec.dependsOn|
          invariant attr in graph && graph.Keys == set j | 0 <= j <= k :: attrs[j]
          invariant graph[attr] == ComputedOnly(specOf, spec.dependsOn[..m])
          invariant forall a :: a in graph && a != attr ==> graph[a] == DepEdges(specOf, a)
        {
          var src := spec.dependsOn[m];
          assert spec.dependsOn[..m + 1][..m] == spec.dependsOn[..m];
          if Computed(specOf(src)) {
            graph := graph[attr := graph[attr] + [src]];
          }
        }
        assert spec.dependsOn[..|spec.dependsOn|] == spec.dependsOn;
      }
    }
    assert forall a :: a in graph <==> a in attrs by {
      forall a ensures a in graph <==> a in attrs {
        if a in attrs {
          var j :| 0 <= j < |attrs| && attrs[j] == a;
        }
      }
    }
  }

  /** `has_cyclic_dependency`: the graph of computed dependencies has a cycle. */
  method HasCyclicDependency(attrs: seq<string>, specOf: string -> AttrSpec) returns (r: bool)
    ensures r <==> Cyclic(DependencyGraph(attrs, specOf))
  {
    var graph := BuildGraph(attrs, specOf);
    r := HasCycle(graph);
  }

  /** A vertex with an edge to itself is a cycle. */
  lemma SelfLoop(g: Graph, u: string)
    requires u in g && u in g[u]
    ensures Cyclic(g)
  {
    assert IsCycle(g, [u, u]);
  }

  /** A graph with no keys has no edges and so no cycle. */
  lemma EmptyAcyclic()
    ensures !Cyclic(map[])
  {
    NoCycleWhenRanked(map[], map[]);
  }

  /** Computed `x` and `y` that depend on each other form a cycle. */
  lemma SingleHop()
    ensures Cyclic(DependencyGraph(["x", "y"],
      a => if a == "x" then AttrSpec(false, true, ["y"]) else AttrSpec(false, true, ["x"])))
  {
    var specOf := a => if a == "x" then AttrSpec(false, true, ["y"]) else AttrSpec(false, true, ["x"]);
    var g := DependencyGraph(["x", "y"], specOf);
    DependencyEdge(["x", "y"], specOf, "x", "y");
    DependencyEdge(["x", "y"], specOf, "y", "x");
    assert IsCycle(g, ["x", "y", "x"]);
  }

  /** `x`, `y`, `z` depending on each other in a ring form a cycle, whatever `w` adds. */
  lemma MultipleHops()
    ensures Cyclic(DependencyGraph(["w", "x", "y", "z"],
      a => AttrSpec(false, true, if a == "x" then ["y"] else if a == "y" then ["z"]
                                 else if a == "z" then ["x"] else ["y"])))
  {
    var specOf := a => AttrSpec(false, true, if a == "x" then ["y"] else if a == "y" then ["z"]
                                            else if a == "z" then ["x"] else ["y"]);
    var attrs := ["w", "x", "y", "z"];
    var g := DependencyGraph(attrs, specOf);
    DependencyEdge(attrs, specOf, "x", "y");
    DependencyEdge(attrs, specOf, "y", "z");
    DependencyEdge(attrs, specOf, "z", "x");
    assert IsCycle(g, ["x", "y", "z", "x"]);
  }

  /** A chain of computed params ending at the plain param `w` has no cycle. */
  lemma ChainToPlain()
    ensures !Cyclic(DependencyGraph(["w", "x", "y", "z"],
      a => if a == "w" then AttrSpec(false, false, [])
           else AttrSpec(false, true, if a == "x" then ["y"] else if a == "y" then ["z"] else ["w"])))
  {
    var specOf := a => if a == "w" then AttrSpec(false, false, [])
                       else AttrSpec(false, true, if a == "x" then ["y"] else if a == "y" then ["z"] else ["w"]);
    var attrs := ["w", "x", "y", "z"];
    var g := DependencyGraph(attrs, specOf);
    var finish: map<string, nat> := map["w" := 0, "z" := 0, "y" := 1, "x" := 2];
    forall u, v | u in finish && Edge(g, u, v) ensures v in finish && finish[v] < finish[u] {
      DependencyEdge(attrs, specOf, u, v);
    }
    RankedByEdges(g, finish);
    NoCycleWhenRanked(g, finish);
  }

  /** A ranking checked edge by edge. */
  lemma RankedByEdges(g: Graph, finish: map<string, nat>)
    requires forall u, v :: u in finish && Edge(g, u, v) ==> v in finish && finish[v] < finish[u]
    ensures Ranked(g, finish)
  {
    forall u, j | u in finish && 0 <= j < |Succ(g, u)|
      ensures Succ(g, u)[j] in finish && finish[Succ(g, u)[j]] < finish[u]
    {
      assert Edge(g, u, Succ(g, u)[j]);
    }
  }
}
