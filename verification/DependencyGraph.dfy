// Dependency graphs of stages and jobs, and the depth-first cycle search of the
// pipeline compiler (internal/pipeline/compiler.go, hasCycle).

module DependencyGraph {

  /** A named item and the names it depends on: a stage, a job of a stage, or a job of a run. */
  datatype Node = Node(name: string, dependsOn: seq<string>)

  type Graph = map<string, seq<string>>

  /** The map that the compiler builds from a list of items; a later duplicate overwrites. */
  function GraphOf(nodes: seq<Node>): Graph {
    if nodes == [] then map[]
    else
      var last := nodes[|nodes| - 1];
      GraphOf(nodes[..|nodes| - 1])[last.name := last.dependsOn]
  }

  predicate UniqueNames(nodes: seq<Node>) {
    forall i, j | 0 <= i < j < |nodes| :: nodes[i].name != nodes[j].name
  }

  /** With unique names the graph is exactly the list. */
  lemma {:induction false} GraphOfUnique(nodes: seq<Node>)
    requires UniqueNames(nodes)
    ensures forall i | 0 <= i < |nodes| :: nodes[i].name in GraphOf(nodes) && GraphOf(nodes)[nodes[i].name] == nodes[i].dependsOn
    ensures forall x | x in GraphOf(nodes) :: exists i | 0 <= i < |nodes| :: nodes[i].name == x
  {
    if nodes != [] {
      var n := |nodes| - 1;
      GraphOfUnique(nodes[..n]);
      forall x | x in GraphOf(nodes) ensures exists i | 0 <= i < |nodes| :: nodes[i].name == x {
        if x != nodes[n].name {
          var i :| 0 <= i < n && nodes[..n][i].name == x;
          assert nodes[i].name == x;
        }
      }
      forall i | 0 <= i < |nodes|
        ensures nodes[i].name in GraphOf(nodes) && GraphOf(nodes)[nodes[i].name] == nodes[i].dependsOn
      {
        if i < n { assert nodes[..n][i] == nodes[i]; }
      }
    }
  }

  function Successors(g: Graph, a: string): seq<string> {
    if a in g then g[a] else []
  }

  predicate Edge(g: Graph, a: string, b: string) {
    b in Successors(g, a)
  }

  predicate Walk(g: Graph, p: seq<string>) {
    forall i, j {:trigger Edge(g, p[i], p[j])} | 0 <= i < |p| && j == i + 1 && j < |p| :: Edge(g, p[i], p[j])
  }

  lemma WalkExtends(g: Graph, p: seq<string>, b: string)
    requires Walk(g, p) && (p != [] ==> Edge(g, p[|p| - 1], b))
    ensures Walk(g, p + [b])
  {
    var q := p + [b];
    forall i, j | 0 <= i < |q| && j == i + 1 && j < |q| ensures Edge(g, q[i], q[j]) {
      if j < |p| { assert Edge(g, p[i], p[j]); }
    }
  }

  lemma WalkPart(g: Graph, p: seq<string>, lo: nat, hi: nat)
    requires Walk(g, p) && lo <= hi <= |p|
    ensures Walk(g, p[lo..hi])
  {
    var q := p[lo..hi];
    forall i, j | 0 <= i < |q| && j == i + 1 && j < |q| ensures Edge(g, q[i], q[j]) {
      assert Edge(g, p[lo + i], p[lo + j]);
    }
  }

  predicate IsCycle(g: Graph, p: seq<string>) {
    |p| >= 2 && Walk(g, p) && p[0] == p[|p| - 1]
  }

  /** There is a directed cycle. */
  ghost predicate Cyclic(g: Graph) {
    exists p :: IsCycle(g, p)
  }

  /** Every edge between two keys of the graph goes to a smaller rank. */
  predicate Ranked(g: Graph, rank: map<string, nat>) {
    g.Keys <= rank.Keys &&
    forall a, i | a in g && 0 <= i < |g[a]| && g[a][i] in g :: rank[g[a][i]] < rank[a]
  }

  predicate LexLess(x: (nat, nat), y: (nat, nat)) {
    x.0 < y.0 || (x.0 == y.0 && x.1 < y.1)
  }

  /** Every edge between two keys of the graph goes lexicographically down. */
  ghost predicate Descends(g: Graph, measure: string -> (nat, nat)) {
    forall a, b | a in g && b in g && Edge(g, a, b) :: LexLess(measure(b), measure(a))
  }

  lemma {:induction false} WalkDescends(g: Graph, measure: string -> (nat, nat), p: seq<string>, i: nat, j: nat)
    requires Descends(g, measure) && Walk(g, p) && i < j < |p|
    requires forall k | 0 <= k < |p| :: p[k] in g
    ensures LexLess(measure(p[j]), measure(p[i]))
    decreases j
  {
    assert Edge(g, p[j - 1], p[j]);
    if i < j - 1 { WalkDescends(g, measure, p, i, j - 1); }
  }

  /** A graph that descends in a well-founded measure has no cycle. */
  lemma DescendingIsAcyclic(g: Graph, measure: string -> (nat, nat))
    requires Descends(g, measure)
    ensures !Cyclic(g)
  {
    forall p ensures !IsCycle(g, p) {
      if IsCycle(g, p) {
        forall k | 0 <= k < |p| ensures p[k] in g {
          if k < |p| - 1 { assert Edge(g, p[k], p[k + 1]); } else { assert Edge(g, p[0], p[1]); }
        }
        WalkDescends(g, measure, p, 0, |p| - 1);
      }
    }
  }

  lemma RankedIsAcyclic(g: Graph, rank: map<string, nat>)
    requires Ranked(g, rank)
    ensures !Cyclic(g)
  {
    var measure := (x: string) => (0, if x in rank then rank[x] else 0);
    forall a, b | a in g && b in g && Edge(g, a, b) ensures LexLess(measure(b), measure(a)) {
      var i :| 0 <= i < |g[a]| && g[a][i] == b;
    }
    DescendingIsAcyclic(g, measure);
  }

  // The converse: an acyclic graph has a rank. A set whose members all have a
  // successor inside the set contains a walk longer than the set.

  predicate HasSuccessorIn(g: Graph, s: set<string>, a: string) {
    exists i | 0 <= i < |Successors(g, a)| :: Successors(g, a)[i] in s
  }

  predicate NoMinimal(g: Graph, s: set<string>) {
    forall a {:trigger HasSuccessorIn(g, s, a)} | a in s :: HasSuccessorIn(g, s, a)
  }

  lemma {:induction false} LongWalk(g: Graph, s: set<string>, n: nat) returns (p: seq<string>)
    requires s != {} && NoMinimal(g, s)
    ensures |p| == n + 1 && Walk(g, p) && forall i | 0 <= i < |p| :: p[i] in s
  {
    if n == 0 {
      var a :| a in s;
      p := [a];
    } else {
      var q := LongWalk(g, s, n - 1);
      var last := q[n - 1];
      assert HasSuccessorIn(g, s, last);
      var i :| 0 <= i < |Successors(g, last)| && Successors(g, last)[i] in s;
      WalkExtends(g, q, Successors(g, last)[i]);
      p := q + [Successors(g, last)[i]];
    }
  }

  lemma {:induction false} Pigeonhole(p: seq<string>, s: set<string>)
    requires |p| > |s| && forall i | 0 <= i < |p| :: p[i] in s
    ensures exists i, j :: 0 <= i < j < |p| && p[i] == p[j]
    decreases |p|
  {
    if p != [] {
      var n := |p| - 1;
      if i :| 0 <= i < n && p[i] == p[n] {
      } else {
        Pigeonhole(p[..n], s - {p[n]});
        var i, j :| 0 <= i < j < n && p[..n][i] == p[..n][j];
        assert p[i] == p[j];
      }
    }
  }

  /** In an acyclic graph every non-empty set of names has a member without successor in the set. */
  lemma MinimalExists(g: Graph, s: set<string>) returns (a: string)
    requires !Cyclic(g) && s != {}
    ensures a in s && !HasSuccessorIn(g, s, a)
  {
    if !NoMinimal(g, s) {
      a :| a in s && !HasSuccessorIn(g, s, a);
    } else {
      var p := LongWalk(g, s, |s|);
      Pigeonhole(p, s);
      var i, j :| 0 <= i < j < |p| && p[i] == p[j];
      WalkPart(g, p, i, j + 1);
      assert IsCycle(g, p[i..j + 1]);
      assert false;
    }
  }

  /** Peels minimal names off a set to rank it. */
  lemma {:induction false} RankSet(g: Graph, s: set<string>) returns (rank: map<string, nat>)
    requires !Cyclic(g)
    ensures rank.Keys == s
    ensures forall a, i | a in s && 0 <= i < |Successors(g, a)| && Successors(g, a)[i] in s ::
      rank[Successors(g, a)[i]] < rank[a]
    decreases |s|
  {
    if s == {} {
      rank := map[];
    } else {
      var least := MinimalExists(g, s);
      var above := RankSet(g, s - {least});
      rank := map x | x in s :: if x == least then 0 else above[x] + 1;
    }
  }

  /** An acyclic graph has a rank: dependencies come first. */
  lemma AcyclicIsRanked(g: Graph)
    requires !Cyclic(g)
    ensures exists rank :: Ranked(g, rank)
  {
    var rank := RankSet(g, g.Keys);
    assert Ranked(g, rank) by {
      forall a, i | a in g && 0 <= i < |g[a]| && g[a][i] in g ensures rank[g[a][i]] < rank[a] {
        assert Successors(g, a)[i] == g[a][i];
      }
    }
  }

  ghost function RankOf(g: Graph): (rank: map<string, nat>)
    requires !Cyclic(g)
    ensures Ranked(g, rank)
  {
    AcyclicIsRanked(g);
    var rank :| Ranked(g, rank);
    rank
  }

  // The search itself.

  datatype Colour = Visiting | Visited

  /** All names a search can meet: the keys and every dependency, also absent ones. */
  ghost function Universe(g: Graph): set<string> {
    g.Keys + set a, i | a in g && 0 <= i < |g[a]| :: g[a][i]
  }

  /** Everything `a` depends on finished, and finished earlier. */
  predicate Settled(g: Graph, finish: map<string, nat>, a: string)
    requires a in finish
  {
    finish[a] < |finish| &&
    forall b | b in Successors(g, a) :: b in finish && finish[b] < finish[a]
  }

  predicate AllSettled(g: Graph, finish: map<string, nat>) {
    forall a {:trigger Settled(g, finish, a)} | a in finish :: Settled(g, finish, a)
  }

  lemma FinishExtends(g: Graph, finish: map<string, nat>, node: string)
    requires AllSettled(g, finish) && node !in finish
    requires forall b | b in Successors(g, node) :: b in finish
    ensures AllSettled(g, finish[node := |finish|])
  {
    var later := finish[node := |finish|];
    forall a | a in later ensures Settled(g, later, a) {
      if a == node {
        forall b | b in Successors(g, a) ensures b in later && later[b] < later[a] {
          assert Settled(g, finish, b);
        }
      } else {
        assert Settled(g, finish, a);
      }
    }
  }

  lemma SettledIsRanked(g: Graph, finish: map<string, nat>)
    requires AllSettled(g, finish) && g.Keys <= finish.Keys
    ensures Ranked(g, finish)
  {
    forall a, i | a in g && 0 <= i < |g[a]| && g[a][i] in g ensures finish[g[a][i]] < finish[a] {
      assert Settled(g, finish, a);
      assert Successors(g, a)[i] == g[a][i];
    }
  }

  /** The mutable `state` map that the closure `visit` colours. */
  class CycleSearch {
    const graph: Graph
    var state: map<string, Colour>
    ghost var finish: map<string, nat>  // when each visited name was finished

    /** Visited names are closed under dependencies, which finished earlier. */
    ghost predicate Valid()
      reads this
    {
      state.Keys <= Universe(graph) &&
      (forall a | a in state :: state[a] == Visited <==> a in finish) &&
      finish.Keys <= state.Keys && AllSettled(graph, finish)
    }

    /** The names being visited are the stack of calls, a walk of the graph. */
    ghost predicate OnStack(stack: seq<string>)
      reads this
    {
      Walk(graph, stack) &&
      (forall a | a in state && state[a] == Visiting :: a in stack) &&
      forall i | 0 <= i < |stack| :: stack[i] in state && state[stack[i]] == Visiting
    }

    constructor (g: Graph)
      ensures Valid() && OnStack([]) && graph == g && state == map[]
    {
      graph, state, finish := g, map[], map[];
    }

    method Visit(node: string, ghost stack: seq<string>) returns (found: bool)
      requires Valid() && OnStack(stack) && node in Universe(graph)
      requires stack != [] ==> Edge(graph, stack[|stack| - 1], node)
      modifies this`state, this`finish
      ensures found ==> Cyclic(graph)
      ensures !found ==> Valid() && OnStack(stack) && node in finish && old(finish.Keys) <= finish.Keys
      ensures old(state.Keys) <= state.Keys
      decreases Universe(graph) - state.Keys
    {
      if node in state && state[node] == Visiting {
        StackClosesCycle(graph, stack, node);
        return true;
      }
      if node in state && state[node] == Visited { return false; }
      Enter(node, stack);
      var next := if node in graph then graph[node] else [];
      for i := 0 to |next|
        invariant Valid() && OnStack(stack + [node]) && old(finish.Keys) <= finish.Keys
        invariant old(state.Keys) + {node} <= state.Keys
        invariant forall k | 0 <= k < i :: next[k] in finish
      {
        assert Edge(graph, node, next[i]);
        var cyclic := Visit(next[i], stack + [node]);
        if cyclic { return true; }
      }
      Leave(node, stack);
      return false;
    }

    method Enter(node: string, ghost stack: seq<string>)
      requires Valid() && OnStack(stack) && node in Universe(graph) && node !in state
      requires stack != [] ==> Edge(graph, stack[|stack| - 1], node)
      modifies this`state
      ensures Valid() && OnStack(stack + [node]) && node !in stack && state.Keys == old(state.Keys) + {node}
      ensures finish == old(finish)
    {
      state := state[node := Visiting];
      WalkExtends(graph, stack, node);
      ghost var deeper := stack + [node];
      assert deeper[|stack|] == node;
    }

    method Leave(node: string, ghost stack: seq<string>)
      requires Valid() && OnStack(stack + [node]) && node !in stack
      requires forall b | b in Successors(graph, node) :: b in finish
      modifies this`state, this`finish
      ensures Valid() && OnStack(stack) && finish.Keys == old(finish.Keys) + {node} && state.Keys == old(state.Keys)
    {
      ghost var deeper := stack + [node];
      assert deeper[|stack|] == node;
      FinishExtends(graph, finish, node);
      state := state[node := Visited];
      finish := finish[node := |finish|];
      StackWithoutTop(deeper, stack, node);
      WalkPart(graph, deeper, 0, |stack|);
      assert deeper[0..|stack|] == stack;
      assert forall i | 0 <= i < |stack| :: stack[i] == deeper[i];
    }
  }

  lemma StackClosesCycle(g: Graph, stack: seq<string>, node: string)
    requires Walk(g, stack) && node in stack && Edge(g, stack[|stack| - 1], node)
    ensures Cyclic(g)
  {
    var i :| 0 <= i < |stack| && stack[i] == node;
    WalkPart(g, stack, i, |stack|);
    WalkExtends(g, stack[i..|stack|], node);
    assert IsCycle(g, stack[i..|stack|] + [node]);
  }

  lemma StackWithoutTop(deeper: seq<string>, stack: seq<string>, node: string)
    requires deeper == stack + [node]
    ensures forall a | a in deeper && a != node :: a in stack
  {
  }

  /** Starts a visit from every key, in any order; true exactly when there is a directed cycle. */
  method HasCycle(graph: Graph) returns (found: bool)
    ensures found <==> Cyclic(graph)
  {
    var search := new CycleSearch(graph);
    var rest := graph.Keys;
    while rest != {}
      invariant rest <= graph.Keys && fresh(search) && search.graph == graph
      invariant search.Valid() && search.OnStack([])
      invariant graph.Keys - rest <= search.finish.Keys
      decreases |rest|
    {
      var node :| node in rest;
      found := search.Visit(node, []);
      if found { return; }
      rest := rest - {node};
    }
    SettledIsRanked(graph, search.finish);
    RankedIsAcyclic(graph, search.finish);
    return false;
  }
}
