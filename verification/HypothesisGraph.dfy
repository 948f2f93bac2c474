/** The dependency graph of hypotheses, its breadth-first components, and the check of a whole component. */
module HypothesisGraph {

  /** Terms are assumptions and consequences; vars are the variables of the node's atoms. */
  datatype Node = Node(id: string, related: seq<string>, cells: seq<string>, assumptions: seq<string>,
                       consequences: seq<string>, vars: set<string>, atoms: seq<string>, active: bool)

  datatype Tree = Tree(node: Node, children: seq<Tree>)

  // ---- the nodes in order ----

  function Preorder(t: Tree): seq<Node>
    decreases t, 1
  {
    [t.node] + PreorderAll(t.children)
  }

  function PreorderAll(ts: seq<Tree>): seq<Node>
    decreases ts, 0
  {
    if ts == [] then [] else Preorder(ts[0]) + PreorderAll(ts[1..])
  }

  function Size(t: Tree): nat
    decreases t, 1
  {
    1 + SizeAll(t.children)
  }

  function SizeAll(ts: seq<Tree>): nat
    decreases ts, 0
  {
    if ts == [] then 0 else Size(ts[0]) + SizeAll(ts[1..])
  }

  lemma {:induction false} PreorderAppend(a: seq<Tree>, b: seq<Tree>)
    ensures PreorderAll(a + b) == PreorderAll(a) + PreorderAll(b)
    ensures SizeAll(a + b) == SizeAll(a) + SizeAll(b)
    decreases |a|
  {
    if a == [] {
      assert a + b == b;
    } else {
      assert (a + b)[1..] == a[1..] + b;
      PreorderAppend(a[1..], b);
    }
  }

  function Reversed<T>(s: seq<T>): seq<T> { if s == [] then [] else Reversed(s[1..]) + [s[0]] }

  lemma {:induction false} ReversedAppend<T>(a: seq<T>, b: seq<T>)
    ensures Reversed(a + b) == Reversed(b) + Reversed(a)
    decreases |a|
  {
    if a == [] {
      assert a + b == b;
    } else {
      assert (a + b)[1..] == a[1..] + b;
      ReversedAppend(a[1..], b);
    }
  }

  lemma {:induction false} ReversedTwice<T>(s: seq<T>)
    ensures Reversed(Reversed(s)) == s
  {
    if s != [] {
      ReversedAppend(Reversed(s[1..]), [s[0]]);
      ReversedTwice(s[1..]);
      assert [s[0]][1..] == [];
    }
  }

  /** `iter_nodes`: an explicit stack, children pushed in reverse. */
  method IterNodes(root: Tree) returns (nodes: seq<Node>)
    ensures nodes == Preorder(root)
  {
    hide Preorder, PreorderAll, Size, SizeAll, Reversed;
    nodes := [];
    var stack := [root];
    StackStart(root);
    while stack != []
      invariant nodes + PreorderAll(Reversed(stack)) == Preorder(root)
      decreases SizeAll(stack)
    {
      var top, rest := stack[|stack| - 1], stack[..|stack| - 1];
      assert stack == rest + [top];
      StackStep(rest, top);
      var pushed := Reversed(top.children);
      assert nodes + ([top.node] + PreorderAll(Reversed(rest + pushed))) ==
        (nodes + [top.node]) + PreorderAll(Reversed(rest + pushed));
      nodes := nodes + [top.node];
      stack := rest + pushed;
    }
    StackEnd(nodes);
  }

  lemma StackStart(root: Tree)
    ensures [] + PreorderAll(Reversed([root])) == Preorder(root)
  {
    assert [root][1..] == [];
    assert Preorder(root) + [] == Preorder(root);
  }

  lemma StackEnd(nodes: seq<Node>)
    ensures nodes + PreorderAll(Reversed([])) == nodes
  {
  }

  lemma StackStep(rest: seq<Tree>, top: Tree)
    ensures PreorderAll(Reversed(rest + [top])) == [top.node] + PreorderAll(Reversed(rest + Reversed(top.children)))
    ensures SizeAll(rest + Reversed(top.children)) < SizeAll(rest + [top])
  {
    var pushed := Reversed(top.children);
    ReversedAppend(rest, [top]);
    ReversedOne(top);
    ReversedAppend(rest, pushed);
    ReversedTwice(top.children);
    PreorderAppend([top], Reversed(rest));
    PreorderAppend(top.children, Reversed(rest));
    PreorderAppend(rest, [top]);
    PreorderAppend(rest, pushed);
    SizeReversed(top.children);
    PreorderOne(top);
    hide Preorder, PreorderAll, Size, SizeAll, Reversed;
    assert ([top.node] + PreorderAll(top.children)) + PreorderAll(Reversed(rest))
        == [top.node] + (PreorderAll(top.children) + PreorderAll(Reversed(rest)));
  }

  lemma ReversedOne(t: Tree)
    ensures Reversed([t]) == [t]
  {
    assert [t][1..] == [];
  }

  lemma PreorderOne(t: Tree)
    ensures PreorderAll([t]) == [t.node] + PreorderAll(t.children) && SizeAll([t]) == 1 + SizeAll(t.children)
  {
    assert [t][1..] == [];
  }

  lemma {:induction false} SizeReversed(ts: seq<Tree>)
    ensures SizeAll(Reversed(ts)) == SizeAll(ts)
  {
    if ts != [] {
      PreorderAppend(Reversed(ts[1..]), [ts[0]]);
      SizeReversed(ts[1..]);
      assert [ts[0]][1..] == [];
    }
  }

  // ---- the graph ----

  type Adjacency = map<string, set<string>>

  function SetOf(s: seq<string>): set<string> { set x | x in s }

  function Terms(n: Node): set<string> { SetOf(n.assumptions) + SetOf(n.consequences) }

  /** The two nodes speak of a common cell, variable or term. */
  predicate Overlap(u: Node, v: Node) {
    SetOf(u.cells) * SetOf(v.cells) != {} || u.vars * v.vars != {} || Terms(u) * Terms(v) != {}
  }

  /** Node i names node id b as related. */
  predicate Names(nodes: seq<Node>, i: nat, a: string, b: string) {
    i < |nodes| && nodes[i].id == a && b in nodes[i].related
  }

  /** Two different nodes with these ids overlap. */
  predicate Shares(nodes: seq<Node>, i: nat, k: nat, a: string, b: string) {
    i < |nodes| && k < |nodes| && i != k && nodes[i].id == a && nodes[k].id == b && Overlap(nodes[i], nodes[k])
  }

  predicate IsId(nodes: seq<Node>, a: string) { exists i :: 0 <= i < |nodes| && nodes[i].id == a }

  /** What makes two hypotheses neighbours. */
  predicate Linked(nodes: seq<Node>, a: string, b: string) {
    && IsId(nodes, a) && IsId(nodes, b)
    && ((exists i :: 0 <= i < |nodes| && (Names(nodes, i, a, b) || Names(nodes, i, b, a)))
        || (exists i, k :: 0 <= i < |nodes| && 0 <= k < |nodes| && Shares(nodes, i, k, a, b)))
  }

  function Ids(nodes: seq<Node>): set<string> { set i | 0 <= i < |nodes| :: nodes[i].id }

  /** The one graph of the nodes. */
  function GraphOf(nodes: seq<Node>): Adjacency {
    map a | a in Ids(nodes) :: LinkedTo(nodes, a)
  }

  function LinkedTo(nodes: seq<Node>, a: string): set<string> { set b | b in Ids(nodes) && Linked(nodes, a, b) }

  /** The nodes below the root: those whose id is not the root's. */
  function NotRoot(nodes: seq<Node>, root: string): seq<Node> {
    if nodes == [] then [] else (if nodes[0].id != root then [nodes[0]] else []) + NotRoot(nodes[1..], root)
  }

  ghost predicate Grows(adj: Adjacency, adj': Adjacency) {
    adj.Keys == adj'.Keys && forall a :: a in adj ==> adj[a] <= adj'[a]
  }

  /** Each way there is a way back. */
  ghost predicate Symmetric(adj: Adjacency) {
    forall a, b :: a in adj && b in adj[a] ==> b in adj && a in adj[b]
  }

  ghost predicate Sound(adj: Adjacency, nodes: seq<Node>) {
    && (forall a :: a in adj <==> IsId(nodes, a))
    && (forall a, b :: a in adj && b in adj[a] ==> Linked(nodes, a, b))
  }

  ghost predicate NamesDone(adj: Adjacency, nodes: seq<Node>, i: nat, m: nat)
    requires i < |nodes| && nodes[i].id in adj && m <= |nodes[i].related|
  {
    forall r :: 0 <= r < m && nodes[i].related[r] in adj ==> nodes[i].related[r] in adj[nodes[i].id]
  }

  ghost predicate PairsDone(adj: Adjacency, nodes: seq<Node>, i: nat, m: nat)
    requires i < |nodes| && nodes[i].id in adj && m <= |nodes|
  {
    forall k :: i < k < m && Overlap(nodes[i], nodes[k]) ==> nodes[k].id in adj[nodes[i].id]
  }

  method Connect(adj: Adjacency, a: string, b: string, ghost nodes: seq<Node>) returns (adj': Adjacency)
    requires Sound(adj, nodes) && Symmetric(adj) && a in adj && b in adj && Linked(nodes, a, b)
    ensures Sound(adj', nodes) && Symmetric(adj') && Grows(adj, adj') && b in adj'[a]
  {
    LinkedBack(nodes, a, b);
    hide Linked, IsId, Overlap;
    adj' := adj[a := adj[a] + {b}];
    adj' := adj'[b := adj'[b] + {a}];
  }

  lemma LinkedBack(nodes: seq<Node>, a: string, b: string)
    requires Linked(nodes, a, b)
    ensures Linked(nodes, b, a)
  {
    if i :| 0 <= i < |nodes| && (Names(nodes, i, a, b) || Names(nodes, i, b, a)) {
      assert Names(nodes, i, b, a) || Names(nodes, i, a, b);
    } else {
      var i, k :| 0 <= i < |nodes| && 0 <= k < |nodes| && Shares(nodes, i, k, a, b);
      assert Overlap(nodes[k], nodes[i]) by { OverlapBack(nodes[i], nodes[k]); }
      assert Shares(nodes, k, i, b, a);
    }
  }

  lemma OverlapBack(u: Node, v: Node)
    requires Overlap(u, v)
    ensures Overlap(v, u)
  {
    assert SetOf(u.cells) * SetOf(v.cells) == SetOf(v.cells) * SetOf(u.cells);
    assert u.vars * v.vars == v.vars * u.vars;
    assert Terms(u) * Terms(v) == Terms(v) * Terms(u);
  }

  method EmptyGraph(nodes: seq<Node>) returns (adj: Adjacency)
    ensures Sound(adj, nodes) && Symmetric(adj)
  {
    adj := map[];
    for i := 0 to |nodes|
      invariant forall a :: a in adj <==> exists k :: 0 <= k < i && nodes[k].id == a
      invariant forall a :: a in adj ==> adj[a] == {}
    {
      adj := adj[nodes[i].id := {}];
    }
  }

  /** The links of node i by name. */
  method LinkNames(adj0: Adjacency, nodes: seq<Node>, i: nat) returns (adj: Adjacency)
    requires i < |nodes| && Sound(adj0, nodes) && Symmetric(adj0)
    ensures Sound(adj, nodes) && Symmetric(adj) && Grows(adj0, adj) && nodes[i].id in adj
            && NamesDone(adj, nodes, i, |nodes[i].related|)
  {
    adj := adj0;
    IdInGraph(adj, nodes, i);
    GrowsSelf(adj);
    hide Linked, Sound, Symmetric, Grows, NamesDone, IsId;
    assert NamesDone(adj, nodes, i, 0) by { NoNames(adj, nodes, i); }
    for r := 0 to |nodes[i].related|
      invariant Sound(adj, nodes) && Symmetric(adj) && Grows(adj0, adj) && nodes[i].id in adj
        && NamesDone(adj, nodes, i, r)
    {
      var linked := nodes[i].related[r];
      ghost var before := adj;
      if linked in adj {
        NamedIsLinked(adj, nodes, i, linked);
        adj := Connect(adj, nodes[i].id, linked, nodes);
        GrowsOn(adj0, before, adj);
      } else {
        GrowsSelf(adj);
      }
      OneMoreNamed(before, adj, nodes, i, r);
    }
  }

  lemma NoNames(adj: Adjacency, nodes: seq<Node>, i: nat)
    requires i < |nodes| && nodes[i].id in adj
    ensures NamesDone(adj, nodes, i, 0)
  {
  }

  lemma OneMoreNamed(adj: Adjacency, adj': Adjacency, nodes: seq<Node>, i: nat, r: nat)
    requires i < |nodes| && r < |nodes[i].related| && nodes[i].id in adj && NamesDone(adj, nodes, i, r)
             && Grows(adj, adj')
    requires nodes[i].related[r] in adj ==> nodes[i].related[r] in adj'[nodes[i].id]
    ensures nodes[i].id in adj' && NamesDone(adj', nodes, i, r + 1)
  {
  }

  lemma NamedIsLinked(adj: Adjacency, nodes: seq<Node>, i: nat, b: string)
    requires i < |nodes| && b in nodes[i].related && b in adj && Sound(adj, nodes)
    ensures Linked(nodes, nodes[i].id, b)
  {
    assert Names(nodes, i, nodes[i].id, b);
  }

  /** The links of node i to the nodes after it by what they share. */
  method LinkPairs(adj0: Adjacency, nodes: seq<Node>, i: nat) returns (adj: Adjacency)
    requires i < |nodes| && Sound(adj0, nodes) && Symmetric(adj0)
    ensures Sound(adj, nodes) && Symmetric(adj) && Grows(adj0, adj) && nodes[i].id in adj
            && PairsDone(adj, nodes, i, |nodes|)
  {
    adj := adj0;
    var left := nodes[i];
    assert IsId(nodes, left.id);
    assert left.id in adj;
    GrowsSelf(adj);
    hide Linked, Terms, SetOf, Sound, Symmetric, Grows, PairsDone, IsId;
    assert PairsDone(adj, nodes, i, i + 1) by { NoPairs(adj, nodes, i); }
    for k := i + 1 to |nodes|
      invariant Sound(adj, nodes) && Symmetric(adj) && Grows(adj0, adj) && left.id in adj && PairsDone(adj, nodes, i, k)
    {
      var right := nodes[k];
      var sharedCell := SetOf(left.cells) * SetOf(right.cells) != {};
      var sharedVariable := left.vars * right.vars != {};
      var sharedTerm := Terms(left) * Terms(right) != {};
      assert sharedCell || sharedVariable || sharedTerm <==> Overlap(left, right);
      ghost var before := adj;
      if sharedCell || sharedVariable || sharedTerm {
        IdInGraph(adj, nodes, k);
        SharedIsLinked(nodes, i, k);
        adj := Connect(adj, left.id, right.id, nodes);
        GrowsOn(adj0, before, adj);
      } else {
        GrowsSelf(adj);
      }
      OneMoreShared(before, adj, nodes, i, k);
    }
  }

  lemma GrowsSelf(adj: Adjacency)
    ensures Grows(adj, adj)
  {
  }

  lemma GrowsOn(a: Adjacency, b: Adjacency, c: Adjacency)
    requires Grows(a, b) && Grows(b, c)
    ensures Grows(a, c)
  {
  }

  lemma IdInGraph(adj: Adjacency, nodes: seq<Node>, k: nat)
    requires k < |nodes| && Sound(adj, nodes)
    ensures nodes[k].id in adj
  {
  }

  lemma NoPairs(adj: Adjacency, nodes: seq<Node>, i: nat)
    requires i < |nodes| && nodes[i].id in adj
    ensures PairsDone(adj, nodes, i, i + 1)
  {
  }

  lemma OneMoreShared(adj: Adjacency, adj': Adjacency, nodes: seq<Node>, i: nat, k: nat)
    requires i < k < |nodes| && nodes[i].id in adj && PairsDone(adj, nodes, i, k) && Grows(adj, adj')
    requires Overlap(nodes[i], nodes[k]) ==> nodes[k].id in adj'[nodes[i].id]
    ensures nodes[i].id in adj' && PairsDone(adj', nodes, i, k + 1)
  {
    hide Overlap;
  }

  lemma SharedIsLinked(nodes: seq<Node>, i: nat, k: nat)
    requires i < k < |nodes| && Overlap(nodes[i], nodes[k])
    ensures Linked(nodes, nodes[i].id, nodes[k].id)
  {
    assert Shares(nodes, i, k, nodes[i].id, nodes[k].id);
  }

  ghost predicate AllNamesDone(adj: Adjacency, nodes: seq<Node>, n: nat)
    requires n <= |nodes|
  {
    forall i :: 0 <= i < n ==> nodes[i].id in adj && NamesDone(adj, nodes, i, |nodes[i].related|)
  }

  ghost predicate AllPairsDone(adj: Adjacency, nodes: seq<Node>, n: nat)
    requires n <= |nodes|
  {
    forall i :: 0 <= i < n ==> nodes[i].id in adj && PairsDone(adj, nodes, i, |nodes|)
  }

  lemma GrowthKeeps(adj: Adjacency, adj': Adjacency, nodes: seq<Node>, n: nat, m: nat)
    requires Grows(adj, adj') && n <= |nodes| && m <= |nodes| && AllNamesDone(adj, nodes, n)
             && AllPairsDone(adj, nodes, m)
    ensures AllNamesDone(adj', nodes, n) && AllPairsDone(adj', nodes, m)
  {
    hide Overlap;
    forall i | 0 <= i < n ensures nodes[i].id in adj' && NamesDone(adj', nodes, i, |nodes[i].related|) {
      assert NamesDone(adj, nodes, i, |nodes[i].related|);
    }
    forall i | 0 <= i < m ensures nodes[i].id in adj' && PairsDone(adj', nodes, i, |nodes|) {
      assert PairsDone(adj, nodes, i, |nodes|);
    }
  }

  /** `build_dependency_graph`. The neighbours' order is left open. */
  method BuildDependencyGraph(root: Tree) returns (adj: Adjacency)
    ensures adj == GraphOf(NotRoot(Preorder(root), root.node.id))
  {
    var all := IterNodes(root);
    var nodes := NotRoot(all, root.node.id);
    adj := EmptyGraph(nodes);
    hide Sound, Symmetric, Grows, NamesDone, PairsDone, AllNamesDone, AllPairsDone;
    assert AllNamesDone(adj, nodes, 0) && AllPairsDone(adj, nodes, 0) by { NothingDone(adj, nodes); }
    for i := 0 to |nodes|
      invariant Sound(adj, nodes) && Symmetric(adj) && AllNamesDone(adj, nodes, i) && AllPairsDone(adj, nodes, 0)
    {
      var next := LinkNames(adj, nodes, i);
      GrowthKeeps(adj, next, nodes, i, 0);
      OneMoreName(next, nodes, i);
      adj := next;
    }
    for i := 0 to |nodes|
      invariant Sound(adj, nodes) && Symmetric(adj) && AllNamesDone(adj, nodes, |nodes|) && AllPairsDone(adj, nodes, i)
    {
      var next := LinkPairs(adj, nodes, i);
      GrowthKeeps(adj, next, nodes, |nodes|, i);
      OneMorePair(next, nodes, i);
      adj := next;
    }
    DoneIsGraph(adj, nodes);
  }

  lemma NothingDone(adj: Adjacency, nodes: seq<Node>)
    ensures AllNamesDone(adj, nodes, 0) && AllPairsDone(adj, nodes, 0)
  {
  }

  lemma OneMoreName(adj: Adjacency, nodes: seq<Node>, i: nat)
    requires i < |nodes| && AllNamesDone(adj, nodes, i) && nodes[i].id in adj
             && NamesDone(adj, nodes, i, |nodes[i].related|)
    ensures AllNamesDone(adj, nodes, i + 1)
  {
  }

  lemma OneMorePair(adj: Adjacency, nodes: seq<Node>, i: nat)
    requires i < |nodes| && AllPairsDone(adj, nodes, i) && nodes[i].id in adj && PairsDone(adj, nodes, i, |nodes|)
    ensures AllPairsDone(adj, nodes, i + 1)
  {
  }

  lemma DoneIsGraph(adj: Adjacency, nodes: seq<Node>)
    requires Sound(adj, nodes) && Symmetric(adj) && AllNamesDone(adj, nodes, |nodes|)
             && AllPairsDone(adj, nodes, |nodes|)
    ensures adj == GraphOf(nodes)
  {
    hide Linked, Sound, Symmetric, AllNamesDone, AllPairsDone, Ids, IsId, LinkedTo;
    forall a ensures a in adj <==> a in Ids(nodes) { KeysAreIds(adj, nodes, a); }
    forall a | a in adj ensures adj[a] == LinkedTo(nodes, a) { NeighborsAreLinked(adj, nodes, a); }
  }

  lemma KeysAreIds(adj: Adjacency, nodes: seq<Node>, a: string)
    requires Sound(adj, nodes)
    ensures a in adj <==> a in Ids(nodes)
  {
    IdsAre(nodes, a);
  }

  lemma NeighborsAreLinked(adj: Adjacency, nodes: seq<Node>, a: string)
    requires Sound(adj, nodes) && Symmetric(adj) && AllNamesDone(adj, nodes, |nodes|)
             && AllPairsDone(adj, nodes, |nodes|)
    requires a in adj
    ensures adj[a] == LinkedTo(nodes, a)
  {
    forall b ensures b in adj[a] <==> b in LinkedTo(nodes, a) {
      IdsAre(nodes, b);
      hide AllNamesDone, AllPairsDone, Ids;
      if Linked(nodes, a, b) { LinkedIsThere(adj, nodes, a, b); }
    }
  }

  lemma IdsAre(nodes: seq<Node>, a: string)
    ensures a in Ids(nodes) <==> IsId(nodes, a)
  {
  }

  lemma LinkedIsThere(adj: Adjacency, nodes: seq<Node>, a: string, b: string)
    requires Sound(adj, nodes) && Symmetric(adj) && AllNamesDone(adj, nodes, |nodes|)
             && AllPairsDone(adj, nodes, |nodes|)
    requires Linked(nodes, a, b)
    ensures a in adj && b in adj[a]
  {
    if i :| 0 <= i < |nodes| && (Names(nodes, i, a, b) || Names(nodes, i, b, a)) {
      assert NamesDone(adj, nodes, i, |nodes[i].related|);
    } else {
      var i, k :| 0 <= i < |nodes| && 0 <= k < |nodes| && Shares(nodes, i, k, a, b);
      OverlapBack(nodes[i], nodes[k]);
      assert PairsDone(adj, nodes, i, |nodes|) && PairsDone(adj, nodes, k, |nodes|);
    }
  }

  /** The graph of any nodes is symmetric. */
  lemma GraphIsSymmetric(nodes: seq<Node>)
    ensures Symmetric(GraphOf(nodes))
  {
    var adj := GraphOf(nodes);
    forall a, b | a in adj && b in adj[a] ensures b in adj && a in adj[b] {
      assert Linked(nodes, a, b);
      LinkedBack(nodes, a, b);
    }
  }
}
