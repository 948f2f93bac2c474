/** The breadth-first component of a hypothesis, and what checking it yields. */
module HypothesisComponent {
  import opened Basics
  import opened HypothesisGraph

  /** Nodes by id; a later node of the same id replaces an earlier one. */
  function ById(nodes: seq<Node>): map<string, Node> {
    if nodes == [] then map[] else ById(nodes[..|nodes| - 1])[nodes[|nodes| - 1].id := nodes[|nodes| - 1]]
  }

  predicate Active(nodes: map<string, Node>, a: string) { a in nodes && nodes[a].active }

  function Neighbors(adj: Adjacency, a: string): set<string> { if a in adj then adj[a] else {} }

  /** A walk through active nodes along the graph. */
  predicate Walk(nodes: map<string, Node>, adj: Adjacency, w: seq<string>) {
    && w != [] && (forall i :: 0 <= i < |w| ==> Active(nodes, w[i]))
    && (forall i :: 0 <= i < |w| - 1 ==> w[i + 1] in Neighbors(adj, w[i]))
  }

  predicate WalksFromTo(nodes: map<string, Node>, adj: Adjacency, w: seq<string>, a: string, b: string) {
    Walk(nodes, adj, w) && w[0] == a && w[|w| - 1] == b
  }

  /** b can be reached from a without leaving the active nodes. */
  ghost predicate Reaches(nodes: map<string, Node>, adj: Adjacency, a: string, b: string) {
    exists w :: WalksFromTo(nodes, adj, w, a, b)
  }

  lemma ReachesSelf(nodes: map<string, Node>, adj: Adjacency, a: string)
    requires Active(nodes, a)
    ensures Reaches(nodes, adj, a, a)
  {
    assert WalksFromTo(nodes, adj, [a], a, a);
  }

  lemma ReachesNext(nodes: map<string, Node>, adj: Adjacency, a: string, b: string, c: string)
    requires Reaches(nodes, adj, a, b) && c in Neighbors(adj, b) && Active(nodes, c)
    ensures Reaches(nodes, adj, a, c)
  {
    var w :| WalksFromTo(nodes, adj, w, a, b);
    assert WalksFromTo(nodes, adj, w + [c], a, c);
  }

  // ---- the search ----

  /** Every queued id is the start or a neighbour of a component member. */
  ghost predicate QueueSound(
      nodes: map<string, Node>, adj: Adjacency, start: string, queue: seq<string>, component: seq<string>) {
    forall q :: q in queue ==> q == start || exists c :: c in component && q in Neighbors(adj, c)
  }

  /** The start and the members' neighbours are visited or queued. */
  ghost predicate Pending(
      nodes: map<string, Node>, adj: Adjacency, start: string, queue: seq<string>, visited: set<string>,
      component: seq<string>) {
    && (start in nodes ==> start in visited || start in queue)
    && (forall c, n :: c in component && n in Neighbors(adj, c) && n in nodes ==> n in visited || n in queue)
  }

  ghost predicate Members(
      nodes: map<string, Node>, adj: Adjacency, start: string, visited: set<string>, component: seq<string>) {
    && visited <= nodes.Keys && Distinct(component)
    && (forall c :: c in component <==> c in visited && Active(nodes, c))
    && (forall c :: c in component ==> Reaches(nodes, adj, start, c))
  }

  /** `_component_from_graph`: exactly the active nodes that the start reaches through active nodes, each once. */
  method ComponentFromGraph(nodes: map<string, Node>, adj: Adjacency, start: string) returns (component: seq<string>)
    ensures Distinct(component) && forall b :: b in component <==> Reaches(nodes, adj, start, b)
  {
    hide Distinct, Reaches, QueueSound, Pending, Members, Active, Neighbors;
    var queue, visited: set<string> := [start], {};
    component := [];
    SearchStart(nodes, adj, start);
    while queue != []
      invariant QueueSound(nodes, adj, start, queue, component)
      invariant Pending(nodes, adj, start, queue, visited, component)
      invariant Members(nodes, adj, start, visited, component)
      decreases |nodes.Keys - visited|, |queue|
    {
      var current, rest := queue[0], queue[1..];
      assert queue == [current] + rest;
      if current in visited || current !in nodes {
        Dropped(nodes, adj, start, queue, visited, component);
        queue := rest;
        continue;
      }
      FewerLeft(nodes.Keys, visited, current);
      if !Active(nodes, current) {
        Inactive(nodes, adj, start, queue, visited, component);
        visited, queue := visited + {current}, rest;
        continue;
      }
      var more := Enqueue(Neighbors(adj, current), visited + {current});
      Visit(nodes, adj, start, queue, visited, component, more);
      visited, component, queue := visited + {current}, component + [current], rest + more;
    }
    SearchEnd(nodes, adj, start, visited, component);
  }

  /** The unvisited neighbours, in any order. */
  method Enqueue(neighbors: set<string>, visited: set<string>) returns (more: seq<string>)
    ensures forall n :: n in more <==> n in neighbors && n !in visited
  {
    more := [];
    var left := neighbors;
    while left != {}
      invariant left <= neighbors
      invariant forall n :: n in more <==> n in neighbors && n !in left && n !in visited
      decreases |left|
    {
      var n :| n in left;
      if n !in visited { more := more + [n]; }
      left := left - {n};
    }
  }

  lemma SearchStart(nodes: map<string, Node>, adj: Adjacency, start: string)
    ensures QueueSound(nodes, adj, start, [start], []) && Pending(nodes, adj, start, [start], {}, [])
            && Members(nodes, adj, start, {}, [])
  {
  }

  lemma FewerLeft(all: set<string>, visited: set<string>, x: string)
    requires x in all && x !in visited
    ensures |all - (visited + {x})| < |all - visited|
  {
    assert all - (visited + {x}) == (all - visited) - {x};
  }

  lemma Dropped(
      nodes: map<string, Node>, adj: Adjacency, start: string, queue: seq<string>, visited: set<string>,
      component: seq<string>)
    requires queue != [] && (queue[0] in visited || queue[0] !in nodes)
    requires QueueSound(nodes, adj, start, queue, component) && Pending(nodes, adj, start, queue, visited, component)
    ensures QueueSound(nodes, adj, start, queue[1..], component)
            && Pending(nodes, adj, start, queue[1..], visited, component)
  {
    QueueTail(nodes, adj, start, queue, component);
    assert queue == [queue[0]] + queue[1..];
  }

  lemma QueueTail(nodes: map<string, Node>, adj: Adjacency, start: string, queue: seq<string>, component: seq<string>)
    requires queue != [] && QueueSound(nodes, adj, start, queue, component)
    ensures QueueSound(nodes, adj, start, queue[1..], component)
  {
    assert forall q :: q in queue[1..] ==> q in queue;
  }

  lemma Inactive(
      nodes: map<string, Node>, adj: Adjacency, start: string, queue: seq<string>, visited: set<string>,
      component: seq<string>)
    requires queue != [] && queue[0] in nodes && !Active(nodes, queue[0])
    requires QueueSound(nodes, adj, start, queue, component) && Pending(nodes, adj, start, queue, visited, component)
    requires Members(nodes, adj, start, visited, component)
    ensures var v := visited + {queue[0]};
            QueueSound(nodes, adj, start, queue[1..], component) && Pending(nodes, adj, start, queue[1..], v, component)
            && Members(nodes, adj, start, v, component)
  {
    hide Reaches;
    QueueTail(nodes, adj, start, queue, component);
    assert queue == [queue[0]] + queue[1..];
  }

  lemma Visit(nodes: map<string, Node>, adj: Adjacency, start: string, queue: seq<string>, visited: set<string>,
              component: seq<string>, more: seq<string>)
    requires queue != [] && queue[0] !in visited && Active(nodes, queue[0])
    requires QueueSound(nodes, adj, start, queue, component) && Pending(nodes, adj, start, queue, visited, component)
    requires Members(nodes, adj, start, visited, component)
    requires forall n :: n in more <==> n in Neighbors(adj, queue[0]) && n !in visited + {queue[0]}
    ensures var v, c, q := visited + {queue[0]}, component + [queue[0]], queue[1..] + more;
            QueueSound(nodes, adj, start, q, c) && Pending(nodes, adj, start, q, v, c)
              && Members(nodes, adj, start, v, c)
  {
    var x := queue[0];
    assert x in queue;
    if x == start {
      ReachesSelf(nodes, adj, start);
    } else {
      var c :| c in component && x in Neighbors(adj, c);
      ReachesNext(nodes, adj, start, c, x);
    }
    hide Reaches, Active, Neighbors;
    VisitQueue(nodes, adj, start, queue, component, more);
    VisitPending(nodes, adj, start, queue, visited, component, more);
    VisitMembers(nodes, adj, start, visited, component, x);
  }

  lemma VisitQueue(
      nodes: map<string, Node>, adj: Adjacency, start: string, queue: seq<string>, component: seq<string>,
      more: seq<string>)
    requires queue != [] && QueueSound(nodes, adj, start, queue, component)
    requires forall n :: n in more ==> n in Neighbors(adj, queue[0])
    ensures QueueSound(nodes, adj, start, queue[1..] + more, component + [queue[0]])
  {
    hide Neighbors;
    var c' := component + [queue[0]];
    assert queue[0] in c';
    forall q | q in queue[1..] + more ensures q == start || exists c :: c in c' && q in Neighbors(adj, c) {
      if q in queue[1..] && q != start {
        assert q in queue;
        var c :| c in component && q in Neighbors(adj, c);
        assert c in c';
      }
    }
  }

  lemma VisitPending(nodes: map<string, Node>, adj: Adjacency, start: string, queue: seq<string>, visited: set<string>,
                     component: seq<string>, more: seq<string>)
    requires queue != [] && Pending(nodes, adj, start, queue, visited, component)
    requires forall n :: n in more <==> n in Neighbors(adj, queue[0]) && n !in visited + {queue[0]}
    ensures Pending(nodes, adj, start, queue[1..] + more, visited + {queue[0]}, component + [queue[0]])
  {
    hide Neighbors;
    assert queue == [queue[0]] + queue[1..];
  }

  lemma VisitMembers(
      nodes: map<string, Node>, adj: Adjacency, start: string, visited: set<string>, component: seq<string>, x: string)
    requires Members(nodes, adj, start, visited, component) && x !in visited && Active(nodes, x)
             && Reaches(nodes, adj, start, x)
    ensures Members(nodes, adj, start, visited + {x}, component + [x])
  {
    hide Reaches;
    assert forall i :: 0 <= i < |component| ==> component[i] in component;
  }

  lemma SearchEnd(nodes: map<string, Node>, adj: Adjacency, start: string, visited: set<string>, component: seq<string>)
    requires Pending(nodes, adj, start, [], visited, component) && Members(nodes, adj, start, visited, component)
    ensures Distinct(component) && forall b :: b in component <==> Reaches(nodes, adj, start, b)
  {
    forall b | Reaches(nodes, adj, start, b) ensures b in component {
      var w :| WalksFromTo(nodes, adj, w, start, b);
      WalkStays(nodes, adj, start, visited, component, w, |w| - 1);
    }
  }

  lemma {:induction false} WalkStays(nodes: map<string, Node>, adj: Adjacency, start: string, visited: set<string>,
                                     component: seq<string>, w: seq<string>, i: nat)
    requires Pending(nodes, adj, start, [], visited, component) && Members(nodes, adj, start, visited, component)
    requires Walk(nodes, adj, w) && w[0] == start && i < |w|
    ensures w[i] in component
  {
    hide Reaches;
    assert Active(nodes, w[i]);
    if i > 0 {
      WalkStays(nodes, adj, start, visited, component, w, i - 1);
      assert w[i - 1 + 1] in Neighbors(adj, w[i - 1]);
    }
  }

  // ---- same component ----

  lemma {:induction false} WalkBack(nodes: map<string, Node>, adj: Adjacency, w: seq<string>)
    requires Walk(nodes, adj, w) && Symmetric(adj)
    ensures Walk(nodes, adj, Reversed(w)) && |Reversed(w)| == |w|
    ensures Reversed(w)[0] == w[|w| - 1] && Reversed(w)[|w| - 1] == w[0]
  {
    if |w| == 1 {
      assert w == [w[0]] && w[1..] == [];
    } else {
      var rest := w[1..];
      forall i | 0 <= i < |rest| - 1 ensures rest[i + 1] in Neighbors(adj, rest[i]) {
        assert w[(i + 1) + 1] in Neighbors(adj, w[i + 1]);
      }
      WalkBack(nodes, adj, rest);
      assert w[0 + 1] in Neighbors(adj, w[0]);
      assert w[0] in Neighbors(adj, w[1]);
      var r := Reversed(rest);
      assert r[|r| - 1] == w[1];
      assert forall i :: 0 <= i < |r| ==> (r + [w[0]])[i] == r[i];
    }
  }

  /** In a symmetric graph "reaches" is an equivalence on the active nodes. */
  lemma ReachesIsEquivalence(nodes: map<string, Node>, adj: Adjacency, a: string, b: string, c: string)
    requires Symmetric(adj)
    ensures Reaches(nodes, adj, a, a) <==> Active(nodes, a)
    ensures Reaches(nodes, adj, a, b) ==> Reaches(nodes, adj, b, a)
    ensures Reaches(nodes, adj, a, b) && Reaches(nodes, adj, b, c) ==> Reaches(nodes, adj, a, c)
  {
    if Active(nodes, a) { ReachesSelf(nodes, adj, a); }
    if Reaches(nodes, adj, a, b) {
      var w :| WalksFromTo(nodes, adj, w, a, b);
      WalkBack(nodes, adj, w);
      assert WalksFromTo(nodes, adj, Reversed(w), b, a);
      if Reaches(nodes, adj, b, c) {
        var v :| WalksFromTo(nodes, adj, v, b, c);
        JoinWalks(nodes, adj, w, v, a, b, c);
      }
    }
  }

  lemma JoinWalks(
      nodes: map<string, Node>, adj: Adjacency, w: seq<string>, v: seq<string>, a: string, b: string, c: string)
    requires WalksFromTo(nodes, adj, w, a, b) && WalksFromTo(nodes, adj, v, b, c)
    ensures Reaches(nodes, adj, a, c)
  {
    var u := w + v[1..];
    forall i | 0 <= i < |u| - 1 ensures u[i + 1] in Neighbors(adj, u[i]) {
      if i >= |w| - 1 { assert u[i + 1] == v[i - |w| + 1 + 1] && u[i] == v[i - |w| + 1]; }
    }
    assert WalksFromTo(nodes, adj, u, a, c);
  }

  // ---- checking a component ----

  /** Whether the node's atoms all pass; a node without atoms passes. */
  predicate Passes(pass: string -> bool, n: Node) { forall i :: 0 <= i < |n.atoms| ==> pass(n.atoms[i]) }

  datatype Reaction = Reaction(checked: seq<string>, affected: seq<string>, cells: seq<string>,
    consequences: seq<string>)

  /** What the check of a set of nodes reports, whatever the order. */
  ghost predicate Reports(r: Reaction, nodes: map<string, Node>, pass: string -> bool, members: iset<string>) {
    && Distinct(r.checked) && Distinct(r.affected) && Distinct(r.cells) && Distinct(r.consequences)
    && (forall a :: a in r.checked <==> a in members)
    && (forall a :: a in r.affected <==> a in members && a in nodes && Passes(pass, nodes[a]))
    && (forall c :: c in r.cells <==> exists a :: a in r.affected && a in nodes && c in nodes[a].cells)
    && (forall c :: c in r.consequences <==> exists a :: a in r.affected && a in nodes && c in nodes[a].consequences)
  }

  /** Appending what is not there yet. */
  method AddNew(xs: seq<string>, more: seq<string>) returns (ys: seq<string>)
    requires Distinct(xs)
    ensures Distinct(ys) && forall c :: c in ys <==> c in xs || c in more
  {
    ys := xs;
    for i := 0 to |more|
      invariant Distinct(ys) && forall c :: c in ys <==> c in xs || c in more[..i]
    {
      assert more[..i + 1] == more[..i] + [more[i]];
      if more[i] !in ys { ys := ys + [more[i]]; }
    }
    assert more[..|more|] == more;
  }

  ghost function Reached(nodes: map<string, Node>, adj: Adjacency, start: string): iset<string> {
    iset b | Reaches(nodes, adj, start, b)
  }

  /** The ids among the first n of the list that pass. */
  function Passing(nodes: map<string, Node>, pass: string -> bool, ids: seq<string>): seq<string> {
    if ids == [] then []
    else
      var front, last := ids[..|ids| - 1], ids[|ids| - 1];
      Passing(nodes, pass, front) + if last in nodes && Passes(pass, nodes[last]) then [last] else []
  }

  lemma {:induction false} PassingHas(nodes: map<string, Node>, pass: string -> bool, ids: seq<string>)
    requires Distinct(ids)
    ensures Distinct(Passing(nodes, pass, ids))
    ensures forall a :: a in Passing(nodes, pass, ids) <==> a in ids && a in nodes && Passes(pass, nodes[a])
  {
    if ids != [] {
      hide Passes;
      var front := ids[..|ids| - 1];
      assert ids == front + [ids[|ids| - 1]];
      PassingHas(nodes, pass, front);
      assert forall i :: 0 <= i < |front| ==> front[i] in front;
    }
  }

  /** `evaluate_connected`, with the atoms' verdicts given by `pass`. */
  method EvaluateConnected(root: Tree, hypothesis: string, pass: string -> bool) returns (r: Reaction)
    ensures Reports(r, ById(Preorder(root)), pass,
                    Reached(ById(Preorder(root)), GraphOf(NotRoot(Preorder(root), root.node.id)), hypothesis))
  {
    hide GraphOf, Distinct, Reaches;
    var graph := BuildDependencyGraph(root);
    var all := IterNodes(root);
    var nodes := ById(all);
    var component := ComponentFromGraph(nodes, graph, hypothesis);
    MembersAreNodes(nodes, graph, hypothesis, component);
    r := CheckComponent(nodes, component, pass);
    ReportsReached(r, nodes, pass, component, graph, hypothesis);
  }

  lemma ReportsReached(
      r: Reaction, nodes: map<string, Node>, pass: string -> bool, component: seq<string>, adj: Adjacency,
      start: string)
    requires Reports(r, nodes, pass, iset a | a in component)
    requires forall b :: b in component <==> Reaches(nodes, adj, start, b)
    ensures Reports(r, nodes, pass, Reached(nodes, adj, start))
  {
    assert (iset a | a in component) == Reached(nodes, adj, start);
  }

  method CheckComponent(nodes: map<string, Node>, component: seq<string>, pass: string -> bool) returns (r: Reaction)
    requires Distinct(component) && forall b :: b in component ==> b in nodes
    ensures Reports(r, nodes, pass, iset a | a in component)
  {
    PassingHas(nodes, pass, component);
    hide Distinct, CellsOf, ConsequencesOf, Passes;
    var affected, cells, consequences := [], [], [];
    NothingAffected(nodes);
    for i := 0 to |component|
      invariant affected == Passing(nodes, pass, component[..i])
      invariant Distinct(cells) && Distinct(consequences)
      invariant CellsOf(nodes, affected, cells) && ConsequencesOf(nodes, affected, consequences)
    {
      var id := component[i];
      assert id in component && id in nodes;
      assert component[..i + 1][..i] == component[..i];
      var passed := CheckAtoms(pass, nodes[id]);
      if passed {
        ghost var cells', consequences' := cells, consequences;
        cells := AddNew(cells, nodes[id].cells);
        consequences := AddNew(consequences, nodes[id].consequences);
        OneMoreAffected(nodes, affected, cells', cells, consequences', consequences, id);
        affected := affected + [id];
      } else {
        assert affected + [] == affected;
      }
    }
    assert component[..|component|] == component;
    r := Reaction(component, affected, cells, consequences);
    ReportsOf(r, nodes, pass);
  }

  lemma ReportsOf(r: Reaction, nodes: map<string, Node>, pass: string -> bool)
    requires Distinct(r.checked) && Distinct(r.affected) && Distinct(r.cells) && Distinct(r.consequences)
    requires forall a :: a in r.affected <==> a in r.checked && a in nodes && Passes(pass, nodes[a])
    requires CellsOf(nodes, r.affected, r.cells) && ConsequencesOf(nodes, r.affected, r.consequences)
    ensures Reports(r, nodes, pass, iset a | a in r.checked)
  {
    hide Passes;
  }

  method CheckAtoms(pass: string -> bool, n: Node) returns (passed: bool)
    ensures passed <==> Passes(pass, n)
  {
    passed := true;
    for i := 0 to |n.atoms|
      invariant passed <==> forall k :: 0 <= k < i ==> pass(n.atoms[k])
    {
      if !pass(n.atoms[i]) { passed := false; }
    }
  }

  lemma NothingAffected(nodes: map<string, Node>)
    ensures Distinct<string>([]) && CellsOf(nodes, [], []) && ConsequencesOf(nodes, [], [])
  {
  }

  lemma MembersAreNodes(nodes: map<string, Node>, adj: Adjacency, start: string, component: seq<string>)
    requires forall b :: b in component <==> Reaches(nodes, adj, start, b)
    ensures forall b :: b in component ==> b in nodes
  {
    forall b | b in component ensures b in nodes {
      var w :| WalksFromTo(nodes, adj, w, start, b);
      assert Active(nodes, w[|w| - 1]);
    }
  }

  ghost predicate CellsOf(nodes: map<string, Node>, affected: seq<string>, cells: seq<string>) {
    forall c :: c in cells <==> exists a :: a in affected && a in nodes && c in nodes[a].cells
  }

  ghost predicate ConsequencesOf(nodes: map<string, Node>, affected: seq<string>, consequences: seq<string>) {
    forall c :: c in consequences <==> exists a :: a in affected && a in nodes && c in nodes[a].consequences
  }

  lemma OneMoreAffected(nodes: map<string, Node>, affected: seq<string>, cells: seq<string>, cells': seq<string>,
                        cons: seq<string>, cons': seq<string>, id: string)
    requires id in nodes && CellsOf(nodes, affected, cells) && ConsequencesOf(nodes, affected, cons)
    requires forall c :: c in cells' <==> c in cells || c in nodes[id].cells
    requires forall c :: c in cons' <==> c in cons || c in nodes[id].consequences
    ensures CellsOf(nodes, affected + [id], cells') && ConsequencesOf(nodes, affected + [id], cons')
  {
    var all := affected + [id];
    assert id in all;
    assert forall a :: a in affected ==> a in all;
    forall c | c in cells' ensures exists a :: a in all && a in nodes && c in nodes[a].cells {
      if c in cells { var a :| a in affected && a in nodes && c in nodes[a].cells; }
    }
    forall c | c in cons' ensures exists a :: a in all && a in nodes && c in nodes[a].consequences {
      if c in cons { var a :| a in affected && a in nodes && c in nodes[a].consequences; }
    }
  }

  /** From any member of a component the check covers the same nodes and reports the same hypotheses, cells and
   *  consequences. */
  lemma SameFromAnyMember(nodes: map<string, Node>, adj: Adjacency, pass: string -> bool, a: string, b: string,
                          ra: Reaction, rb: Reaction)
    requires Symmetric(adj) && Reaches(nodes, adj, a, b)
    requires Reports(ra, nodes, pass, Reached(nodes, adj, a)) && Reports(rb, nodes, pass, Reached(nodes, adj, b))
    ensures SameElements(ra.checked, rb.checked) && SameElements(ra.affected, rb.affected)
    ensures SameElements(ra.cells, rb.cells) && SameElements(ra.consequences, rb.consequences)
  {
    forall c ensures Reaches(nodes, adj, a, c) <==> Reaches(nodes, adj, b, c) {
      ReachesIsEquivalence(nodes, adj, a, b, c);
      ReachesIsEquivalence(nodes, adj, b, a, c);
    }
    hide Reaches, Distinct, Passes;
    assert SameElements(ra.affected, rb.affected);
  }

  ghost predicate SameElements(s: seq<string>, t: seq<string>) { forall x :: x in s <==> x in t }
}
