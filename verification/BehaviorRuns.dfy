/** Nested node runs over a behavior tree, with tree updates between any two steps of a handler. */
module BehaviorRuns {
  import opened Basics
  import opened Text
  import opened BehaviorState

  /** A run of a node that is inside a handler. */
  datatype Frame = Frame(node: string, element: Element)

  type Nodes = map<string, NodeState>

  datatype World = World(nodes: Nodes, revision: int, stack: seq<Frame>)

  // ---- tree refresh ----

  /** `BehaviorTree.refresh_from_serialized`, on the nodes: known nodes are refreshed, new ones come in, and unlocked
   *  nodes that the payload does not have go. */
  function RefreshNodes(nodes: Nodes, payload: map<string, Payload>): Nodes {
    map id | id in nodes.Keys + payload.Keys && (id in payload || nodes[id].content.lock) ::
      if id !in payload then nodes[id] else Taken(nodes, id, payload[id])
  }

  /** What a tree refresh makes of one node of the payload: a known node keeps its own copy and history. */
  function Taken(nodes: Nodes, id: string, payload: Payload): NodeState {
    if id !in nodes then NewNode(payload)
    else RefreshNode(nodes[id], Stripped(payload.content), if nodes[id].content.lock then nodes[id].content.current
      else None)
  }

  // ---- steps ----

  datatype Action =
    | Enter(node: string, elementId: string, executed: string)   // head of the loop, up to the handler call
    | Write(node: string, body: Body)                            // a handler writes into some node
    | Miss(node: string, elementId: string, error: string)       // head of the loop, with no such element
    | RefreshTree(tree: map<string, Payload>, treeRevision: int)
    | RefreshOne(node: string, payload: Payload)
    | Leave(notes: map<string, string>, claims: seq<string>)     // the handler of the innermost run returns or raises
    | Finish(node: string)                                       // after the loop

  function Noted(b: Body, notes: map<string, string>): Body { b.(notes := b.notes + notes) }

  const EXECUTED: string := "last_executed_elements"
  const PATHS: string := "last_updated_paths"
  const TRANSITION: string := "last_transition"
  const ERROR: string := "last_error"

  /** All that the end of an element itself may write: its notes, and the claims' states when it reports paths. */
  predicate MayNote(b: Body, notes: map<string, string>, claims: seq<string>) {
    notes.Keys <= {PATHS, TRANSITION, ERROR} && |claims| == |b.claims| && (claims != b.claims ==> PATHS in notes)
  }

  function Closing(b: Body, notes: map<string, string>, claims: seq<string>): Body {
    Noted(b, notes).(claims := claims)
  }

  predicate OnStack(w: World, id: string) { exists i :: 0 <= i < |w.stack| && w.stack[i].node == id }

  /** The head refresh finds the element, and the node is locked on it. */
  function Locked(n: NodeState, elementId: string, executed: string): NodeState {
    var m := RefreshOwn(n, Some(elementId));
    m.(content := m.content.(current := Some(elementId), lock := true,
      body := Noted(m.content.body, map[EXECUTED := executed])))
  }

  function Unlocked(n: NodeState): NodeState { n.(content := n.content.(lock := false, current := None)) }

  /** The end of an element, after a result or an exception alike: noted and persisted, unlocked, persisted and
   *  refreshed. */
  ghost predicate Leaves(n: NodeState, noted: Body, n': NodeState, mid: NodeState, last: NodeState) {
    && Persists(n.(content := n.content.(body := noted)), mid)
    && Persists(Unlocked(mid), last)
    && n' == RefreshOwn(last, None)
  }

  /** One step, of any choice. Run steps of a node already on the stack are not among them. */
  ghost predicate Step(w: World, a: Action, w': World) {
    match a
    case Enter(id, elementId, executed) =>
      && id in w.nodes && !OnStack(w, id) && elementId != ""
      && var m := RefreshOwn(w.nodes[id], Some(elementId));
         var found := Find(m.content.elements, elementId);
         found.Some? && w' == w.(nodes := w.nodes[id := Locked(w.nodes[id], elementId, executed)],
           stack := w.stack + [Frame(id, found.value)])
    case Write(id, body) =>
      id in w.nodes && w' == w.(nodes := w.nodes[id := w.nodes[id].(content := w.nodes[id].content.(body := body))])
    case Miss(id, elementId, error) =>
      && id in w.nodes && !OnStack(w, id) && elementId != ""
      && var m := RefreshOwn(w.nodes[id], Some(elementId));
         && Find(m.content.elements, elementId).None?
         && (exists n', mid, last :: Leaves(m, Noted(m.content.body, map[ERROR := error]), n', mid, last) &&
              w' == w.(nodes := w.nodes[id := n'], revision := w.revision + 2))
    case RefreshTree(payload, rev) =>
      w' == w.(nodes := RefreshNodes(w.nodes, payload), revision := rev)
    case RefreshOne(id, payload) =>
      id in w.nodes && w' == w.(nodes := w.nodes[id := RefreshNode(w.nodes[id], payload, None)])
    case Leave(notes, claims) =>
      && w.stack != []
      && var top := w.stack[|w.stack| - 1];
         && top.node in w.nodes && MayNote(w.nodes[top.node].content.body, notes, claims)
         && (exists n', mid, last ::
              && Leaves(w.nodes[top.node], Closing(w.nodes[top.node].content.body, notes, claims), n', mid, last)
              && w' == World(w.nodes[top.node := n'], w.revision + 2, w.stack[..|w.stack| - 1]))
    case Finish(id) =>
      && id in w.nodes && !OnStack(w, id)
      && (exists n' :: Persists(w.nodes[id], n') && w' == w.(nodes := w.nodes[id := n'], revision := w.revision + 2))
  }

  /** worlds[0] is where the run starts; one action leads from each world to the next. */
  ghost predicate Run(worlds: seq<World>, actions: seq<Action>) {
    |worlds| == |actions| + 1 && worlds[0].stack == [] &&
    forall i :: 0 <= i < |actions| ==> Step(worlds[i], actions[i], worlds[i + 1])
  }

  // ---- what every step keeps ----

  /** The node of a frame is there, locked, and on the element that the frame runs, which has not changed. */
  predicate FrameOk(nodes: Nodes, f: Frame) {
    && f.node in nodes && f.element.id != ""
    && var c := nodes[f.node].content;
       c.lock && c.current == Some(f.element.id) && Find(c.elements, f.element.id) == Some(f.element)
  }

  ghost predicate StackOk(w: World) {
    && (forall i, k :: 0 <= i < k < |w.stack| ==> w.stack[i].node != w.stack[k].node)
    && (forall i :: 0 <= i < |w.stack| ==> FrameOk(w.nodes, w.stack[i]))
  }

  lemma FrameAfterRefresh(nodes: Nodes, payload: map<string, Payload>, f: Frame)
    requires FrameOk(nodes, f)
    ensures FrameOk(RefreshNodes(nodes, payload), f)
  {
    if f.node in payload { RefreshWhileLocked(nodes[f.node].content, payload[f.node].content, f.element); }
  }

  lemma FrameElsewhere(nodes: Nodes, id: string, n: NodeState, f: Frame)
    requires FrameOk(nodes, f) && f.node != id
    ensures FrameOk(nodes[id := n], f)
  {
  }

  lemma StepKeepsStack(w: World, a: Action, w': World)
    requires StackOk(w) && Step(w, a, w')
    ensures StackOk(w')
  {
    hide Find, Refresh, RefreshNodes, Leaves, Persists, Noted, MayNote;
    match a {
      case Enter(id, elementId, executed) => EnterKeepsStack(w, id, elementId, executed, w');
      case Miss(id, _, _) =>
        forall i | 0 <= i < |w'.stack| ensures FrameOk(w'.nodes, w'.stack[i]) {
          FrameElsewhere(w.nodes, id, w'.nodes[id], w.stack[i]);
        }
      case Write(id, body) =>
        forall i | 0 <= i < |w.stack| ensures FrameOk(w'.nodes, w.stack[i]) { assert FrameOk(w.nodes, w.stack[i]); }
      case RefreshTree(payload, _) =>
        forall i | 0 <= i < |w.stack| ensures FrameOk(w'.nodes, w.stack[i]) {
          FrameAfterRefresh(w.nodes, payload, w.stack[i]);
        }
      case RefreshOne(id, payload) =>
        forall i | 0 <= i < |w.stack| ensures FrameOk(w'.nodes, w.stack[i]) {
          assert FrameOk(w.nodes, w.stack[i]);
          if w.stack[i].node == id { RefreshWhileLocked(w.nodes[id].content, payload.content, w.stack[i].element); }
        }
      case Leave(_, _) =>
        forall i | 0 <= i < |w'.stack| ensures FrameOk(w'.nodes, w'.stack[i]) {
          FrameElsewhere(w.nodes, w.stack[|w.stack| - 1].node, w'.nodes[w.stack[|w.stack| - 1].node], w.stack[i]);
        }
      case Finish(id) =>
        forall i | 0 <= i < |w'.stack| ensures FrameOk(w'.nodes, w'.stack[i]) {
          FrameElsewhere(w.nodes, id, w'.nodes[id], w.stack[i]);
        }
    }
  }

  lemma EnterKeepsStack(w: World, id: string, elementId: string, executed: string, w': World)
    requires StackOk(w) && Step(w, Enter(id, elementId, executed), w')
    ensures StackOk(w')
  {
    var m := RefreshOwn(w.nodes[id], Some(elementId));
    var found := Find(m.content.elements, elementId);
    FindHas(m.content.elements, elementId);
    var f := Frame(id, found.value);
    assert FrameOk(w'.nodes, f);
    hide Find, Refresh;
    forall i | 0 <= i < |w'.stack| ensures FrameOk(w'.nodes, w'.stack[i]) {
      if i < |w.stack| { FrameElsewhere(w.nodes, id, w'.nodes[id], w.stack[i]); }
    }
  }

  /** In every run, whatever the handlers write and however often the tree is replaced, every node that is being run is
   *  present, locked, and on its unchanged element. */
  lemma {:induction false} RunKeepsStack(worlds: seq<World>, actions: seq<Action>, n: nat)
    requires Run(worlds, actions) && n < |worlds|
    ensures StackOk(worlds[n])
  {
    hide Step, StackOk;
    if n == 0 {
      EmptyStackOk(worlds[0]);
    } else {
      RunKeepsStack(worlds, actions, n - 1);
      assert Step(worlds[n - 1], actions[n - 1], worlds[n - 1 + 1]);
      StepKeepsStack(worlds[n - 1], actions[n - 1], worlds[n]);
    }
  }

  lemma EmptyStackOk(w: World)
    requires w.stack == []
    ensures StackOk(w)
  {
  }

  /** After a tree refresh the nodes are those of the payload and the locked ones; a running node of the payload has the
   *  payload's other elements and body, a running node without one is as it was. */
  lemma RefreshTakesTheRest(w: World, payload: map<string, Payload>, rev: int, w': World, i: nat)
    requires StackOk(w) && Step(w, RefreshTree(payload, rev), w') && i < |w.stack|
    ensures forall id :: id in w'.nodes <==> id in payload || (id in w.nodes && w.nodes[id].content.lock)
    ensures var f := w.stack[i];
            && FrameOk(w'.nodes, f)
            && (f.node !in payload ==> w'.nodes[f.node] == w.nodes[f.node])
            && (f.node in payload ==>
                  var c, p := w'.nodes[f.node].content, payload[f.node].content;
                  Others(c.elements, f.element.id) == Others(p.elements, f.element.id) && c.body == p.body
                    && c.entry == p.entry)
  {
    var f := w.stack[i];
    assert FrameOk(w.nodes, f);
    FrameAfterRefresh(w.nodes, payload, f);
    if f.node in payload { RefreshWhileLocked(w.nodes[f.node].content, payload[f.node].content, f.element); }
  }

  // ---- leaving ----

  /** Position of the first element of that id. */
  function IndexOf(elements: seq<Element>, id: string): Option<nat> {
    if elements == [] then None
    else if elements[0].id == id then Some(0)
    else
      var k := IndexOf(elements[1..], id);
      if k.Some? then Some(k.value + 1) else None
  }

  lemma {:induction false} IndexFinds(elements: seq<Element>, id: string)
    ensures IndexOf(elements, id).Some? <==> Find(elements, id).Some?
    ensures IndexOf(elements, id).Some? ==>
              IndexOf(elements, id).value < |elements| && elements[IndexOf(elements, id).value].id == id
  {
    if elements != [] { IndexFinds(elements[1..], id); }
  }

  /** `_default_next`; None where `ids.index` raises. */
  function DefaultNext(elements: seq<Element>, id: string): Option<Option<string>> {
    var k := IndexOf(elements, id);
    if k.None? then None else Some(if k.value + 1 < |elements| then Some(elements[k.value + 1].id) else None)
  }

  /** Whatever was done to the tree meanwhile, the element after the running one is found, and leaving the handler by
   *  either way releases the lock and leaves the node equal to its serialized copy. */
  lemma LeaveReleases(w: World, notes: map<string, string>, claims: seq<string>, w': World)
    requires StackOk(w) && Step(w, Leave(notes, claims), w')
    ensures var top := w.stack[|w.stack| - 1];
            && DefaultNext(w.nodes[top.node].content.elements, top.element.id).Some?
            && !OnStack(w', top.node) && Released(w', top.node)
  {
    var top := w.stack[|w.stack| - 1];
    assert FrameOk(w.nodes, top);
    IndexFinds(w.nodes[top.node].content.elements, top.element.id);
    LeaveContent(w, notes, claims, w');
  }

  /** So does the exit by an element that is not there. */
  lemma MissReleases(w: World, id: string, elementId: string, error: string, w': World)
    requires Step(w, Miss(id, elementId, error), w')
    ensures !OnStack(w', id) && Released(w', id)
    ensures w'.nodes[id].content.body == Noted(RefreshOwn(w.nodes[id], Some(elementId)).content.body,
            map[ERROR := error])
  {
    var m := RefreshOwn(w.nodes[id], Some(elementId));
    var n', mid, last :| Leaves(m, Noted(m.content.body, map[ERROR := error]), n', mid, last) &&
                         w' == w.(nodes := w.nodes[id := n'], revision := w.revision + 2);
    assert n' == last;
  }

  predicate Released(w: World, id: string) {
    && id in w.nodes
    && var n := w.nodes[id];
       !n.content.lock && n.content.current == None && n.serialized == Some(n.content)
  }

  lemma LeaveContent(w: World, notes: map<string, string>, claims: seq<string>, w1: World)
    requires Step(w, Leave(notes, claims), w1)
    ensures var id := w.stack[|w.stack| - 1].node;
            && id in w.nodes && Released(w1, id)
            && var c := w.nodes[id].content;
               w1.nodes[id].content ==
               c.(revision := c.revision + 2, body := Closing(c.body, notes, claims), lock := false, current := None)
  {
    hide MayNote;
    var id := w.stack[|w.stack| - 1].node;
    var n', mid, last :| Leaves(w.nodes[id], Closing(w.nodes[id].content.body, notes, claims), n', mid, last) &&
                         w1 == World(w.nodes[id := n'], w.revision + 2, w.stack[..|w.stack| - 1]);
    assert n' == last;
  }

  // ---- no write is lost ----

  /** From one element to the next only notes, claims, revision and lock change, given that elements which share an id
   *  are equal. */
  lemma WritesReachNextElement(
    w: World, notes: map<string, string>, claims: seq<string>, w1: World, next: string, executed: string, w2: World)
    requires StackOk(w) && Step(w, Leave(notes, claims), w1)
    requires Step(w1, Enter(w.stack[|w.stack| - 1].node, next, executed), w2)
    requires SameUnderId(w1.nodes[w.stack[|w.stack| - 1].node].content.elements, next)
    ensures var id := w.stack[|w.stack| - 1].node;
            var c, c2 := w.nodes[id].content, w2.nodes[id].content;
            && c2.body == Noted(Closing(c.body, notes, claims), map[EXECUTED := executed])
            && c2.body.data == c.body.data && c2.body.kind == c.body.kind && c2.body.returnKey == c.body.returnKey
            && c2.elements == c.elements && c2.entry == c.entry && c2.revision == c.revision + 2
            && c2.lock && c2.current == Some(next)
  {
    var id := w.stack[|w.stack| - 1].node;
    LeaveContent(w, notes, claims, w1);
    HeadRefreshIsIdentity(w1.nodes[id], next);
  }

  /** What one step makes of the body of a node that is not written to while it is idle. */
  function BodyAfter(w: World, a: Action, id: string, b: Body): Body {
    match a
    case Enter(node, _, executed) => if node == id then Noted(b, map[EXECUTED := executed]) else b
    case Write(node, body) => if node == id then body else b
    case Miss(node, _, error) => if node == id then Noted(b, map[ERROR := error]) else b
    case Leave(notes, claims) => if w.stack != [] && w.stack[|w.stack| - 1].node == id then Closing(b, notes, claims)
        else b
    case _ => b
  }

  function BodyThrough(worlds: seq<World>, actions: seq<Action>, id: string, i: nat, n: nat): Body
    requires i <= n < |worlds| == |actions| + 1 && id in worlds[i].nodes
  {
    if n == i then worlds[i].nodes[id].content.body
    else BodyAfter(worlds[n - 1], actions[n - 1], id, BodyThrough(worlds, actions, id, i, n - 1))
  }

  predicate WritesTo(a: Action, id: string) { a.Write? && a.node == id }

  /** Running, or equal to its copy. */
  predicate Synced(w: World, id: string) {
    id in w.nodes && (OnStack(w, id) || w.nodes[id].serialized == Some(w.nodes[id].content))
  }

  lemma StepKeepsBody(w: World, a: Action, w': World, id: string)
    requires StackOk(w) && Step(w, a, w') && Quiet(a) && Synced(w, id) && (WritesTo(a, id) ==> OnStack(w, id))
    ensures Synced(w', id) && w'.nodes[id].content.body == BodyAfter(w, a, id, w.nodes[id].content.body)
  {
    hide Find, Leaves, Persists, MayNote, FrameOk, Has;
    match a {
      case Enter(node, elementId, executed) =>
        forall k | 0 <= k < |w.stack| ensures w'.stack[k] == w.stack[k] {
        }
        assert w'.stack[|w.stack|].node == node;
      case Write(_, _) =>
      case Miss(node, elementId, error) => MissReleases(w, node, elementId, error, w');
      case Leave(notes, claims) =>
        LeaveContent(w, notes, claims, w');
        forall k | 0 <= k < |w'.stack| ensures w'.stack[k] == w.stack[k] {
        }
      case Finish(node) =>
        var n' :| Persists(w.nodes[node], n') && w' == w.(nodes := w.nodes[node := n'], revision := w.revision + 2);
        PersistsBody(w.nodes[node], n');
    }
  }

  lemma PersistsBody(n: NodeState, n': NodeState)
    requires Persists(n, n')
    ensures n'.content.body == n.content.body && n'.serialized == Some(n'.content)
  {
  }

  /** Over any stretch of a run without outside edits, a node that starts equal to its copy and is written to only while
   *  it runs has at the end exactly the body that the writes and notes of the stretch make, one after the other: no
   *  refresh in between takes any of them away. Without a write its data are still the same. */
  lemma {:induction false} NoWriteIsLost(worlds: seq<World>, actions: seq<Action>, id: string, i: nat, n: nat)
    requires Run(worlds, actions) && i <= n < |worlds| && Synced(worlds[i], id)
    requires forall k :: i <= k < n ==> Quiet(actions[k]) && (WritesTo(actions[k], id) ==> OnStack(worlds[k], id))
    ensures Synced(worlds[n], id) && worlds[n].nodes[id].content.body == BodyThrough(worlds, actions, id, i, n)
    ensures (forall k :: i <= k < n ==> !WritesTo(actions[k], id)) ==>
              var b, b' := worlds[i].nodes[id].content.body, worlds[n].nodes[id].content.body;
              b'.data == b.data && b'.kind == b.kind && b'.returnKey == b.returnKey
  {
    hide Step, StackOk, Synced;
    if n > i {
      NoWriteIsLost(worlds, actions, id, i, n - 1);
      RunKeepsStack(worlds, actions, n - 1);
      assert Step(worlds[n - 1], actions[n - 1], worlds[n - 1 + 1]);
      StepKeepsBody(worlds[n - 1], actions[n - 1], worlds[n], id);
      SyncedIsThere(worlds[n], id);
    }
    SyncedIsThere(worlds[i], id);
  }

  lemma SyncedIsThere(w: World, id: string)
    requires Synced(w, id)
    ensures id in w.nodes
  {
  }

  /** What a handler writes into a node that is not running reaches that node's next run exactly when there is no copy
   *  yet, or the copy already held it: otherwise the data come from the copy persisted before. */
  lemma WriteToIdleNodeIsLost(
      w: World, id: string, body: Body, w1: World, elementId: string, executed: string, w2: World)
    requires Step(w, Write(id, body), w1) && Step(w1, Enter(id, elementId, executed), w2)
    ensures w2.nodes[id].content.body.data == body.data <==>
            w.nodes[id].serialized.None? || w.nodes[id].serialized.value.body.data == body.data
  {
  }

  // ---- revisions and history, without outside edits ----

  predicate Quiet(a: Action) { !a.RefreshTree? && !a.RefreshOne? }

  ghost predicate HistoriesOk(nodes: Nodes, first: map<string, int>) {
    nodes.Keys == first.Keys && forall id :: id in nodes ==> HistoryOk(nodes[id], first[id])
  }

  /** Entries that two histories share are equal. */
  ghost predicate Agree(h: map<int, Content>, h': map<int, Content>) { forall k :: k in h && k in h' ==> h[k] == h'[k] }

  lemma LeavesKeepsHistory(n: NodeState, noted: Body, n': NodeState, mid: NodeState, last: NodeState, first: int)
    requires HistoryOk(n, first) && Leaves(n, noted, n', mid, last)
    ensures HistoryOk(n', first) && n'.content.revision == n.content.revision + 2 && Agree(n.history, n'.history)
  {
    var a := n.(content := n.content.(body := noted));
    PersistKeepsHistory(a, mid, first);
    PersistKeepsHistory(Unlocked(mid), last, first);
    RefreshKeepsHistory(last, first, None);
    hide Persists, Refresh;
    forall k | k in n.history && k in n'.history ensures n.history[k] == n'.history[k] {
      HistoryKeys(mid, n, n', first, k);
    }
  }

  /** A revision in an older and in a newer history is in every one between. */
  lemma HistoryKeys(mid: NodeState, old0: NodeState, new0: NodeState, first: int, k: int)
    requires HistoryOk(old0, first) && HistoryOk(mid, first) && HistoryOk(new0, first)
    requires old0.content.revision <= mid.content.revision <= new0.content.revision
    requires k in old0.history && k in new0.history
    ensures k in mid.history
  {
  }

  lemma AgreeThrough(a: NodeState, b: NodeState, c: NodeState, first: int)
    requires HistoryOk(a, first) && HistoryOk(b, first) && HistoryOk(c, first)
    requires a.content.revision <= b.content.revision <= c.content.revision
    requires Agree(a.history, b.history) && Agree(b.history, c.history)
    ensures Agree(a.history, c.history)
  {
    forall k | k in a.history && k in c.history ensures a.history[k] == c.history[k] {
      HistoryKeys(b, a, c, first, k);
    }
  }

  lemma QuietStep(w: World, a: Action, w': World, first: map<string, int>)
    requires HistoriesOk(w.nodes, first) && Quiet(a) && Step(w, a, w')
    ensures HistoriesOk(w'.nodes, first)
    ensures w'.revision >= w.revision && (a.Leave? || a.Miss? || a.Finish? ==> w'.revision > w.revision)
    ensures forall id :: id in w.nodes ==>
              w'.nodes[id].content.revision >= w.nodes[id].content.revision
                && Agree(w.nodes[id].history, w'.nodes[id].history)
  {
    hide Find, Refresh, HistoryOk, Persists;
    match a {
      case Enter(id, elementId, executed) => EnterKeepsHistory(w.nodes[id], elementId, executed, first[id]);
      case Write(id, body) => WriteKeepsHistory(w.nodes[id], body, first[id]);
      case Miss(_, _, _) => MissKeepsHistories(w, a, w', first);
      case Leave(_, _) => LeaveKeepsHistories(w, a, w', first);
      case Finish(id) =>
        var n' :| Persists(w.nodes[id], n') && w' == w.(nodes := w.nodes[id := n'], revision := w.revision + 2);
        PersistKeepsHistory(w.nodes[id], n', first[id]);
    }
  }

  lemma MissKeepsHistories(w: World, a: Action, w': World, first: map<string, int>)
    requires HistoriesOk(w.nodes, first) && a.Miss? && Step(w, a, w')
    ensures HistoriesOk(w'.nodes, first) && w'.revision == w.revision + 2
    ensures forall id :: id in w.nodes ==>
              w'.nodes[id].content.revision >= w.nodes[id].content.revision
                && Agree(w.nodes[id].history, w'.nodes[id].history)
  {
    hide Find, Refresh, HistoryOk, Persists;
    var id, lockId := a.node, Some(a.elementId);
    var m := RefreshOwn(w.nodes[id], lockId);
    var noted := Noted(m.content.body, map[ERROR := a.error]);
    RefreshKeepsHistory(w.nodes[id], first[id], lockId);
    SameRevision(w.nodes[id], lockId, first[id]);
    var n', mid, last :| Leaves(m, noted, n', mid, last)
      && w' == w.(nodes := w.nodes[id := n'], revision := w.revision + 2);
    LeavesKeepsHistory(m, noted, n', mid, last, first[id]);
  }

  lemma LeaveKeepsHistories(w: World, a: Action, w': World, first: map<string, int>)
    requires HistoriesOk(w.nodes, first) && a.Leave? && Step(w, a, w')
    ensures HistoriesOk(w'.nodes, first) && w'.revision == w.revision + 2
    ensures forall id :: id in w.nodes ==>
              w'.nodes[id].content.revision >= w.nodes[id].content.revision
                && Agree(w.nodes[id].history, w'.nodes[id].history)
  {
    hide Find, Refresh, HistoryOk, Persists;
    var id := w.stack[|w.stack| - 1].node;
    var noted := Closing(w.nodes[id].content.body, a.notes, a.claims);
    var n', mid, last :| Leaves(w.nodes[id], noted, n', mid, last) &&
                         w' == World(w.nodes[id := n'], w.revision + 2, w.stack[..|w.stack| - 1]);
    LeavesKeepsHistory(w.nodes[id], noted, n', mid, last, first[id]);
  }

  lemma SameRevision(n: NodeState, lockId: Option<string>, first: int)
    requires HistoryOk(n, first)
    ensures RefreshOwn(n, lockId).content.revision == n.content.revision
  {
  }

  lemma EnterKeepsHistory(n: NodeState, elementId: string, executed: string, first: int)
    requires HistoryOk(n, first)
    ensures HistoryOk(Locked(n, elementId, executed), first) && Locked(n, elementId, executed).history == n.history
    ensures Locked(n, elementId, executed).content.revision == n.content.revision
  {
  }

  lemma WriteKeepsHistory(n: NodeState, body: Body, first: int)
    requires HistoryOk(n, first)
    ensures HistoryOk(n.(content := n.content.(body := body)), first)
  {
  }

  /** From the initialised state and without outside edits, every node's history is at all times exactly its last
   *  revisions, at most twenty, from its first one on; an entry never changes while it is there; node and tree
   *  revisions never go back. */
  lemma {:induction false} HistoriesOverRun(
      worlds: seq<World>, actions: seq<Action>, first: map<string, int>, i: nat, n: nat)
    requires Run(worlds, actions) && (forall k :: 0 <= k < |actions| ==> Quiet(actions[k])) && i <= n < |worlds|
    requires worlds[0].nodes.Keys == first.Keys
    requires forall id :: id in first ==> worlds[0].nodes[id] == Initialised(worlds[0].nodes[id].content)
                                          && first[id] == worlds[0].nodes[id].content.revision
    ensures HistoriesOk(worlds[n].nodes, first) && HistoriesOk(worlds[i].nodes, first)
    ensures worlds[i].revision <= worlds[n].revision
    ensures forall id :: id in first ==> worlds[i].nodes[id].content.revision <= worlds[n].nodes[id].content.revision
                                         && Agree(worlds[i].nodes[id].history, worlds[n].nodes[id].history)
    decreases n - i, n
  {
    hide Step, HistoryOk;
    if n == 0 {
      forall id | id in first ensures HistoryOk(worlds[0].nodes[id], first[id]) {
        InitialHistory(worlds[0].nodes[id].content);
      }
    } else if i == n {
      HistoriesOverRun(worlds, actions, first, n - 1, n - 1);
      assert Step(worlds[n - 1], actions[n - 1], worlds[n - 1 + 1]);
      QuietStep(worlds[n - 1], actions[n - 1], worlds[n], first);
    } else {
      HistoriesOverRun(worlds, actions, first, i, n - 1);
      assert Step(worlds[n - 1], actions[n - 1], worlds[n - 1 + 1]);
      QuietStep(worlds[n - 1], actions[n - 1], worlds[n], first);
      forall id | id in first ensures Agree(worlds[i].nodes[id].history, worlds[n].nodes[id].history) {
        AgreeThrough(worlds[i].nodes[id], worlds[n - 1].nodes[id], worlds[n].nodes[id], first[id]);
      }
    }
  }
}
