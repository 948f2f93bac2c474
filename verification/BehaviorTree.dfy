/** The tree and its nodes as the objects that are updated in place. */
module BehaviorTrees {
  import opened Basics
  import opened Text
  import opened BehaviorState
  import opened BehaviorRuns

  class BehaviorNode {
    var revision: int
    var entry: string
    var elements: seq<Element>
    var body: Body
    var current: Option<string>
    var lock: bool
    var serialized: Option<Content>
    var history: map<int, Content>

    ghost function State(): NodeState
      reads this
    {
      NodeState(Content(revision, entry, elements, body, current, lock), serialized, history)
    }

    constructor (p: Payload)
      ensures State() == NewNode(p)
    {
      var c := p.content;
      revision, entry, elements, body, current, lock := c.revision, c.entry, c.elements, c.body, c.current, c.lock;
      serialized, history := p.serialized, if p.history.Some? then p.history.value else map[];
    }

    method RefreshFromSerialized(payload: Payload, lockId: Option<string>)
      modifies this
      ensures State() == RefreshNode(old(State()), payload, lockId)
    {
      var locked := if Given(lockId) then lockId else if lock then current else None;
      if Given(locked) {
        var lockedElement := Find(elements, locked.value);
        FindHas(elements, locked.value);
        CopyFrom(payload, Some(locked.value), lockedElement);
      } else {
        CopyFrom(payload, None, None);
      }
    }

    /** `_copy_from`. */
    method CopyFrom(payload: Payload, skip: Option<string>, lockedElement: Option<Element>)
      requires lockedElement.Some? ==> skip == Some(lockedElement.value.id)
      modifies this
      ensures serialized == if payload.serialized.Some? then payload.serialized else old(serialized)
      ensures history == if payload.history.Some? then payload.history.value else old(history)
      ensures var c := payload.content;
              && revision == c.revision && entry == c.entry && body == c.body
              && current == (if old(lock) then old(current) else c.current)
              && (skip.None? ==> elements == c.elements && lock == (old(lock) || c.lock))
              && (skip.Some? ==> elements == Merge(c.elements, lockedElement) && lock == old(lock))
    {
      var refreshed := payload.content;
      entry, body := refreshed.entry, refreshed.body;
      if payload.serialized.Some? { serialized := payload.serialized; }
      if payload.history.Some? { history := payload.history.value; }
      revision := refreshed.revision;
      current := if !lock then refreshed.current else current;
      if skip.None? {
        elements := refreshed.elements;
        lock := if !lock then refreshed.lock else lock;
        return;
      }
      elements := MergeElements(refreshed.elements, lockedElement);
    }

    /** `refresh_node_from_meta`, on the node. */
    method RefreshFromMeta(lockId: Option<string>)
      modifies this
      ensures State() == RefreshOwn(old(State()), lockId)
    {
      if serialized.Some? {
        RefreshFromSerialized(Stripped(serialized.value), lockId);
      }
    }

    method Begin(elementId: string, executed: string) returns (element: Option<Element>)
      requires elementId != ""
      modifies this
      ensures element == Find(RefreshOwn(old(State()), Some(elementId)).content.elements, elementId)
      ensures State() == if element.Some? then Locked(old(State()), elementId, executed)
              else RefreshOwn(old(State()), Some(elementId))
    {
      RefreshFromMeta(Some(elementId));
      hide RefreshOwn, Find;
      element := Find(elements, elementId);
      if element.Some? {
        current, lock := Some(elementId), true;
        body := body.(notes := body.notes + map[EXECUTED := executed]);
      }
    }

    /** What the handler's result or exception leaves is noted and persisted, the lock released, and the state persisted
     *  and refreshed again. */
    method End(notes: map<string, string>, claims: seq<string>) returns (ghost mid: NodeState, ghost last: NodeState)
      modifies this
      ensures Leaves(old(State()), Closing(old(State()).content.body, notes, claims), State(), mid, last)
    {
      hide Persists, RefreshOwn;
      body := body.(notes := body.notes + notes, claims := claims);
      Persist();
      mid := State();
      lock, current := false, None;
      assert State() == Unlocked(mid);
      Persist();
      last := State();
      RefreshFromMeta(None);
    }

    /** `persist_node_to_meta`, on the node. */
    method Persist()
      modifies this
      ensures Persists(old(State()), State())
    {
      revision := revision + 1;
      var c := Content(revision, entry, elements, body, current, lock);
      serialized := Some(c);
      var full := history[revision := c];
      var trimmed := Trim(full);
      history := trimmed;
    }
  }

  /** The merge loop of `_copy_from`. */
  method MergeElements(items: seq<Element>, lockedElement: Option<Element>) returns (merged: seq<Element>)
    ensures merged == Merge(items, lockedElement)
  {
    merged := [];
    var keptLocked := false;
    for i := 0 to |items|
      invariant |merged| == i
      invariant lockedElement.None? ==> merged == items[..i]
      invariant lockedElement.Some? ==> merged == Replaced(items, lockedElement.value)[..i]
      invariant keptLocked <==> lockedElement.Some? && Has(items[..i], lockedElement.value.id)
    {
      if lockedElement.Some? { HasOneMore(items, i, lockedElement.value.id); }
      if lockedElement.Some? && items[i].id == lockedElement.value.id {
        merged := merged + [lockedElement.value];
        keptLocked := true;
      } else {
        merged := merged + [items[i]];
      }
    }
    assert items[..|items|] == items;
    if lockedElement.Some? && !keptLocked {
      merged := merged + [lockedElement.value];
    }
  }

  lemma HasOneMore(elements: seq<Element>, i: nat, id: string)
    requires i < |elements|
    ensures Has(elements[..i + 1], id) <==> Has(elements[..i], id) || elements[i].id == id
  {
    if Has(elements[..i + 1], id) && elements[i].id != id {
      var k :| 0 <= k < i + 1 && elements[..i + 1][k].id == id;
      assert elements[..i][k].id == id;
    }
    if Has(elements[..i], id) {
      var k :| 0 <= k < i && elements[..i][k].id == id;
      assert elements[..i + 1][k].id == id;
    }
    if elements[i].id == id { assert elements[..i + 1][i].id == id; }
  }

  /** Dropping the lowest keys until at most HISTORY are left. */
  method Trim(h: map<int, Content>) returns (kept: map<int, Content>)
    ensures KeepsNewest(h, kept)
  {
    kept := h;
    while |kept| > HISTORY
      invariant kept.Keys <= h.Keys && forall k :: k in kept ==> kept[k] == h[k]
      invariant |kept| >= if |h| <= HISTORY then |h| else HISTORY
      invariant forall k, d :: k in kept && d in h && d !in kept ==> d < k
      decreases |kept|
    {
      var oldest := Lowest(kept);
      var fewer := kept - {oldest};
      assert fewer.Keys == kept.Keys - {oldest};
      assert |fewer| == |fewer.Keys| && |kept| == |kept.Keys|;
      kept := fewer;
    }
    assert |kept| == |kept.Keys| && |h| == |h.Keys|;
    SubsetSize(kept.Keys, h.Keys);
  }

  method Lowest(h: map<int, Content>) returns (low: int)
    requires h != map[]
    ensures low in h && forall k :: k in h ==> low <= k
  {
    var left: set<int> := h.Keys;
    assert h.Keys == {} ==> h == map[];
    SomeKey(left);
    low :| low in left;
    left := left - {low};
    while left != {}
      invariant left <= h.Keys && low in h && forall k :: k in h && k !in left ==> low <= k
      decreases |left|
    {
      SomeKey(left);
      var k :| k in left;
      if k < low { low := k; }
      left := left - {k};
    }
  }

  lemma SomeKey(s: set<int>)
    requires s != {}
    ensures exists k: int :: k in s
  {
    assert (forall k: int :: k !in s) ==> s == {};
  }

  class BehaviorTree {
    var nodes: map<string, BehaviorNode>
    var revision: int

    ghost predicate Valid()
      reads `nodes
    {
      forall a, b :: a in nodes && b in nodes && a != b ==> nodes[a] != nodes[b]
    }

    ghost function View(): Nodes
      reads `nodes, nodes.Values
    {
      map id | id in nodes :: nodes[id].State()
    }

    /** When only the object of one node has changed, the view has changed there alone. */
    twostate lemma OneNodeChanged(id: string)
      requires old(Valid()) && nodes == old(nodes) && id in nodes
      requires forall k :: k in nodes ==> allocated(nodes[k]) && old(allocated(nodes[k]))
      requires forall k :: k in nodes && nodes[k] != nodes[id] ==> unchanged(nodes[k])
      ensures Valid() && old(View())[id] == old(nodes[id].State()) && View() == old(View())[id := nodes[id].State()]
      ensures View()[id] == nodes[id].State()
    {
    }

    constructor ()
      ensures Valid() && nodes == map[] && revision == 0
    {
      nodes, revision := map[], 0;
    }

    /** The nodes, on a payload of the nodes' contents. */
    method RefreshFromSerialized(payload: map<string, Payload>, treeRevision: int)
      requires Valid()
      modifies this, nodes.Values
      ensures Valid() && revision == treeRevision && View() == RefreshNodes(old(View()), payload)
    {
      hide *;
      ghost var view := View();
      TakePayload(payload);
      DropStale(payload.Keys);
      RemainingIsRefreshed(view, payload);
      revision := treeRevision;
    }

    /** Known nodes are refreshed, new ones come in. */
    method TakePayload(payload: map<string, Payload>)
      requires Valid()
      modifies `nodes, nodes.Values
      ensures Valid() && View() == Halfway(old(View()), payload, {})
    {
      hide Taken;
      ghost var view := View();
      var left := payload.Keys;
      assert View() == Halfway(view, payload, left);
      while left != {}
        invariant left <= payload.Keys && Valid()
        invariant forall id :: id in nodes ==> nodes[id] in old(nodes.Values) || fresh(nodes[id])
        invariant View() == Halfway(view, payload, left)
        decreases |left|
      {
        var id :| id in left;
        ghost var before := View();
        TakeOne(id, payload[id]);
        HalfwayStep(view, payload, left, id, before);
        left := left - {id};
      }
    }

    method TakeOne(id: string, payload: Payload)
      requires Valid()
      modifies `nodes, if id in nodes then {nodes[id]} else {}
      ensures Valid() && forall k :: k in old(nodes) ==> k in nodes && nodes[k] == old(nodes)[k]
      ensures forall k :: k in nodes ==> k in old(nodes) || fresh(nodes[k])
      ensures View() == old(View())[id := Taken(old(View()), id, payload)]
    {
      hide Refresh;
      if id in nodes {
        nodes[id].RefreshFromSerialized(Stripped(payload.content), if nodes[id].lock then nodes[id].current else None);
      } else {
        var node := new BehaviorNode(payload);
        nodes := nodes[id := node];
      }
    }

    /** Nodes outside the payload go, unless they are locked. */
    method DropStale(keep: set<string>)
      requires Valid()
      modifies `nodes
      ensures Valid() && View() == Remaining(old(View()), keep)
    {
      hide *;
      var stale := nodes.Keys - keep;
      while stale != {}
        invariant stale <= old(nodes).Keys - keep
        invariant forall id :: id in nodes <==> id in old(nodes) && (id in keep || id in stale || old(nodes)[id].lock)
        invariant forall id :: id in nodes ==> nodes[id] == old(nodes)[id]
        decreases |stale|
      {
        var id :| id in stale;
        stale := stale - {id};
        if nodes[id].lock {
          continue;
        }
        nodes := nodes - {id};
      }
      StaleDropped(keep);
    }

    twostate lemma StaleDropped(keep: set<string>)
      requires old(Valid())
      requires forall id :: id in old(nodes) ==> unchanged(old(nodes)[id])
      requires forall id :: id in nodes <==> id in old(nodes) && (id in keep || old(nodes)[id].lock)
      requires forall id :: id in nodes ==> nodes[id] == old(nodes)[id]
      ensures Valid() && View() == Remaining(old(View()), keep)
    {
    }

    /** The head of the loop of `run_node`, up to the handler call; None where the element is not there. */
    method BeginElement(id: string, elementId: string, executed: string) returns (element: Option<Element>)
      requires Valid() && id in nodes && elementId != ""
      modifies nodes[id]
      ensures Valid()
      ensures element == Find(RefreshOwn(old(View())[id], Some(elementId)).content.elements, elementId)
      ensures View() == old(View())[id := if element.Some? then Locked(old(View())[id], elementId, executed)
                                          else RefreshOwn(old(View())[id], Some(elementId))]
    {
      hide *;
      element := nodes[id].Begin(elementId, executed);
      OneNodeChanged(id);
    }

    /** The end of the loop body, after a result or an exception. */
    method EndElement(id: string, notes: map<string, string>, claims: seq<string>)
      returns (ghost mid: NodeState, ghost last: NodeState)
      requires Valid() && id in nodes
      modifies `revision, nodes[id]
      ensures Valid() && revision == old(revision) + 2
      ensures Leaves(old(View())[id], Closing(old(View())[id].content.body, notes, claims), View()[id], mid, last)
      ensures View() == old(View())[id := View()[id]]
    {
      hide *;
      mid, last := nodes[id].End(notes, claims);
      revision := revision + 2;
      OneNodeChanged(id);
    }
  }

  /** The nodes while the payload nodes in `left` are still to come. */
  ghost function Halfway(view: Nodes, payload: map<string, Payload>, left: set<string>): Nodes {
    map id | id in view.Keys + (payload.Keys - left) ::
      if id in payload && id !in left then Taken(view, id, payload[id]) else view[id]
  }

  ghost function Remaining(view: Nodes, keep: set<string>): Nodes {
    map id | id in view && (id in keep || view[id].content.lock) :: view[id]
  }

  lemma RemainingIsRefreshed(view: Nodes, payload: map<string, Payload>)
    ensures Remaining(Halfway(view, payload, {}), payload.Keys) == RefreshNodes(view, payload)
  {
    hide Taken;
  }

  lemma HalfwayStep(view: Nodes, payload: map<string, Payload>, left: set<string>, id: string, before: Nodes)
    requires id in left && left <= payload.Keys && before == Halfway(view, payload, left)
    ensures Halfway(view, payload, left - {id}) == before[id := Taken(before, id, payload[id])]
  {
  }

  /** `_default_next`, for an element that is there. */
  method NextAfter(elements: seq<Element>, id: string) returns (next: Option<string>)
    requires Has(elements, id)
    ensures DefaultNext(elements, id) == Some(next)
  {
    FindHas(elements, id);
    IndexFinds(elements, id);
    var index := IndexOf(elements, id).value;
    if index + 1 >= |elements| {
      return None;
    }
    return Some(elements[index + 1].id);
  }
}
