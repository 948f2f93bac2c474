/** Behavior nodes: refreshing from a payload, persisting, and the revision history. */
module BehaviorState {
  import opened Basics
  import opened Text

  datatype Element = Element(id: string, handler: string, transitions: map<string, string>)

  /** The rest of a node: data, notes in meta, claims and so on, as texts. */
  datatype Body = Body(kind: string, data: map<string, string>, notes: map<string, string>, claims: seq<string>,
    returnKey: Option<string>)

  /** What the serialized form of a node holds. */
  datatype Content = Content(revision: int, entry: string, elements: seq<Element>, body: Body, current: Option<string>,
    lock: bool)

  /** A node with the two meta entries that the serialized form leaves out. */
  datatype NodeState = NodeState(content: Content, serialized: Option<Content>, history: map<int, Content>)

  /** What a node is refreshed from; its meta may carry the two entries or not. */
  datatype Payload = Payload(content: Content, serialized: Option<Content>, history: Option<map<int, Content>>)

  function NewNode(p: Payload): NodeState {
    NodeState(p.content, p.serialized, if p.history.Some? then p.history.value else map[])
  }

  /** What `to_serialized_dict` makes of a node. */
  function Stripped(c: Content): Payload { Payload(c, None, None) }

  // ---- refreshing ----

  /** `element`: the first element of that id. */
  function Find(elements: seq<Element>, id: string): Option<Element> {
    if elements == [] then None else if elements[0].id == id then Some(elements[0]) else Find(elements[1..], id)
  }

  predicate Has(elements: seq<Element>, id: string) { exists i :: 0 <= i < |elements| && elements[i].id == id }

  /** The payload's elements, with the kept one in the place of those with its id. */
  function Replaced(elements: seq<Element>, kept: Element): seq<Element> {
    seq(|elements|, i requires 0 <= i < |elements| => if elements[i].id == kept.id then kept else elements[i])
  }

  function Merge(elements: seq<Element>, kept: Option<Element>): seq<Element> {
    if kept.None? then elements
    else Replaced(elements, kept.value) + if Has(elements, kept.value.id) then [] else [kept.value]
  }

  predicate Given(id: Option<string>) { id.Some? && id.value != "" }

  function LockedId(c: Content, lockId: Option<string>): Option<string> {
    if Given(lockId) then lockId else if c.lock then c.current else None
  }

  /** `refresh_from_serialized`. */
  function Refresh(c: Content, payload: Content, lockId: Option<string>): Content {
    var locked := LockedId(c, lockId);
    var next := payload.(current := if c.lock then c.current else payload.current);
    if Given(locked) then next.(elements := Merge(payload.elements, Find(c.elements, locked.value)), lock := c.lock)
    else next.(lock := c.lock || payload.lock)
  }

  /** The node with its meta: an entry that the payload carries replaces the own one. */
  function RefreshNode(n: NodeState, payload: Payload, lockId: Option<string>): NodeState {
    NodeState(Refresh(n.content, payload.content, lockId),
              if payload.serialized.Some? then payload.serialized else n.serialized,
              if payload.history.Some? then payload.history.value else n.history)
  }

  /** `refresh_node_from_meta`. */
  function RefreshOwn(n: NodeState, lockId: Option<string>): NodeState {
    if n.serialized.None? then n else RefreshNode(n, Stripped(n.serialized.value), lockId)
  }

  lemma {:induction false} FindReplaced(elements: seq<Element>, kept: Element)
    ensures Find(Replaced(elements, kept), kept.id) == if Has(elements, kept.id) then Some(kept) else None
  {
    if elements != [] {
      var rest := elements[1..];
      assert Replaced(elements, kept)[1..] == Replaced(rest, kept);
      FindReplaced(rest, kept);
      assert Has(elements, kept.id) <==> elements[0].id == kept.id || Has(rest, kept.id) by {
        if Has(rest, kept.id) {
          var i :| 0 <= i < |rest| && rest[i].id == kept.id;
          assert elements[i + 1].id == kept.id;
        }
        if Has(elements, kept.id) && elements[0].id != kept.id {
          var i :| 0 <= i < |elements| && elements[i].id == kept.id;
          assert rest[i - 1].id == kept.id;
        }
      }
    }
  }

  lemma {:induction false} FindAppend(a: seq<Element>, b: seq<Element>, id: string)
    ensures Find(a + b, id) == if Find(a, id).Some? then Find(a, id) else Find(b, id)
  {
    if a == [] {
      assert a + b == b;
    } else {
      assert (a + b)[1..] == a[1..] + b;
      FindAppend(a[1..], b, id);
    }
  }

  lemma {:induction false} FindHas(elements: seq<Element>, id: string)
    ensures Find(elements, id).Some? <==> Has(elements, id)
    ensures Find(elements, id).Some? ==> Find(elements, id).value.id == id && Find(elements, id).value in elements
  {
    if elements != [] && elements[0].id != id {
      FindHas(elements[1..], id);
      if Has(elements, id) {
        var i :| 0 <= i < |elements| && elements[i].id == id;
        assert elements[1..][i - 1].id == id;
      }
      if Has(elements[1..], id) {
        var i :| 0 <= i < |elements| - 1 && elements[1..][i].id == id;
        assert elements[i + 1].id == id;
      }
    }
  }

  function Others(elements: seq<Element>, id: string): seq<Element> {
    if elements == [] then [] else (if elements[0].id == id then [] else [elements[0]]) + Others(elements[1..], id)
  }

  lemma {:induction false} OthersAppend(a: seq<Element>, b: seq<Element>, id: string)
    ensures Others(a + b, id) == Others(a, id) + Others(b, id)
  {
    if a == [] {
      assert a + b == b;
    } else {
      assert (a + b)[1..] == a[1..] + b;
      OthersAppend(a[1..], b, id);
    }
  }

  lemma {:induction false} OthersReplaced(elements: seq<Element>, kept: Element)
    ensures Others(Replaced(elements, kept), kept.id) == Others(elements, kept.id)
  {
    if elements != [] {
      assert Replaced(elements, kept)[1..] == Replaced(elements[1..], kept);
      OthersReplaced(elements[1..], kept);
    }
  }

  /** After a merge the kept element is the one found, and all others are the payload's, in its order. */
  lemma MergeKeeps(elements: seq<Element>, kept: Element)
    ensures Find(Merge(elements, Some(kept)), kept.id) == Some(kept)
    ensures Others(Merge(elements, Some(kept)), kept.id) == Others(elements, kept.id)
  {
    var tail := if Has(elements, kept.id) then [] else [kept];
    FindReplaced(elements, kept);
    FindAppend(Replaced(elements, kept), tail, kept.id);
    OthersAppend(Replaced(elements, kept), tail, kept.id);
    OthersReplaced(elements, kept);
    assert [kept][1..] == [];
    assert Others(elements, kept.id) + [] == Others(elements, kept.id);
  }

  /** A locked node keeps its lock, its current element id and that element; the rest comes from the payload. */
  lemma RefreshWhileLocked(c: Content, payload: Content, e: Element)
    requires c.lock && c.current == Some(e.id) && e.id != "" && Find(c.elements, e.id) == Some(e)
    ensures var c' := Refresh(c, payload, None);
            && c'.lock && c'.current == c.current && Find(c'.elements, e.id) == Some(e)
            && Others(c'.elements, e.id) == Others(payload.elements, e.id)
            && c'.body == payload.body && c'.entry == payload.entry && c'.revision == payload.revision
    ensures Refresh(c, payload, c.current) == Refresh(c, payload, None)
  {
    MergeKeeps(payload.elements, e);
  }

  // ---- the head refresh ----

  /** Every element of this id is the first of that id. */
  predicate SameUnderId(elements: seq<Element>, id: string) {
    forall i :: 0 <= i < |elements| && elements[i].id == id ==> Some(elements[i]) == Find(elements, id)
  }

  /** With a node equal to its own serialized copy, the refresh at the loop head changes nothing exactly when the
   *  elements that share the locked id are equal. */
  lemma HeadRefreshIsIdentity(n: NodeState, id: string)
    requires n.serialized == Some(n.content) && id != "" && !n.content.lock
    ensures RefreshOwn(n, Some(id)) == n <==> SameUnderId(n.content.elements, id)
  {
    var c := n.content;
    var kept := Find(c.elements, id);
    FindHas(c.elements, id);
    if kept.Some? {
      var r := Replaced(c.elements, kept.value);
      assert r + [] == r;
      if SameUnderId(c.elements, id) {
        assert r == c.elements;
      }
      if r == c.elements {
        forall i | 0 <= i < |c.elements| && c.elements[i].id == id ensures Some(c.elements[i]) == Find(c.elements, id) {
          assert r[i] == kept.value;
        }
      }
    } else {
      assert forall i :: 0 <= i < |c.elements| ==> c.elements[i].id != id;
    }
  }

  /** What an edit before the run wrote outside the entry element is gone after the first head refresh. */
  lemma FirstRefreshDropsEdits(n: NodeState, id: string)
    requires n.serialized.Some? && id != "" && !n.content.lock
    ensures var c, s := RefreshOwn(n, Some(id)).content, n.serialized.value;
            c.body == s.body && c.entry == s.entry && c.revision == s.revision
              && Others(c.elements, id) == Others(s.elements, id)
  {
    var kept := Find(n.content.elements, id);
    FindHas(n.content.elements, id);
    if kept.Some? { MergeKeeps(n.serialized.value.elements, kept.value); }
  }

  // ---- persisting ----

  const HISTORY: nat := 20

  /** The keys to keep: the newest, at most HISTORY of them. */
  ghost predicate KeepsNewest(h: map<int, Content>, h': map<int, Content>) {
    && h'.Keys <= h.Keys && (forall k :: k in h' ==> h'[k] == h[k])
    && |h'| == (if |h| <= HISTORY then |h| else HISTORY)
    && (forall k, d :: k in h' && d in h && d !in h' ==> d < k)
  }

  /** One persist step of a node, whatever its history. */
  ghost predicate Persists(n: NodeState, n': NodeState) {
    var c := n.content.(revision := n.content.revision + 1);
    n'.content == c && n'.serialized == Some(c) && KeepsNewest(n.history[c.revision := c], n'.history)
  }

  /** The history holds exactly the last revisions, at most HISTORY of them, from `first` on, without a gap, the newest
   *  being the serialized copy. */
  ghost predicate HistoryOk(n: NodeState, first: int) {
    && n.serialized.Some? && n.content.revision == n.serialized.value.revision >= first
    && (forall k :: k in n.history <==> first <= k <= n.content.revision && n.content.revision - HISTORY < k)
    && n.history[n.content.revision] == n.serialized.value
    && forall k :: k in n.history ==> n.history[k].revision == k
  }

  function Span(lo: int, hi: int): (s: set<int>)
    requires lo <= hi
    ensures |s| == hi - lo && forall k :: k in s <==> lo <= k < hi
    decreases hi - lo
  {
    if lo == hi then {} else Span(lo, hi - 1) + {hi - 1}
  }

  /** A persist keeps the history exact, drops nothing but the oldest revision, and takes the revision one up. */
  lemma PersistKeepsHistory(n: NodeState, n': NodeState, first: int)
    requires HistoryOk(n, first) && Persists(n, n')
    ensures HistoryOk(n', first) && n'.content.revision == n.content.revision + 1
    ensures forall k :: k in n'.history && k in n.history ==> n'.history[k] == n.history[k]
  {
    var r := n.content.revision + 1;
    var c := n.content.(revision := r);
    var h := n.history[r := c];
    var low := if first > r - HISTORY then first else r - HISTORY;
    assert h.Keys == Span(low, r + 1) by {
      forall k ensures k in h.Keys <==> low <= k < r + 1 {
      }
    }
    var low' := if first > r - HISTORY + 1 then first else r - HISTORY + 1;
    NewestAre(h, n'.history, low, r + 1);
  }

  lemma NewestAre(h: map<int, Content>, h': map<int, Content>, lo: int, hi: int)
    requires lo <= hi && h.Keys == Span(lo, hi) && hi - lo <= HISTORY + 1 && KeepsNewest(h, h')
    ensures forall k :: k in h' <==> lo <= k < hi && hi - HISTORY <= k
  {
    assert |h| == |h.Keys| && |h'| == |h'.Keys|;
    if hi - lo <= HISTORY {
      SubsetEqual(h'.Keys, h.Keys);
    } else {
      if lo in h' {
        forall d | d in h.Keys ensures d in h'.Keys {
          assert d in h' || d < lo;
        }
        SubsetSize(h.Keys, h'.Keys);
        assert false;
      }
      SubsetEqual(h'.Keys, Span(lo + 1, hi));
    }
  }

  /** Refreshing from the own copy, which carries the same revision, keeps the history exact. */
  lemma RefreshKeepsHistory(n: NodeState, first: int, lockId: Option<string>)
    requires HistoryOk(n, first)
    ensures HistoryOk(RefreshOwn(n, lockId), first) && RefreshOwn(n, lockId).history == n.history
  {
  }

  /** `initialize_behavior_tree_runtime_state`, for one node. */
  function Initialised(c: Content): NodeState { NodeState(c, Some(c), map[c.revision := c]) }

  lemma InitialHistory(c: Content)
    ensures HistoryOk(Initialised(c), c.revision)
  {
  }
}
