/** The variables of a workflow context: nested dictionaries, shared by reference. */
module WorkflowStore {
  import opened Basics
  import opened Text

  /** Values that are not dictionaries. Other stands for the rest, by identity. */
  datatype Leaf = Null | Bool(b: bool) | Int(n: int) | Float(text: string) | Str(s: string) | Other(id: nat)

  /** A dictionary is known by its place in the heap, so two names can hold the same one. */
  datatype Val = Leaf(leaf: Leaf) | Dict(at: nat)

  predicate Fits(v: Val, n: nat) { v.Dict? ==> v.at < n }

  predicate Closed(h: seq<map<string, Val>>) {
    |h| > 0 && forall i, k :: 0 <= i < |h| && k in h[i] ==> Fits(h[i][k], |h|)
  }

  /** h[0] holds the variables themselves. */
  type Heap = h: seq<map<string, Val>> | Closed(h) witness [map[]]

  /** Settings, and attribute or index access into a leaf; None where there is no such attribute. */
  datatype Env = Env(settings: map<string, Leaf>, attr: (Leaf, string) -> Option<Leaf>)

  // ---- paths ----

  function PathOf(name: string): (path: seq<string>)
    ensures path != []
  {
    SplitDots("", name)
  }

  // ---- set ----

  /** Dictionary `at` with key p holding a dictionary: the one that is there, an empty one, or one that wraps the
   *  value there. */
  function Enter(h: Heap, at: nat, p: string): (r: (Heap, nat))
    requires at < |h|
    ensures |h| <= |r.0| && r.1 < |r.0| && r.0[at].Keys == h[at].Keys + {p} && r.0[at][p] == Dict(r.1)
  {
    if p in h[at] && h[at][p].Dict? then (h, h[at][p].at)
    else
      var inner := if p in h[at] then map["_value" := h[at][p]] else map[];
      (h[at := h[at][p := Dict(|h|)]] + [inner], |h|)
  }

  function SetPath(h: Heap, at: nat, path: seq<string>, v: Val): (r: Heap)
    requires at < |h| && path != [] && Fits(v, |h|)
    ensures |h| <= |r|
    decreases |path|
  {
    if |path| == 1 then h[at := h[at][path[0] := v]]
    else
      var (h', next) := Enter(h, at, path[0]);
      SetPath(h', next, path[1..], v)
  }

  // ---- get ----

  function GetPath(env: Env, h: Heap, v: Val, path: seq<string>): (r: Val)
    requires Fits(v, |h|)
    ensures Fits(r, |h|)
    decreases |path|
  {
    if path == [] then v
    else if v.Dict? then
      GetPath(env, h, if path[0] in h[v.at] then h[v.at][path[0]] else Leaf(Null), path[1..])
    else
      var a := env.attr(v.leaf, path[0]);
      if a.None? then Leaf(Null) else GetPath(env, h, Leaf(a.value), path[1..])
  }

  const SETTINGS: string := "settings."

  function Setting(env: Env, name: string): Leaf
    requires StartsWith(name, SETTINGS)
  {
    var key := name[|SETTINGS|..];
    if key in env.settings then env.settings[key] else Null
  }

  /** `ctx.get("$" + name)`. */
  function Get(env: Env, h: Heap, name: string): (r: Val)
    ensures Fits(r, |h|)
  {
    if StartsWith(name, SETTINGS) then Leaf(Setting(env, name))
    else GetPath(env, h, Dict(0), PathOf(name))
  }

  class WorkflowContext {
    var heap: Heap

    constructor ()
      ensures heap == [map[]]
    {
      heap := [map[]];
    }

    /** `set("$" + name, value)`. */
    method Set(name: string, value: Val)
      requires Fits(value, |heap|)
      modifies this
      ensures heap == SetPath(old(heap), 0, PathOf(name), value)
    {
      var path, at: nat, i := PathOf(name), 0, 0;
      while i < |path| - 1
        invariant i < |path| && at < |heap| && |old(heap)| <= |heap|
        invariant SetPath(heap, at, path[i..], value) == SetPath(old(heap), 0, path, value)
      {
        var p := path[i];
        assert path[i..][1..] == path[i + 1..];
        ghost var before := heap;
        if p !in heap[at] {
          heap := heap[at := heap[at][p := Dict(|heap|)]] + [map[]];
        } else if heap[at][p].Leaf? {
          heap := heap[at := heap[at][p := Dict(|heap|)]] + [map["_value" := heap[at][p]]];
        }
        assert heap == Enter(before, at, p).0;
        at := heap[at][p].at;
        i := i + 1;
      }
      heap := heap[at := heap[at][path[i] := value]];
    }

    /** `get("$" + name)`. */
    method Read(env: Env, name: string) returns (r: Val)
      ensures r == Get(env, heap, name)
    {
      if StartsWith(name, SETTINGS) {
        var key := name[|SETTINGS|..];
        return Leaf(if key in env.settings then env.settings[key] else Null);
      }
      var path := PathOf(name);
      r := Dict(0);
      for i := 0 to |path|
        invariant Fits(r, |heap|) && GetPath(env, heap, r, path[i..]) == GetPath(env, heap, Dict(0), path)
      {
        assert path[i..][1..] == path[i + 1..];
        if r.Dict? {
          r := if path[i] in heap[r.at] then heap[r.at][path[i]] else Leaf(Null);
        } else {
          var a := env.attr(r.leaf, path[i]);
          if a.None? {
            return Leaf(Null);
          }
          r := Leaf(a.value);
        }
      }
    }
  }

  // ---- what is read after a set ----

  /** The dictionary that the set will finally assign into. */
  function Target(h: Heap, at: nat, path: seq<string>): nat
    requires at < |h| && path != []
    decreases |path|
  {
    if |path| == 1 then at
    else
      var (h', next) := Enter(h, at, path[0]);
      Target(h', next, path[1..])
  }

  function Last(path: seq<string>): string
    requires path != []
  {
    path[|path| - 1]
  }

  /** What is left of the path when its walk passes key `last` of dictionary `target` for the first time: nothing,
   *  unless dictionaries hold each other in a circle. */
  function Beyond(h: Heap, at: nat, path: seq<string>, target: nat, last: string): (rest: seq<string>)
    requires at < |h| && path != []
    ensures forall p :: p in rest ==> p in path
    decreases |path|
  {
    if |path| == 1 then []
    else if at == target && path[0] == last then path[1..]
    else
      var (h', next) := Enter(h, at, path[0]);
      Beyond(h', next, path[1..], target, last)
  }

  /** The walk to the assignment passes the assigned key itself. */
  predicate Circles(h: Heap, path: seq<string>)
    requires path != []
  {
    Beyond(h, 0, path, Target(h, 0, path), Last(path)) != []
  }

  /** A set keeps the dictionary links that are there, other than the assigned one. */
  lemma {:induction false} SetKeepsLinks(h: Heap, at: nat, path: seq<string>, v: Val, i: nat, k: string)
    requires at < |h| && path != [] && Fits(v, |h|) && i < |h| && k in h[i] && h[i][k].Dict?
    requires !(i == Target(h, at, path) && k == Last(path))
    ensures k in SetPath(h, at, path, v)[i] && SetPath(h, at, path, v)[i][k] == h[i][k]
    decreases |path|
  {
    if |path| > 1 {
      var (h', next) := Enter(h, at, path[0]);
      assert Last(path[1..]) == Last(path);
      SetKeepsLinks(h', next, path[1..], v, i, k);
    }
  }

  lemma {:induction false} TargetHolds(h: Heap, at: nat, path: seq<string>, v: Val)
    requires at < |h| && path != [] && Fits(v, |h|)
    ensures var r, target := SetPath(h, at, path, v), Target(h, at, path);
            target < |r| && Last(path) in r[target] && r[target][Last(path)] == v
    decreases |path|
  {
    if |path| > 1 {
      var (h', next) := Enter(h, at, path[0]);
      assert Last(path[1..]) == Last(path);
      TargetHolds(h', next, path[1..], v);
    }
  }

  /** The path that was set leads to the new value at its first passing of the assigned key, and on from there. */
  lemma {:induction false} WalkAfterSet(env: Env, h: Heap, at: nat, path: seq<string>, v: Val)
    requires at < |h| && path != [] && Fits(v, |h|)
    ensures var r := SetPath(h, at, path, v);
            GetPath(env, r, Dict(at), path) == GetPath(env, r, v, Beyond(h, at, path, Target(h, at, path), Last(path)))
    decreases |path|
  {
    var r := SetPath(h, at, path, v);
    TargetHolds(h, at, path, v);
    if |path| == 1 {
      assert path[1..] == [];
    } else if !(at == Target(h, at, path) && path[0] == Last(path)) {
      var (h', next) := Enter(h, at, path[0]);
      assert Last(path[1..]) == Last(path);
      WalkAfterSet(env, h', next, path[1..], v);
      SetKeepsLinks(h', next, path[1..], v, at, path[0]);
    }
  }

  /** A leaf without attributes that is set under a name is read back under it exactly when, for a name of the settings,
   *  the setting has that value, and, for any other name, the walk is no circle or the leaf is null. Any other value is
   *  read back where there is no circle. */
  lemma GetAfterSet(env: Env, h: Heap, name: string, v: Val)
    requires Fits(v, |h|)
    ensures var r := SetPath(h, 0, PathOf(name), v);
            && (!StartsWith(name, SETTINGS) && !Circles(h, PathOf(name)) ==> Get(env, r, name) == v)
            && (v.Leaf? && (forall p :: p in PathOf(name) ==> env.attr(v.leaf, p).None?) ==>
                  (Get(env, r, name) == v <==>
                   if StartsWith(name, SETTINGS) then v.leaf == Setting(env, name)
                   else !Circles(h, PathOf(name)) || v.leaf == Null))
  {
    var path := PathOf(name);
    WalkAfterSet(env, h, 0, path, v);
    var rest := Beyond(h, 0, path, Target(h, 0, path), Last(path));
    assert rest != [] ==> rest[0] in path;
  }

  /** There are circles: with a.self holding a, setting a.self.self leaves nothing to read there. And whatever is set
   *  under a name of the settings, only the settings are read. */
  lemma CircleCuts(env: Env)
    requires env.attr(Int(5), "self") == None && "x" !in env.settings
    ensures var h: Heap := [map["a" := Dict(1)], map["self" := Dict(1)]];
            GetPath(env, SetPath(h, 0, ["a", "self", "self"], Leaf(Int(5))), Dict(0), ["a", "self", "self"]) ==
              Leaf(Null)
    ensures Get(env, SetPath([map[]], 0, PathOf("settings.x"), Leaf(Int(5))), "settings.x") == Leaf(Null)
  {
    var h: Heap := [map["a" := Dict(1)], map["self" := Dict(1)]];
    var path := ["a", "self", "self"];
    assert path[1..] == ["self", "self"] && path[1..][1..] == ["self"];
    assert Enter(h, 0, "a") == (h, 1) && Enter(h, 1, "self") == (h, 1);
    assert Target(h, 0, path) == Target(h, 1, ["self", "self"]) == Target(h, 1, ["self"]) == 1;
    assert Beyond(h, 0, path, 1, "self") == Beyond(h, 1, ["self", "self"], 1, "self") == ["self"];
    WalkAfterSet(env, h, 0, path, Leaf(Int(5)));
    assert "settings.x"[|SETTINGS|..] == "x";
  }

  /** Two names of one dictionary: a value set through one is read through the other. */
  lemma AliasesShare(env: Env, h: Heap, i: nat, j: nat, a: string, b: string, key: string, v: Val)
    requires i < |h| && j < |h| && a in h[i] && b in h[j] && h[i][a].Dict? && h[i][a] == h[j][b]
    requires h[i][a].at !in {i, j} && Fits(v, |h|)
    ensures GetPath(env, SetPath(h, i, [a, key], v), Dict(j), [b, key]) == v
  {
    assert [a, key][1..] == [key] && [b, key][1..] == [key] && [key][1..] == [];
    var d := h[i][a].at;
    assert SetPath(h, i, [a, key], v) == SetPath(h, d, [key], v);
    var r := SetPath(h, d, [key], v);
    assert GetPath(env, r, Dict(j), [b, key]) == GetPath(env, r, Dict(d), [key]);
    assert GetPath(env, r, Dict(d), [key]) == GetPath(env, r, v, []);
  }
}
