/** A nested object as table rows with dotted paths, and back. */
module AtomicTable {
  import opened Basics
  import opened Text

  /** Floats are known by their text. A list is one cell, whatever it holds. */
  datatype Json =
    | Null
    | Bool(b: bool)
    | Int(n: int)
    | Float(text: string)
    | Str(s: string)
    | List(items: seq<Json>)
    | Obj(fields: map<string, Json>)

  type Path = seq<string>

  /** The cell at a path: a value that is not an object. */
  function CellAt(j: Json, p: Path): Option<Json>
    decreases |p|
  {
    if !j.Obj? then (if p == [] then Some(j) else None)
    else if p != [] && p[0] in j.fields then CellAt(j.fields[p[0]], p[1..])
    else None
  }

  predicate HasCell(j: Json) {
    match j
    case Obj(m) => exists k :: k in m && HasCell(m[k])
    case _ => true
  }

  /** Without the sub-objects that hold no cell. */
  function Prune(j: Json): Json {
    match j
    case Obj(m) => Obj(map k | k in m && HasCell(m[k]) :: Prune(m[k]))
    case _ => j
  }

  /** No key on the way to a cell or an object contains a dot. */
  predicate DotFree(j: Json) {
    match j
    case Obj(m) => forall k :: k in m ==> NoDot(k) && DotFree(m[k])
    case _ => true
  }

  // ---- rows ----

  function TypeName(v: Json): string {
    match v
    case Null => "null"
    case Bool(_) => "bool"
    case Int(_) => "int"
    case Float(_) => "float"
    case Str(_) => "str"
    case List(_) => "list"
    case Obj(_) => "dict"
  }

  datatype Row = Row(field: string, kind: string, value: Json, path: string, group: string,
                     aliases: (string, string), collection: bool, lastPatch: Option<string>)

  function StripObjectPrefix(path: string, name: string): string {
    if name != "" && StartsWith(path, name + ".") then path[|name| + 1..] else path
  }

  function FirstPart(path: string): string { SplitDots("", path)[0] }

  function FieldGroup(path: string, name: string): string {
    var relative := StripObjectPrefix(path, name);
    if '.' in relative then FirstPart(relative) else "root"
  }

  function RowFor(field: string, value: Json, path: string, name: string): Row {
    Row(field, TypeName(value), value, path, FieldGroup(path, name), (path, StripObjectPrefix(path, name)),
      value.List?, None)
  }

  function Extended(prefix: string, key: string): string { if prefix != "" then prefix + "." + key else key }

  /** The text of a path under a prefix; an empty prefix takes no dot, so that empty keys in front leave no trace. */
  function PathText(prefix: string, p: Path): string
    decreases |p|
  {
    if p == [] then prefix else PathText(Extended(prefix, p[0]), p[1..])
  }

  lemma {:induction false} PathTextIs(prefix: string, p: Path)
    requires prefix != "" && p != []
    ensures PathText(prefix, p) == prefix + "." + Join(".", p)
    decreases |p|
  {
    if |p| > 1 {
      PathTextIs(prefix + "." + p[0], p[1..]);
      assert prefix + "." + p[0] + "." + Join(".", p[1..]) == prefix + "." + (p[0] + "." + Join(".", p[1..]));
    } else {
      assert p[1..] == [];
    }
  }

  /** The paths are those of the cells. */
  ghost predicate Covers(ps: seq<Path>, j: Json) { forall p :: p in ps <==> CellAt(j, p).Some? }

  predicate IsRow(row: Row, p: Path, j: Json, prefix: string, name: string) {
    p != [] && CellAt(j, p).Some? && row == RowFor(p[|p| - 1], CellAt(j, p).value, PathText(prefix, p), name)
  }

  predicate RowsMatch(rows: seq<Row>, ps: seq<Path>, j: Json, prefix: string, name: string) {
    |rows| == |ps| && forall i :: 0 <= i < |ps| ==> IsRow(rows[i], ps[i], j, prefix, name)
  }

  /** The rows, with the paths of their cells: every cell of j once, in some order. */
  ghost predicate Lists(rows: seq<Row>, ps: seq<Path>, j: Json, prefix: string, name: string) {
    Distinct(ps) && Covers(ps, j) && RowsMatch(rows, ps, j, prefix, name)
  }

  /** Rows that list every cell of j once, in some order. */
  ghost predicate Listed(rows: seq<Row>, j: Json, prefix: string, name: string) {
    exists ps :: Lists(rows, ps, j, prefix, name)
  }

  function Under(key: string, ps: seq<Path>): seq<Path> {
    seq(|ps|, i requires 0 <= i < |ps| => [key] + ps[i])
  }

  /** The cells whose first key has been visited. */
  function Visited(m: map<string, Json>, left: set<string>): Json { Obj(map k | k in m && k !in left :: m[k]) }

  lemma UnderPath(prefix: string, key: string, p: Path)
    ensures PathText(Extended(prefix, key), p) == PathText(prefix, [key] + p)
  {
    assert ([key] + p)[1..] == p;
  }

  /** `flatten_json` under a prefix: the keys come in any order. */
  method FlattenJson(j: Json, prefix: string, name: string) returns (rows: seq<Row>)
    requires j.Obj?
    ensures Listed(rows, j, prefix, name)
    decreases j
  {
    hide Distinct, Covers, RowsMatch, CellAt, FieldGroup, Lists;
    var m := j.fields;
    rows := [];
    ghost var ps: seq<Path> := [];
    NoneVisited(m, prefix, name);
    var left := m.Keys;
    while left != {}
      invariant left <= m.Keys
      invariant Lists(rows, ps, Visited(m, left), prefix, name)
      decreases |left|
    {
      var key :| key in left;
      var path, value := Extended(prefix, key), m[key];
      if value.Obj? {
        var more := FlattenJson(value, path, name);
        ghost var qs :| Lists(more, qs, value, path, name);
        ListsObject(rows, ps, more, qs, m, left, key, prefix, name);
        ps := ps + Under(key, qs);
        rows := rows + more;
      } else {
        ListsCell(rows, ps, m, left, key, prefix, name);
        rows := rows + [RowFor(key, value, path, name)];
        ps := ps + [[key]];
      }
      left := left - {key};
    }
    assert Visited(m, {}) == j;
  }

  lemma NoneVisited(m: map<string, Json>, prefix: string, name: string)
    ensures Lists([], [], Visited(m, m.Keys), prefix, name)
  {
  }

  lemma CellOfVisited(m: map<string, Json>, left: set<string>, key: string, p: Path)
    requires key in left && left <= m.Keys
    ensures CellAt(Visited(m, left - {key}), p) ==
            if p != [] && p[0] == key then CellAt(m[key], p[1..]) else CellAt(Visited(m, left), p)
  {
  }

  lemma ListsObject(rows: seq<Row>, ps: seq<Path>, more: seq<Row>, qs: seq<Path>,
                    m: map<string, Json>, left: set<string>, key: string, prefix: string, name: string)
    requires key in left && left <= m.Keys && m[key].Obj?
    requires Lists(rows, ps, Visited(m, left), prefix, name)
    requires Lists(more, qs, m[key], Extended(prefix, key), name)
    ensures Lists(rows + more, ps + Under(key, qs), Visited(m, left - {key}), prefix, name)
  {
    hide CellAt, Visited, IsRow;
    CoversObject(ps, qs, m, left, key);
    DistinctObject(ps, qs, m, left, key);
    hide Distinct, Covers;
    var j, all, whole := Visited(m, left - {key}), ps + Under(key, qs), rows + more;
    forall i | 0 <= i < |all| ensures IsRow(whole[i], all[i], j, prefix, name) {
      if i < |ps| {
        OldRow(whole[i], all[i], m, left, key, prefix, name);
      } else {
        NewRow(whole[i], qs[i - |ps|], m, left, key, prefix, name);
      }
    }
  }

  lemma OldRow(row: Row, p: Path, m: map<string, Json>, left: set<string>, key: string, prefix: string, name: string)
    requires key in left && left <= m.Keys && IsRow(row, p, Visited(m, left), prefix, name)
    ensures IsRow(row, p, Visited(m, left - {key}), prefix, name)
  {
    CellOfVisited(m, left, key, p);
    NotYet(m, left, key, p);
    hide CellAt;
  }

  lemma NewRow(row: Row, q: Path, m: map<string, Json>, left: set<string>, key: string, prefix: string, name: string)
    requires key in left && left <= m.Keys && IsRow(row, q, m[key], Extended(prefix, key), name)
    ensures IsRow(row, [key] + q, Visited(m, left - {key}), prefix, name)
  {
    CellOfVisited(m, left, key, [key] + q);
    assert ([key] + q)[1..] == q;
    UnderPath(prefix, key, q);
    hide CellAt, PathText, Extended;
  }

  lemma CoversObject(ps: seq<Path>, qs: seq<Path>, m: map<string, Json>, left: set<string>, key: string)
    requires key in left && left <= m.Keys && Covers(ps, Visited(m, left)) && Covers(qs, m[key])
    ensures Covers(ps + Under(key, qs), Visited(m, left - {key}))
  {
    forall p ensures p in ps + Under(key, qs) <==> CellAt(Visited(m, left - {key}), p).Some? {
      CellOfVisited(m, left, key, p);
      UnderHas(key, qs, p);
      if p in ps { NotYet(m, left, key, p); }
    }
  }

  lemma DistinctObject(ps: seq<Path>, qs: seq<Path>, m: map<string, Json>, left: set<string>, key: string)
    requires key in left && left <= m.Keys && Covers(ps, Visited(m, left)) && Distinct(ps) && Distinct(qs)
    ensures Distinct(ps + Under(key, qs))
  {
    var all := ps + Under(key, qs);
    forall i, k | 0 <= i < k < |all| ensures all[i] != all[k] {
      if i < |ps| <= k {
        assert all[i] in ps;
        NotYet(m, left, key, all[i]);
      } else if |ps| <= i {
        assert all[i] == [key] + qs[i - |ps|] && all[k] == [key] + qs[k - |ps|];
        assert all[i][1..] == qs[i - |ps|] && all[k][1..] == qs[k - |ps|];
      }
    }
  }

  lemma NotYet(m: map<string, Json>, left: set<string>, key: string, p: Path)
    requires key in left && left <= m.Keys && CellAt(Visited(m, left), p).Some?
    ensures p != [] && p[0] != key
  {
  }

  lemma UnderHas(key: string, qs: seq<Path>, p: Path)
    ensures p in Under(key, qs) <==> p != [] && p[0] == key && p[1..] in qs
  {
    if p in Under(key, qs) {
      var i :| 0 <= i < |qs| && p == [key] + qs[i];
      assert p[1..] == qs[i];
    }
    if p != [] && p[0] == key && p[1..] in qs {
      var i :| 0 <= i < |qs| && qs[i] == p[1..];
      assert p == [key] + qs[i] == Under(key, qs)[i];
    }
  }

  lemma ListsCell(
      rows: seq<Row>, ps: seq<Path>, m: map<string, Json>, left: set<string>, key: string, prefix: string, name: string)
    requires key in left && left <= m.Keys && !m[key].Obj?
    requires Lists(rows, ps, Visited(m, left), prefix, name)
    ensures Lists(rows + [RowFor(key, m[key], Extended(prefix, key), name)], ps + [[key]], Visited(m, left - {key}),
            prefix, name)
  {
    CoversCell(ps, m, left, key);
    forall i | 0 <= i < |ps| ensures ps[i] != [key] {
      assert ps[i] in ps;
      NotYet(m, left, key, ps[i]);
    }
    assert Distinct(ps + [[key]]);
    hide Distinct, Covers, IsRow, CellAt, Visited;
    var all, whole := ps + [[key]], rows + [RowFor(key, m[key], Extended(prefix, key), name)];
    forall i | 0 <= i < |all| ensures IsRow(whole[i], all[i], Visited(m, left - {key}), prefix, name) {
      if i < |ps| {
        OldRow(whole[i], all[i], m, left, key, prefix, name);
      } else {
        CellRow(m, left, key, prefix, name);
      }
    }
  }

  lemma CellRow(m: map<string, Json>, left: set<string>, key: string, prefix: string, name: string)
    requires key in left && left <= m.Keys && !m[key].Obj?
    ensures IsRow(RowFor(key, m[key], Extended(prefix, key), name), [key], Visited(m, left - {key}), prefix, name)
  {
    CellOfVisited(m, left, key, [key]);
    assert [key][1..] == [];
  }

  lemma CoversCell(ps: seq<Path>, m: map<string, Json>, left: set<string>, key: string)
    requires key in left && left <= m.Keys && Covers(ps, Visited(m, left)) && !m[key].Obj?
    ensures Covers(ps + [[key]], Visited(m, left - {key}))
  {
    forall p ensures p in ps + [[key]] <==> CellAt(Visited(m, left - {key}), p).Some? {
      CellOfVisited(m, left, key, p);
      if p in ps { NotYet(m, left, key, p); }
      if p != [] && p[0] == key && p[1..] == [] { assert p == [key]; }
      if p == [key] { assert p[1..] == []; }
    }
  }
}
