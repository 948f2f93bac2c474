/** Rebuilding the object from its rows, and patching a row. */
module AtomicRebuild {
  import opened Basics
  import opened Text
  import opened AtomicTable

  // ---- values ----

  /** Float conversions, which are not looked into; None where they raise ValueError. */
  datatype Floats = Floats(trunc: string -> Option<int>, ofInt: int -> string, parse: string -> Option<string>,
    zero: string -> bool)

  function Truthy(fl: Floats, v: Json): bool {
    match v
    case Null => false
    case Bool(b) => b
    case Int(n) => n != 0
    case Float(t) => !fl.zero(t)
    case Str(s) => s != ""
    case List(items) => items != []
    case Obj(m) => m != map[]
  }

  /** `_coerce`: what cannot be converted stays as it is. */
  function Coerce(fl: Floats, v: Json, kind: string): Json {
    if v.Null? then Null
    else if kind == "int" then
      match v
      case Bool(b) => Int(if b then 1 else 0)
      case Float(t) => (var n := fl.trunc(t); if n.Some? then Int(n.value) else v)
      case Str(s) => (var n := ParseInt(Strip(s)); if n.Some? then Int(n.value) else v)
      case _ => v
    else if kind == "float" then
      match v
      case Bool(b) => Float(fl.ofInt(if b then 1 else 0))
      case Int(n) => Float(fl.ofInt(n))
      case Str(s) => (var f := fl.parse(s); if f.Some? then Float(f.value) else v)
      case _ => v
    else if kind == "bool" then
      match v
      case Str(s) => Bool(Lower(Strip(s)) in ["true", "1", "yes", "on"])
      case _ => Bool(Truthy(fl, v))
    else if kind == "null" then Null
    else v
  }

  /** A value of the declared type is not changed. */
  lemma CoerceOwnType(fl: Floats, v: Json)
    ensures Coerce(fl, v, TypeName(v)) == v
  {
  }

  // ---- building ----

  /** Assigning at a path, making the objects on the way; None where a value on the way is not an object (TypeError). */
  function SetPath(j: Json, p: Path, v: Json): Option<Json>
    requires p != []
    decreases |p|
  {
    if !j.Obj? then None
    else if |p| == 1 then Some(Obj(j.fields[p[0] := v]))
    else
      var sub := SetPath(if p[0] in j.fields then j.fields[p[0]] else Obj(map[]), p[1..], v);
      if sub.None? then None else Some(Obj(j.fields[p[0] := sub.value]))
  }

  function RowPath(row: Row, name: string): (p: Path)
    ensures p != []
  {
    SplitDots("", StripObjectPrefix(row.path, name))
  }

  function Put(fl: Floats, j: Option<Json>, row: Row, name: string): Option<Json> {
    if j.None? then None else SetPath(j.value, RowPath(row, name), Coerce(fl, row.value, row.kind))
  }

  function Rebuild(fl: Floats, rows: seq<Row>, name: string): Option<Json> {
    if rows == [] then Some(Obj(map[])) else Put(fl, Rebuild(fl, rows[..|rows| - 1], name), rows[|rows| - 1], name)
  }

  lemma {:induction false} RebuildStaysNone(fl: Floats, rows: seq<Row>, name: string, k: nat)
    requires k <= |rows| && Rebuild(fl, rows[..k], name).None?
    ensures Rebuild(fl, rows, name).None?
    decreases |rows| - k
  {
    if k == |rows| {
      assert rows[..k] == rows;
    } else {
      assert rows[..k + 1][..k] == rows[..k];
      RebuildStaysNone(fl, rows, name, k + 1);
    }
  }

  /** `rows_to_json`; None where it raises. */
  method RowsToJson(fl: Floats, rows: seq<Row>, name: string) returns (result: Option<Json>)
    ensures result == Rebuild(fl, rows, name)
  {
    var built := Obj(map[]);
    for i := 0 to |rows|
      invariant Rebuild(fl, rows[..i], name) == Some(built)
    {
      assert rows[..i + 1][..i] == rows[..i];
      var next := SetPath(built, RowPath(rows[i], name), Coerce(fl, rows[i].value, rows[i].kind));
      if next.None? {
        RebuildStaysNone(fl, rows, name, i + 1);
        return None;
      }
      built := next.value;
    }
    assert rows[..|rows|] == rows;
    return Some(built);
  }

  // ---- paths that do not meet ----

  predicate Apart(p: Path, q: Path) { !(p <= q) && !(q <= p) }

  lemma ApartTail(p: Path, q: Path)
    requires p != [] && q != [] && Apart(p, q) && p[0] == q[0]
    ensures Apart(p[1..], q[1..])
  {
    assert p == [p[0]] + p[1..] && q == [q[0]] + q[1..];
  }

  /** Two cells of one object: neither path leads on from the other. */
  lemma {:induction false} CellsApart(j: Json, p: Path, q: Path)
    requires CellAt(j, p).Some? && CellAt(j, q).Some? && p != q
    ensures Apart(p, q)
    decreases |p|
  {
    if j.Obj? && p[0] == q[0] {
      assert p == [p[0]] + p[1..] && q == [q[0]] + q[1..];
      CellsApart(j.fields[p[0]], p[1..], q[1..]);
    }
  }

  /** Where an assignment succeeds: nothing on the way is a cell. */
  lemma {:induction false} SetSucceeds(j: Json, p: Path, v: Json)
    requires p != [] && j.Obj?
    requires forall q :: CellAt(j, q).Some? ==> Apart(p, q)
    ensures SetPath(j, p, v).Some?
    decreases |p|
  {
    if |p| > 1 && p[0] in j.fields {
      var sub := j.fields[p[0]];
      assert p == [p[0]] + p[1..] && !Apart(p, [p[0]]);
      assert [p[0]][1..] == [] && CellAt(j, [p[0]]) == CellAt(sub, []);
      assert sub.Obj?;
      forall q | CellAt(sub, q).Some? ensures Apart(p[1..], q) {
        assert ([p[0]] + q)[1..] == q;
        assert CellAt(j, [p[0]] + q).Some?;
        ApartTail(p, [p[0]] + q);
      }
      SetSucceeds(sub, p[1..], v);
    } else if |p| > 1 {
      SetSucceeds(Obj(map[]), p[1..], v);
    }
  }

  /** After an assignment the path holds the value, and nothing apart from it has changed. */
  lemma {:induction false} CellAfterSet(j: Json, p: Path, v: Json, q: Path)
    requires p != [] && SetPath(j, p, v).Some? && !v.Obj?
    ensures CellAt(SetPath(j, p, v).value, q) == if q == p then Some(v) else if Apart(p, q) then CellAt(j, q) else None
    decreases |p|
  {
    if q != [] {
      assert q == [q[0]] + q[1..] && p == [p[0]] + p[1..];
      if |p| == 1 {
        assert p[1..] == [];
      } else if p[0] == q[0] {
        var sub := if p[0] in j.fields then j.fields[p[0]] else Obj(map[]);
        CellAfterSet(sub, p[1..], v, q[1..]);
        if Apart(p, q) { ApartTail(p, q); }
      }
    }
  }

  /** Assignments apart from each other may be made in either order. */
  lemma {:induction false} SetCommutes(j: Json, p: Path, v: Json, q: Path, w: Json)
    requires p != [] && q != [] && Apart(p, q)
    requires SetPath(j, p, v).Some? && SetPath(SetPath(j, p, v).value, q, w).Some?
    ensures SetPath(j, q, w).Some?
    ensures SetPath(SetPath(j, q, w).value, p, v) == SetPath(SetPath(j, p, v).value, q, w)
    decreases |p|
  {
    if p[0] == q[0] {
      assert p == [p[0]] + p[1..] && q == [q[0]] + q[1..];
      ApartTail(p, q);
      SetUnder(j, p, v);
      SetUnder(SetPath(j, p, v).value, q, w);
      SetCommutes(Sub(j, p[0]), p[1..], v, q[1..], w);
      SetSameKey(j, p, v, q, w);
    } else {
      SetElsewhere(j, p, v, q, w);
    }
  }

  lemma SetSameKey(j: Json, p: Path, v: Json, q: Path, w: Json)
    requires j.Obj? && |p| > 1 && |q| > 1 && p[0] == q[0]
    requires var a, b := SetPath(Sub(j, p[0]), p[1..], v), SetPath(Sub(j, p[0]), q[1..], w);
             a.Some? && b.Some? && SetPath(b.value, p[1..], v) == SetPath(a.value, q[1..], w)
    requires SetPath(j, p, v).Some? && SetPath(SetPath(j, p, v).value, q, w).Some?
    ensures SetPath(j, q, w).Some?
    ensures SetPath(SetPath(j, q, w).value, p, v) == SetPath(SetPath(j, p, v).value, q, w)
  {
    SetUnder(j, p, v);
    SetUnder(SetPath(j, p, v).value, q, w);
    SetUnder(j, q, w);
    SetUnder(SetPath(j, q, w).value, p, v);
    hide SetPath;
    var a, b := SetPath(Sub(j, p[0]), p[1..], v).value, SetPath(Sub(j, p[0]), q[1..], w).value;
    var two := SetPath(b, p[1..], v).value;
    assert j.fields[p[0] := a][p[0] := two] == j.fields[p[0] := b][p[0] := two];
  }

  function Sub(j: Json, key: string): Json
    requires j.Obj?
  {
    if key in j.fields then j.fields[key] else Obj(map[])
  }

  lemma SetUnder(j: Json, p: Path, v: Json)
    requires j.Obj? && |p| > 1
    ensures SetPath(j, p, v) ==
            var sub := SetPath(Sub(j, p[0]), p[1..], v);
            if sub.None? then None else Some(Obj(j.fields[p[0] := sub.value]))
  {
  }

  /** What an assignment leaves at its first key depends on that key alone. */
  function AtKey(j: Json, p: Path, v: Json): Option<Json>
    requires j.Obj? && p != []
  {
    if |p| == 1 then Some(v) else SetPath(Sub(j, p[0]), p[1..], v)
  }

  lemma SetIsAtKey(j: Json, p: Path, v: Json)
    requires j.Obj? && p != []
    ensures SetPath(j, p, v) == if AtKey(j, p, v).None? then None else Some(Obj(j.fields[p[0] := AtKey(j, p, v).value]))
  {
  }

  lemma SetElsewhere(j: Json, p: Path, v: Json, q: Path, w: Json)
    requires p != [] && q != [] && p[0] != q[0]
    requires SetPath(j, p, v).Some? && SetPath(SetPath(j, p, v).value, q, w).Some?
    ensures SetPath(j, q, w).Some?
    ensures SetPath(SetPath(j, q, w).value, p, v) == SetPath(SetPath(j, p, v).value, q, w)
  {
    SetIsAtKey(j, p, v);
    SetIsAtKey(SetPath(j, p, v).value, q, w);
    SetIsAtKey(j, q, w);
    assert AtKey(SetPath(j, p, v).value, q, w) == AtKey(j, q, w);
    SetIsAtKey(SetPath(j, q, w).value, p, v);
    assert AtKey(SetPath(j, q, w).value, p, v) == AtKey(j, p, v);
    hide SetPath, AtKey;
    var a, b := AtKey(j, p, v).value, AtKey(j, q, w).value;
    assert j.fields[p[0] := a][q[0] := b] == j.fields[q[0] := b][p[0] := a];
  }

  /** Assigning twice at one path is assigning the second value. */
  lemma {:induction false} SetTwice(j: Json, p: Path, v: Json, w: Json)
    requires p != [] && SetPath(j, p, v).Some?
    ensures SetPath(SetPath(j, p, v).value, p, w) == SetPath(j, p, w)
    decreases |p|
  {
    var m := j.fields;
    if |p| == 1 {
      assert m[p[0] := v][p[0] := w] == m[p[0] := w];
    } else {
      var sub := if p[0] in m then m[p[0]] else Obj(map[]);
      SetTwice(sub, p[1..], v, w);
      var a, b := SetPath(sub, p[1..], v).value, SetPath(sub, p[1..], w);
      assert SetPath(j, p, v).value.fields[p[0]] == a;
      if b.Some? { assert m[p[0] := a][p[0] := b.value] == m[p[0] := b.value]; }
    }
  }

  // ---- objects without empty sub-objects are known by their cells ----

  predicate Tight(j: Json) {
    match j
    case Obj(m) => forall k :: k in m ==> HasCell(m[k]) && Tight(m[k])
    case _ => true
  }

  lemma {:induction false} CellMeansHasCell(j: Json, p: Path)
    requires CellAt(j, p).Some?
    ensures HasCell(j)
    decreases |p|
  {
    if j.Obj? { CellMeansHasCell(j.fields[p[0]], p[1..]); }
  }

  lemma {:induction false} SomeCell(j: Json) returns (p: Path)
    requires HasCell(j)
    ensures CellAt(j, p).Some?
  {
    if j.Obj? {
      var k :| k in j.fields && HasCell(j.fields[k]);
      var q := SomeCell(j.fields[k]);
      p := [k] + q;
      assert p[1..] == q;
    } else {
      p := [];
    }
  }

  lemma {:induction false} TightAfterSet(j: Json, p: Path, v: Json)
    requires p != [] && SetPath(j, p, v).Some? && !v.Obj? && Tight(j)
    ensures Tight(SetPath(j, p, v).value)
    decreases |p|
  {
    if |p| > 1 {
      var sub := if p[0] in j.fields then j.fields[p[0]] else Obj(map[]);
      TightAfterSet(sub, p[1..], v);
      CellAfterSet(sub, p[1..], v, p[1..]);
      CellMeansHasCell(SetPath(sub, p[1..], v).value, p[1..]);
    }
  }

  ghost predicate SameCells(a: Json, b: Json) { forall p: Path :: CellAt(a, p) == CellAt(b, p) }

  lemma {:induction false} SameCellsSame(a: Json, b: Json)
    requires Tight(a) && Tight(b) && a.Obj? == b.Obj? && SameCells(a, b)
    ensures a == b
    decreases a
  {
    if a.Obj? {
      FieldsCovered(a, b);
      FieldsCovered(b, a);
      forall k | k in a.fields ensures a.fields[k] == b.fields[k] {
        var x, y := a.fields[k], b.fields[k];
        forall p: Path ensures CellAt(x, p) == CellAt(y, p) {
          assert ([k] + p)[1..] == p;
          assert CellAt(a, [k] + p) == CellAt(b, [k] + p);
        }
        assert CellAt(x, []) == CellAt(y, []);
        SameCellsSame(x, y);
      }
      assert a.fields == b.fields;
    } else {
      assert CellAt(a, []) == CellAt(b, []);
    }
  }

  lemma FieldsCovered(a: Json, b: Json)
    requires Tight(a) && a.Obj? && b.Obj? && SameCells(a, b)
    ensures a.fields.Keys <= b.fields.Keys
  {
    forall k | k in a.fields ensures k in b.fields {
      var p := SomeCell(a.fields[k]);
      assert ([k] + p)[1..] == p;
      assert CellAt(a, [k] + p) == CellAt(b, [k] + p);
    }
  }

  lemma {:induction false} PruneCells(j: Json, p: Path)
    ensures CellAt(Prune(j), p) == CellAt(j, p)
    decreases |p|
  {
    if j.Obj? && p != [] && p[0] in j.fields {
      if HasCell(j.fields[p[0]]) {
        PruneCells(j.fields[p[0]], p[1..]);
      } else if CellAt(j, p).Some? {
        CellMeansHasCell(j.fields[p[0]], p[1..]);
      }
    }
  }

  lemma {:induction false} PruneTight(j: Json)
    ensures Tight(Prune(j)) && (HasCell(j) ==> HasCell(Prune(j)))
    decreases j
  {
    if j.Obj? {
      forall k | k in j.fields ensures Tight(Prune(j.fields[k]))
          && (HasCell(j.fields[k]) ==> HasCell(Prune(j.fields[k]))) {
        PruneTight(j.fields[k]);
      }
      if HasCell(j) {
        var k :| k in j.fields && HasCell(j.fields[k]);
        assert Prune(j).fields[k] == Prune(j.fields[k]);
      }
    }
  }

  // ---- keys without dots ----

  predicate AllNoDot(p: Path) { forall k :: k in p ==> NoDot(k) }

  lemma {:induction false} DotFreeAfterSet(j: Json, p: Path, v: Json)
    requires p != [] && SetPath(j, p, v).Some? && DotFree(j) && DotFree(v) && AllNoDot(p)
    ensures DotFree(SetPath(j, p, v).value)
    decreases |p|
  {
    assert NoDot(p[0]);
    if |p| > 1 {
      assert AllNoDot(p[1..]);
      DotFreeAfterSet(if p[0] in j.fields then j.fields[p[0]] else Obj(map[]), p[1..], v);
    }
  }

  lemma {:induction false} DotFreePath(j: Json, p: Path)
    requires DotFree(j) && CellAt(j, p).Some?
    ensures AllNoDot(p)
    decreases |p|
  {
    if j.Obj? {
      DotFreePath(j.fields[p[0]], p[1..]);
      assert p == [p[0]] + p[1..];
    }
  }

  // ---- the rebuilt object ----

  lemma RowPathIs(row: Row, p: Path, j: Json, name: string)
    requires name != "" && IsRow(row, p, j, name, name) && AllNoDot(p)
    ensures RowPath(row, name) == p && StripObjectPrefix(row.path, name) == Join(".", p)
  {
    var text := Join(".", p);
    PathTextIs(name, p);
    assert row.path == (name + ".") + text;
    assert ((name + ".") + text)[|name| + 1..] == text;
    SplitJoinedDots(p);
  }

  /** The cells after the first n rows are those rows' cells. */
  ghost predicate HoldsRows(r: Json, ps: seq<Path>, j: Json, n: nat)
    requires n <= |ps|
  {
    && r.Obj? && Tight(r)
    && (forall i :: 0 <= i < n ==> CellAt(r, ps[i]) == CellAt(j, ps[i]))
    && (forall q :: CellAt(r, q).Some? ==> q in ps[..n])
  }

  lemma {:induction false} RebuildHoldsRows(fl: Floats, rows: seq<Row>, ps: seq<Path>, j: Json, name: string, n: nat)
    requires name != "" && Lists(rows, ps, j, name, name) && n <= |rows|
    requires |rows| == |ps| && forall p :: p in ps ==> AllNoDot(p)
    ensures Rebuild(fl, rows[..n], name).Some? && HoldsRows(Rebuild(fl, rows[..n], name).value, ps, j, n)
  {
    hide HoldsRows, Put, Lists, AllNoDot;
    if n == 0 {
      assert rows[..0] == [];
      NothingHeld(ps, j);
    } else {
      RebuildHoldsRows(fl, rows, ps, j, name, n - 1);
      PutHoldsRow(fl, rows, ps, j, name, n, Rebuild(fl, rows[..n - 1], name).value);
      assert rows[..n][..n - 1] == rows[..n - 1];
    }
  }

  lemma NothingHeld(ps: seq<Path>, j: Json)
    ensures HoldsRows(Obj(map[]), ps, j, 0)
  {
  }

  lemma PutHoldsRow(fl: Floats, rows: seq<Row>, ps: seq<Path>, j: Json, name: string, n: nat, r: Json)
    requires name != "" && Lists(rows, ps, j, name, name) && 0 < n <= |rows|
    requires (forall p :: p in ps ==> AllNoDot(p)) && HoldsRows(r, ps, j, n - 1)
    ensures Put(fl, Some(r), rows[n - 1], name).Some? && HoldsRows(Put(fl, Some(r), rows[n - 1], name).value, ps, j, n)
  {
    hide AllNoDot, CellAt, Apart, HoldsRows, SetPath;
    var p := ps[n - 1];
    assert p in ps;
    PutOfRow(fl, rows[n - 1], p, j, name, r);
    ListedCells(rows, ps, j, name);
    ApartFromEarlier(ps, j, n - 1, r);
    ObjectSoFar(r, ps, j, n - 1);
    CellNotObject(j, p);
    hide *;
    var v := CellAt(j, p).value;
    SetSucceeds(r, p, v);
    HoldsNext(r, ps, j, n, v);
  }

  lemma PutOfRow(fl: Floats, row: Row, p: Path, j: Json, name: string, r: Json)
    requires name != "" && IsRow(row, p, j, name, name) && AllNoDot(p)
    ensures p != [] && CellAt(j, p).Some? && Put(fl, Some(r), row, name) == SetPath(r, p, CellAt(j, p).value)
  {
    RowPathIs(row, p, j, name);
    CoerceOwnType(fl, row.value);
    hide Coerce, StripObjectPrefix, SetPath;
  }

  lemma ListedCells(rows: seq<Row>, ps: seq<Path>, j: Json, name: string)
    requires Lists(rows, ps, j, name, name)
    ensures Distinct(ps) && forall i :: 0 <= i < |ps| ==> CellAt(j, ps[i]).Some? && ps[i] != []
  {
    assert forall i :: 0 <= i < |ps| ==> IsRow(rows[i], ps[i], j, name, name);
  }

  lemma ObjectSoFar(r: Json, ps: seq<Path>, j: Json, n: nat)
    requires n <= |ps| && HoldsRows(r, ps, j, n)
    ensures r.Obj?
  {
  }

  lemma ApartFromEarlier(ps: seq<Path>, j: Json, n: nat, r: Json)
    requires n < |ps| && Distinct(ps) && HoldsRows(r, ps, j, n) && forall i :: 0 <= i < |ps| ==> CellAt(j, ps[i]).Some?
    ensures forall q :: CellAt(r, q).Some? ==> Apart(ps[n], q)
    ensures forall i :: 0 <= i < n ==> Apart(ps[n], ps[i])
  {
    forall i | 0 <= i < n ensures Apart(ps[n], ps[i]) { CellsApart(j, ps[n], ps[i]); }
    forall q | CellAt(r, q).Some? ensures Apart(ps[n], q) {
      var i :| 0 <= i < n && ps[..n][i] == q;
    }
  }

  lemma HoldsNext(r: Json, ps: seq<Path>, j: Json, n: nat, v: Json)
    requires 0 < n <= |ps| && HoldsRows(r, ps, j, n - 1) && ps[n - 1] != [] && !v.Obj?
             && CellAt(j, ps[n - 1]) == Some(v)
    requires SetPath(r, ps[n - 1], v).Some? && forall i :: 0 <= i < n - 1 ==> Apart(ps[n - 1], ps[i])
    ensures HoldsRows(SetPath(r, ps[n - 1], v).value, ps, j, n)
  {
    var p, r' := ps[n - 1], SetPath(r, ps[n - 1], v).value;
    TightAfterSet(r, p, v);
    forall q ensures CellAt(r', q) == if q == p then Some(v) else if Apart(p, q) then CellAt(r, q) else None {
      CellAfterSet(r, p, v, q);
    }
    forall q | CellAt(r', q).Some? ensures q in ps[..n] {
      if q == p { assert ps[..n][n - 1] == q; } else { assert q in ps[..n - 1]; }
    }
  }

  lemma {:induction false} RebuildIsDotFree(fl: Floats, rows: seq<Row>, name: string)
    requires forall i :: 0 <= i < |rows| ==> DotFree(Coerce(fl, rows[i].value, rows[i].kind))
    ensures Rebuild(fl, rows, name).Some? ==> DotFree(Rebuild(fl, rows, name).value)
  {
    if rows != [] {
      var front, last := rows[..|rows| - 1], rows[|rows| - 1];
      RebuildIsDotFree(fl, front, name);
      if Rebuild(fl, rows, name).Some? {
        SplitHasNoDots("", StripObjectPrefix(last.path, name));
        DotFreeAfterSet(Rebuild(fl, front, name).value, RowPath(last, name), Coerce(fl, last.value, last.kind));
      }
    }
  }

  lemma CellNotObject(j: Json, p: Path)
    requires CellAt(j, p).Some?
    ensures !CellAt(j, p).value.Obj?
    decreases |p|
  {
    if j.Obj? { CellNotObject(j.fields[p[0]], p[1..]); }
  }

  /** From rows in any order the object comes back without its cell-less sub-objects, exactly when no key on the way to
   *  a cell contains a dot. */
  lemma RebuildFromRows(fl: Floats, rows: seq<Row>, j: Json, name: string)
    requires name != "" && j.Obj? && Listed(rows, j, name, name)
    ensures Rebuild(fl, rows, name) == Some(Prune(j)) <==> DotFree(Prune(j))
  {
    hide Lists;
    var ps :| Lists(rows, ps, j, name, name);
    RebuildFromListed(fl, rows, ps, j, name);
  }

  lemma RebuildFromListed(fl: Floats, rows: seq<Row>, ps: seq<Path>, j: Json, name: string)
    requires name != "" && j.Obj? && Lists(rows, ps, j, name, name)
    ensures Rebuild(fl, rows, name) == Some(Prune(j)) <==> DotFree(Prune(j))
  {
    if DotFree(Prune(j)) {
      forall p | p in ps ensures AllNoDot(p) {
        PruneCells(j, p);
        DotFreePath(Prune(j), p);
      }
      RebuildHoldsRows(fl, rows, ps, j, name, |rows|);
      assert rows[..|rows|] == rows && ps[..|ps|] == ps;
      var r := Rebuild(fl, rows, name).value;
      forall p: Path ensures CellAt(r, p) == CellAt(Prune(j), p) {
        PruneCells(j, p);
        if p in ps { var i :| 0 <= i < |ps| && ps[i] == p; }
      }
      PruneTight(j);
      SameCellsSame(r, Prune(j));
    } else {
      forall i | 0 <= i < |rows| ensures DotFree(Coerce(fl, rows[i].value, rows[i].kind)) {
        assert IsRow(rows[i], ps[i], j, name, name);
        CoerceOwnType(fl, rows[i].value);
        CellNotObject(j, ps[i]);
      }
      RebuildIsDotFree(fl, rows, name);
    }
  }

  // ---- patching ----

  function Patched(row: Row, target: string, v: Json): Row {
    if row.path == target then row.(value := v, kind := TypeName(v), lastPatch := Some(TypeName(v))) else row
  }

  function Patch(rows: seq<Row>, target: string, v: Json): seq<Row> {
    seq(|rows|, i requires 0 <= i < |rows| => Patched(rows[i], target, v))
  }

  /** `apply_patch`. */
  method ApplyPatch(rows: seq<Row>, target: string, v: Json) returns (updated: seq<Row>)
    ensures updated == Patch(rows, target, v)
  {
    updated := [];
    for i := 0 to |rows|
      invariant |updated| == i && forall k :: 0 <= k < i ==> updated[k] == Patched(rows[k], target, v)
    {
      if rows[i].path == target {
        updated := updated + [rows[i].(value := v, kind := TypeName(v), lastPatch := Some(TypeName(v)))];
      } else {
        updated := updated + [rows[i]];
      }
    }
  }

  /** The last row is put after the others. */
  lemma RebuildLast(fl: Floats, rows: seq<Row>, name: string)
    requires rows != []
    ensures Rebuild(fl, rows, name) == Put(fl, Rebuild(fl, rows[..|rows| - 1], name), rows[|rows| - 1], name)
  {
  }

  /** What is assigned at apart paths afterwards does not undo, nor notice, an assignment at p. */
  lemma {:induction false} SetBeforeRest(
      fl: Floats, rows: seq<Row>, rows': seq<Row>, k: nat, p: Path, w: Json, name: string)
    requires k < |rows| == |rows'| && p != []
    requires forall i :: 0 <= i < |rows| && i != k ==> rows'[i] == rows[i] && Apart(p, RowPath(rows[i], name))
    requires RowPath(rows[k], name) == RowPath(rows'[k], name) == p && Coerce(fl, rows'[k].value, rows'[k].kind) == w
    requires Rebuild(fl, rows, name).Some? && SetPath(Rebuild(fl, rows, name).value, p, w).Some?
    ensures Rebuild(fl, rows', name) == SetPath(Rebuild(fl, rows, name).value, p, w)
    decreases |rows|
  {
    hide Coerce, SetPath, RowPath, Rebuild;
    var n := |rows| - 1;
    var front, front' := rows[..n], rows'[..n];
    var q, v := RowPath(rows[n], name), Coerce(fl, rows[n].value, rows[n].kind);
    RebuildLast(fl, rows, name);
    var r := Rebuild(fl, front, name).value;
    if k == n {
      assert front == front';
      SetTwice(r, p, v, w);
    } else {
      SetCommutes(r, q, v, p, w);
      SetBeforeRest(fl, front, front', k, p, w, name);
    }
    RebuildLast(fl, rows', name);
  }

  lemma PathTextInjective(name: string, p: Path, q: Path)
    requires name != "" && p != [] && q != [] && AllNoDot(p) && AllNoDot(q) && PathText(name, p) == PathText(name, q)
    ensures p == q
  {
    SplitJoinedDots(p);
    SplitJoinedDots(q);
    PathTextIs(name, p);
    PathTextIs(name, q);
    assert PathText(name, p)[|name| + 1..] == Join(".", p);
    assert PathText(name, q)[|name| + 1..] == Join(".", q);
  }

  lemma {:induction false} SetOverCell(j: Json, p: Path, w: Json)
    requires p != [] && CellAt(j, p).Some?
    ensures SetPath(j, p, w).Some?
    decreases |p|
  {
    if |p| > 1 { SetOverCell(j.fields[p[0]], p[1..], w); }
  }

  /** Patching the row of a cell and rebuilding is assigning to that cell in the object. */
  lemma PatchThenRebuild(fl: Floats, rows: seq<Row>, j: Json, name: string, p: Path, w: Json)
    requires name != "" && j.Obj? && Listed(rows, j, name, name) && DotFree(Prune(j)) && CellAt(j, p).Some?
    ensures p != [] && SetPath(Prune(j), p, w).Some?
    ensures Rebuild(fl, Patch(rows, PathText(name, p), w), name) == SetPath(Prune(j), p, w)
  {
    hide RowsMatch, Distinct;
    var ps :| Lists(rows, ps, j, name, name);
    PatchListed(fl, rows, ps, j, name, p, w);
  }

  lemma PatchListed(fl: Floats, rows: seq<Row>, ps: seq<Path>, j: Json, name: string, p: Path, w: Json)
    requires name != "" && j.Obj? && Lists(rows, ps, j, name, name) && DotFree(Prune(j)) && p in ps
    ensures p != [] && SetPath(Prune(j), p, w).Some?
    ensures Rebuild(fl, Patch(rows, PathText(name, p), w), name) == SetPath(Prune(j), p, w)
  {
    var rows' := Patch(rows, PathText(name, p), w);
    var k :| 0 <= k < |ps| && ps[k] == p;
    RebuildFromListed(fl, rows, ps, j, name);
    forall q | q in ps ensures AllNoDot(q) {
      PruneCells(j, q);
      DotFreePath(Prune(j), q);
    }
    forall i | 0 <= i < |rows| ensures IsRow(rows[i], ps[i], j, name, name) && RowPath(rows[i], name) == ps[i] {
      assert ps[i] in ps;
      RowPathIs(rows[i], ps[i], j, name);
    }
    forall i | 0 <= i < |rows| && i != k ensures rows'[i] == rows[i] && Apart(p, RowPath(rows[i], name)) {
      assert ps[i] in ps && ps[i] != p;
      CellsApart(j, p, ps[i]);
      if rows[i].path == PathText(name, p) { PathTextInjective(name, p, ps[i]); }
    }
    CoerceOwnType(fl, w);
    PruneCells(j, p);
    SetOverCell(Prune(j), p, w);
    SetBeforeRest(fl, rows, rows', k, p, w, name);
  }

  function At(j: Json, p: Path): Option<Json>
    decreases |p|
  {
    if p == [] then Some(j)
    else if j.Obj? && p[0] in j.fields then At(j.fields[p[0]], p[1..])
    else None
  }

  /** Assigning to a place changes what stands there and nothing apart from it. */
  lemma {:induction false} SetChangesOnly(j: Json, p: Path, w: Json, q: Path)
    requires p != [] && SetPath(j, p, w).Some? && Apart(p, q)
    ensures At(SetPath(j, p, w).value, p) == Some(w) && At(SetPath(j, p, w).value, q) == At(j, q)
    decreases |p|
  {
    assert q == [q[0]] + q[1..] && p == [p[0]] + p[1..];
    if |p| == 1 {
      assert p[1..] == [];
    } else {
      var sub := if p[0] in j.fields then j.fields[p[0]] else Obj(map[]);
      SetHolds(sub, p[1..], w);
      if p[0] == q[0] {
        ApartTail(p, q);
        SetChangesOnly(sub, p[1..], w, q[1..]);
      }
    }
  }

  lemma {:induction false} SetHolds(j: Json, p: Path, w: Json)
    requires p != [] && SetPath(j, p, w).Some?
    ensures At(SetPath(j, p, w).value, p) == Some(w)
    decreases |p|
  {
    if |p| > 1 {
      SetHolds(if p[0] in j.fields then j.fields[p[0]] else Obj(map[]), p[1..], w);
    } else {
      assert p[1..] == [];
    }
  }

  /** A dotted key comes back as nested keys. */
  lemma DottedKeyIsSplit(fl: Floats)
    ensures var row := RowFor("a.b", Int(1), "o.a.b", "o");
            Rebuild(fl, [row], "o") == Some(Obj(map["a" := Obj(map["b" := Int(1)])]))
  {
    var row := RowFor("a.b", Int(1), "o.a.b", "o");
    hide FieldGroup;
    assert row.path[2..] == Join(".", ["a", "b"]) by { assert ["a", "b"][1..] == ["b"]; }
    SplitJoinedDots(["a", "b"]);
    assert RowPath(row, "o") == ["a", "b"];
    assert Coerce(fl, row.value, row.kind) == Int(1);
    hide RowPath, Coerce, RowFor;
    assert ["a", "b"][1..] == ["b"];
    assert SetPath(Obj(map[]), ["b"], Int(1)) == Some(Obj(map["b" := Int(1)]));
    assert SetPath(Obj(map[]), ["a", "b"], Int(1)) == Some(Obj(map["a" := Obj(map["b" := Int(1)])]));
    assert [row][..0] == [];
    assert Rebuild(fl, [], "o") == Some(Obj(map[]));
  }
}
