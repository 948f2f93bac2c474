/** Constraint trees: what they mean, and which variables they speak of. */
module Constraints {
  import opened Basics

  datatype Expr =
    | Add(l: Expr, r: Expr)
    | Sub(l: Expr, r: Expr)
    | Abs(e: Expr)
    | Var(name: string)
    | Num(n: int)
    | Text(s: string)
    | Item(container: string, key: string)

  datatype Rel = Eq | Ne | Lt | Le | Gt | Ge

  datatype Pred =
    | Compare(rel: Rel, l: Expr, r: Expr)
    | ExactlyOne(items: seq<Expr>)
    | AllDifferent(items: seq<Expr>)
    | InSet(l: Expr, options: seq<Expr>)
    | And(preds: seq<Pred>)
    | Or(preds: seq<Pred>)
    | Not(p: Pred)
    | Implies(a: Pred, b: Pred)

  // ---- values ----

  /** Truth values are 0 and 1, as True == 1. */
  datatype Value =
    | Int(n: int) | Str(s: string) | Tuple(items: seq<Value>) | Dict(m: map<string, Value>) | Set(elems: set<Value>)

  type Env = map<string, Value>

  function Truth(b: bool): Value { Int(if b then 1 else 0) }

  predicate Truthy(v: Value) {
    match v
    case Int(n) => n != 0
    case Str(s) => s != ""
    case Tuple(items) => items != []
    case Dict(m) => m != map[]
    case Set(elems) => elems != {}
  }

  predicate StrLess(a: string, b: string) {
    b != [] && (a == [] || a[0] < b[0] || (a[0] == b[0] && StrLess(a[1..], b[1..])))
  }

  /** `a < b`, tuples by their first difference and sets by inclusion; None where Python raises TypeError. */
  function Less(a: Value, b: Value): Option<bool>
    decreases a, 1
  {
    if a.Int? && b.Int? then Some(a.n < b.n)
    else if a.Str? && b.Str? then Some(StrLess(a.s, b.s))
    else if a.Tuple? && b.Tuple? then TupleLess(a.items, b.items)
    else if a.Set? && b.Set? then Some(a.elems < b.elems)
    else None
  }

  function TupleLess(xs: seq<Value>, ys: seq<Value>): Option<bool>
    decreases xs, 0
  {
    if xs == [] || ys == [] then Some(|xs| < |ys|)
    else if xs[0] == ys[0] then TupleLess(xs[1..], ys[1..])
    else Less(xs[0], ys[0])
  }

  function Relate(rel: Rel, a: Value, b: Value): Option<bool> {
    match rel
    case Eq => Some(a == b)
    case Ne => Some(a != b)
    case Lt => Less(a, b)
    case Gt => Less(b, a)
    case Le => (var r := Less(a, b); if r.None? then None else Some(r.value || a == b))
    case Ge => (var r := Less(b, a); if r.None? then None else Some(r.value || a == b))
  }

  /** `a + b` joins texts and tuples, `a - b` takes sets apart; None where Python raises TypeError. */
  function Arith(plus: bool, a: Value, b: Value): Option<Value> {
    if a.Int? && b.Int? then Some(Int(if plus then a.n + b.n else a.n - b.n))
    else if plus && a.Str? && b.Str? then Some(Str(a.s + b.s))
    else if plus && a.Tuple? && b.Tuple? then Some(Tuple(a.items + b.items))
    else if !plus && a.Set? && b.Set? then Some(Set(a.elems - b.elems))
    else None
  }

  function Absolute(a: Value): Option<Value> { if a.Int? then Some(Int(if a.n < 0 then -a.n else a.n)) else None }

  function Lookup(env: Env, container: string, key: string): Option<Value> {
    if container in env && env[container].Dict? && key in env[container].m then Some(env[container].m[key]) else None
  }

  // ---- the logical meaning ----

  function Mean(e: Expr, env: Env): Option<Value> {
    match e
    case Add(l, r) =>
      var (a, b) := (Mean(l, env), Mean(r, env));
      if a.None? || b.None? then None else Arith(true, a.value, b.value)
    case Sub(l, r) =>
      var (a, b) := (Mean(l, env), Mean(r, env));
      if a.None? || b.None? then None else Arith(false, a.value, b.value)
    case Abs(i) => (var a := Mean(i, env); if a.None? then None else Absolute(a.value))
    case Var(name) => if name in env then Some(env[name]) else None
    case Num(n) => Some(Int(n))
    case Text(s) => Some(Str(s))
    case Item(container, key) => Lookup(env, container, key)
  }

  function MeanAll(es: seq<Expr>, env: Env): Option<seq<Value>> {
    if es == [] then Some([])
    else
      var (a, rest) := (Mean(es[0], env), MeanAll(es[1..], env));
      if a.None? || rest.None? then None else Some([a.value] + rest.value)
  }

  function CountTruthy(vs: seq<Value>): nat {
    if vs == [] then 0 else (if Truthy(vs[0]) then 1 else 0) + CountTruthy(vs[1..])
  }

  /** Values that can be members of a set. */
  predicate Hashable(v: Value) {
    match v
    case Tuple(items) => forall i :: 0 <= i < |items| ==> Hashable(items[i])
    case Dict(_) => false
    case Set(_) => false
    case _ => true
  }

  predicate AllHashable(vs: seq<Value>) { forall i :: 0 <= i < |vs| ==> Hashable(vs[i]) }

  function Holds(p: Pred, env: Env): Option<bool>
    decreases p, 1
  {
    match p
    case Compare(rel, l, r) =>
      var (a, b) := (Mean(l, env), Mean(r, env));
      if a.None? || b.None? then None else Relate(rel, a.value, b.value)
    case ExactlyOne(items) => (var vs := MeanAll(items, env); if vs.None? then None
        else Some(CountTruthy(vs.value) == 1))
    case AllDifferent(items) =>
      var vs := MeanAll(items, env);
      if vs.None? || !AllHashable(vs.value) then None else Some(Distinct(vs.value))
    case InSet(l, options) =>
      var (a, vs) := (Mean(l, env), MeanAll(options, env));
      if a.None? || vs.None? then None else Some(a.value in vs.value)
    case And(preds) => HoldAll(preds, env)
    case Or(preds) => HoldsAny(preds, env)
    case Not(q) => (var b := Holds(q, env); if b.None? then None else Some(!b.value))
    case Implies(a, b) =>
      var x := Holds(a, env);
      if x.None? || !x.value then (if x.None? then None else Some(true)) else Holds(b, env)
  }

  /** From left to right, up to the first that does not hold. */
  function HoldAll(ps: seq<Pred>, env: Env): Option<bool>
    decreases ps, 0
  {
    if ps == [] then Some(true)
    else
      var x := Holds(ps[0], env);
      if x.None? || !x.value then x else HoldAll(ps[1..], env)
  }

  function HoldsAny(ps: seq<Pred>, env: Env): Option<bool>
    decreases ps, 0
  {
    if ps == [] then Some(false)
    else
      var x := Holds(ps[0], env);
      if x.None? || x.value then x else HoldsAny(ps[1..], env)
  }

  // ---- variables ----

  /** The names in a constraint, from left to right. */
  function NamesOf(e: Expr): seq<string> {
    match e
    case Add(l, r) => NamesOf(l) + NamesOf(r)
    case Sub(l, r) => NamesOf(l) + NamesOf(r)
    case Abs(i) => NamesOf(i)
    case Var(name) => [name]
    case Item(container, _) => [container]
    case _ => []
  }

  function NamesOfAll(es: seq<Expr>): seq<string> { if es == [] then [] else NamesOf(es[0]) + NamesOfAll(es[1..]) }

  function Names(p: Pred): seq<string>
    decreases p, 1
  {
    match p
    case Compare(_, l, r) => NamesOf(l) + NamesOf(r)
    case ExactlyOne(items) => NamesOfAll(items)
    case AllDifferent(items) => NamesOfAll(items)
    case InSet(l, options) => NamesOf(l) + NamesOfAll(options)
    case And(preds) => NamesAll(preds)
    case Or(preds) => NamesAll(preds)
    case Not(q) => Names(q)
    case Implies(a, b) => Names(a) + Names(b)
  }

  function NamesAll(ps: seq<Pred>): seq<string>
    decreases ps, 0
  {
    if ps == [] then [] else Names(ps[0]) + NamesAll(ps[1..])
  }

  /** Each name once, where it occurs first. */
  function Firsts(done: seq<string>, names: seq<string>): seq<string>
    decreases |names|
  {
    if names == [] then done else Firsts(if names[0] in done then done else done + [names[0]], names[1..])
  }

  /** `_merge_vars`. */
  method MergeVars(groups: seq<seq<string>>) returns (ordered: seq<string>)
    ensures ordered == Firsts([], Flat(groups))
  {
    ordered := [];
    for g := 0 to |groups|
      invariant Firsts(ordered, Flat(groups[g..])) == Firsts([], Flat(groups))
    {
      assert groups[g..][1..] == groups[g + 1..];
      ghost var rest := Flat(groups[g + 1..]);
      assert groups[g][0..] == groups[g];
      for i := 0 to |groups[g]|
        invariant Firsts(ordered, groups[g][i..] + rest) == Firsts([], Flat(groups))
      {
        assert (groups[g][i..] + rest)[1..] == groups[g][i + 1..] + rest;
        if groups[g][i] !in ordered { ordered := ordered + [groups[g][i]]; }
      }
      assert groups[g][|groups[g]|..] + rest == rest;
    }
  }

  function Flat(groups: seq<seq<string>>): seq<string> { if groups == [] then [] else groups[0] + Flat(groups[1..]) }

  /** What `variables` gives: merging at every level is the same as taking the first occurrences at the end. */
  function Variables(p: Pred): seq<string>
    decreases p, 1
  {
    match p
    case Compare(_, l, r) => Firsts([], VariablesOf(l) + VariablesOf(r))
    case ExactlyOne(items) => Firsts([], VariablesOfAll(items))
    case AllDifferent(items) => Firsts([], VariablesOfAll(items))
    case InSet(l, options) => Firsts([], VariablesOf(l) + VariablesOfAll(options))
    case And(preds) => Firsts([], VariablesAll(preds))
    case Or(preds) => Firsts([], VariablesAll(preds))
    case Not(q) => Variables(q)
    case Implies(a, b) => Firsts([], Variables(a) + Variables(b))
  }

  function VariablesAll(ps: seq<Pred>): seq<string>
    decreases ps, 0
  {
    if ps == [] then [] else Variables(ps[0]) + VariablesAll(ps[1..])
  }

  function VariablesOf(e: Expr): seq<string> {
    match e
    case Add(l, r) => Firsts([], VariablesOf(l) + VariablesOf(r))
    case Sub(l, r) => Firsts([], VariablesOf(l) + VariablesOf(r))
    case Abs(i) => VariablesOf(i)
    case Var(name) => [name]
    case Item(container, _) => [container]
    case _ => []
  }

  function VariablesOfAll(es: seq<Expr>): seq<string> {
    if es == [] then [] else VariablesOf(es[0]) + VariablesOfAll(es[1..])
  }

  lemma {:induction false} FirstsAppend(done: seq<string>, a: seq<string>, b: seq<string>)
    ensures Firsts(done, a + b) == Firsts(Firsts(done, a), b)
    decreases |a|
  {
    if a == [] {
      assert a + b == b;
    } else {
      assert (a + b)[1..] == a[1..] + b;
      FirstsAppend(if a[0] in done then done else done + [a[0]], a[1..], b);
    }
  }

  lemma {:induction false} FirstsKeeps(done: seq<string>, names: seq<string>)
    requires Distinct(done)
    ensures var r := Firsts(done, names);
            Distinct(r) && done <= r && forall x :: x in r <==> x in done || x in names
    decreases |names|
  {
    if names != [] {
      var next := if names[0] in done then done else done + [names[0]];
      assert forall i :: 0 <= i < |done| ==> done[i] in done;
      FirstsKeeps(next, names[1..]);
      assert names == [names[0]] + names[1..];
    }
  }

  /** Taking first occurrences beforehand changes nothing. */
  lemma {:induction false} FirstsOfFirsts(done: seq<string>, start: seq<string>, names: seq<string>)
    requires Distinct(done) && Distinct(start)
    ensures Firsts(done, Firsts(start, names)) == Firsts(Firsts(done, start), names)
    decreases |names|
  {
    if names != [] {
      var x := names[0];
      FirstsKeeps(done, start);
      if x in start {
        FirstsOfFirsts(done, start, names[1..]);
      } else {
        assert forall i :: 0 <= i < |start| ==> start[i] in start;
        FirstsOfFirsts(done, start + [x], names[1..]);
        FirstsAppend(done, start, [x]);
        assert [x][1..] == [];
        assert Firsts(Firsts(done, start), [x]) ==
               if x in Firsts(done, start) then Firsts(done, start) else Firsts(done, start) + [x];
      }
    }
  }

  lemma FirstsMerge(done: seq<string>, a: seq<string>, va: seq<string>, rest: seq<string>)
    requires va == Firsts([], a) && Distinct(done)
    ensures Firsts(done, va + rest) == Firsts(Firsts(done, a), rest)
  {
    FirstsAppend(done, va, rest);
    FirstsOfFirsts(done, [], a);
  }

  lemma FirstsOne(x: string)
    ensures Firsts([], [x]) == [x]
  {
    assert [x][1..] == [] && [] + [x] == [x];
  }

  lemma {:induction false} VariablesOfAre(e: Expr)
    ensures VariablesOf(e) == Firsts([], NamesOf(e))
  {
    match e {
      case Add(l, r) =>
        VariablesOfAre(l);
        VariablesOfAre(r);
        MergeTwo(NamesOf(l), NamesOf(r));
      case Sub(l, r) =>
        VariablesOfAre(l);
        VariablesOfAre(r);
        MergeTwo(NamesOf(l), NamesOf(r));
      case Abs(i) => VariablesOfAre(i);
      case Var(name) => FirstsOne(name);
      case Item(container, _) => FirstsOne(container);
      case _ =>
    }
  }

  lemma MergeTwo(a: seq<string>, b: seq<string>)
    ensures Firsts([], Firsts([], a) + Firsts([], b)) == Firsts([], a + b)
  {
    FirstsMerge([], a, Firsts([], a), Firsts([], b));
    FirstsKeeps([], a);
    FirstsOfFirsts(Firsts([], a), [], b);
    FirstsAppend([], a, b);
  }

  lemma MergeMore(done: seq<string>, a: seq<string>, rest: seq<string>, b: seq<string>)
    requires Distinct(done)
    requires Firsts(Firsts(done, a), rest) == Firsts(Firsts(done, a), b)
    ensures Firsts(done, Firsts([], a) + rest) == Firsts(done, a + b)
  {
    FirstsMerge(done, a, Firsts([], a), rest);
    FirstsAppend(done, a, b);
  }

  lemma {:induction false} VariablesOfAllAre(done: seq<string>, es: seq<Expr>)
    requires Distinct(done)
    ensures Firsts(done, VariablesOfAll(es)) == Firsts(done, NamesOfAll(es))
    decreases |es|
  {
    if es != [] {
      VariablesOfAre(es[0]);
      FirstsKeeps(done, NamesOf(es[0]));
      VariablesOfAllAre(Firsts(done, NamesOf(es[0])), es[1..]);
      MergeMore(done, NamesOf(es[0]), VariablesOfAll(es[1..]), NamesOfAll(es[1..]));
    }
  }

  lemma {:induction false} VariablesAllAre(done: seq<string>, ps: seq<Pred>)
    requires Distinct(done)
    ensures Firsts(done, VariablesAll(ps)) == Firsts(done, NamesAll(ps))
    decreases ps, 0
  {
    if ps != [] {
      VariablesAre(ps[0]);
      FirstsKeeps(done, Names(ps[0]));
      VariablesAllAre(Firsts(done, Names(ps[0])), ps[1..]);
      MergeMore(done, Names(ps[0]), VariablesAll(ps[1..]), NamesAll(ps[1..]));
    }
  }

  lemma {:induction false} VariablesAre(p: Pred)
    ensures Variables(p) == Firsts([], Names(p))
    decreases p, 1
  {
    match p {
      case Compare(_, l, r) =>
        VariablesOfAre(l);
        VariablesOfAre(r);
        MergeTwo(NamesOf(l), NamesOf(r));
      case ExactlyOne(items) => VariablesOfAllAre([], items);
      case AllDifferent(items) => VariablesOfAllAre([], items);
      case InSet(l, options) =>
        VariablesOfAre(l);
        FirstsKeeps([], NamesOf(l));
        VariablesOfAllAre(Firsts([], NamesOf(l)), options);
        MergeMore([], NamesOf(l), VariablesOfAll(options), NamesOfAll(options));
      case And(preds) => VariablesAllAre([], preds);
      case Or(preds) => VariablesAllAre([], preds);
      case Not(q) => VariablesAre(q);
      case Implies(a, b) =>
        VariablesAre(a);
        VariablesAre(b);
        MergeTwo(Names(a), Names(b));
    }
  }

  ghost predicate SameOn(names: seq<string>, env: Env, env': Env) {
    forall x :: x in names ==> (x in env <==> x in env') && (x in env ==> env[x] == env'[x])
  }

  lemma {:induction false} MeanNeedsNames(e: Expr, env: Env, env': Env)
    requires SameOn(NamesOf(e), env, env')
    ensures Mean(e, env) == Mean(e, env')
  {
    match e {
      case Add(l, r) =>
        MeanNeedsNames(l, env, env');
        MeanNeedsNames(r, env, env');
      case Sub(l, r) =>
        MeanNeedsNames(l, env, env');
        MeanNeedsNames(r, env, env');
      case Abs(i) => MeanNeedsNames(i, env, env');
      case Var(name) => assert name in NamesOf(e);
      case Item(container, _) => assert container in NamesOf(e);
      case _ =>
    }
  }

  lemma {:induction false} MeanAllNeedsNames(es: seq<Expr>, env: Env, env': Env)
    requires SameOn(NamesOfAll(es), env, env')
    ensures MeanAll(es, env) == MeanAll(es, env')
  {
    if es != [] {
      MeanNeedsNames(es[0], env, env');
      MeanAllNeedsNames(es[1..], env, env');
    }
  }

  lemma {:induction false} HoldsNeedsNames(p: Pred, env: Env, env': Env)
    requires SameOn(Names(p), env, env')
    ensures Holds(p, env) == Holds(p, env')
    decreases p, 1
  {
    match p {
      case Compare(_, l, r) =>
        MeanNeedsNames(l, env, env');
        MeanNeedsNames(r, env, env');
      case ExactlyOne(items) => MeanAllNeedsNames(items, env, env');
      case AllDifferent(items) => MeanAllNeedsNames(items, env, env');
      case InSet(l, options) =>
        MeanNeedsNames(l, env, env');
        MeanAllNeedsNames(options, env, env');
      case And(preds) => HoldAllNeedsNames(preds, env, env');
      case Or(preds) => HoldAllNeedsNames(preds, env, env');
      case Not(q) => HoldsNeedsNames(q, env, env');
      case Implies(a, b) =>
        HoldsNeedsNames(a, env, env');
        HoldsNeedsNames(b, env, env');
    }
  }

  lemma {:induction false} HoldAllNeedsNames(ps: seq<Pred>, env: Env, env': Env)
    requires SameOn(NamesAll(ps), env, env')
    ensures HoldAll(ps, env) == HoldAll(ps, env') && HoldsAny(ps, env) == HoldsAny(ps, env')
    decreases ps, 0
  {
    if ps != [] {
      HoldsNeedsNames(ps[0], env, env');
      HoldAllNeedsNames(ps[1..], env, env');
    }
  }

  /** The variables are the names in order of first occurrence, none twice, and the meaning depends on nothing else. */
  lemma MeaningNeedsVariables(p: Pred, env: Env, env': Env)
    requires SameOn(Variables(p), env, env')
    ensures Variables(p) == Firsts([], Names(p)) && Distinct(Variables(p))
    ensures Holds(p, env) == Holds(p, env')
  {
    VariablesAre(p);
    FirstsKeeps([], Names(p));
    HoldsNeedsNames(p, env, env');
  }

  /** Where a name stands first, or the length. */
  function FirstAt(names: seq<string>, x: string): (k: nat)
    ensures k <= |names| && (k < |names| <==> x in names)
  {
    if names == [] || names[0] == x then 0 else 1 + FirstAt(names[1..], x)
  }

  lemma {:induction false} FirstAtSnoc(names: seq<string>, last: string, x: string)
    ensures FirstAt(names + [last], x) == if x in names then FirstAt(names, x) else if x == last then |names|
            else |names| + 1
  {
    if names == [] {
      assert names + [last] == [last] && [last][1..] == [];
    } else {
      assert (names + [last])[1..] == names[1..] + [last];
      FirstAtSnoc(names[1..], last, x);
    }
  }

  /** The merged names stand in the order in which they occur first. */
  lemma {:induction false} FirstsInOrder(names: seq<string>, i: nat, j: nat)
    requires i < j < |Firsts([], names)|
    ensures FirstAt(names, Firsts([], names)[i]) < FirstAt(names, Firsts([], names)[j])
    decreases |names|
  {
    var front, last := names[..|names| - 1], names[|names| - 1];
    assert names == front + [last];
    var r, whole := Firsts([], front), Firsts([], names);
    FirstsAppend([], front, [last]);
    assert [last][1..] == [];
    assert whole == if last in r then r else r + [last];
    FirstsKeeps([], front);
    FirstAtSnoc(front, last, whole[i]);
    FirstAtSnoc(front, last, whole[j]);
    assert i < |r| && r[i] in r;
    if j < |r| {
      assert r[j] in r;
      FirstsInOrder(front, i, j);
    }
  }
}
