/** The Python value of a printed constraint is its logical meaning. */
module ConstraintMeaning {
  import opened Basics
  import opened Constraints
  import opened ConstraintPython
  import Text

  // ---- evaluation ----

  function Chars(s: string): seq<Value> { seq(|s|, i requires 0 <= i < |s| => Str([s[i]])) }

  /** The elements in an order that nothing is known of. */
  ghost function InOrder(s: set<Value>): (r: seq<Value>)
    ensures |r| == |s| && Distinct(r) && forall v :: v in r <==> v in s
  {
    if s == {} then [] else var v :| v in s; [v] + InOrder(s - {v})
  }

  function Keys(m: map<string, Value>): set<Value> { set k | k in m :: Str(k) }

  /** What `for` runs over. */
  ghost function Iterate(v: Value): Option<seq<Value>> {
    match v
    case Tuple(items) => Some(items)
    case Str(s) => Some(Chars(s))
    case Dict(m) => Some(InOrder(Keys(m)))
    case Set(elems) => Some(InOrder(elems))
    case Int(_) => None
  }

  function Member(a: Value, b: Value): Option<bool> {
    match b
    case Tuple(items) => Some(a in items)
    case Str(s) => if a.Str? then Some(Text.Contains(s, a.s)) else None
    case Dict(m) => if Hashable(a) then Some(a.Str? && a.s in m) else None
    case Set(elems) => if Hashable(a) || a.Set? then Some(a in elems) else None
    case Int(_) => None
  }

  function CompareBy(op: CmpOp, a: Value, b: Value): Option<bool> {
    match op
    case RelCmp(rel) => Relate(rel, a, b)
    case InCmp => Member(a, b)
  }

  function ElemsOf(vs: seq<Value>): set<Value> { set v | v in vs }

  /** The built-in functions; a variable of the same name hides them. */
  ghost function Call(f: string, v: Value): Option<Value> {
    if f == "abs" then Absolute(v)
    else if f == "len" then
      match v
      case Tuple(items) => Some(Int(|items|))
      case Str(s) => Some(Int(|s|))
      case Dict(m) => Some(Int(|m|))
      case Set(elems) => Some(Int(|elems|))
      case Int(_) => None
    else if f == "set" then
      var vs := Iterate(v);
      if vs.None? || !AllHashable(vs.value) then None else Some(Set(ElemsOf(vs.value)))
    else None
  }

  /** None is an exception. */
  ghost function Eval(e: Py, env: Env): Option<Value>
    decreases e, 2, 0
  {
    match e
    case PName(name) => if name in env then Some(env[name]) else None
    case PNum(n) => Some(Int(n))
    case PStr(s) => Some(Str(s))
    case PNeg(i) => (var v := Eval(i, env); if v.None? || !v.value.Int? then None else Some(Int(-v.value.n)))
    case PIndex(c, key) =>
      var (m, k) := (Eval(c, env), Eval(key, env));
      if m.Some? && k.Some? && m.value.Dict? && k.value.Str? && k.value.s in m.value.m then Some(m.value.m[k.value.s])
        else None
    case PCall(f, arg) =>
      var v := Eval(arg, env);
      if v.None? || !f.PName? || f.name in env then None else Call(f.name, v.value)
    case PGen(f, _, _, src, _) =>
      var v := Eval(src, env);
      if v.None? || f != PName("sum") || "sum" in env || Iterate(v.value).None? then None
      else SumOver(e, Iterate(v.value).value, env)
    case PTuple(items) => (var vs := EvalAll(items, env); if vs.None? then None else Some(Tuple(vs.value)))
    case PArith(plus, l, r) =>
      var (a, b) := (Eval(l, env), Eval(r, env));
      if a.None? || b.None? then None else Arith(plus, a.value, b.value)
    case PCompare(first, rests) => (var a := Eval(first, env); if a.None? then None else EvalChain(a.value, rests, env))
    case PNot(i) => (var v := Eval(i, env); if v.None? then None else Some(Truth(!Truthy(v.value))))
    case PAnd(l, r) =>
      var v := Eval(l, env);
      if v.None? || !Truthy(v.value) then v else Eval(r, env)
    case POr(l, r) =>
      var v := Eval(l, env);
      if v.None? || Truthy(v.value) then v else Eval(r, env)
  }

  ghost function EvalAll(es: seq<Py>, env: Env): Option<seq<Value>>
    decreases es, 1, 0
  {
    if es == [] then Some([])
    else
      var (a, rest) := (Eval(es[0], env), EvalAll(es[1..], env));
      if a.None? || rest.None? then None else Some([a.value] + rest.value)
  }

  /** The comparisons one after another, up to the first that fails. */
  ghost function EvalChain(a: Value, rests: seq<Cmp>, env: Env): Option<Value>
    decreases rests, 1, 0
  {
    if rests == [] then Some(Truth(true))
    else
      var b := Operand(rests[0], env);
      if b.None? then None
      else
        var r := CompareBy(rests[0].op, a, b.value);
        if r.None? then None
        else if !r.value || |rests| == 1 then Some(Truth(r.value))
        else EvalChain(b.value, rests[1..], env)
  }

  ghost function Operand(c: Cmp, env: Env): Option<Value>
    decreases c, 3, 0
  {
    Eval(c.right, env)
  }

  /** The sum of a generator over the values; its variable is known inside alone. */
  ghost function SumOver(g: Py, vs: seq<Value>, env: Env): Option<Value>
    requires g.PGen?
    decreases g, 1, |vs|
  {
    if vs == [] then Some(Int(0))
    else
      var inside := env[g.name := vs[0]];
      var (cond, rest) := (Eval(g.cond, inside), SumOver(g, vs[1..], env));
      if cond.None? || rest.None? then None
      else if !Truthy(cond.value) then rest
      else
        var v := Eval(g.item, inside);
        if v.None? then None else Arith(true, v.value, rest.value)
  }

  function TruthOf(v: Option<Value>): Option<bool> { if v.None? then None else Some(Truthy(v.value)) }

  // ---- expressions ----

  const BUILTINS: set<string> := {"abs", "len", "set", "sum"}

  predicate Clean(env: Env) { env.Keys !! BUILTINS }

  lemma {:induction false} ExprMeans(e: Expr, env: Env)
    requires Clean(env)
    ensures Eval(ReadExpr(e), env) == Mean(e, env)
  {
    match e {
      case Add(l, r) =>
        ExprMeans(l, env);
        ExprMeans(r, env);
      case Sub(l, r) =>
        ExprMeans(l, env);
        ExprMeans(r, env);
      case Abs(i) =>
        ExprMeans(i, env);
        assert "abs" in BUILTINS;
      case Num(n) => assert n < 0 ==> Eval(PNum(-n), env) == Some(Int(-n));
      case Item(container, key) => assert Eval(PStr(key), env) == Some(Str(key));
      case _ =>
    }
  }

  lemma {:induction false} AllMean(es: seq<Expr>, env: Env)
    requires Clean(env)
    ensures EvalAll(ReadAll(es), env) == MeanAll(es, env)
    decreases |es|
  {
    if es != [] {
      ExprMeans(es[0], env);
      AllMean(es[1..], env);
      assert ReadAll(es)[1..] == ReadAll(es[1..]);
    }
  }

  lemma GroupMeans(es: seq<Expr>, env: Env)
    requires Clean(env) && |es| != 1
    ensures Eval(ReadGroup(es), env) == var vs := MeanAll(es, env); if vs.None? then None else Some(Tuple(vs.value))
  {
    AllMean(es, env);
  }

  lemma {:induction false} SumCounts(g: Py, vs: seq<Value>, env: Env)
    requires g.PGen? && g.item == PNum(1) && g.name == "value" && g.cond == PName("value")
    ensures SumOver(g, vs, env) == Some(Int(CountTruthy(vs)))
    decreases |vs|
  {
    if vs != [] {
      SumCounts(g, vs[1..], env);
      assert Eval(g.cond, env["value" := vs[0]]) == Some(vs[0]);
    }
  }

  lemma {:induction false} DistinctElems(vs: seq<Value>)
    ensures |ElemsOf(vs)| <= |vs| && (|ElemsOf(vs)| == |vs| <==> Distinct(vs))
    decreases |vs|
  {
    if vs != [] {
      var front, last := vs[..|vs| - 1], vs[|vs| - 1];
      DistinctElems(front);
      assert vs == front + [last];
      assert ElemsOf(vs) == ElemsOf(front) + {last};
      assert last in front <==> last in ElemsOf(front);
      if Distinct(vs) { assert forall i :: 0 <= i < |front| ==> front[i] == vs[i]; }
      if Distinct(front) && last !in front { assert Distinct(vs); }
      if last in front {
        var i :| 0 <= i < |front| && front[i] == last;
        assert vs[i] == vs[|vs| - 1];
      }
    }
  }

  // ---- predicates ----

  /** `and` has an item, and no other list exactly one. */
  predicate WellSized(p: Pred)
    decreases p, 1
  {
    match p
    case ExactlyOne(items) => |items| != 1
    case AllDifferent(items) => |items| != 1
    case InSet(_, options) => |options| != 1
    case And(preds) => preds != [] && AllWellSized(preds)
    case Or(preds) => AllWellSized(preds)
    case Not(q) => WellSized(q)
    case Implies(a, b) => WellSized(a) && WellSized(b)
    case Compare(_, _, _) => true
  }

  predicate AllWellSized(ps: seq<Pred>)
    decreases ps, 0
  {
    ps == [] || (WellSized(ps[0]) && AllWellSized(ps[1..]))
  }

  lemma ChainOfOne(a: Value, op: CmpOp, e: Py, env: Env)
    ensures EvalChain(a, [Cmp(op, e)], env) ==
            var b := Eval(e, env);
            if b.None? || CompareBy(op, a, b.value).None? then None else Some(Truth(CompareBy(op, a, b.value).value))
  {
  }

  lemma CompareMeans(op: CmpOp, l: Py, r: Py, env: Env)
    ensures TruthOf(Eval(PCompare(l, [Cmp(op, r)]), env)) ==
            var (a, b) := (Eval(l, env), Eval(r, env));
            if a.None? || b.None? then None else CompareBy(op, a.value, b.value)
  {
    hide CompareBy, EvalChain, Truth;
    var a := Eval(l, env);
    assert Eval(PCompare(l, [Cmp(op, r)]), env) == if a.None? then None else EvalChain(a.value, [Cmp(op, r)], env);
    hide Eval;
    if a.Some? {
      ChainOfOne(a.value, op, r, env);
      TruthOfTruth();
    }
  }

  lemma TruthOfTruth()
    ensures Truthy(Truth(true)) && !Truthy(Truth(false))
  {
  }

  lemma ExactlyOneMeans(items: seq<Expr>, env: Env)
    requires Clean(env) && |items| != 1
    ensures TruthOf(Eval(ReadPred(ExactlyOne(items)), env)) == Holds(ExactlyOne(items), env)
  {
    GroupMeans(items, env);
    var g, vs := ReadSum(items), MeanAll(items, env);
    assert "sum" in BUILTINS;
    if vs.Some? { SumCounts(g, vs.value, env); }
    assert Eval(g, env) == if vs.None? then None else Some(Int(CountTruthy(vs.value)));
    CompareMeans(RelCmp(Eq), g, PNum(1), env);
  }

  lemma AllDifferentMeans(items: seq<Expr>, env: Env)
    requires Clean(env) && |items| != 1
    ensures TruthOf(Eval(ReadPred(AllDifferent(items)), env)) == Holds(AllDifferent(items), env)
  {
    GroupMeans(items, env);
    var group, vs := ReadGroup(items), MeanAll(items, env);
    hide ReadGroup, MeanAll;
    assert "len" in BUILTINS && "set" in BUILTINS;
    var elems, size := PCall(PName("len"), PCall(PName("set"), group)), PCall(PName("len"), group);
    assert Eval(size, env) == if vs.None? then None else Some(Int(|vs.value|));
    assert Eval(PCall(PName("set"), group), env) ==
           if vs.None? || !AllHashable(vs.value) then None else Some(Set(ElemsOf(vs.value)));
    assert Eval(elems, env) == if vs.None? || !AllHashable(vs.value) then None else Some(Int(|ElemsOf(vs.value)|));
    if vs.Some? { DistinctElems(vs.value); }
    CompareMeans(RelCmp(Eq), elems, size, env);
  }

  lemma InSetMeans(l: Expr, options: seq<Expr>, env: Env)
    requires Clean(env) && |options| != 1
    ensures TruthOf(Eval(ReadPred(InSet(l, options)), env)) == Holds(InSet(l, options), env)
  {
    ExprMeans(l, env);
    GroupMeans(options, env);
    CompareMeans(InCmp, ReadExpr(l), ReadGroup(options), env);
  }

  /** The tree that a printed predicate is read as has its meaning. */
  lemma {:induction false} PredMeans(p: Pred, env: Env)
    requires WellSized(p) && Clean(env)
    ensures TruthOf(Eval(ReadPred(p), env)) == Holds(p, env)
    decreases p, 2
  {
    hide Relate, Mean, MeanAll, ReadExpr, ReadGroup, EvalChain, SumOver, Call, Iterate;
    match p {
      case Compare(rel, l, r) =>
        ExprMeans(l, env);
        ExprMeans(r, env);
        CompareMeans(RelCmp(rel), ReadExpr(l), ReadExpr(r), env);
      case ExactlyOne(items) => ExactlyOneMeans(items, env);
      case AllDifferent(items) => AllDifferentMeans(items, env);
      case InSet(l, options) => InSetMeans(l, options, env);
      case And(preds) =>
        PredMeans(preds[0], env);
        AndFromMeans(ReadPred(preds[0]), preds[1..], env);
      case Or(preds) =>
        if preds != [] {
          PredMeans(preds[0], env);
          OrFromMeans(ReadPred(preds[0]), preds[1..], env);
        }
      case Not(q) => PredMeans(q, env);
      case Implies(a, b) =>
        PredMeans(a, env);
        PredMeans(b, env);
    }
  }

  lemma {:induction false} AndFromMeans(a: Py, ps: seq<Pred>, env: Env)
    requires AllWellSized(ps) && Clean(env)
    ensures TruthOf(Eval(AndFrom(a, ps), env)) ==
            var x := TruthOf(Eval(a, env)); if x.None? || !x.value then x else HoldAll(ps, env)
    decreases ps, 1
  {
    if ps != [] {
      PredMeans(ps[0], env);
      AndFromMeans(PAnd(a, ReadPred(ps[0])), ps[1..], env);
    }
  }

  lemma {:induction false} OrFromMeans(a: Py, ps: seq<Pred>, env: Env)
    requires AllWellSized(ps) && Clean(env)
    ensures TruthOf(Eval(OrFrom(a, ps), env)) ==
            var x := TruthOf(Eval(a, env)); if x.None? || x.value then x else HoldsAny(ps, env)
    decreases ps, 1
  {
    if ps != [] {
      PredMeans(ps[0], env);
      OrFromMeans(POr(a, ReadPred(ps[0])), ps[1..], env);
    }
  }

  /** A well-sized constraint, printed and read back by the grammar, is read in full and evaluates to its meaning. */
  lemma PrintedConstraintMeans(p: Pred, env: Env)
    requires WellSized(p) && Clean(env)
    ensures var r := ParseAt(0, PrintPred(p, End));
            r.Some? && r.value.1 == End && TruthOf(Eval(r.value.0, env)) == Holds(p, env)
  {
    ReadsPred(p, End);
    HeadOfPred(p, End);
    PredMeans(p, env);
    hide ParseAt, PrintPred, ReadPred, Eval, Holds;
    Climb(0, 5, PrintPred(p, End), ReadPred(p), End);
  }

  // ---- where the printed constraint differs ----

  /** The printed predicate is right under env. */
  ghost predicate Right(p: Pred, env: Env) { TruthOf(Eval(ReadPred(p), env)) == Holds(p, env) }

  /** `and` of nothing is printed as the empty tuple, which is false: a conjunction of well-sized items is right exactly
   *  when it has one. */
  lemma AndIsRight(ps: seq<Pred>, env: Env)
    requires AllWellSized(ps) && Clean(env)
    ensures Right(And(ps), env) <==> ps != []
  {
    if ps == [] { assert EvalAll([], env) == Some([]); } else { PredMeans(And(ps), env); }
  }

  lemma LoneItem(e: Expr, env: Env)
    requires Clean(env)
    ensures Eval(ReadGroup([e]), env) == Mean(e, env)
    ensures MeanAll([e], env) == if Mean(e, env).None? then None else Some([Mean(e, env).value])
  {
    ExprMeans(e, env);
    assert ReadGroup([e]) == ReadExpr(e);
    hide Mean, ReadExpr, Eval;
    assert [e][1..] == [];
    assert MeanAll([e][1..], env) == Some([]);
    if Mean(e, env).Some? { assert [Mean(e, env).value] + [] == [Mean(e, env).value]; }
  }

  /** A lone option in parentheses is no tuple: `in` then looks into the value itself. */
  predicate LoneOptionFits(a: Value, v: Value) {
    match v
    case Int(_) => false
    case Str(s) => a.Str? && (a.s == s || !Text.Contains(s, a.s))
    case Tuple(items) => a != v && a !in items
    case Dict(m) => a != v && Hashable(a) && !(a.Str? && a.s in m)
    case Set(elems) => a != v && (Hashable(a) || a.Set?) && a !in elems
  }

  /** Membership among one option is right exactly when a side raises, or the option's value fits: never for a number,
   *  and for a text when the left side is that very text or a text that does not occur in it. */
  lemma LoneOptionIsRight(l: Expr, e: Expr, env: Env)
    requires Clean(env)
    ensures var (a, v) := (Mean(l, env), Mean(e, env));
            Right(InSet(l, [e]), env) <==> a.None? || v.None? || LoneOptionFits(a.value, v.value)
  {
    ExprMeans(l, env);
    LoneItem(e, env);
    CompareMeans(InCmp, ReadExpr(l), ReadGroup([e]), env);
    var (a, v) := (Mean(l, env), Mean(e, env));
    hide ReadExpr, ReadGroup, Eval, Mean, MeanAll;
    if a.Some? && v.Some? { MemberOfOne(a.value, v.value); }
  }

  lemma MemberOfOne(a: Value, v: Value)
    ensures Member(a, v) == Some(a in [v]) <==> LoneOptionFits(a, v)
  {
    if v.Str? { Text.ContainsSelf(v.s); }
    if v.Set? && a == v { NotInItself(v); }
  }

  lemma NotInItself(v: Value)
    requires v.Set?
    ensures v !in v.elems
  {
  }

  /** How many of the values that a lone item runs over are true. */
  ghost function LoneCount(v: Value): Option<nat> {
    match v
    case Int(_) => None
    case Str(s) => Some(|s|)
    case Tuple(items) => Some(CountTruthy(items))
    case Dict(m) => Some(|set k | k in Keys(m) && Truthy(k)|)
    case Set(elems) => Some(|set x | x in elems && Truthy(x)|)
  }

  /** A sum over a lone item counts what is inside of it: it is right exactly when the item raises, or is empty, or has
   *  just one true element; never for a number. */
  lemma LoneSumIsRight(e: Expr, env: Env)
    requires Clean(env)
    ensures Right(ExactlyOne([e]), env) <==>
            Mean(e, env).None? ||
            (LoneCount(Mean(e, env).value).Some?
              && (LoneCount(Mean(e, env).value).value == 1 <==> Truthy(Mean(e, env).value)))
  {
    LoneItem(e, env);
    var g, v := ReadSum([e]), Mean(e, env);
    assert "sum" in BUILTINS;
    SumOfGroup(g, env);
    CompareMeans(RelCmp(Eq), g, PNum(1), env);
    assert Eval(PNum(1), env) == Some(Int(1));
    assert ReadPred(ExactlyOne([e])) == PCompare(g, [Cmp(RelCmp(Eq), PNum(1))]);
    hide ReadGroup, Eval, Mean, MeanAll;
    if v.Some? {
      CountLone(v.value);
      assert [v.value][1..] == [];
      assert CountTruthy([v.value]) == if Truthy(v.value) then 1 else 0;
    }
  }

  lemma SumOfGroup(g: Py, env: Env)
    requires Clean(env) && g.PGen? && g.f == PName("sum") && g.item == PNum(1) && g.name == "value"
             && g.cond == PName("value")
    ensures var src := Eval(g.src, env);
            Eval(g, env) == if src.None? || Iterate(src.value).None? then None
              else Some(Int(CountTruthy(Iterate(src.value).value)))
  {
    assert "sum" in BUILTINS;
    var src := Eval(g.src, env);
    if src.Some? && Iterate(src.value).Some? { SumCounts(g, Iterate(src.value).value, env); }
  }

  lemma CountLone(v: Value)
    ensures Iterate(v).Some? == LoneCount(v).Some?
    ensures Iterate(v).Some? ==> CountTruthy(Iterate(v).value) == LoneCount(v).value
  {
    match v
    case Str(s) => CountAll(Chars(s));
    case Dict(m) => 
      CountElems(InOrder(Keys(m)));
      assert (set k | k in Keys(m) && Truthy(k)) == (set k | k in InOrder(Keys(m)) && Truthy(k));
    case Set(elems) => 
      CountElems(InOrder(elems));
      assert (set x | x in elems && Truthy(x)) == (set x | x in InOrder(elems) && Truthy(x));
    case _ =>
  }

  lemma {:induction false} CountAll(vs: seq<Value>)
    requires forall i :: 0 <= i < |vs| ==> Truthy(vs[i])
    ensures CountTruthy(vs) == |vs|
  {
    if vs != [] { CountAll(vs[1..]); }
  }

  lemma {:induction false} CountElems(vs: seq<Value>)
    requires Distinct(vs)
    ensures CountTruthy(vs) == |set x | x in vs && Truthy(x)|
  {
    hide Truthy;
    var counted := set x | x in vs && Truthy(x);
    if vs == [] {
      assert counted == {};
    } else {
      CountElems(vs[1..]);
      var inner := set x | x in vs[1..] && Truthy(x);
      assert vs == [vs[0]] + vs[1..];
      assert counted == inner + if Truthy(vs[0]) then {vs[0]} else {};
      assert vs[0] !in vs[1..];
    }
  }

  /** The elements of a lone item, compared with each other. */
  ghost predicate LoneDiffers(v: Value) {
    match v
    case Set(elems) => exists x :: x in elems && !Hashable(x)
    case Str(s) => forall i, k :: 0 <= i < k < |s| ==> s[i] != s[k]
    case Tuple(items) => !AllHashable(items) || Distinct(items)
    case _ => false
  }

  /** A lone item is compared with itself element by element: right exactly when it raises, or is a text without
   *  repeated characters, or a tuple without repeated items or with one that cannot be in a set. */
  lemma LoneDifferenceIsRight(e: Expr, env: Env)
    requires Clean(env)
    ensures Right(AllDifferent([e]), env) <==> Mean(e, env).None? || LoneDiffers(Mean(e, env).value)
  {
    LoneItem(e, env);
    var group, v := ReadGroup([e]), Mean(e, env);
    hide ReadGroup, MeanAll, Mean;
    LenOfSet(group, env);
    var elems, size := PCall(PName("len"), PCall(PName("set"), group)), PCall(PName("len"), group);
    CompareMeans(RelCmp(Eq), elems, size, env);
    assert ReadPred(AllDifferent([e])) == PCompare(elems, [Cmp(RelCmp(Eq), size)]);
    hide Eval;
    if v.Some? {
      CollectLone(v.value);
      OneHashable(v.value);
    }
  }

  lemma OneHashable(v: Value)
    ensures Distinct([v]) && (AllHashable([v]) <==> Hashable(v))
  {
    assert [v][0] == v;
  }

  /** `len(set(v))`; None where it raises. */
  ghost function Collected(v: Value): Option<Value> {
    if Call("set", v).None? then None else Call("len", Call("set", v).value)
  }

  lemma LenOfSet(group: Py, env: Env)
    requires Clean(env)
    ensures var (v, size, collected) :=
              (Eval(group, env), PCall(PName("len"), group), PCall(PName("len"), PCall(PName("set"), group)));
            && Eval(size, env) == (if v.None? then None else Call("len", v.value))
            && Eval(collected, env) == (if v.None? then None else Collected(v.value))
  {
    assert "len" in BUILTINS && "set" in BUILTINS;
    assert Eval(PCall(PName("set"), group), env) == if Eval(group, env).None? then None
      else Call("set", Eval(group, env).value);
  }

  /** What `len(set(v)) == len(v)` says. */
  lemma CollectLone(v: Value)
    ensures var (c, n) := (Collected(v), Call("len", v));
            match v
            case Int(_) => c.None?
            case Str(_) => c.Some? && n.Some? && (c == n <==> LoneDiffers(v))
            case Tuple(items) => n.Some? && if AllHashable(items) then c.Some? && (c == n <==> LoneDiffers(v))
                else c.None?
            case Dict(_) => c.Some? && c == n
            case Set(_) => n.Some? && if LoneDiffers(v) then c.None? else c == n
  {
    hide InOrder;
    if Iterate(v).Some? { DistinctElems(Iterate(v).value); }
    match v
    case Str(s) =>
      assert forall i :: 0 <= i < |s| ==> Chars(s)[i].s[0] == s[i];
    case Dict(m) =>
      KeysSize(m);
      assert forall i :: 0 <= i < |InOrder(Keys(m))| ==> InOrder(Keys(m))[i] in Keys(m);
    case Set(elems) =>
      AllInOrder(elems);
    case _ =>
  }

  lemma AllInOrder(elems: set<Value>)
    ensures AllHashable(InOrder(elems)) <==> forall x :: x in elems ==> Hashable(x)
  {
    var vs := InOrder(elems);
    hide Hashable, InOrder;
    if AllHashable(vs) {
      forall x | x in elems ensures Hashable(x) { assert x in vs; }
    } else {
      var i :| 0 <= i < |vs| && !Hashable(vs[i]);
      assert vs[i] in elems;
    }
  }

  lemma {:induction false} KeysSize(m: map<string, Value>)
    ensures |Keys(m)| == |m|
  {
    if m != map[] {
      var k :| k in m;
      KeysSize(m - {k});
      assert Keys(m) == Keys(m - {k}) + {Str(k)};
    }
  }
}
