/** Printed constraints, read back by the grammar of Python expressions. Texts are taken as their tokens. */
module ConstraintPython {
  import opened Basics
  import opened Constraints

  datatype Tok =
    | Name(s: string) | Number(n: nat) | Quoted(text: string)
    | LPar | RPar | LBr | RBr | Comma | Plus | Minus | RelOp(rel: Rel)
    | KwAnd | KwOr | KwNot | KwIn | KwFor | KwIf

  /** A token text. */
  datatype Toks = End | Then(t: Tok, rest: Toks)

  function Len(ts: Toks): nat { if ts.End? then 0 else 1 + Len(ts.rest) }

  predicate Heads(ts: Toks, t: Tok) { ts.Then? && ts.t == t }

  // ---- printing: the text of a tree, followed by k ----

  function PrintExpr(e: Expr, k: Toks): Toks {
    match e
    case Add(l, r) => Then(LPar, PrintExpr(l, Then(Plus, PrintExpr(r, Then(RPar, k)))))
    case Sub(l, r) => Then(LPar, PrintExpr(l, Then(Minus, PrintExpr(r, Then(RPar, k)))))
    case Abs(i) => Then(Name("abs"), Then(LPar, PrintExpr(i, Then(RPar, k))))
    case Var(name) => Then(Name(name), k)
    case Num(n) => if n < 0 then Then(Minus, Then(Number(-n), k)) else Then(Number(n), k)
    case Text(s) => Then(Quoted(s), k)
    case Item(container, key) => Then(Name(container), Then(LBr, Then(Quoted(key), Then(RBr, k))))
  }

  /** The items, separated by commas. */
  function PrintItems(es: seq<Expr>, k: Toks): Toks {
    if es == [] then k else if |es| == 1 then PrintExpr(es[0], k)
      else PrintExpr(es[0], Then(Comma, PrintItems(es[1..], k)))
  }

  function PrintGroup(es: seq<Expr>, k: Toks): Toks { Then(LPar, PrintItems(es, Then(RPar, k))) }

  /** `sum(1 for value in (...) if value)` */
  function PrintSum(items: seq<Expr>, k: Toks): Toks {
    Then(Name("sum"), Then(LPar, Then(Number(1), Then(KwFor, Then(Name("value"), Then(KwIn,
      PrintGroup(items, Then(KwIf, Then(Name("value"), Then(RPar, k))))))))))
  }

  /** `len(set((...)))` */
  function PrintLenSet(items: seq<Expr>, k: Toks): Toks {
    Then(Name("len"), Then(LPar, Then(Name("set"), Then(LPar, PrintGroup(items, Then(RPar, Then(RPar, k)))))))
  }

  /** `len((...))` */
  function PrintLen(items: seq<Expr>, k: Toks): Toks {
    Then(Name("len"), Then(LPar, PrintGroup(items, Then(RPar, k))))
  }

  /** `to_python` of a predicate. */
  function PrintPred(p: Pred, k: Toks): Toks
    decreases p, 1
  {
    match p
    case Compare(rel, l, r) => Then(LPar, PrintExpr(l, Then(RelOp(rel), PrintExpr(r, Then(RPar, k)))))
    case ExactlyOne(items) => Then(LPar, PrintSum(items, Then(RelOp(Eq), Then(Number(1), Then(RPar, k)))))
    case AllDifferent(items) => Then(LPar, PrintLenSet(items, Then(RelOp(Eq), PrintLen(items, Then(RPar, k)))))
    case InSet(l, options) => Then(LPar, PrintExpr(l, Then(KwIn, PrintGroup(options, Then(RPar, k)))))
    case And(preds) => Then(LPar, PrintPreds(preds, KwAnd, Then(RPar, k)))
    case Or(preds) => Then(LPar, PrintPreds(preds, KwOr, Then(RPar, k)))
    case Not(q) => Then(LPar, Then(KwNot, PrintPred(q, Then(RPar, k))))
    case Implies(a, b) => Then(LPar,
        Then(LPar, Then(KwNot, PrintPred(a, Then(RPar, Then(KwOr, PrintPred(b, Then(RPar, k))))))))
  }

  /** The predicates, with the word between them. */
  function PrintPreds(ps: seq<Pred>, word: Tok, k: Toks): Toks
    decreases ps, 0
  {
    if ps == [] then k
    else if |ps| == 1 then PrintPred(ps[0], k)
    else PrintPred(ps[0], Then(word, PrintPreds(ps[1..], word, k)))
  }

  // ---- the grammar ----

  datatype CmpOp = RelCmp(rel: Rel) | InCmp

  datatype Py =
    | PName(name: string) | PNum(n: nat) | PStr(s: string) | PNeg(e: Py)
    | PIndex(e: Py, key: Py) | PCall(f: Py, arg: Py) | PGen(f: Py, item: Py, name: string, src: Py, cond: Py)
    | PTuple(items: seq<Py>) | PArith(plus: bool, l: Py, r: Py) | PCompare(first: Py, rests: seq<Cmp>)
    | PNot(e: Py) | PAnd(l: Py, r: Py) | POr(l: Py, r: Py)

  datatype Cmp = Cmp(op: CmpOp, right: Py)

  type Parsed = Option<(Py, Toks)>

  /** Levels of the grammar: or, and, not, comparisons, sums, unary minus, primaries. */
  function ParseAt(level: nat, ts: Toks): (r: Parsed)
    ensures r.Some? ==> Len(r.value.1) < Len(ts)
    decreases Len(ts), 8 - (if level > 6 then 6 else level)
  {
    if level == 0 then
      var a := ParseAt(1, ts);
      if a.None? then None else OrLoop(a.value.0, a.value.1)
    else if level == 1 then
      var a := ParseAt(2, ts);
      if a.None? then None else AndLoop(a.value.0, a.value.1)
    else if level == 2 then
      if Heads(ts, KwNot) then
        var a := ParseAt(2, ts.rest);
        if a.None? then None else Some((PNot(a.value.0), a.value.1))
      else ParseAt(3, ts)
    else if level == 3 then
      var a := ParseAt(4, ts);
      if a.None? then None else CmpLoop(a.value.0, [], a.value.1)
    else if level == 4 then
      var a := ParseAt(5, ts);
      if a.None? then None else SumLoop(a.value.0, a.value.1)
    else if level == 5 then
      if Heads(ts, Minus) then
        var a := ParseAt(5, ts.rest);
        if a.None? then None else Some((PNeg(a.value.0), a.value.1))
      else ParseAt(6, ts)
    else
      var a := ParseAtom(ts);
      if a.None? then None else Trailers(a.value.0, a.value.1)
  }

  function OrLoop(a: Py, ts: Toks): (r: Parsed)
    ensures r.Some? ==> Len(r.value.1) <= Len(ts)
    decreases Len(ts), 0
  {
    if !Heads(ts, KwOr) then Some((a, ts))
    else
      var b := ParseAt(1, ts.rest);
      if b.None? then None else OrLoop(POr(a, b.value.0), b.value.1)
  }

  function AndLoop(a: Py, ts: Toks): (r: Parsed)
    ensures r.Some? ==> Len(r.value.1) <= Len(ts)
    decreases Len(ts), 0
  {
    if !Heads(ts, KwAnd) then Some((a, ts))
    else
      var b := ParseAt(2, ts.rest);
      if b.None? then None else AndLoop(PAnd(a, b.value.0), b.value.1)
  }

  /** `a < b < c` is one comparison of three. */
  function CmpLoop(a: Py, rests: seq<Cmp>, ts: Toks): (r: Parsed)
    ensures r.Some? ==> Len(r.value.1) <= Len(ts)
    decreases Len(ts), 0
  {
    if ts.Then? && (ts.t.RelOp? || ts.t.KwIn?) then
      var b := ParseAt(4, ts.rest);
      if b.None? then None else CmpLoop(a, rests + [Cmp(if ts.t.KwIn? then InCmp else RelCmp(ts.t.rel), b.value.0)],
        b.value.1)
    else Some((if rests == [] then a else PCompare(a, rests), ts))
  }

  function SumLoop(a: Py, ts: Toks): (r: Parsed)
    ensures r.Some? ==> Len(r.value.1) <= Len(ts)
    decreases Len(ts), 0
  {
    if ts.Then? && (ts.t.Plus? || ts.t.Minus?) then
      var b := ParseAt(5, ts.rest);
      if b.None? then None else SumLoop(PArith(ts.t.Plus?, a, b.value.0), b.value.1)
    else Some((a, ts))
  }

  function Trailers(a: Py, ts: Toks): (r: Parsed)
    ensures r.Some? ==> Len(r.value.1) <= Len(ts)
    decreases Len(ts), 0
  {
    if Heads(ts, LBr) then
      var b := ParseAt(0, ts.rest);
      if b.Some? && Heads(b.value.1, RBr) then Trailers(PIndex(a, b.value.0), b.value.1.rest) else None
    else if Heads(ts, LPar) then
      var b := ParseAt(0, ts.rest);
      if b.None? then None
      else if Heads(b.value.1, RPar) then Trailers(PCall(a, b.value.0), b.value.1.rest)
      else
        var g := Generator(a, b.value.0, b.value.1);
        if g.None? then None else Trailers(g.value.0, g.value.1)
    else Some((a, ts))
  }

  /** `for x in src if cond)` */
  function Generator(f: Py, item: Py, ts: Toks): (r: Parsed)
    ensures r.Some? ==> Len(r.value.1) < Len(ts)
    decreases Len(ts), 9
  {
    if ts.Then? && ts.t.KwFor? && ts.rest.Then? && ts.rest.t.Name? && Heads(ts.rest.rest, KwIn) then
      assert Len(ts) == 1 + Len(ts.rest) == 2 + Len(ts.rest.rest) == 3 + Len(ts.rest.rest.rest);
      var src := ParseAt(0, ts.rest.rest.rest);
      if src.None? || !Heads(src.value.1, KwIf) then None
      else
        var cond := ParseAt(0, src.value.1.rest);
        if cond.None? || !Heads(cond.value.1, RPar) then None
        else Some((PGen(f, item, ts.rest.t.s, src.value.0, cond.value.0), cond.value.1.rest))
    else None
  }

  function ParseAtom(ts: Toks): (r: Parsed)
    ensures r.Some? ==> Len(r.value.1) < Len(ts)
    decreases Len(ts), 1
  {
    if ts.End? then None
    else
      match ts.t
      case Name(s) => Some((PName(s), ts.rest))
      case Number(n) => Some((PNum(n), ts.rest))
      case Quoted(s) => Some((PStr(s), ts.rest))
      case LPar =>
        if Heads(ts.rest, RPar) then Some((PTuple([]), ts.rest.rest))
        else
          var a := ParseAt(0, ts.rest);
          if a.None? then None
          else if Heads(a.value.1, RPar) then Some((a.value.0, a.value.1.rest))
          else if Heads(a.value.1, Comma) then TupleLoop([a.value.0], a.value.1.rest)
          else None
      case _ => None
  }

  /** After a comma: the end of the tuple, or a further item. */
  function TupleLoop(items: seq<Py>, ts: Toks): (r: Parsed)
    ensures r.Some? ==> Len(r.value.1) <= Len(ts)
    decreases Len(ts), 9
  {
    if Heads(ts, RPar) then Some((PTuple(items), ts.rest))
    else
      var a := ParseAt(0, ts);
      if a.None? then None
      else if Heads(a.value.1, RPar) then Some((PTuple(items + [a.value.0]), a.value.1.rest))
      else if Heads(a.value.1, Comma) then TupleLoop(items + [a.value.0], a.value.1.rest)
      else None
  }

  // ---- the trees that the printed texts are read as ----

  function ReadExpr(e: Expr): Py {
    match e
    case Add(l, r) => PArith(true, ReadExpr(l), ReadExpr(r))
    case Sub(l, r) => PArith(false, ReadExpr(l), ReadExpr(r))
    case Abs(i) => PCall(PName("abs"), ReadExpr(i))
    case Var(name) => PName(name)
    case Num(n) => if n < 0 then PNeg(PNum(-n)) else PNum(n)
    case Text(s) => PStr(s)
    case Item(container, key) => PIndex(PName(container), PStr(key))
  }

  function ReadAll(es: seq<Expr>): seq<Py> { seq(|es|, i requires 0 <= i < |es| => ReadExpr(es[i])) }

  /** A lone item in parentheses is no tuple. */
  function ReadGroup(es: seq<Expr>): Py { if |es| == 1 then ReadExpr(es[0]) else PTuple(ReadAll(es)) }

  function ReadSum(es: seq<Expr>): Py { PGen(PName("sum"), PNum(1), "value", ReadGroup(es), PName("value")) }

  function ReadPred(p: Pred): Py
    decreases p, 1
  {
    match p
    case Compare(rel, l, r) => PCompare(ReadExpr(l), [Cmp(RelCmp(rel), ReadExpr(r))])
    case ExactlyOne(items) => PCompare(ReadSum(items), [Cmp(RelCmp(Eq), PNum(1))])
    case AllDifferent(items) =>
      PCompare(PCall(PName("len"), PCall(PName("set"), ReadGroup(items))),
        [Cmp(RelCmp(Eq), PCall(PName("len"), ReadGroup(items)))])
    case InSet(l, options) => PCompare(ReadExpr(l), [Cmp(InCmp, ReadGroup(options))])
    case And(preds) => if preds == [] then PTuple([]) else AndFrom(ReadPred(preds[0]), preds[1..])
    case Or(preds) => if preds == [] then PTuple([]) else OrFrom(ReadPred(preds[0]), preds[1..])
    case Not(q) => PNot(ReadPred(q))
    case Implies(a, b) => POr(PNot(ReadPred(a)), ReadPred(b))
  }

  function AndFrom(a: Py, ps: seq<Pred>): Py
    decreases ps, 0
  {
    if ps == [] then a else AndFrom(PAnd(a, ReadPred(ps[0])), ps[1..])
  }

  function OrFrom(a: Py, ps: seq<Pred>): Py
    decreases ps, 0
  {
    if ps == [] then a else OrFrom(POr(a, ReadPred(ps[0])), ps[1..])
  }

  // ---- reading back ----

  /** The token does not go on with an operand that was read at this level or above. */
  predicate Stops(level: nat, ts: Toks) {
    ts.Then? ==>
      && !ts.t.LBr? && !ts.t.LPar?
      && (level <= 4 ==> !ts.t.Plus? && !ts.t.Minus?)
      && (level <= 3 ==> !ts.t.RelOp? && !ts.t.KwIn?)
      && (level <= 1 ==> !ts.t.KwAnd?)
      && (level == 0 ==> !ts.t.KwOr?)
  }

  /** What is read at one level is read at every lower level, up to the same place. */
  lemma {:induction false} Climb(level: nat, from: nat, ts: Toks, p: Py, k: Toks)
    requires level <= from <= 6 && ParseAt(from, ts) == Some((p, k)) && Stops(level, k)
    requires from > 2 ==> !Heads(ts, KwNot)
    requires from > 5 ==> !Heads(ts, Minus)
    ensures ParseAt(level, ts) == Some((p, k))
    decreases from - level
  {
    if level < from {
      ClimbOne(from - 1, ts, p, k);
      Climb(level, from - 1, ts, p, k);
    }
  }

  lemma ClimbOne(level: nat, ts: Toks, p: Py, k: Toks)
    requires level < 6 && ParseAt(level + 1, ts) == Some((p, k)) && Stops(level, k)
    requires level == 2 ==> !Heads(ts, KwNot)
    requires level == 5 ==> !Heads(ts, Minus)
    ensures ParseAt(level, ts) == Some((p, k))
  {
  }

  lemma HeadOfExpr(e: Expr, k: Toks)
    ensures var ts := PrintExpr(e, k); ts.Then? && !ts.t.KwNot? && !ts.t.RPar?
  {
  }

  /** A text that is read in full up to a closing parenthesis, in parentheses. */
  lemma Parenthesised(inner: Toks, p: Py, k: Toks)
    requires ParseAt(0, inner) == Some((p, Then(RPar, k))) && !Heads(inner, RPar) && Stops(6, k)
    ensures ParseAt(5, Then(LPar, inner)) == Some((p, k))
  {
    assert ParseAtom(Then(LPar, inner)) == Some((p, k));
    assert Trailers(p, k) == Some((p, k));
  }

  lemma Called(f: string, inner: Toks, p: Py, k: Toks)
    requires ParseAt(0, inner) == Some((p, Then(RPar, k))) && Stops(6, k)
    ensures ParseAt(5, Then(Name(f), Then(LPar, inner))) == Some((PCall(PName(f), p), k))
  {
    assert ParseAtom(Then(Name(f), Then(LPar, inner))) == Some((PName(f), Then(LPar, inner)));
    assert Trailers(PCall(PName(f), p), k) == Some((PCall(PName(f), p), k));
    assert Trailers(PName(f), Then(LPar, inner)) == Trailers(PCall(PName(f), p), k);
  }

  /** A number, a string or a name alone. */
  lemma AtomReads(t: Tok, k: Toks)
    requires (t.Name? || t.Number? || t.Quoted?) && Stops(6, k)
    ensures ParseAt(5, Then(t, k)) == Some((if t.Name? then PName(t.s) else if t.Number? then PNum(t.n)
            else PStr(t.text), k))
  {
    var p := if t.Name? then PName(t.s) else if t.Number? then PNum(t.n) else PStr(t.text);
    assert ParseAtom(Then(t, k)) == Some((p, k));
    assert Trailers(p, k) == Some((p, k));
  }

  lemma SumReads(plus: bool, inner: Toks, a: Py, right: Toks, b: Py, k: Toks)
    requires ParseAt(5, inner) == Some((a, Then(if plus then Plus else Minus, right)))
    requires ParseAt(5, right) == Some((b, Then(RPar, k)))
    requires !Heads(inner, KwNot) && !Heads(inner, RPar) && Stops(6, k)
    ensures ParseAt(5, Then(LPar, inner)) == Some((PArith(plus, a, b), k))
  {
    assert SumLoop(PArith(plus, a, b), Then(RPar, k)) == Some((PArith(plus, a, b), Then(RPar, k)));
    assert ParseAt(4, inner) == Some((PArith(plus, a, b), Then(RPar, k)));
    hide ParseAt, SumLoop;
    Climb(0, 4, inner, PArith(plus, a, b), Then(RPar, k));
    Parenthesised(inner, PArith(plus, a, b), k);
  }

  lemma IndexReads(container: string, key: string, k: Toks)
    requires Stops(6, k)
    ensures ParseAt(5, Then(Name(container), Then(LBr, Then(Quoted(key), Then(RBr, k))))) ==
            Some((PIndex(PName(container), PStr(key)), k))
  {
    var inside := Then(Quoted(key), Then(RBr, k));
    AtomReads(Quoted(key), Then(RBr, k));
    Climb(0, 5, inside, PStr(key), Then(RBr, k));
    hide ParseAt;
    var p := PIndex(PName(container), PStr(key));
    assert Trailers(p, k) == Some((p, k));
    assert Trailers(PName(container), Then(LBr, inside)) == Some((p, k));
    NameThen(container, Then(LBr, inside), p, k);
  }

  lemma NameThen(name: string, more: Toks, p: Py, k: Toks)
    requires Trailers(PName(name), more) == Some((p, k))
    ensures ParseAt(5, Then(Name(name), more)) == Some((p, k))
  {
    hide Trailers;
    assert ParseAtom(Then(Name(name), more)) == Some((PName(name), more));
  }

  lemma {:induction false} ReadsExpr(e: Expr, k: Toks)
    requires Stops(6, k)
    ensures ParseAt(5, PrintExpr(e, k)) == Some((ReadExpr(e), k))
  {
    hide ParseAt, Stops;
    HeadOfExpr(e, k);
    StopsAtRPar(k);
    match e {
      case Add(l, r) =>
        StopsAtSign(PrintExpr(r, Then(RPar, k)));
        ReadsExpr(r, Then(RPar, k));
        ReadsExpr(l, Then(Plus, PrintExpr(r, Then(RPar, k))));
        HeadOfExpr(l, Then(Plus, PrintExpr(r, Then(RPar, k))));
        SumReads(true, PrintExpr(l, Then(Plus, PrintExpr(r, Then(RPar, k)))), ReadExpr(l), PrintExpr(r, Then(RPar, k)),
          ReadExpr(r), k);
      case Sub(l, r) =>
        StopsAtSign(PrintExpr(r, Then(RPar, k)));
        ReadsExpr(r, Then(RPar, k));
        ReadsExpr(l, Then(Minus, PrintExpr(r, Then(RPar, k))));
        HeadOfExpr(l, Then(Minus, PrintExpr(r, Then(RPar, k))));
        SumReads(false, PrintExpr(l, Then(Minus, PrintExpr(r, Then(RPar, k)))), ReadExpr(l),
          PrintExpr(r, Then(RPar, k)), ReadExpr(r), k);
      case Abs(i) =>
        ReadsExpr(i, Then(RPar, k));
        HeadOfExpr(i, Then(RPar, k));
        Climb(0, 5, PrintExpr(i, Then(RPar, k)), ReadExpr(i), Then(RPar, k));
        Called("abs", PrintExpr(i, Then(RPar, k)), ReadExpr(i), k);
      case Var(name) => AtomReads(Name(name), k);
      case Num(n) => NumReads(n, k);
      case Text(s) => AtomReads(Quoted(s), k);
      case Item(container, key) => IndexReads(container, key, k);
    }
  }

  lemma NumReads(n: int, k: Toks)
    requires Stops(6, k)
    ensures ParseAt(5, PrintExpr(Num(n), k)) == Some((ReadExpr(Num(n)), k))
  {
    if n < 0 { AtomReads(Number(-n), k); } else { AtomReads(Number(n), k); }
  }

  lemma StopsAtRPar(k: Toks)
    ensures Stops(6, Then(RPar, k)) && Stops(0, Then(RPar, k))
  {
  }

  lemma StopsAtSign(k: Toks)
    ensures Stops(6, Then(Plus, k)) && Stops(6, Then(Minus, k))
  {
  }

  // ---- groups ----

  lemma StopsAtComma(k: Toks)
    ensures Stops(6, Then(Comma, k)) && Stops(0, Then(Comma, k))
  {
  }

  lemma ReadsFull(e: Expr, k: Toks)
    requires Stops(0, k)
    ensures ParseAt(0, PrintExpr(e, k)) == Some((ReadExpr(e), k)) && !Heads(PrintExpr(e, k), RPar)
  {
    ReadsExpr(e, k);
    HeadOfExpr(e, k);
    hide ParseAt;
    Climb(0, 5, PrintExpr(e, k), ReadExpr(e), k);
  }

  lemma {:induction false} ReadsItems(items: seq<Py>, es: seq<Expr>, k: Toks)
    requires es != []
    ensures TupleLoop(items, PrintItems(es, Then(RPar, k))) == Some((PTuple(items + ReadAll(es)), k))
    decreases |es|
  {
    hide ParseAt, Stops;
    StopsAtRPar(k);
    if |es| == 1 {
      ReadsFull(es[0], Then(RPar, k));
      assert ReadAll(es) == [ReadExpr(es[0])];
    } else {
      var rest := PrintItems(es[1..], Then(RPar, k));
      StopsAtComma(rest);
      ReadsFull(es[0], Then(Comma, rest));
      ReadsItems(items + [ReadExpr(es[0])], es[1..], k);
      assert items + [ReadExpr(es[0])] + ReadAll(es[1..]) == items + ReadAll(es);
    }
  }

  lemma ReadsGroup(es: seq<Expr>, k: Toks)
    requires Stops(6, k)
    ensures ParseAt(5, PrintGroup(es, k)) == Some((ReadGroup(es), k)) && Heads(PrintGroup(es, k), LPar)
  {
    hide ParseAt, ReadExpr, PrintExpr, TupleLoop;
    if es == [] {
      assert ReadAll(es) == [];
      EmptyReads(k);
    } else if |es| == 1 {
      ReadsFull(es[0], Then(RPar, k));
      Parenthesised(PrintExpr(es[0], Then(RPar, k)), ReadExpr(es[0]), k);
    } else {
      var rest := PrintItems(es[1..], Then(RPar, k));
      ReadsFull(es[0], Then(Comma, rest));
      ReadsItems([ReadExpr(es[0])], es[1..], k);
      assert [ReadExpr(es[0])] + ReadAll(es[1..]) == ReadAll(es);
      TupleReads(PrintExpr(es[0], Then(Comma, rest)), ReadExpr(es[0]), rest, PTuple(ReadAll(es)), k);
    }
  }

  lemma TupleReads(inner: Toks, first: Py, rest: Toks, p: Py, k: Toks)
    requires ParseAt(0, inner) == Some((first, Then(Comma, rest))) && !Heads(inner, RPar)
    requires TupleLoop([first], rest) == Some((p, k)) && Stops(6, k)
    ensures ParseAt(5, Then(LPar, inner)) == Some((p, k))
  {
    hide TupleLoop;
    assert ParseAtom(Then(LPar, inner)) == Some((p, k));
    assert Trailers(p, k) == Some((p, k));
  }

  lemma GroupFull(es: seq<Expr>, k: Toks)
    requires Stops(0, k)
    ensures ParseAt(0, PrintGroup(es, k)) == Some((ReadGroup(es), k))
  {
    ReadsGroup(es, k);
    hide ParseAt, PrintGroup, ReadGroup;
    Climb(0, 5, PrintGroup(es, k), ReadGroup(es), k);
  }

  // ---- predicates ----

  /** A comparison in parentheses. */
  lemma CompareReads(op: CmpOp, inner: Toks, a: Py, right: Toks, b: Py, k: Toks)
    requires ParseAt(5, inner) == Some((a, Then(if op.InCmp? then KwIn else RelOp(op.rel), right)))
    requires ParseAt(5, right) == Some((b, Then(RPar, k)))
    requires !Heads(inner, KwNot) && !Heads(inner, RPar) && Stops(6, k)
    ensures ParseAt(5, Then(LPar, inner)) == Some((PCompare(a, [Cmp(op, b)]), k))
  {
    var p := PCompare(a, [Cmp(op, b)]);
    ClimbOne(4, inner, a, Then(if op.InCmp? then KwIn else RelOp(op.rel), right));
    ClimbOne(4, right, b, Then(RPar, k));
    assert [] + [Cmp(op, b)] == [Cmp(op, b)];
    assert CmpLoop(a, [Cmp(op, b)], Then(RPar, k)) == Some((p, Then(RPar, k)));
    assert ParseAt(3, inner) == Some((p, Then(RPar, k)));
    hide ParseAt, CmpLoop;
    Climb(0, 3, inner, p, Then(RPar, k));
    Parenthesised(inner, p, k);
  }

  lemma SumOfGroup(es: seq<Expr>, k: Toks)
    requires Stops(6, k)
    ensures ParseAt(5, PrintSum(es, k)) == Some((ReadSum(es), k))
  {
    var cond := Then(Name("value"), Then(RPar, k));
    var gen := Then(KwFor, Then(Name("value"), Then(KwIn, PrintGroup(es, Then(KwIf, cond)))));
    GroupFull(es, Then(KwIf, cond));
    AtomFull(Name("value"), Then(RPar, k));
    AtomFull(Number(1), gen);
    hide ParseAt, PrintGroup, ReadGroup;
    GeneratorReads(PrintGroup(es, Then(KwIf, cond)), ReadGroup(es), k);
    SumCall(gen, ReadSum(es), k);
  }

  lemma AtomFull(t: Tok, k: Toks)
    requires (t.Name? || t.Number? || t.Quoted?) && Stops(0, k)
    ensures ParseAt(0, Then(t, k)) == Some((if t.Name? then PName(t.s) else if t.Number? then PNum(t.n)
            else PStr(t.text), k))
  {
    AtomReads(t, k);
    hide ParseAt;
    Climb(0, 5, Then(t, k), if t.Name? then PName(t.s) else if t.Number? then PNum(t.n) else PStr(t.text), k);
  }

  lemma GeneratorReads(src: Toks, p: Py, k: Toks)
    requires ParseAt(0, src) == Some((p, Then(KwIf, Then(Name("value"), Then(RPar, k)))))
    requires ParseAt(0, Then(Name("value"), Then(RPar, k))) == Some((PName("value"), Then(RPar, k)))
    ensures Generator(PName("sum"), PNum(1), Then(KwFor, Then(Name("value"), Then(KwIn, src)))) ==
            Some((PGen(PName("sum"), PNum(1), "value", p, PName("value")), k))
  {
    hide ParseAt;
  }

  lemma SumCall(gen: Toks, p: Py, k: Toks)
    requires ParseAt(0, Then(Number(1), gen)) == Some((PNum(1), gen)) && !Heads(gen, RPar)
    requires Generator(PName("sum"), PNum(1), gen) == Some((p, k)) && Stops(6, k)
    ensures ParseAt(5, Then(Name("sum"), Then(LPar, Then(Number(1), gen)))) == Some((p, k))
  {
    hide ParseAt, Generator;
    assert Trailers(p, k) == Some((p, k));
    assert Trailers(PName("sum"), Then(LPar, Then(Number(1), gen))) == Some((p, k));
    NameThen("sum", Then(LPar, Then(Number(1), gen)), p, k);
  }

  lemma LenOfGroup(es: seq<Expr>, k: Toks)
    requires Stops(6, k)
    ensures ParseAt(5, PrintLen(es, k)) == Some((PCall(PName("len"), ReadGroup(es)), k))
  {
    GroupFull(es, Then(RPar, k));
    hide ParseAt, PrintGroup, ReadGroup;
    Called("len", PrintGroup(es, Then(RPar, k)), ReadGroup(es), k);
  }

  lemma LenOfSet(es: seq<Expr>, k: Toks)
    requires Stops(6, k)
    ensures ParseAt(5, PrintLenSet(es, k)) == Some((PCall(PName("len"), PCall(PName("set"), ReadGroup(es))), k))
  {
    GroupFull(es, Then(RPar, Then(RPar, k)));
    hide ParseAt, PrintGroup, ReadGroup;
    var set0, inner := PCall(PName("set"), ReadGroup(es)), PrintGroup(es, Then(RPar, Then(RPar, k)));
    Called("set", inner, ReadGroup(es), Then(RPar, k));
    Climb(0, 5, Then(Name("set"), Then(LPar, inner)), set0, Then(RPar, k));
    Called("len", Then(Name("set"), Then(LPar, inner)), set0, k);
  }

  /** What follows the first of the predicates. */
  function Tail(ps: seq<Pred>, word: Tok, k: Toks): Toks { if ps == [] then k else Then(word, PrintPreds(ps, word, k)) }

  lemma PredsTail(ps: seq<Pred>, word: Tok, k: Toks)
    requires ps != []
    ensures PrintPreds(ps, word, k) == PrintPred(ps[0], Tail(ps[1..], word, k))
  {
  }

  lemma HeadOfPred(p: Pred, k: Toks)
    ensures Heads(PrintPred(p, k), LPar)
  {
  }

  lemma {:induction false} ReadsPred(p: Pred, k: Toks)
    requires Stops(6, k)
    ensures ParseAt(5, PrintPred(p, k)) == Some((ReadPred(p), k))
    decreases p, 1
  {
    hide ParseAt, Stops, ReadGroup, PrintGroup, PrintSum, PrintLenSet, PrintLen, ReadSum;
    StopsAtRPar(k);
    match p {
      case Compare(rel, l, r) => ReadsCompare(RelCmp(rel), l, r, k);
      case ExactlyOne(items) => ReadsExactlyOne(items, k);
      case AllDifferent(items) => ReadsAllDifferent(items, k);
      case InSet(l, options) => ReadsIn(l, options, k);
      case And(preds) =>
        if preds == [] { EmptyReads(k); } else {
          PredsTail(preds, KwAnd, Then(RPar, k));
          ReadsAnd(preds, k);
        }
      case Or(preds) =>
        if preds == [] { EmptyReads(k); } else {
          PredsTail(preds, KwOr, Then(RPar, k));
          ReadsOr(preds, k);
        }
      case Not(q) =>
        ReadsPred(q, Then(RPar, k));
        NotReads(PrintPred(q, Then(RPar, k)), ReadPred(q), k);
      case Implies(a, b) =>
        var right := PrintPred(b, Then(RPar, k));
        ReadsPred(b, Then(RPar, k));
        StopsAtWords(right);
        StopsAtRPar(Then(KwOr, right));
        ReadsPred(a, Then(RPar, Then(KwOr, right)));
        HeadOfPred(a, Then(RPar, Then(KwOr, right)));
        HeadOfPred(b, Then(RPar, k));
        NotReads(PrintPred(a, Then(RPar, Then(KwOr, right))), ReadPred(a), Then(KwOr, right));
        OrTwo(Then(LPar, Then(KwNot, PrintPred(a, Then(RPar, Then(KwOr, right))))), PNot(ReadPred(a)), right,
          ReadPred(b), k);
    }
  }

  lemma EmptyReads(k: Toks)
    requires Stops(6, k)
    ensures ParseAt(5, Then(LPar, Then(RPar, k))) == Some((PTuple([]), k))
  {
    assert ParseAtom(Then(LPar, Then(RPar, k))) == Some((PTuple([]), k));
    assert Trailers(PTuple([]), k) == Some((PTuple([]), k));
  }

  lemma StopsAtWords(k: Toks)
    ensures Stops(6, Then(KwOr, k)) && Stops(1, Then(KwOr, k)) && Stops(6, Then(KwAnd, k)) && Stops(2, Then(KwAnd, k))
    ensures Stops(6, Then(KwIn, k)) && Stops(0, Then(KwIf, k)) && forall rel :: Stops(6, Then(RelOp(rel), k))
  {
  }

  lemma ReadsCompare(op: CmpOp, l: Expr, r: Expr, k: Toks)
    requires Stops(6, k) && op.RelCmp?
    ensures ParseAt(5, PrintPred(Compare(op.rel, l, r), k)) == Some((PCompare(ReadExpr(l), [Cmp(op, ReadExpr(r))]), k))
  {
    hide ParseAt, Stops;
    StopsAtRPar(k);
    var right := PrintExpr(r, Then(RPar, k));
    StopsAtWords(right);
    ReadsExpr(r, Then(RPar, k));
    ReadsExpr(l, Then(RelOp(op.rel), right));
    HeadOfExpr(l, Then(RelOp(op.rel), right));
    CompareReads(op, PrintExpr(l, Then(RelOp(op.rel), right)), ReadExpr(l), right, ReadExpr(r), k);
  }

  lemma ReadsIn(l: Expr, options: seq<Expr>, k: Toks)
    requires Stops(6, k)
    ensures ParseAt(5, PrintPred(InSet(l, options), k)) == Some((ReadPred(InSet(l, options)), k))
  {
    hide ParseAt, Stops, PrintGroup, ReadGroup;
    StopsAtRPar(k);
    var right := PrintGroup(options, Then(RPar, k));
    StopsAtWords(right);
    ReadsGroup(options, Then(RPar, k));
    ReadsExpr(l, Then(KwIn, right));
    HeadOfExpr(l, Then(KwIn, right));
    CompareReads(InCmp, PrintExpr(l, Then(KwIn, right)), ReadExpr(l), right, ReadGroup(options), k);
  }

  lemma ReadsExactlyOne(items: seq<Expr>, k: Toks)
    requires Stops(6, k)
    ensures ParseAt(5, PrintPred(ExactlyOne(items), k)) == Some((ReadPred(ExactlyOne(items)), k))
  {
    hide ParseAt, Stops, PrintGroup, ReadSum;
    StopsAtRPar(k);
    var right := Then(Number(1), Then(RPar, k));
    StopsAtWords(right);
    AtomReads(Number(1), Then(RPar, k));
    SumOfGroup(items, Then(RelOp(Eq), right));
    CompareReads(RelCmp(Eq), PrintSum(items, Then(RelOp(Eq), right)), ReadSum(items), right, PNum(1), k);
  }

  lemma ReadsAllDifferent(items: seq<Expr>, k: Toks)
    requires Stops(6, k)
    ensures ParseAt(5, PrintPred(AllDifferent(items), k)) == Some((ReadPred(AllDifferent(items)), k))
  {
    hide ParseAt, Stops, PrintGroup, ReadGroup;
    StopsAtRPar(k);
    var right := PrintLen(items, Then(RPar, k));
    StopsAtWords(right);
    LenOfGroup(items, Then(RPar, k));
    LenOfSet(items, Then(RelOp(Eq), right));
    CompareReads(RelCmp(Eq), PrintLenSet(items, Then(RelOp(Eq), right)),
      PCall(PName("len"), PCall(PName("set"), ReadGroup(items))),
                 right, PCall(PName("len"), ReadGroup(items)), k);
  }

  lemma NotReads(inner: Toks, p: Py, k: Toks)
    requires ParseAt(5, inner) == Some((p, Then(RPar, k))) && Heads(inner, LPar) && Stops(6, k)
    ensures ParseAt(5, Then(LPar, Then(KwNot, inner))) == Some((PNot(p), k))
  {
    Climb(2, 5, inner, p, Then(RPar, k));
    assert ParseAt(2, Then(KwNot, inner)) == Some((PNot(p), Then(RPar, k)));
    hide ParseAt;
    Climb(0, 2, Then(KwNot, inner), PNot(p), Then(RPar, k));
    Parenthesised(Then(KwNot, inner), PNot(p), k);
  }

  lemma OrTwo(inner: Toks, a: Py, right: Toks, b: Py, k: Toks)
    requires ParseAt(5, inner) == Some((a, Then(KwOr, right))) && ParseAt(5, right) == Some((b, Then(RPar, k)))
    requires Heads(inner, LPar) && Heads(right, LPar) && Stops(6, k)
    ensures ParseAt(5, Then(LPar, inner)) == Some((POr(a, b), k))
  {
    Climb(1, 5, inner, a, Then(KwOr, right));
    Climb(1, 5, right, b, Then(RPar, k));
    assert OrLoop(POr(a, b), Then(RPar, k)) == Some((POr(a, b), Then(RPar, k)));
    assert ParseAt(0, inner) == Some((POr(a, b), Then(RPar, k)));
    hide ParseAt, OrLoop;
    Parenthesised(inner, POr(a, b), k);
  }

  lemma {:induction false} ReadsAnd(ps: seq<Pred>, k: Toks)
    requires ps != [] && Stops(6, k)
    ensures ParseAt(5, Then(LPar, PrintPred(ps[0], Tail(ps[1..], KwAnd, Then(RPar, k))))) ==
            Some((AndFrom(ReadPred(ps[0]), ps[1..]), k))
    decreases ps, 0
  {
    hide ParseAt, ReadPred;
    var tail := Tail(ps[1..], KwAnd, Then(RPar, k));
    var inner, p := PrintPred(ps[0], tail), AndFrom(ReadPred(ps[0]), ps[1..]);
    TailStops(ps[1..], k);
    ReadsPred(ps[0], tail);
    HeadOfPred(ps[0], tail);
    Climb(2, 5, inner, ReadPred(ps[0]), tail);
    AndTail(ReadPred(ps[0]), ps[1..], k);
    AndStart(inner, ReadPred(ps[0]), tail, p, Then(RPar, k));
    Climb(0, 1, inner, p, Then(RPar, k));
    Parenthesised(inner, p, k);
  }

  lemma AndStart(inner: Toks, a: Py, tail: Toks, p: Py, k: Toks)
    requires ParseAt(2, inner) == Some((a, tail)) && AndLoop(a, tail) == Some((p, k))
    ensures ParseAt(1, inner) == Some((p, k))
  {
  }

  lemma TailStops(ps: seq<Pred>, k: Toks)
    ensures Stops(6, Tail(ps, KwAnd, Then(RPar, k))) && Stops(2, Tail(ps, KwAnd, Then(RPar, k)))
    ensures Stops(6, Tail(ps, KwOr, Then(RPar, k))) && Stops(1, Tail(ps, KwOr, Then(RPar, k)))
  {
  }

  lemma {:induction false} AndTail(a: Py, ps: seq<Pred>, k: Toks)
    ensures AndLoop(a, Tail(ps, KwAnd, Then(RPar, k))) == Some((AndFrom(a, ps), Then(RPar, k)))
    decreases ps, 0
  {
    hide ParseAt, ReadPred;
    if ps != [] {
      var tail := Tail(ps[1..], KwAnd, Then(RPar, k));
      PredsTail(ps, KwAnd, Then(RPar, k));
      TailStops(ps[1..], k);
      ReadsPred(ps[0], tail);
      HeadOfPred(ps[0], tail);
      hide PrintPred, PrintPreds;
      Climb(2, 5, PrintPred(ps[0], tail), ReadPred(ps[0]), tail);
      AndTail(PAnd(a, ReadPred(ps[0])), ps[1..], k);
    }
  }

  lemma {:induction false} ReadsOr(ps: seq<Pred>, k: Toks)
    requires ps != [] && Stops(6, k)
    ensures ParseAt(5, Then(LPar, PrintPred(ps[0], Tail(ps[1..], KwOr, Then(RPar, k))))) ==
            Some((OrFrom(ReadPred(ps[0]), ps[1..]), k))
    decreases ps, 0
  {
    hide ParseAt, ReadPred;
    var tail := Tail(ps[1..], KwOr, Then(RPar, k));
    var inner, p := PrintPred(ps[0], tail), OrFrom(ReadPred(ps[0]), ps[1..]);
    TailStops(ps[1..], k);
    ReadsPred(ps[0], tail);
    HeadOfPred(ps[0], tail);
    Climb(1, 5, inner, ReadPred(ps[0]), tail);
    OrTail(ReadPred(ps[0]), ps[1..], k);
    OrStart(inner, ReadPred(ps[0]), tail, p, Then(RPar, k));
    Parenthesised(inner, p, k);
  }

  lemma OrStart(inner: Toks, a: Py, tail: Toks, p: Py, k: Toks)
    requires ParseAt(1, inner) == Some((a, tail)) && OrLoop(a, tail) == Some((p, k))
    ensures ParseAt(0, inner) == Some((p, k))
  {
  }

  lemma {:induction false} OrTail(a: Py, ps: seq<Pred>, k: Toks)
    ensures OrLoop(a, Tail(ps, KwOr, Then(RPar, k))) == Some((OrFrom(a, ps), Then(RPar, k)))
    decreases ps, 0
  {
    hide ParseAt, ReadPred;
    if ps != [] {
      var tail := Tail(ps[1..], KwOr, Then(RPar, k));
      PredsTail(ps, KwOr, Then(RPar, k));
      TailStops(ps[1..], k);
      ReadsPred(ps[0], tail);
      HeadOfPred(ps[0], tail);
      hide PrintPred, PrintPreds;
      Climb(1, 5, PrintPred(ps[0], tail), ReadPred(ps[0]), tail);
      OrTail(POr(a, ReadPred(ps[0])), ps[1..], k);
    }
  }
}
