/** The category-by-category sieve, and the module's own verifier. */
module Sieve {
  import opened Basics
  import opened Text
  import opened Permutations

  // ---- rules ----

  /** What a rule may say of the state s. Truth values are 0 and 1, as True == 1. */
  datatype Expr =
    | Num(n: int)
    | Pos(cat: string, val: string)       // s.pos("cat", "val")
    | Query(q: string)                    // s.pos("cat:val")
    | Abs(e: Expr)
    | Not(e: Expr)
    | Bin(op: Op, l: Expr, r: Expr)

  datatype Op = Add | Sub | Eq | Ne | Lt | Le | And | Or

  /** A rule is its text, with the expression that the text is read as. */
  datatype Rule = Rule(text: string, expr: Expr)

  datatype Category = Category(name: string, vals: seq<string>)

  /** One permutation for each category so far. */
  type State = seq<Perm>

  function IndexOf(xs: seq<string>, x: string): (r: Option<nat>)
    ensures r.Some? ==> r.value < |xs| && xs[r.value] == x
    ensures r.None? <==> x !in xs
  {
    if xs == [] then None
    else if xs[0] == x then Some(0)
    else
      var k := IndexOf(xs[1..], x);
      if k.Some? then Some(k.value + 1) else None
  }

  function Names(cats: seq<Category>): seq<string> { seq(|cats|, i requires 0 <= i < |cats| => cats[i].name) }

  /** `StateProxy.pos`; None where it raises. */
  function PosOf(cats: seq<Category>, state: State, cat: string, val: string): Option<int> {
    var c := IndexOf(Names(cats), cat);
    if c.None? then None
    else
      var v := IndexOf(cats[c.value].vals, val);
      if v.Some? && c.value < |state| && v.value < |state[c.value]| then Some(state[c.value][v.value]) else None
  }

  function ColonAt(q: string): (k: nat)
    ensures k <= |q|
  {
    if q == [] || q[0] == ':' then 0 else 1 + ColonAt(q[1..])
  }

  /** `cat, val = q.split(":")`, which needs exactly one colon. */
  function SplitQuery(q: string): Option<(string, string)> {
    var k := ColonAt(q);
    if k < |q| && ':' !in q[k + 1..] then Some((q[..k], q[k + 1..])) else None
  }

  function Truth(b: bool): int { if b then 1 else 0 }

  function Apply(op: Op, x: int, y: int): int {
    match op
    case Add => x + y
    case Sub => x - y
    case Eq => Truth(x == y)
    case Ne => Truth(x != y)
    case Lt => Truth(x < y)
    case Le => Truth(x <= y)
    case And => if x == 0 then x else y
    case Or => if x != 0 then x else y
  }

  /** `and` and `or` leave out their right side; None is an exception. */
  function Eval(e: Expr, cats: seq<Category>, state: State): Option<int> {
    match e
    case Num(n) => Some(n)
    case Pos(cat, val) => PosOf(cats, state, cat, val)
    case Query(q) =>
      var parts := SplitQuery(q);
      if parts.None? then None else PosOf(cats, state, parts.value.0, parts.value.1)
    case Abs(a) =>
      var x := Eval(a, cats, state);
      if x.None? then None else Some(if x.value < 0 then -x.value else x.value)
    case Not(a) =>
      var x := Eval(a, cats, state);
      if x.None? then None else Some(Truth(x.value == 0))
    case Bin(op, l, r) =>
      var x := Eval(l, cats, state);
      if x.None? then None
      else if (op == And && x.value == 0) || (op == Or && x.value != 0) then x
      else
        var y := Eval(r, cats, state);
        if y.None? then None else Some(Apply(op, x.value, y.value))
  }

  /** The categories that the expression names. */
  function Refs(e: Expr): set<string> {
    match e
    case Num(_) => {}
    case Pos(cat, _) => {cat}
    case Query(q) => if SplitQuery(q).Some? then {SplitQuery(q).value.0} else {}
    case Abs(a) => Refs(a)
    case Not(a) => Refs(a)
    case Bin(_, l, r) => Refs(l) + Refs(r)
  }

  /** Every category the rule uses is spelled out in its text. */
  predicate Spelled(r: Rule) { forall c :: c in Refs(r.expr) ==> Contains(r.text, c) }

  // ---- printed rules spell out their categories ----

  function OpText(op: Op): string {
    match op
    case Add => " + "
    case Sub => " - "
    case Eq => " == "
    case Ne => " != "
    case Lt => " < "
    case Le => " <= "
    case And => " and "
    case Or => " or "
  }

  function Print(e: Expr): string {
    match e
    case Num(n) => PrintInt(n)
    case Pos(cat, val) => "s.pos(\"" + cat + "\", \"" + val + "\")"
    case Query(q) => "s.pos(\"" + q + "\")"
    case Abs(a) => "abs(" + Print(a) + ")"
    case Not(a) => "(not " + Print(a) + ")"
    case Bin(op, l, r) => "(" + Print(l) + OpText(op) + Print(r) + ")"
  }

  lemma PosSpells(cat: string, val: string)
    ensures Contains(Print(Pos(cat, val)), cat)
  {
    ContainsSelf(cat);
    ContainsIn("s.pos(\"", cat, "\", \"" + val + "\")", cat);
    hide Contains;
    assert Print(Pos(cat, val)) == "s.pos(\"" + cat + ("\", \"" + val + "\")");
  }

  lemma QuerySpells(q: string)
    requires SplitQuery(q).Some?
    ensures Contains(Print(Query(q)), SplitQuery(q).value.0)
  {
    var c := SplitQuery(q).value.0;
    ContainsSelf(c);
    ContainsIn("", c, q[|c|..], c);
    assert "" + c + q[|c|..] == q;
    hide Contains;
    ContainsIn("s.pos(\"", q, "\")", c);
  }

  lemma BinSpells(op: Op, l: Expr, r: Expr, c: string)
    requires Contains(Print(l), c) || Contains(Print(r), c)
    ensures Contains(Print(Bin(op, l, r)), c)
  {
    hide Contains, OpText;
    if Contains(Print(l), c) {
      ContainsIn("(", Print(l), OpText(op) + Print(r) + ")", c);
      assert Print(Bin(op, l, r)) == "(" + Print(l) + (OpText(op) + Print(r) + ")");
    } else {
      ContainsIn("(" + Print(l) + OpText(op), Print(r), ")", c);
    }
  }

  /** Printing an expression spells out every category in it. */
  lemma {:induction false} PrintSpells(e: Expr)
    ensures Spelled(Rule(Print(e), e))
  {
    forall c | c in Refs(e) ensures Contains(Print(e), c) {
      hide Contains;
      match e {
        case Num(_) =>
        case Pos(cat, val) => PosSpells(cat, val);
        case Query(q) => QuerySpells(q);
        case Abs(a) =>
          PrintSpells(a);
          ContainsIn("abs(", Print(a), ")", c);
        case Not(a) =>
          PrintSpells(a);
          ContainsIn("(not ", Print(a), ")", c);
        case Bin(op, l, r) =>
          PrintSpells(l);
          PrintSpells(r);
          BinSpells(op, l, r, c);
      }
    }
  }

  // ---- the sieve ----

  predicate Mentions(cats: seq<Category>, r: Rule, i: nat) { i < |cats| && Contains(r.text, cats[i].name) }

  /** `_is_rule_ready`: the text mentions no category after i. */
  predicate Ready(cats: seq<Category>, r: Rule, i: nat) {
    forall k :: i < k < |cats| ==> !Mentions(cats, r, k)
  }

  /** An exception fails a rule in `solve`, and passes it in `verify_logic`. */
  datatype Policy = ErrorFails | ErrorPasses

  predicate Holds(policy: Policy, cats: seq<Category>, r: Rule, state: State) {
    var x := Eval(r.expr, cats, state);
    if x.None? then policy == ErrorPasses else x.value != 0
  }

  /** All rules that are ready at category i hold. */
  predicate Survives(policy: Policy, cats: seq<Category>, rules: seq<Rule>, i: nat, state: State) {
    forall k :: 0 <= k < |rules| && Ready(cats, rules[k], i) ==> Holds(policy, cats, rules[k], state)
  }

  function Keep(policy: Policy, cats: seq<Category>, rules: seq<Rule>, i: nat, states: seq<State>): seq<State> {
    if states == [] then []
    else
      (if Survives(policy, cats, rules, i, states[0]) then [states[0]] else [])
      + Keep(policy, cats, rules, i, states[1..])
  }

  /** A state with each of the permutations after it. */
  function Extensions(state: State, perms: seq<Perm>): seq<State> {
    seq(|perms|, i requires 0 <= i < |perms| => state + [perms[i]])
  }

  function Extend(states: seq<State>, perms: seq<Perm>): seq<State> {
    if states == [] then [] else Extensions(states[0], perms) + Extend(states[1..], perms)
  }

  /** The states that are left after the first i categories. */
  function Stream(policy: Policy, cats: seq<Category>, rules: seq<Rule>, perms: seq<Perm>, i: nat): seq<State> {
    if i == 0 then [[]] else Keep(policy, cats, rules, i - 1, Extend(Stream(policy, cats, rules, perms, i - 1), perms))
  }

  /** All assignments of permutations to i categories, by brute force. */
  function Worlds(perms: seq<Perm>, i: nat): seq<State> {
    if i == 0 then [[]] else Extend(Worlds(perms, i - 1), perms)
  }

  predicate AllHold(policy: Policy, cats: seq<Category>, rules: seq<Rule>, state: State) {
    forall k :: 0 <= k < |rules| ==> Holds(policy, cats, rules[k], state)
  }

  function Filter(policy: Policy, cats: seq<Category>, rules: seq<Rule>, states: seq<State>): seq<State> {
    if states == [] then []
    else
      (if AllHold(policy, cats, rules, states[0]) then [states[0]] else [])
      + Filter(policy, cats, rules, states[1..])
  }

  /** All worlds on which every rule holds. */
  function BruteForce(policy: Policy, cats: seq<Category>, rules: seq<Rule>): seq<State>
    requires cats != []
  {
    Filter(policy, cats, rules, Worlds(Perms(|cats[0].vals|), |cats|))
  }

  function Solutions(policy: Policy, cats: seq<Category>, rules: seq<Rule>): seq<State>
    requires cats != []
  {
    Stream(policy, cats, rules, Perms(|cats[0].vals|), |cats|)
  }

  // ---- a ready rule does not look past the state ----

  lemma {:induction false} EvalPrefix(e: Expr, cats: seq<Category>, state: State, p: Perm)
    requires forall c :: c in Refs(e) ==> IndexOf(Names(cats), c).None? || IndexOf(Names(cats), c).value < |state|
    ensures Eval(e, cats, state + [p]) == Eval(e, cats, state)
  {
    match e {
      case Num(_) =>
      case Pos(cat, val) => assert cat in Refs(e);
      case Query(q) => assert SplitQuery(q).Some? ==> SplitQuery(q).value.0 in Refs(e);
      case Abs(a) => EvalPrefix(a, cats, state, p);
      case Not(a) => EvalPrefix(a, cats, state, p);
      case Bin(_, l, r) =>
        EvalPrefix(l, cats, state, p);
        EvalPrefix(r, cats, state, p);
    }
  }

  /** What is known of a shorter state stays as it is. */
  lemma {:induction false} EvalKeeps(e: Expr, cats: seq<Category>, state: State, p: Perm)
    requires Eval(e, cats, state).Some?
    ensures Eval(e, cats, state + [p]) == Eval(e, cats, state)
  {
    match e {
      case Num(_) =>
      case Pos(cat, val) =>
      case Query(q) =>
      case Abs(a) => EvalKeeps(a, cats, state, p);
      case Not(a) => EvalKeeps(a, cats, state, p);
      case Bin(op, l, r) =>
        EvalKeeps(l, cats, state, p);
        if Eval(r, cats, state).Some? { EvalKeeps(r, cats, state, p); }
    }
  }

  /** The rule can be ready before a category is there that it uses. */
  predicate Early(cats: seq<Category>, r: Rule) {
    exists c :: c in Refs(r.expr) && IndexOf(Names(cats), c).Some?
      && exists i :: 0 <= i < IndexOf(Names(cats), c).value && Ready(cats, r, i)
  }

  /** Either an exception passes a rule, or no rule is early. */
  predicate Safe(policy: Policy, cats: seq<Category>, rules: seq<Rule>) {
    policy == ErrorPasses || forall r :: r in rules ==> !Early(cats, r)
  }

  /** A rule whose text spells out its categories is never early. */
  lemma SpelledIsNotEarly(cats: seq<Category>, r: Rule)
    requires Spelled(r)
    ensures !Early(cats, r)
  {
    if Early(cats, r) {
      var c :| c in Refs(r.expr) && IndexOf(Names(cats), c).Some? &&
               exists i :: 0 <= i < IndexOf(Names(cats), c).value && Ready(cats, r, i);
      var k := IndexOf(Names(cats), c).value;
      assert Mentions(cats, r, k);
    }
  }

  /** A rule that was ready one category earlier held then, if it holds now. */
  lemma HeldBefore(policy: Policy, cats: seq<Category>, rules: seq<Rule>, r: Rule, i: nat, state: State, p: Perm)
    requires Safe(policy, cats, rules) && r in rules && |state| == i + 1 && Ready(cats, r, i)
    requires Holds(policy, cats, r, state + [p])
    ensures Holds(policy, cats, r, state)
  {
    if policy == ErrorPasses {
      if Eval(r.expr, cats, state).Some? { EvalKeeps(r.expr, cats, state, p); }
    } else {
      assert !Early(cats, r);
      forall c | c in Refs(r.expr) && IndexOf(Names(cats), c).Some? ensures IndexOf(Names(cats), c).value < |state| {
        assert IndexOf(Names(cats), c).value > i ==> Early(cats, r);
      }
      EvalPrefix(r.expr, cats, state, p);
    }
  }

  lemma SurvivesBefore(policy: Policy, cats: seq<Category>, rules: seq<Rule>, i: nat, state: State, p: Perm)
    requires Safe(policy, cats, rules)
    requires |state| == i + 1 && Survives(policy, cats, rules, i + 1, state + [p])
    ensures Survives(policy, cats, rules, i, state)
  {
    hide Safe, Holds;
    forall k | 0 <= k < |rules| && Ready(cats, rules[k], i) ensures Holds(policy, cats, rules[k], state) {
      assert Ready(cats, rules[k], i + 1);
      HeldBefore(policy, cats, rules, rules[k], i, state, p);
    }
  }

  // ---- pruning early loses nothing ----

  lemma {:induction false} KeepAppend(
      policy: Policy, cats: seq<Category>, rules: seq<Rule>, i: nat, a: seq<State>, b: seq<State>)
    ensures Keep(policy, cats, rules, i, a + b) == Keep(policy, cats, rules, i, a) + Keep(policy, cats, rules, i, b)
    decreases |a|
  {
    if a == [] {
      assert a + b == b;
    } else {
      assert (a + b)[1..] == a[1..] + b;
      KeepAppend(policy, cats, rules, i, a[1..], b);
    }
  }

  lemma {:induction false} KeepNone(policy: Policy, cats: seq<Category>, rules: seq<Rule>, i: nat, states: seq<State>)
    requires forall k :: 0 <= k < |states| ==> !Survives(policy, cats, rules, i, states[k])
    ensures Keep(policy, cats, rules, i, states) == []
    decreases |states|
  {
    if states != [] { KeepNone(policy, cats, rules, i, states[1..]); }
  }

  ghost predicate AllOfLength(states: seq<State>, n: nat) { forall k :: 0 <= k < |states| ==> |states[k]| == n }

  lemma {:induction false} PruneFirst(
      policy: Policy, cats: seq<Category>, rules: seq<Rule>, i: nat, states: seq<State>, perms: seq<Perm>)
    requires Safe(policy, cats, rules)
    requires AllOfLength(states, i + 1)
    ensures Keep(policy, cats, rules, i + 1, Extend(Keep(policy, cats, rules, i, states), perms)) ==
            Keep(policy, cats, rules, i + 1, Extend(states, perms))
    decreases |states|
  {
    if states != [] {
      PruneFirst(policy, cats, rules, i, states[1..], perms);
      var state := states[0];
      var kept := Keep(policy, cats, rules, i, states[1..]);
      KeepAppend(policy, cats, rules, i + 1, Extensions(state, perms), Extend(states[1..], perms));
      if Survives(policy, cats, rules, i, state) {
        assert ([state] + kept)[1..] == kept;
        KeepAppend(policy, cats, rules, i + 1, Extensions(state, perms), Extend(kept, perms));
      } else {
        assert [] + kept == kept;
        forall k | 0 <= k < |perms| ensures !Survives(policy, cats, rules, i + 1, Extensions(state, perms)[k]) {
          if Survives(policy, cats, rules, i + 1, state + [perms[k]]) {
            SurvivesBefore(policy, cats, rules, i, state, perms[k]);
          }
        }
        hide Survives;
        KeepNone(policy, cats, rules, i + 1, Extensions(state, perms));
      }
    }
  }

  lemma {:induction false} ExtendLength(states: seq<State>, perms: seq<Perm>, n: nat)
    requires AllOfLength(states, n)
    ensures AllOfLength(Extend(states, perms), n + 1)
  {
    if states != [] { ExtendLength(states[1..], perms, n); }
  }

  lemma {:induction false} WorldsLength(perms: seq<Perm>, i: nat)
    ensures AllOfLength(Worlds(perms, i), i)
  {
    if i > 0 {
      WorldsLength(perms, i - 1);
      ExtendLength(Worlds(perms, i - 1), perms, i - 1);
    }
  }

  lemma {:induction false} StreamIsKept(policy: Policy, cats: seq<Category>, rules: seq<Rule>, perms: seq<Perm>, i: nat)
    requires Safe(policy, cats, rules)
    ensures Stream(policy, cats, rules, perms, i + 1) == Keep(policy, cats, rules, i, Worlds(perms, i + 1))
  {
    hide Keep, Extend, Safe, AllOfLength;
    if i > 0 {
      StreamIsKept(policy, cats, rules, perms, i - 1);
      WorldsLength(perms, i);
      PruneFirst(policy, cats, rules, i - 1, Worlds(perms, i), perms);
    }
  }

  lemma {:induction false} KeepAtEndIsFilter(policy: Policy, cats: seq<Category>, rules: seq<Rule>, states: seq<State>)
    requires cats != []
    ensures Keep(policy, cats, rules, |cats| - 1, states) == Filter(policy, cats, rules, states)
    decreases |states|
  {
    if states != [] {
      KeepAtEndIsFilter(policy, cats, rules, states[1..]);
      assert forall k :: 0 <= k < |rules| ==> Ready(cats, rules[k], |cats| - 1);
    }
  }

  /** The sieve leaves exactly the brute-force list, in the same order: always when exceptions pass, and when no rule is
   *  early where they fail. */
  lemma SieveIsBruteForce(policy: Policy, cats: seq<Category>, rules: seq<Rule>)
    requires cats != [] && Safe(policy, cats, rules)
    ensures Solutions(policy, cats, rules) == BruteForce(policy, cats, rules)
  {
    var perms := Perms(|cats[0].vals|);
    StreamIsKept(policy, cats, rules, perms, |cats| - 1);
    KeepAtEndIsFilter(policy, cats, rules, Worlds(perms, |cats|));
  }

  /** Rules printed from their expressions are never early, so that the sieve solves them exactly. */
  lemma PrintedRulesAreSolved(cats: seq<Category>, exprs: seq<Expr>)
    requires cats != []
    ensures var rules := seq(|exprs|, i requires 0 <= i < |exprs| => Rule(Print(exprs[i]), exprs[i]));
            forall policy :: Solutions(policy, cats, rules) == BruteForce(policy, cats, rules)
  {
    var rules := seq(|exprs|, i requires 0 <= i < |exprs| => Rule(Print(exprs[i]), exprs[i]));
    forall r | r in rules ensures !Early(cats, r) {
      PrintSpells(r.expr);
      SpelledIsNotEarly(cats, r);
    }
    hide Solutions, BruteForce, Early;
    forall policy ensures Solutions(policy, cats, rules) == BruteForce(policy, cats, rules) {
      SieveIsBruteForce(policy, cats, rules);
    }
  }

  // ---- an early rule ----

  /** Without `and` and `or`, which may leave out a side. */
  predicate Strict(e: Expr) {
    match e
    case Abs(a) => Strict(a)
    case Not(a) => Strict(a)
    case Bin(op, l, r) => op != And && op != Or && Strict(l) && Strict(r)
    case _ => true
  }

  lemma {:induction false} StrictRaises(e: Expr, cats: seq<Category>, state: State, c: string)
    requires Strict(e) && c in Refs(e) && IndexOf(Names(cats), c).Some? && IndexOf(Names(cats), c).value >= |state|
    ensures Eval(e, cats, state).None?
  {
    match e {
      case Num(_) =>
      case Pos(_, _) =>
      case Query(_) =>
      case Abs(a) => StrictRaises(a, cats, state, c);
      case Not(a) => StrictRaises(a, cats, state, c);
      case Bin(_, l, r) =>
        if c in Refs(l) { StrictRaises(l, cats, state, c); } else { StrictRaises(r, cats, state, c); }
    }
  }

  lemma {:induction false} StaysEmpty(
      policy: Policy, cats: seq<Category>, rules: seq<Rule>, perms: seq<Perm>, i: nat, j: nat)
    requires i <= j && Stream(policy, cats, rules, perms, i) == []
    ensures Stream(policy, cats, rules, perms, j) == []
  {
    if i < j { StaysEmpty(policy, cats, rules, perms, i, j - 1); }
  }

  lemma {:induction false} KeepLength(
      policy: Policy, cats: seq<Category>, rules: seq<Rule>, i: nat, states: seq<State>, n: nat)
    requires AllOfLength(states, n)
    ensures AllOfLength(Keep(policy, cats, rules, i, states), n)
  {
    hide Survives;
    if states != [] { KeepLength(policy, cats, rules, i, states[1..], n); }
  }

  lemma {:induction false} StreamLength(policy: Policy, cats: seq<Category>, rules: seq<Rule>, perms: seq<Perm>, i: nat)
    ensures AllOfLength(Stream(policy, cats, rules, perms, i), i)
  {
    hide Keep, Extend;
    if i > 0 {
      var before := Stream(policy, cats, rules, perms, i - 1);
      StreamLength(policy, cats, rules, perms, i - 1);
      ExtendLength(before, perms, i - 1);
      KeepLength(policy, cats, rules, i - 1, Extend(before, perms), i);
    }
  }

  lemma RaisingKeepsNone(cats: seq<Category>, rules: seq<Rule>, r: Rule, i: nat, states: seq<State>)
    requires r in rules && Ready(cats, r, i) && AllOfLength(states, i + 1)
    requires forall x :: |x| == i + 1 ==> Eval(r.expr, cats, x).None?
    ensures Keep(ErrorFails, cats, rules, i, states) == []
  {
    hide Ready, Keep, Survives, AllHold, Eval;
    forall k | 0 <= k < |states| ensures !Survives(ErrorFails, cats, rules, i, states[k]) {
      RaisingIsOut(cats, rules, r, i, states[k]);
    }
    KeepNone(ErrorFails, cats, rules, i, states);
  }

  /** A rule that raises on every state of some length at which it is ready. */
  lemma RaisingLosesAll(cats: seq<Category>, rules: seq<Rule>, r: Rule, i: nat)
    requires cats != [] && i < |cats| && r in rules && Ready(cats, r, i)
    requires forall x :: |x| == i + 1 ==> Eval(r.expr, cats, x).None?
    ensures Solutions(ErrorFails, cats, rules) == []
  {
    hide Ready, Keep, Extend, Perms, Eval, AllOfLength;
    var perms := Perms(|cats[0].vals|);
    var before := Stream(ErrorFails, cats, rules, perms, i);
    StreamLength(ErrorFails, cats, rules, perms, i);
    ExtendLength(before, perms, i);
    RaisingKeepsNone(cats, rules, r, i, Extend(before, perms));
    StaysEmpty(ErrorFails, cats, rules, perms, i + 1, |cats|);
  }

  lemma RaisingIsOut(cats: seq<Category>, rules: seq<Rule>, r: Rule, i: nat, x: State)
    requires r in rules && Eval(r.expr, cats, x).None?
    ensures !AllHold(ErrorFails, cats, rules, x) && (Ready(cats, r, i) ==> !Survives(ErrorFails, cats, rules, i, x))
  {
    hide Ready;
    var at :| 0 <= at < |rules| && rules[at] == r;
    assert !Holds(ErrorFails, cats, rules[at], x);
  }

  /** An early rule without `and` and `or` leaves nothing where exceptions fail. */
  lemma EarlyLosesAll(cats: seq<Category>, rules: seq<Rule>, r: Rule)
    requires cats != [] && r in rules && Strict(r.expr) && Early(cats, r)
    ensures Solutions(ErrorFails, cats, rules) == []
  {
    hide Ready, Solutions;
    var c :| c in Refs(r.expr) && IndexOf(Names(cats), c).Some? &&
             exists i :: 0 <= i < IndexOf(Names(cats), c).value && Ready(cats, r, i);
    var i :| 0 <= i < IndexOf(Names(cats), c).value && Ready(cats, r, i);
    forall x: State | |x| == i + 1 ensures Eval(r.expr, cats, x).None? {
      StrictRaises(r.expr, cats, x, c);
    }
    RaisingLosesAll(cats, rules, r, i);
  }

  /** For rules without `and` and `or`, where exceptions fail, the sieve gives the brute-force list exactly when no rule
   *  is early or there are no solutions at all. */
  lemma SieveIsBruteForceExactly(cats: seq<Category>, rules: seq<Rule>)
    requires cats != [] && forall r :: r in rules ==> Strict(r.expr)
    ensures Solutions(ErrorFails, cats, rules) == BruteForce(ErrorFails, cats, rules) <==>
            (forall r :: r in rules ==> !Early(cats, r)) || BruteForce(ErrorFails, cats, rules) == []
  {
    if forall r :: r in rules ==> !Early(cats, r) {
      SieveIsBruteForce(ErrorFails, cats, rules);
    } else {
      var r :| r in rules && Early(cats, r);
      EarlyLosesAll(cats, rules, r);
    }
  }

  /** The second category's name, written by its code point. */
  const ESCAPED: Rule := Rule("s.pos('\\x62', 'y') == 0", Bin(Eq, Pos("b", "y"), Num(0)))

  lemma EscapedHidesName()
    ensures !Contains(ESCAPED.text, "b")
  {
    var text := ESCAPED.text;
    assert forall i :: 0 <= i < |text| ==> text[i] != 'b';
    forall i | 0 <= i <= |text| ensures !OccursAt(text, "b", i) {
      if i < |text| { assert text[i..i + 1][0] != 'b'; }
    }
  }

  /** There are early rules that lose solutions: here the text hides the name of the second category. */
  lemma UnspelledRuleLosesAll()
    ensures var cats, rule := [Category("a", ["x"]), Category("b", ["y"])], ESCAPED;
            Solutions(ErrorFails, cats, [rule]) == [] && BruteForce(ErrorFails, cats, [rule]) == [[[0], [0]]]
  {
    var cats := [Category("a", ["x"]), Category("b", ["y"])];
    var rule := ESCAPED;
    EscapedHidesName();
    hide Contains;
    OnePerm();
    var perms: seq<Perm> := [[0]];
    assert [] + [[0]] == [[0]] && [[0]] + [[0]] == [[0], [0]];
    assert Extensions([], perms) == [[[0]]] && Extensions([[0]], perms) == [[[0], [0]]];
    assert Extend([[]], perms) == [[[0]]] by {
      assert Extend([[]], perms) == Extensions([], perms) + Extend([], perms);
    }
    assert Extend([[[0]]], perms) == [[[0], [0]]] by {
      assert Extend([[[0]]], perms) == Extensions([[0]], perms) + Extend([], perms);
    }
    assert Worlds(perms, 1) == [[[0]]] && Worlds(perms, 2) == [[[0], [0]]];
    assert Names(cats) == ["a", "b"];
    assert IndexOf(["b"], "b") == Some(0) && IndexOf(["a", "b"], "b") == Some(1) by { assert ["a", "b"][1..] == ["b"]; }
    assert PosOf(cats, [[0]], "b", "y") == None && PosOf(cats, [[0], [0]], "b", "y") == Some(0);
    assert !Holds(ErrorFails, cats, rule, [[0]]) && Holds(ErrorFails, cats, rule, [[0], [0]]);
    assert Ready(cats, rule, 0);
    assert !Survives(ErrorFails, cats, [rule], 0, [[0]]) by { assert [rule][0] == rule; }
    assert Keep(ErrorFails, cats, [rule], 0, [[[0]]]) == [] by { assert [[[0]]][1..] == []; }
    assert Stream(ErrorFails, cats, [rule], perms, 0) == [[]];
    assert Stream(ErrorFails, cats, [rule], perms, 1) == [];
    assert Stream(ErrorFails, cats, [rule], perms, 2) == [];
    assert AllHold(ErrorFails, cats, [rule], [[0], [0]]);
    assert Filter(ErrorFails, cats, [rule], [[[0], [0]]]) == [[[0], [0]]] by { assert [[[0], [0]]][1..] == []; }
  }

  lemma OnePerm()
    ensures Perms(1) == [[0]]
  {
    assert Range(1) == [0];
    assert Without([0], 0) == [];
    assert Prefixed(0, [[]]) == [[0]] by { assert [0] + [] == [0]; }
    assert PermsFrom([0], 0) == Prefixed(0, PermsOf([])) + PermsFrom([0], 1);
  }
}
