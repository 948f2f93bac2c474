/** What the sieve's list is, and the loops that compute it. */
module SieveSolver {
  import opened Basics
  import opened Text
  import opened Permutations
  import opened Sieve

  // ---- the list: exactly the solutions, each once, in lexicographic order ----

  predicate StateLess(s: State, t: State) {
    s != [] && t != [] && (LexLess(s[0], t[0]) || (s[0] == t[0] && StateLess(s[1..], t[1..])))
  }

  predicate StatesAscend(states: seq<State>) {
    forall i, j :: 0 <= i < j < |states| ==> StateLess(states[i], states[j])
  }

  lemma {:induction false} LessThenAppended(s: State, t: State, p: Perm, q: Perm)
    requires StateLess(s, t)
    ensures StateLess(s + [p], t + [q])
  {
    assert (s + [p])[1..] == s[1..] + [p] && (t + [q])[1..] == t[1..] + [q];
    if !LexLess(s[0], t[0]) { LessThenAppended(s[1..], t[1..], p, q); }
  }

  lemma {:induction false} LessAtEnd(s: State, p: Perm, q: Perm)
    requires LexLess(p, q)
    ensures StateLess(s + [p], s + [q])
  {
    if s != [] {
      assert (s + [p])[1..] == s[1..] + [p] && (s + [q])[1..] == s[1..] + [q];
      LessAtEnd(s[1..], p, q);
    }
  }

  lemma {:induction false} StateIrreflexive(s: State)
    ensures !StateLess(s, s)
  {
    if s != [] {
      LexIrreflexive(s[0]);
      StateIrreflexive(s[1..]);
    }
  }

  lemma AscendAppend(a: seq<State>, b: seq<State>)
    requires StatesAscend(a) && StatesAscend(b)
    requires forall x, y :: x in a && y in b ==> StateLess(x, y)
    ensures StatesAscend(a + b)
  {
    hide StateLess;
    forall i, j | 0 <= i < j < |a + b| ensures StateLess((a + b)[i], (a + b)[j]) {
      if i < |a| <= j { assert a[i] in a && b[j - |a|] in b; }
    }
  }

  lemma {:induction false} ExtendHas(states: seq<State>, perms: seq<Perm>, x: State)
    ensures x in Extend(states, perms) <==> x != [] && x[..|x| - 1] in states && x[|x| - 1] in perms
    decreases |states|
  {
    if states != [] {
      ExtendHas(states[1..], perms, x);
      ExtensionsHas(states[0], perms, x);
    }
  }

  lemma ExtensionsHas(state: State, perms: seq<Perm>, x: State)
    ensures x in Extensions(state, perms) <==> x != [] && x[..|x| - 1] == state && x[|x| - 1] in perms
  {
    if x in Extensions(state, perms) {
      var i :| 0 <= i < |perms| && x == state + [perms[i]];
    }
    if x != [] && x[..|x| - 1] == state && x[|x| - 1] in perms {
      var i :| 0 <= i < |perms| && perms[i] == x[|x| - 1];
      assert x == state + [perms[i]] == Extensions(state, perms)[i];
    }
  }

  lemma {:induction false} ExtendAscends(states: seq<State>, perms: seq<Perm>)
    requires StatesAscend(states) && Ascending(perms)
    ensures StatesAscend(Extend(states, perms))
  {
    if states != [] {
      var s, here, rest := states[0], Extensions(states[0], perms), Extend(states[1..], perms);
      ExtendAscends(states[1..], perms);
      forall i, j | 0 <= i < j < |here| ensures StateLess(here[i], here[j]) {
        LessAtEnd(s, perms[i], perms[j]);
      }
      forall x, y | x in here && y in rest ensures StateLess(x, y) {
        ExtensionsHas(s, perms, x);
        ExtendHas(states[1..], perms, y);
        var k :| 0 <= k < |states| - 1 && states[1..][k] == y[..|y| - 1];
        assert StateLess(states[0], states[k + 1]);
        assert x == x[..|x| - 1] + [x[|x| - 1]] && y == y[..|y| - 1] + [y[|y| - 1]];
        LessThenAppended(s, y[..|y| - 1], x[|x| - 1], y[|y| - 1]);
      }
      AscendAppend(here, rest);
    }
  }

  lemma {:induction false} WorldsAscend(perms: seq<Perm>, i: nat)
    requires Ascending(perms)
    ensures StatesAscend(Worlds(perms, i))
  {
    if i > 0 {
      WorldsAscend(perms, i - 1);
      ExtendAscends(Worlds(perms, i - 1), perms);
    }
  }

  lemma {:induction false} WorldsHas(perms: seq<Perm>, i: nat, x: State)
    ensures x in Worlds(perms, i) <==> |x| == i && forall k :: 0 <= k < i ==> x[k] in perms
  {
    if i > 0 {
      ExtendHas(Worlds(perms, i - 1), perms, x);
      if x != [] {
        var y := x[..|x| - 1];
        WorldsHas(perms, i - 1, y);
        assert |x| == i ==> forall k :: 0 <= k < i - 1 ==> x[k] == y[k];
      }
    }
  }

  lemma {:induction false} FilterHas(
      policy: Policy, cats: seq<Category>, rules: seq<Rule>, states: seq<State>, x: State)
    ensures x in Filter(policy, cats, rules, states) <==> x in states && AllHold(policy, cats, rules, x)
    decreases |states|
  {
    if states != [] { FilterHas(policy, cats, rules, states[1..], x); }
  }

  lemma {:induction false} FilterAscends(policy: Policy, cats: seq<Category>, rules: seq<Rule>, states: seq<State>)
    requires StatesAscend(states)
    ensures StatesAscend(Filter(policy, cats, rules, states))
    decreases |states|
  {
    if states != [] {
      hide StateLess, AllHold;
      var rest := Filter(policy, cats, rules, states[1..]);
      FilterAscends(policy, cats, rules, states[1..]);
      forall y | y in rest ensures StateLess(states[0], y) {
        FilterHas(policy, cats, rules, states[1..], y);
        var k :| 0 <= k < |states| - 1 && states[1..][k] == y;
        assert states[k + 1] == y;
      }
      AscendAppend([states[0]], rest);
      assert [] + rest == rest;
    }
  }

  /** A world: one permutation of the places for each category. */
  predicate IsWorld(cats: seq<Category>, x: State)
    requires cats != []
  {
    |x| == |cats| && forall k :: 0 <= k < |cats| ==> IsPerm(x[k], |cats[0].vals|)
  }

  /** The result is strictly ascending, so holds no world twice, and holds exactly the worlds on which every rule
   *  holds. */
  lemma SolutionsExact(policy: Policy, cats: seq<Category>, rules: seq<Rule>, x: State)
    requires cats != [] && Safe(policy, cats, rules)
    ensures StatesAscend(Solutions(policy, cats, rules))
    ensures x in Solutions(policy, cats, rules) <==> IsWorld(cats, x) && AllHold(policy, cats, rules, x)
  {
    var n := |cats[0].vals|;
    SieveIsBruteForce(policy, cats, rules);
    PermsInOrder(n);
    WorldsAscend(Perms(n), |cats|);
    FilterAscends(policy, cats, rules, Worlds(Perms(n), |cats|));
    FilterHas(policy, cats, rules, Worlds(Perms(n), |cats|), x);
    WorldsHas(Perms(n), |cats|, x);
    forall p | p in x ensures p in Perms(n) <==> IsPerm(p, n) { PermsExact(n, p); }
  }

  // ---- the order of the categories ----

  predicate DistinctNames(cats: seq<Category>) {
    forall i, j :: 0 <= i < j < |cats| ==> cats[i].name != cats[j].name
  }

  /** The same dictionary entries in another order. */
  ghost predicate Reordered(cats: seq<Category>, cats': seq<Category>) {
    DistinctNames(cats) && DistinctNames(cats') && forall c :: c in cats <==> c in cats'
  }

  function PermOf(cats: seq<Category>, state: State, name: string): Perm {
    var k := IndexOf(Names(cats), name);
    if k.Some? && k.value < |state| then state[k.value] else []
  }

  /** The same assignment, listed in the other order. */
  function Relisted(cats: seq<Category>, cats': seq<Category>, state: State): State {
    seq(|cats'|, k requires 0 <= k < |cats'| => PermOf(cats, state, cats'[k].name))
  }

  lemma SameCategory(cats: seq<Category>, cats': seq<Category>, name: string)
    requires Reordered(cats, cats')
    ensures var k, k' := IndexOf(Names(cats), name), IndexOf(Names(cats'), name);
            k.Some? == k'.Some? && (k.Some? ==> cats[k.value] == cats'[k'.value])
  {
    var k, k' := IndexOf(Names(cats), name), IndexOf(Names(cats'), name);
    if k.Some? {
      assert cats[k.value] in cats';
      var j :| 0 <= j < |cats'| && cats'[j] == cats[k.value];
      assert Names(cats')[j] == name;
    }
    if k'.Some? {
      assert cats'[k'.value] in cats;
      var j :| 0 <= j < |cats| && cats[j] == cats'[k'.value];
      assert Names(cats)[j] == name;
    }
  }

  lemma PosRelisted(cats: seq<Category>, cats': seq<Category>, state: State, cat: string, val: string)
    requires Reordered(cats, cats') && |state| == |cats|
    ensures PosOf(cats', Relisted(cats, cats', state), cat, val) == PosOf(cats, state, cat, val)
  {
    SameCategory(cats, cats', cat);
  }

  lemma {:induction false} EvalRelisted(e: Expr, cats: seq<Category>, cats': seq<Category>, state: State)
    requires Reordered(cats, cats') && |state| == |cats|
    ensures Eval(e, cats', Relisted(cats, cats', state)) == Eval(e, cats, state)
  {
    hide PosOf, Relisted, Reordered;
    match e {
      case Num(_) =>
      case Pos(cat, val) => PosRelisted(cats, cats', state, cat, val);
      case Query(q) =>
        if SplitQuery(q).Some? { PosRelisted(cats, cats', state, SplitQuery(q).value.0, SplitQuery(q).value.1); }
      case Abs(a) => EvalRelisted(a, cats, cats', state);
      case Not(a) => EvalRelisted(a, cats, cats', state);
      case Bin(_, l, r) =>
        EvalRelisted(l, cats, cats', state);
        EvalRelisted(r, cats, cats', state);
    }
  }

  /** A solution under one category order, listed in another order, is a solution under that order. */
  lemma CategoryOrderIrrelevant(policy: Policy, cats: seq<Category>, cats': seq<Category>, rules: seq<Rule>, x: State)
    requires cats != [] && cats' != [] && Reordered(cats, cats') && |cats[0].vals| == |cats'[0].vals|
    requires Safe(policy, cats, rules) && Safe(policy, cats', rules)
    requires x in Solutions(policy, cats, rules)
    ensures Relisted(cats, cats', x) in Solutions(policy, cats', rules)
    ensures forall c :: c in cats ==> PermOf(cats', Relisted(cats, cats', x), c.name) == PermOf(cats, x, c.name)
  {
    var y := Relisted(cats, cats', x);
    SolutionsExact(policy, cats, rules, x);
    SolutionsExact(policy, cats', rules, y);
    forall k | 0 <= k < |rules| ensures Holds(policy, cats', rules[k], y) {
      EvalRelisted(rules[k].expr, cats, cats', x);
      assert Holds(policy, cats, rules[k], x);
    }
    forall k | 0 <= k < |cats'| ensures IsPerm(y[k], |cats[0].vals|) {
      SameCategory(cats, cats', cats'[k].name);
      assert Names(cats')[k] in Names(cats');
    }
    forall c | c in cats ensures PermOf(cats', y, c.name) == PermOf(cats, x, c.name) {
      var j :| 0 <= j < |cats| && cats[j] == c;
      assert Names(cats)[j] in Names(cats);
      SameCategory(cats, cats', c.name);
    }
  }

  // ---- errors: solve against verify_logic ----

  predicate Errs(cats: seq<Category>, rules: seq<Rule>, x: State) {
    exists k :: 0 <= k < |rules| && Eval(rules[k].expr, cats, x).None?
  }

  lemma HoldsWithoutErrors(cats: seq<Category>, rules: seq<Rule>, x: State)
    ensures AllHold(ErrorFails, cats, rules, x) <==> AllHold(ErrorPasses, cats, rules, x) && !Errs(cats, rules, x)
  {
    if AllHold(ErrorFails, cats, rules, x) {
      forall k | 0 <= k < |rules| ensures Holds(ErrorPasses, cats, rules[k], x) && Eval(rules[k].expr, cats, x).Some? {
        assert Holds(ErrorFails, cats, rules[k], x);
      }
    }
    if AllHold(ErrorPasses, cats, rules, x) && !Errs(cats, rules, x) {
      forall k | 0 <= k < |rules| ensures Holds(ErrorFails, cats, rules[k], x) {
        assert Holds(ErrorPasses, cats, rules[k], x);
      }
    }
  }

  lemma {:induction false} FiltersAgree(cats: seq<Category>, rules: seq<Rule>, states: seq<State>)
    requires forall x :: x in Filter(ErrorPasses, cats, rules, states) ==> !Errs(cats, rules, x)
    ensures Filter(ErrorFails, cats, rules, states) == Filter(ErrorPasses, cats, rules, states)
    decreases |states|
  {
    if states != [] {
      FiltersAgree(cats, rules, states[1..]);
      HoldsWithoutErrors(cats, rules, states[0]);
      hide AllHold, Errs;
      assert AllHold(ErrorPasses, cats, rules, states[0]) ==> states[0] in Filter(ErrorPasses, cats, rules, states);
    }
  }

  /** The solver and the verifier give the same list exactly when no world that the verifier keeps makes a rule
   *  raise. */
  lemma SolveIsVerifyWithoutErrors(cats: seq<Category>, rules: seq<Rule>)
    requires cats != [] && Safe(ErrorFails, cats, rules)
    ensures Solutions(ErrorFails, cats, rules) == Solutions(ErrorPasses, cats, rules)
            <==> forall x :: x in Solutions(ErrorPasses, cats, rules) ==> !Errs(cats, rules, x)
  {
    SieveIsBruteForce(ErrorFails, cats, rules);
    SieveIsBruteForce(ErrorPasses, cats, rules);
    var worlds := Worlds(Perms(|cats[0].vals|), |cats|);
    if forall x :: x in Solutions(ErrorPasses, cats, rules) ==> !Errs(cats, rules, x) {
      FiltersAgree(cats, rules, worlds);
    }
    forall x | x in Solutions(ErrorFails, cats, rules) ensures !Errs(cats, rules, x) {
      FilterHas(ErrorFails, cats, rules, worlds, x);
      HoldsWithoutErrors(cats, rules, x);
    }
  }

  /** Every category and value that the expression names is there, within the first category's size. */
  predicate Resolves(e: Expr, cats: seq<Category>)
    requires cats != []
  {
    match e
    case Num(_) => true
    case Pos(cat, val) => PosResolves(cats, cat, val)
    case Query(q) => SplitQuery(q).Some? && PosResolves(cats, SplitQuery(q).value.0, SplitQuery(q).value.1)
    case Abs(a) => Resolves(a, cats)
    case Not(a) => Resolves(a, cats)
    case Bin(_, l, r) => Resolves(l, cats) && Resolves(r, cats)
  }

  predicate PosResolves(cats: seq<Category>, cat: string, val: string)
    requires cats != []
  {
    var c := IndexOf(Names(cats), cat);
    c.Some? && IndexOf(cats[c.value].vals, val).Some? && IndexOf(cats[c.value].vals, val).value < |cats[0].vals|
  }

  lemma {:induction false} ResolvedNeverRaises(e: Expr, cats: seq<Category>, x: State)
    requires cats != [] && Resolves(e, cats) && IsWorld(cats, x)
    ensures Eval(e, cats, x).Some?
  {
    match e {
      case Num(_) =>
      case Pos(_, _) =>
      case Query(_) =>
      case Abs(a) => ResolvedNeverRaises(a, cats, x);
      case Not(a) => ResolvedNeverRaises(a, cats, x);
      case Bin(_, l, r) =>
        ResolvedNeverRaises(l, cats, x);
        ResolvedNeverRaises(r, cats, x);
    }
  }

  /** With names that are all there, and no rule early, the solver and the verifier agree. */
  lemma SolveIsVerifyWhenResolved(cats: seq<Category>, rules: seq<Rule>)
    requires cats != [] && Safe(ErrorFails, cats, rules) && forall r :: r in rules ==> Resolves(r.expr, cats)
    ensures Solutions(ErrorFails, cats, rules) == Solutions(ErrorPasses, cats, rules)
  {
    forall x | x in Solutions(ErrorPasses, cats, rules) ensures !Errs(cats, rules, x) {
      SolutionsExact(ErrorPasses, cats, rules, x);
      forall k | 0 <= k < |rules| ensures Eval(rules[k].expr, cats, x).Some? {
        ResolvedNeverRaises(rules[k].expr, cats, x);
      }
    }
    SolveIsVerifyWithoutErrors(cats, rules);
  }

  lemma {:induction false} UnresolvedRaises(e: Expr, cats: seq<Category>, x: State)
    requires cats != [] && Strict(e) && !Resolves(e, cats) && IsWorld(cats, x)
    ensures Eval(e, cats, x).None?
  {
    match e {
      case Pos(_, _) =>
      case Query(_) =>
      case Abs(a) => UnresolvedRaises(a, cats, x);
      case Not(a) => UnresolvedRaises(a, cats, x);
      case Bin(_, l, r) =>
        if !Resolves(l, cats) { UnresolvedRaises(l, cats, x); } else { UnresolvedRaises(r, cats, x); }
    }
  }

  /** A rule without `and` and `or` that names an absent category or value leaves the solver nothing. */
  lemma UnresolvedLosesAll(cats: seq<Category>, rules: seq<Rule>, r: Rule)
    requires cats != [] && (forall q :: q in rules ==> Strict(q.expr)) && r in rules && !Resolves(r.expr, cats)
    ensures Solutions(ErrorFails, cats, rules) == []
  {
    if forall q :: q in rules ==> !Early(cats, q) {
      if Solutions(ErrorFails, cats, rules) != [] {
        var x := Solutions(ErrorFails, cats, rules)[0];
        SolutionsExact(ErrorFails, cats, rules, x);
        UnresolvedRaises(r.expr, cats, x);
        RaisingIsOut(cats, rules, r, 0, x);
      }
    } else {
      var q :| q in rules && Early(cats, q);
      EarlyLosesAll(cats, rules, q);
    }
  }

  /** For rules without `and` and `or` the solver and the verifier agree exactly when every rule names only what is
   *  there and none is early, or the verifier keeps no world either. */
  lemma SolveIsVerifyExactly(cats: seq<Category>, rules: seq<Rule>)
    requires cats != [] && forall r :: r in rules ==> Strict(r.expr)
    ensures Solutions(ErrorFails, cats, rules) == Solutions(ErrorPasses, cats, rules) <==>
            (forall r :: r in rules ==> Resolves(r.expr, cats) && !Early(cats, r))
              || Solutions(ErrorPasses, cats, rules) == []
  {
    if r :| r in rules && Early(cats, r) {
      EarlyLosesAll(cats, rules, r);
    } else if r :| r in rules && !Resolves(r.expr, cats) {
      UnresolvedLosesAll(cats, rules, r);
    } else {
      SolveIsVerifyWhenResolved(cats, rules);
    }
  }

  // ---- the code ----

  lemma KeepOne(policy: Policy, cats: seq<Category>, rules: seq<Rule>, i: nat, states: seq<State>, x: State)
    ensures Keep(policy, cats, rules, i, states + [x]) ==
            Keep(policy, cats, rules, i, states) + if Survives(policy, cats, rules, i, x) then [x] else []
  {
    KeepAppend(policy, cats, rules, i, states, [x]);
    hide Survives;
    assert [x][1..] == [];
  }

  lemma {:induction false} ExtendOne(states: seq<State>, x: State, perms: seq<Perm>)
    ensures Extend(states + [x], perms) == Extend(states, perms) + Extensions(x, perms)
  {
    if states == [] {
      assert ([x] + [])[1..] == [] && states + [x] == [x];
      assert Extend([x], perms) == Extensions(x, perms) + [];
    } else {
      assert (states + [x])[1..] == states[1..] + [x];
      ExtendOne(states[1..], x, perms);
    }
  }

  /** The rules that are ready, in order. */
  ghost predicate Active(cats: seq<Category>, rules: seq<Rule>, i: nat, active: seq<Rule>) {
    forall r :: r in active <==> r in rules && Ready(cats, r, i)
  }

  lemma ActiveDecides(policy: Policy, cats: seq<Category>, rules: seq<Rule>, i: nat, active: seq<Rule>, x: State)
    requires Active(cats, rules, i, active)
    ensures Survives(policy, cats, rules, i, x) <==> AllHold(policy, cats, active, x)
  {
    if Survives(policy, cats, rules, i, x) {
      forall k | 0 <= k < |active| ensures Holds(policy, cats, active[k], x) {
        assert active[k] in active;
      }
    }
    if AllHold(policy, cats, active, x) {
      forall k | 0 <= k < |rules| && Ready(cats, rules[k], i) ensures Holds(policy, cats, rules[k], x) {
        assert rules[k] in active;
      }
    }
  }

  /** One category of either loop: every state with every permutation, kept when all active rules hold. */
  method SieveStep(policy: Policy, cats: seq<Category>, ghost rules: seq<Rule>, i: nat, active: seq<Rule>,
                   stream: seq<State>, perms: seq<Perm>)
    returns (newStream: seq<State>)
    requires Active(cats, rules, i, active)
    ensures newStream == Keep(policy, cats, rules, i, Extend(stream, perms))
  {
    hide Survives, AllHold;
    newStream := [];
    for a := 0 to |stream|
      invariant newStream == Keep(policy, cats, rules, i, Extend(stream[..a], perms))
    {
      assert stream[..a + 1] == stream[..a] + [stream[a]];
      ExtendOne(stream[..a], stream[a], perms);
      ghost var done := Extend(stream[..a], perms);
      assert done + [] == done;
      for b := 0 to |perms|
        invariant newStream == Keep(policy, cats, rules, i, done + Extensions(stream[a], perms)[..b])
      {
        var candidate := stream[a] + [perms[b]];
        assert done + Extensions(stream[a], perms)[..b + 1] == (done + Extensions(stream[a], perms)[..b]) + [candidate];
        KeepOne(policy, cats, rules, i, done + Extensions(stream[a], perms)[..b], candidate);
        ActiveDecides(policy, cats, rules, i, active, candidate);
        var ok := CheckRules(policy, cats, active, candidate);
        if ok { newStream := newStream + [candidate]; }
      }
      assert Extensions(stream[a], perms)[..|perms|] == Extensions(stream[a], perms);
    }
    assert stream[..|stream|] == stream;
  }

  /** `all(...)` over the active rules: stops at the first that does not hold. */
  method CheckRules(policy: Policy, cats: seq<Category>, active: seq<Rule>, candidate: State) returns (ok: bool)
    ensures ok <==> AllHold(policy, cats, active, candidate)
  {
    for k := 0 to |active|
      invariant forall j :: 0 <= j < k ==> Holds(policy, cats, active[j], candidate)
    {
      var x := Eval(active[k].expr, cats, candidate);
      if (x.None? && policy == ErrorFails) || (x.Some? && x.value == 0) {
        assert !Holds(policy, cats, active[k], candidate);
        return false;
      }
    }
    return true;
  }

  class SmartSieveEngine {
    const cats: seq<Category>
    const rules: seq<Rule>
    const perms: seq<Perm>

    constructor (cats: seq<Category>, rules: seq<Rule>)
      requires cats != []
      ensures this.cats == cats && this.rules == rules && perms == Perms(|cats[0].vals|)
    {
      this.cats, this.rules := cats, rules;
      perms := Perms(|cats[0].vals|);
    }

    method RuleMentionsCats(r: Rule) returns (mentioned: set<nat>)
      ensures forall i: nat :: i in mentioned <==> Mentions(cats, r, i)
    {
      mentioned := {};
      for i := 0 to |cats|
        invariant forall k: nat :: k in mentioned <==> k < i && Mentions(cats, r, k)
      {
        if Contains(r.text, cats[i].name) { mentioned := mentioned + {i}; }
      }
    }

    method IsRuleReady(r: Rule, current: nat) returns (ready: bool)
      ensures ready <==> Ready(cats, r, current)
    {
      var mentioned := RuleMentionsCats(r);
      var left: set<nat> := mentioned;
      while left != {}
        invariant left <= mentioned && forall k: nat :: k in mentioned && k !in left ==> k <= current
        decreases |left|
      {
        var idx :| idx in left;
        if idx > current {
          assert Mentions(cats, r, idx);
          return false;
        }
        left := left - {idx};
      }
      return true;
    }

    method ActiveRules(i: nat) returns (active: seq<Rule>)
      ensures Active(cats, rules, i, active)
    {
      hide Ready;
      active := [];
      for k := 0 to |rules|
        invariant Active(cats, rules[..k], i, active)
      {
        var ready := IsRuleReady(rules[k], i);
        if ready { active := active + [rules[k]]; }
      }
      assert rules[..|rules|] == rules;
    }

    method Solve() returns (stream: seq<State>)
      requires cats != [] && perms == Perms(|cats[0].vals|)
      ensures stream == Solutions(ErrorFails, cats, rules)
    {
      hide Active, Keep, Extend, Perms;
      stream := [[]];
      for i := 0 to |cats|
        invariant stream == Stream(ErrorFails, cats, rules, perms, i)
      {
        var active := ActiveRules(i);
        stream := SieveStep(ErrorFails, cats, rules, i, active, stream, perms);
        if stream == [] {
          StaysEmpty(ErrorFails, cats, rules, perms, i + 1, |cats|);
          return [];
        }
      }
    }
  }

  /** The module-level `verify_logic`: the stable worlds, and for each branch those of them that satisfy its rules
   *  too. */
  method VerifyLogic(cats: seq<Category>, axioms: seq<Rule>, branches: seq<seq<Rule>>)
    returns (stable: seq<State>, valid: seq<seq<State>>)
    requires cats != [] && DistinctNames(cats)
    ensures stable == Solutions(ErrorPasses, cats, axioms) == BruteForce(ErrorPasses, cats, axioms)
    ensures |valid| == |branches| && forall b :: 0 <= b < |branches| ==>
            valid[b] == Filter(ErrorPasses, cats, branches[b], stable)
  {
    hide Active, Keep, Extend, Filter;
    SieveIsBruteForce(ErrorPasses, cats, axioms);
    var perms := Perms(|cats[0].vals|);
    stable := [[]];
    for i := 0 to |cats|
      invariant stable == Stream(ErrorPasses, cats, axioms, perms, i)
    {
      var applicable := ApplicableAxioms(cats, axioms, i);
      stable := SieveStep(ErrorPasses, cats, axioms, i, applicable, stable, perms);
    }
    valid := [];
    for b := 0 to |branches|
      invariant |valid| == b && forall c :: 0 <= c < b ==> valid[c] == Filter(ErrorPasses, cats, branches[c], stable)
    {
      var kept := KeepWorlds(cats, branches[b], stable);
      valid := valid + [kept];
    }
  }

  /** `all(cat_names.index(n) <= ci for n in cat_names if n in ax)`. */
  method Applicable(cats: seq<Category>, r: Rule, i: nat) returns (ready: bool)
    requires DistinctNames(cats)
    ensures ready <==> Ready(cats, r, i)
  {
    for k := 0 to |cats|
      invariant forall j :: 0 <= j < k && i < j ==> !Mentions(cats, r, j)
    {
      if Contains(r.text, cats[k].name) {
        var at := IndexOf(Names(cats), cats[k].name);
        assert Names(cats)[k] in Names(cats);
        if at.value > i {
          assert Mentions(cats, r, k);
          return false;
        }
      }
    }
    return true;
  }

  method ApplicableAxioms(cats: seq<Category>, axioms: seq<Rule>, i: nat) returns (applicable: seq<Rule>)
    requires DistinctNames(cats)
    ensures Active(cats, axioms, i, applicable)
  {
    hide Ready;
    applicable := [];
    for k := 0 to |axioms|
      invariant Active(cats, axioms[..k], i, applicable)
    {
      var ready := Applicable(cats, axioms[k], i);
      if ready { applicable := applicable + [axioms[k]]; }
    }
    assert axioms[..|axioms|] == axioms;
  }

  method KeepWorlds(cats: seq<Category>, rules: seq<Rule>, worlds: seq<State>) returns (kept: seq<State>)
    ensures kept == Filter(ErrorPasses, cats, rules, worlds)
  {
    kept := [];
    hide AllHold;
    for w := 0 to |worlds|
      invariant kept + Filter(ErrorPasses, cats, rules, worlds[w..]) == Filter(ErrorPasses, cats, rules, worlds)
    {
      assert worlds[w..][1..] == worlds[w + 1..];
      ghost var rest := Filter(ErrorPasses, cats, rules, worlds[w + 1..]);
      var ok := CheckRules(ErrorPasses, cats, rules, worlds[w]);
      if ok {
        assert kept + ([worlds[w]] + rest) == (kept + [worlds[w]]) + rest;
        kept := kept + [worlds[w]];
      } else {
        assert [] + rest == rest;
      }
    }
    assert kept + [] == kept;
  }
}
