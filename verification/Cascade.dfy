/** The cascading rule check of the logic manifest, on permutations of the entities. */
module Cascade {
  import opened Basics
  import opened Text
  import opened Permutations

  datatype Source = Axiom | Hypothesis

  datatype Tagged = Tagged(rule: string, source: Source)

  datatype Status = Accepted | Confirmed | Provisional | Declined

  datatype Claim = Claim(rule: string, source: Source, status: Status, before: nat, after: nat)

  datatype Manifest = Manifest(entities: seq<string>, axioms: seq<string>, hypotheses: seq<seq<string>>)

  datatype Verdict = Verdict(stable: nat, claims: seq<Claim>)

  /** Evaluating a rule in a world for an author, or for none; None is an exception. */
  type Evaluator = (string, Perm, Option<string>) -> Option<bool>

  /** `check`: an exception counts as true. */
  predicate Check(eval: Evaluator, world: Perm, rule: string, author: Option<string>) {
    var r := eval(rule, world, author);
    r.None? || r.value
  }

  predicate HasAuthor(rule: string) { Contains(Lower(rule), "author") }

  /** The rule holds in the world: for some author, if it speaks of one. */
  predicate Satisfies(eval: Evaluator, entities: seq<string>, rule: string, world: Perm) {
    if HasAuthor(rule) then exists k :: 0 <= k < |entities| && Check(eval, world, rule, Some(entities[k]))
    else Check(eval, world, rule, None)
  }

  predicate SatisfiesAll(eval: Evaluator, entities: seq<string>, rules: seq<string>, world: Perm) {
    forall k :: 0 <= k < |rules| ==> Satisfies(eval, entities, rules[k], world)
  }

  function Filter(eval: Evaluator, entities: seq<string>, rule: string, pool: seq<Perm>): seq<Perm> {
    if pool == [] then []
    else (if Satisfies(eval, entities, rule, pool[0]) then [pool[0]] else []) + Filter(eval, entities, rule, pool[1..])
  }

  function FilterAll(eval: Evaluator, entities: seq<string>, rules: seq<string>, pool: seq<Perm>): seq<Perm> {
    if pool == [] then []
    else
      (if SatisfiesAll(eval, entities, rules, pool[0]) then [pool[0]] else [])
      + FilterAll(eval, entities, rules, pool[1..])
  }

  // ---- the cascade ----

  function StatusOf(source: Source, before: nat, after: nat): Status {
    if after == 0 then Declined
    else if source == Axiom then Accepted
    else if after == before then Confirmed
    else Provisional
  }

  function NextPool(status: Status, pool: seq<Perm>, filtered: seq<Perm>): seq<Perm> {
    if status == Accepted || status == Provisional then filtered else pool
  }

  function ClaimOf(eval: Evaluator, entities: seq<string>, t: Tagged, pool: seq<Perm>): Claim {
    var after := |Filter(eval, entities, t.rule, pool)|;
    Claim(t.rule, t.source, StatusOf(t.source, |pool|, after), |pool|, after)
  }

  function PoolAfter(eval: Evaluator, entities: seq<string>, t: Tagged, pool: seq<Perm>): seq<Perm> {
    NextPool(ClaimOf(eval, entities, t, pool).status, pool, Filter(eval, entities, t.rule, pool))
  }

  function Claims(eval: Evaluator, entities: seq<string>, rules: seq<Tagged>, pool: seq<Perm>): seq<Claim>
    decreases |rules|
  {
    if rules == [] then []
    else
      [ClaimOf(eval, entities, rules[0], pool)]
      + Claims(eval, entities, rules[1..], PoolAfter(eval, entities, rules[0], pool))
  }

  function FinalPool(eval: Evaluator, entities: seq<string>, rules: seq<Tagged>, pool: seq<Perm>): seq<Perm>
    decreases |rules|
  {
    if rules == [] then pool else FinalPool(eval, entities, rules[1..], PoolAfter(eval, entities, rules[0], pool))
  }

  function TagAll(rules: seq<string>, source: Source): seq<Tagged> {
    seq(|rules|, i requires 0 <= i < |rules| => Tagged(rules[i], source))
  }

  function TagBranches(branches: seq<seq<string>>): seq<Tagged> {
    if branches == [] then [] else TagAll(branches[0], Hypothesis) + TagBranches(branches[1..])
  }

  /** The axioms, then the branches' rules in order. */
  function AllRules(m: Manifest): seq<Tagged> { TagAll(m.axioms, Axiom) + TagBranches(m.hypotheses) }

  function Verify(eval: Evaluator, m: Manifest): Verdict {
    if m.entities == [] then Verdict(0, [])
    else
      var worlds := Perms(|m.entities|);
      Verdict(|FinalPool(eval, m.entities, AllRules(m), worlds)|, Claims(eval, m.entities, AllRules(m), worlds))
  }

  // ---- the code ----

  method FilterLoop(eval: Evaluator, entities: seq<string>, rule: string, pool: seq<Perm>) returns (filtered: seq<Perm>)
    ensures filtered == Filter(eval, entities, rule, pool)
  {
    var hasAuthor := HasAuthor(rule);
    filtered := [];
    for w := 0 to |pool|
      invariant filtered + Filter(eval, entities, rule, pool[w..]) == Filter(eval, entities, rule, pool)
    {
      assert pool[w..][1..] == pool[w + 1..];
      ghost var rest := Filter(eval, entities, rule, pool[w + 1..]);
      var ok := false;
      if hasAuthor {
        for k := 0 to |entities|
          invariant ok <==> exists j :: 0 <= j < k && Check(eval, pool[w], rule, Some(entities[j]))
        {
          if Check(eval, pool[w], rule, Some(entities[k])) { ok := true; }
        }
      } else {
        ok := Check(eval, pool[w], rule, None);
      }
      assert ok <==> Satisfies(eval, entities, rule, pool[w]);
      if ok {
        assert filtered + ([pool[w]] + rest) == (filtered + [pool[w]]) + rest;
        filtered := filtered + [pool[w]];
      } else {
        assert [] + rest == rest;
      }
    }
    assert filtered + [] == filtered;
  }

  /** `verify_logic`, the permutation branch. */
  method VerifyLogic(eval: Evaluator, m: Manifest) returns (v: Verdict)
    ensures v == Verify(eval, m)
  {
    if m.entities == [] {
      return Verdict(0, []);
    }
    var tagged := TagRules(m);
    var pool := Perms(|m.entities|);
    var claims: seq<Claim> := [];
    hide Filter, Perms, AllRules, HasAuthor;
    for i := 0 to |tagged|
      invariant claims + Claims(eval, m.entities, tagged[i..], pool) ==
        Claims(eval, m.entities, tagged, Perms(|m.entities|))
      invariant FinalPool(eval, m.entities, tagged[i..], pool) ==
        FinalPool(eval, m.entities, tagged, Perms(|m.entities|))
    {
      assert tagged[i..][1..] == tagged[i + 1..];
      var t := tagged[i];
      var before := |pool|;
      var filtered := FilterLoop(eval, m.entities, t.rule, pool);
      var after := |filtered|;
      var status: Status;
      ghost var next := PoolAfter(eval, m.entities, t, pool);
      ghost var claim := ClaimOf(eval, m.entities, t, pool);
      if after == 0 {
        status := Declined;
      } else if t.source == Axiom {
        status, pool := Accepted, filtered;
      } else if after == before {
        status := Confirmed;
      } else {
        status, pool := Provisional, filtered;
      }
      assert pool == next && Claim(t.rule, t.source, status, before, after) == claim;
      assert claims + ([claim] + Claims(eval, m.entities, tagged[i + 1..], next))
          == (claims + [claim]) + Claims(eval, m.entities, tagged[i + 1..], next);
      claims := claims + [Claim(t.rule, t.source, status, before, after)];
    }
    assert claims + [] == claims;
    return Verdict(|pool|, claims);
  }

  method TagRules(m: Manifest) returns (tagged: seq<Tagged>)
    ensures tagged == AllRules(m)
  {
    tagged := [];
    for i := 0 to |m.axioms|
      invariant tagged == TagAll(m.axioms[..i], Axiom)
    {
      tagged := tagged + [Tagged(m.axioms[i], Axiom)];
    }
    assert m.axioms[..|m.axioms|] == m.axioms;
    for b := 0 to |m.hypotheses|
      invariant tagged + TagBranches(m.hypotheses[b..]) == AllRules(m)
    {
      assert m.hypotheses[b..][1..] == m.hypotheses[b + 1..];
      var rules, before := m.hypotheses[b], tagged;
      for i := 0 to |rules|
        invariant tagged == before + TagAll(rules[..i], Hypothesis)
      {
        tagged := tagged + [Tagged(rules[i], Hypothesis)];
      }
      assert rules[..|rules|] == rules;
      assert before + (TagAll(rules, Hypothesis) + TagBranches(m.hypotheses[b + 1..])) ==
        tagged + TagBranches(m.hypotheses[b + 1..]);
    }
    assert tagged + [] == tagged;
  }

  // ---- the pool ----

  lemma {:induction false} FilterHas(eval: Evaluator, entities: seq<string>, rule: string, pool: seq<Perm>, w: Perm)
    ensures w in Filter(eval, entities, rule, pool) <==> w in pool && Satisfies(eval, entities, rule, w)
    ensures |Filter(eval, entities, rule, pool)| <= |pool|
  {
    if pool != [] { FilterHas(eval, entities, rule, pool[1..], w); }
  }

  lemma {:induction false} FilterWhole(eval: Evaluator, entities: seq<string>, rule: string, pool: seq<Perm>)
    ensures |Filter(eval, entities, rule, pool)| == |pool| ==> Filter(eval, entities, rule, pool) == pool
    ensures |Filter(eval, entities, rule, pool)| == |pool| <==> forall w :: w in pool ==>
            Satisfies(eval, entities, rule, w)
  {
    if pool != [] {
      hide Satisfies;
      FilterWhole(eval, entities, rule, pool[1..]);
      FilterHas(eval, entities, rule, pool[1..], pool[0]);
      assert pool == [pool[0]] + pool[1..];
    }
  }

  lemma {:induction false} FilterAllHas(
      eval: Evaluator, entities: seq<string>, rules: seq<string>, pool: seq<Perm>, w: Perm)
    ensures w in FilterAll(eval, entities, rules, pool) <==> w in pool && SatisfiesAll(eval, entities, rules, w)
    decreases |pool|
  {
    if pool != [] { FilterAllHas(eval, entities, rules, pool[1..], w); }
  }

  lemma {:induction false} FilterAllNone(eval: Evaluator, entities: seq<string>, pool: seq<Perm>)
    ensures FilterAll(eval, entities, [], pool) == pool
  {
    if pool != [] {
      FilterAllNone(eval, entities, pool[1..]);
      assert pool == [pool[0]] + pool[1..];
    }
  }

  /** Filtering by one rule and then by others is filtering by all of them. */
  lemma {:induction false} FilterThenAll(
      eval: Evaluator, entities: seq<string>, rule: string, rules: seq<string>, pool: seq<Perm>)
    ensures FilterAll(eval, entities, rules, Filter(eval, entities, rule, pool)) ==
            FilterAll(eval, entities, [rule] + rules, pool)
    decreases |pool|
  {
    if pool != [] {
      FilterThenAll(eval, entities, rule, rules, pool[1..]);
      SatisfiesFirst(eval, entities, rule, rules, pool[0]);
      hide Satisfies, SatisfiesAll;
      var rest := Filter(eval, entities, rule, pool[1..]);
      assert ([pool[0]] + rest)[1..] == rest;
      assert [] + rest == rest;
      assert [] + FilterAll(eval, entities, [rule] + rules, pool[1..]) ==
        FilterAll(eval, entities, [rule] + rules, pool[1..]);
    }
  }

  lemma SatisfiesFirst(eval: Evaluator, entities: seq<string>, rule: string, rules: seq<string>, w: Perm)
    ensures SatisfiesAll(eval, entities, [rule] + rules, w) <==>
            Satisfies(eval, entities, rule, w) && SatisfiesAll(eval, entities, rules, w)
  {
    hide Satisfies;
    var all := [rule] + rules;
    if SatisfiesAll(eval, entities, all, w) {
      assert all[0] == rule;
      forall k | 0 <= k < |rules| ensures Satisfies(eval, entities, rules[k], w) { assert all[k + 1] == rules[k]; }
    }
  }

  // ---- the kept rules ----

  /** The rules of the claims that were not declined. */
  function Kept(claims: seq<Claim>): seq<string> {
    if claims == [] then [] else KeptOf(claims[0]) + Kept(claims[1..])
  }

  function KeptOf(c: Claim): seq<string> { if c.status == Declined then [] else [c.rule] }

  /** One rule: the next pool is not empty, and filtering it is filtering the pool by the rule too, if it was kept. */
  lemma KeptStep(eval: Evaluator, entities: seq<string>, t: Tagged, pool: seq<Perm>, rules: seq<string>)
    requires pool != []
    ensures PoolAfter(eval, entities, t, pool) != []
    ensures FilterAll(eval, entities, rules, PoolAfter(eval, entities, t, pool)) ==
            FilterAll(eval, entities, KeptOf(ClaimOf(eval, entities, t, pool)) + rules, pool)
  {
    FilterWhole(eval, entities, t.rule, pool);
    FilterThenAll(eval, entities, t.rule, rules, pool);
    hide Filter, FilterAll;
    assert [] + rules == rules;
  }

  /** The final pool is the first pool filtered by every kept rule, in the same order, and is not empty. */
  lemma {:induction false} PoolIsKeptRules(eval: Evaluator, entities: seq<string>, rules: seq<Tagged>, pool: seq<Perm>)
    requires pool != []
    ensures FinalPool(eval, entities, rules, pool) ==
            FilterAll(eval, entities, Kept(Claims(eval, entities, rules, pool)), pool) != []
    decreases |rules|
  {
    if rules == [] {
      FilterAllNone(eval, entities, pool);
    } else {
      hide Filter, FilterAll, PoolAfter, ClaimOf;
      var next := PoolAfter(eval, entities, rules[0], pool);
      var claims := Claims(eval, entities, rules, pool);
      assert claims[1..] == Claims(eval, entities, rules[1..], next);
      KeptStep(eval, entities, rules[0], pool, Kept(claims[1..]));
      PoolIsKeptRules(eval, entities, rules[1..], next);
    }
  }

  lemma {:induction false} ClaimsLength(eval: Evaluator, entities: seq<string>, rules: seq<Tagged>, pool: seq<Perm>)
    ensures |Claims(eval, entities, rules, pool)| == |rules|
    decreases |rules|
  {
    if rules != [] { ClaimsLength(eval, entities, rules[1..], PoolAfter(eval, entities, rules[0], pool)); }
  }

  lemma {:induction false} PoolShrinks(
      eval: Evaluator, entities: seq<string>, rules: seq<Tagged>, pool: seq<Perm>, w: Perm)
    requires w in FinalPool(eval, entities, rules, pool)
    ensures w in pool
    decreases |rules|
  {
    if rules != [] {
      PoolShrinks(eval, entities, rules[1..], PoolAfter(eval, entities, rules[0], pool), w);
      FilterHas(eval, entities, rules[0].rule, pool, w);
    }
  }

  /** A declined rule holds in no world of the final pool. */
  lemma {:induction false} DeclinedNowhere(
      eval: Evaluator, entities: seq<string>, rules: seq<Tagged>, pool: seq<Perm>, i: nat, w: Perm)
    requires i < |rules| && |Claims(eval, entities, rules, pool)| == |rules|
    requires Claims(eval, entities, rules, pool)[i].status == Declined && w in FinalPool(eval, entities, rules, pool)
    ensures !Satisfies(eval, entities, rules[i].rule, w)
    decreases |rules|
  {
    var next := PoolAfter(eval, entities, rules[0], pool);
    PoolShrinks(eval, entities, rules[1..], next, w);
    if i == 0 {
      FilterHas(eval, entities, rules[0].rule, pool, w);
    } else {
      ClaimsLength(eval, entities, rules[1..], next);
      DeclinedNowhere(eval, entities, rules[1..], next, i - 1, w);
    }
  }

  /** The pool that rule i is checked against: the worlds that satisfy every rule kept before it. */
  lemma {:induction false} ClaimAt(eval: Evaluator, entities: seq<string>, rules: seq<Tagged>, pool: seq<Perm>, i: nat)
    requires pool != [] && i < |rules|
    ensures |Claims(eval, entities, rules, pool)| == |rules|
    ensures var claims := Claims(eval, entities, rules, pool);
            claims[i] == ClaimOf(eval, entities, rules[i], FilterAll(eval, entities, Kept(claims[..i]), pool))
    decreases |rules|
  {
    hide Filter, FilterAll, PoolAfter, ClaimOf;
    ClaimsLength(eval, entities, rules, pool);
    var claims := Claims(eval, entities, rules, pool);
    if i == 0 {
      FilterAllNone(eval, entities, pool);
      assert claims[..0] == [];
    } else {
      var next := PoolAfter(eval, entities, rules[0], pool);
      var before := claims[..i];
      assert before[1..] == Claims(eval, entities, rules[1..], next)[..i - 1];
      KeptStep(eval, entities, rules[0], pool, Kept(before[1..]));
      ClaimAt(eval, entities, rules[1..], next, i - 1);
    }
  }

  // ---- the results, on a manifest ----

  predicate IsWorld(m: Manifest, w: Perm) { IsPerm(w, |m.entities|) }

  /** Consistent with the rules: some world satisfies them all. */
  ghost predicate Consistent(eval: Evaluator, m: Manifest, rules: seq<string>) {
    exists w :: IsWorld(m, w) && SatisfiesAll(eval, m.entities, rules, w)
  }

  ghost predicate Entails(eval: Evaluator, m: Manifest, rules: seq<string>, rule: string) {
    forall w :: IsWorld(m, w) && SatisfiesAll(eval, m.entities, rules, w) ==> Satisfies(eval, m.entities, rule, w)
  }

  lemma PoolWorlds(eval: Evaluator, m: Manifest, rules: seq<string>, w: Perm)
    ensures w in FilterAll(eval, m.entities, rules, Perms(|m.entities|)) <==>
            IsWorld(m, w) && SatisfiesAll(eval, m.entities, rules, w)
  {
    FilterAllHas(eval, m.entities, rules, Perms(|m.entities|), w);
    PermsExact(|m.entities|, w);
  }

  /** The stable worlds are the worlds of all kept rules, there is at least one, and a declined rule would leave
   *  none. */
  lemma KeptIsMaximal(eval: Evaluator, m: Manifest, i: nat)
    requires m.entities != [] && i < |AllRules(m)|
    ensures var v, kept := Verify(eval, m), Kept(Verify(eval, m).claims);
            && v.stable == |FilterAll(eval, m.entities, kept, Perms(|m.entities|))| > 0
            && Consistent(eval, m, kept)
            && |v.claims| == |AllRules(m)| && v.claims[i].rule == AllRules(m)[i].rule
            && (v.claims[i].status == Declined ==> !Consistent(eval, m, kept + [v.claims[i].rule]))
  {
    var worlds, rules := Perms(|m.entities|), AllRules(m);
    var v := Verify(eval, m);
    var kept := Kept(v.claims);
    PermsInOrder(|m.entities|);
    ClaimsLength(eval, m.entities, rules, worlds);
    PoolIsKeptRules(eval, m.entities, rules, worlds);
    ClaimAt(eval, m.entities, rules, worlds, i);
    var pool := FinalPool(eval, m.entities, rules, worlds);
    PoolWorlds(eval, m, kept, pool[0]);
    hide AllRules, Verify, Perms, FinalPool, Kept, Satisfies;
    if v.claims[i].status == Declined && Consistent(eval, m, kept + [rules[i].rule]) {
      var w :| IsWorld(m, w) && SatisfiesAll(eval, m.entities, kept + [rules[i].rule], w);
      SatisfiesLast(eval, m.entities, kept, rules[i].rule, w);
      PoolWorlds(eval, m, kept, w);
      DeclinedNowhere(eval, m.entities, rules, worlds, i, w);
      assert false;
    }
  }

  lemma SatisfiesLast(eval: Evaluator, entities: seq<string>, rules: seq<string>, rule: string, w: Perm)
    requires SatisfiesAll(eval, entities, rules + [rule], w)
    ensures SatisfiesAll(eval, entities, rules, w) && Satisfies(eval, entities, rule, w)
  {
    hide Satisfies;
    var all := rules + [rule];
    assert all[|rules|] == rule;
    forall k | 0 <= k < |rules| ensures Satisfies(eval, entities, rules[k], w) { assert all[k] == rules[k]; }
  }

  /** What each verdict says about the rules kept before. */
  lemma VerdictMeans(eval: Evaluator, m: Manifest, i: nat)
    requires m.entities != [] && i < |AllRules(m)|
    ensures |Verify(eval, m).claims| == |AllRules(m)|
    ensures var claim, before := Verify(eval, m).claims[i], Kept(Verify(eval, m).claims[..i]);
            && (claim.status == Declined <==> !Consistent(eval, m, before + [claim.rule]))
            && (claim.status == Accepted <==> claim.source == Axiom && Consistent(eval, m, before + [claim.rule]))
            && (claim.status == Confirmed <==> claim.source == Hypothesis && Entails(eval, m, before, claim.rule))
  {
    var worlds, rules := Perms(|m.entities|), AllRules(m);
    PermsInOrder(|m.entities|);
    ClaimAt(eval, m.entities, rules, worlds, i);
    var before := Kept(Verify(eval, m).claims[..i]);
    var pool := FilterAll(eval, m.entities, before, worlds);
    PrefixPool(eval, m, i);
    ConsistentIsNotEmpty(eval, m, before, rules[i].rule);
    EntailsIsWhole(eval, m, before, rules[i].rule);
  }

  lemma PrefixPool(eval: Evaluator, m: Manifest, i: nat)
    requires m.entities != [] && i < |AllRules(m)| && |Verify(eval, m).claims| == |AllRules(m)|
    ensures FilterAll(eval, m.entities, Kept(Verify(eval, m).claims[..i]), Perms(|m.entities|)) != []
  {
    var worlds, rules := Perms(|m.entities|), AllRules(m);
    PermsInOrder(|m.entities|);
    ClaimsPrefix(eval, m.entities, rules, worlds, i);
    PoolIsKeptRules(eval, m.entities, rules[..i], worlds);
  }

  lemma {:induction false} ClaimsPrefix(
      eval: Evaluator, entities: seq<string>, rules: seq<Tagged>, pool: seq<Perm>, i: nat)
    requires i <= |rules|
    ensures |Claims(eval, entities, rules, pool)| == |rules|
    ensures Claims(eval, entities, rules[..i], pool) == Claims(eval, entities, rules, pool)[..i]
    decreases |rules|
  {
    ClaimsLength(eval, entities, rules, pool);
    if i > 0 {
      assert rules[..i][1..] == rules[1..][..i - 1];
      ClaimsPrefix(eval, entities, rules[1..], PoolAfter(eval, entities, rules[0], pool), i - 1);
    }
  }

  lemma ConsistentIsNotEmpty(eval: Evaluator, m: Manifest, before: seq<string>, rule: string)
    ensures Filter(eval, m.entities, rule, FilterAll(eval, m.entities, before, Perms(|m.entities|))) == []
            <==> !Consistent(eval, m, before + [rule])
  {
    var pool := FilterAll(eval, m.entities, before, Perms(|m.entities|));
    var filtered := Filter(eval, m.entities, rule, pool);
    if filtered != [] {
      FilterHas(eval, m.entities, rule, pool, filtered[0]);
      PoolWorlds(eval, m, before, filtered[0]);
      assert SatisfiesAll(eval, m.entities, before + [rule], filtered[0]);
    }
    if Consistent(eval, m, before + [rule]) {
      var w :| IsWorld(m, w) && SatisfiesAll(eval, m.entities, before + [rule], w);
      SatisfiesLast(eval, m.entities, before, rule, w);
      PoolWorlds(eval, m, before, w);
      FilterHas(eval, m.entities, rule, pool, w);
    }
  }

  lemma EntailsIsWhole(eval: Evaluator, m: Manifest, before: seq<string>, rule: string)
    ensures var pool := FilterAll(eval, m.entities, before, Perms(|m.entities|));
            |Filter(eval, m.entities, rule, pool)| == |pool| <==> Entails(eval, m, before, rule)
  {
    var pool := FilterAll(eval, m.entities, before, Perms(|m.entities|));
    FilterWhole(eval, m.entities, rule, pool);
    hide Satisfies;
    if Entails(eval, m, before, rule) {
      forall w | w in pool ensures Satisfies(eval, m.entities, rule, w) { PoolWorlds(eval, m, before, w); }
    }
    if forall w :: w in pool ==> Satisfies(eval, m.entities, rule, w) {
      forall w | IsWorld(m, w) && SatisfiesAll(eval, m.entities, before, w)
        ensures Satisfies(eval, m.entities, rule, w) {
        PoolWorlds(eval, m, before, w);
      }
    }
  }

  /** The counts chain: each rule starts from what the rule before it left, and the last leaves the stable worlds. */
  lemma {:induction false} CountsChain(eval: Evaluator, entities: seq<string>, rules: seq<Tagged>, pool: seq<Perm>)
    requires rules != []
    ensures |Claims(eval, entities, rules, pool)| == |rules|
    ensures var claims := Claims(eval, entities, rules, pool);
            && claims[0].before == |pool|
            && (forall i :: 0 < i < |claims| ==> claims[i].before == Left(claims[i - 1]))
            && |FinalPool(eval, entities, rules, pool)| == Left(claims[|claims| - 1])
    decreases |rules|
  {
    ClaimsLength(eval, entities, rules, pool);
    var next := PoolAfter(eval, entities, rules[0], pool);
    var claims := Claims(eval, entities, rules, pool);
    FilterWhole(eval, entities, rules[0].rule, pool);
    assert |next| == Left(claims[0]);
    if |rules| > 1 {
      CountsChain(eval, entities, rules[1..], next);
      forall i | 0 < i < |claims| ensures claims[i].before == Left(claims[i - 1]) {
        if i > 1 { assert claims[i] == claims[1..][i - 1] && claims[i - 1] == claims[1..][i - 2]; }
      }
    } else {
      assert rules[1..] == [];
    }
  }

  function Left(c: Claim): nat { if c.status == Declined then c.before else c.after }

  /** No rule is declined exactly when all the rules together have a world. */
  lemma NothingDeclined(eval: Evaluator, m: Manifest)
    requires m.entities != []
    ensures (forall i :: 0 <= i < |Verify(eval, m).claims| ==> Verify(eval, m).claims[i].status != Declined)
            <==> Consistent(eval, m, RuleTexts(AllRules(m)))
  {
    var worlds, rules := Perms(|m.entities|), AllRules(m);
    var claims := Verify(eval, m).claims;
    PermsInOrder(|m.entities|);
    if forall i :: 0 <= i < |claims| ==> claims[i].status != Declined {
      AllKeptIsConsistent(eval, m);
    }
    if Consistent(eval, m, RuleTexts(rules)) {
      var w :| IsWorld(m, w) && SatisfiesAll(eval, m.entities, RuleTexts(rules), w);
      ClaimsLength(eval, m.entities, rules, worlds);
      forall i | 0 <= i < |claims| ensures claims[i].status != Declined {
        WorldKeepsRule(eval, m, w, i);
      }
    }
  }

  lemma AllKeptIsConsistent(eval: Evaluator, m: Manifest)
    requires m.entities != []
    requires forall i :: 0 <= i < |Verify(eval, m).claims| ==> Verify(eval, m).claims[i].status != Declined
    ensures Consistent(eval, m, RuleTexts(AllRules(m)))
  {
    var worlds, rules := Perms(|m.entities|), AllRules(m);
    var claims := Verify(eval, m).claims;
    PermsInOrder(|m.entities|);
    PoolIsKeptRules(eval, m.entities, rules, worlds);
    ClaimRules(eval, m.entities, rules, worlds);
    KeptAll(claims);
    hide Satisfies, FinalPool, FilterAll, Perms, AllRules, Kept;
    assert Kept(claims) == RuleTexts(rules);
    PoolWorlds(eval, m, Kept(claims), FinalPool(eval, m.entities, rules, worlds)[0]);
  }

  lemma WorldKeepsRule(eval: Evaluator, m: Manifest, w: Perm, i: nat)
    requires m.entities != [] && i < |AllRules(m)| && |Verify(eval, m).claims| == |AllRules(m)|
    requires IsWorld(m, w) && SatisfiesAll(eval, m.entities, RuleTexts(AllRules(m)), w)
    ensures Verify(eval, m).claims[i].status != Declined
  {
    var worlds, rules := Perms(|m.entities|), AllRules(m);
    var claims := Verify(eval, m).claims;
    PermsInOrder(|m.entities|);
    ClaimRules(eval, m.entities, rules, worlds);
    ClaimAt(eval, m.entities, rules, worlds, i);
    hide Satisfies, Filter, FilterAll, Perms, AllRules, Kept;
    forall k | 0 <= k < |rules| ensures Satisfies(eval, m.entities, rules[k].rule, w) {
      assert RuleTexts(rules)[k] == rules[k].rule;
    }
    SatisfiesKept(eval, m.entities, claims[..i], w, rules[..i]);
    PoolWorlds(eval, m, Kept(claims[..i]), w);
    FilterHas(eval, m.entities, rules[i].rule, FilterAll(eval, m.entities, Kept(claims[..i]), worlds), w);
  }

  function RuleTexts(rules: seq<Tagged>): seq<string> { seq(|rules|, i requires 0 <= i < |rules| => rules[i].rule) }

  lemma {:induction false} ClaimRules(eval: Evaluator, entities: seq<string>, rules: seq<Tagged>, pool: seq<Perm>)
    ensures |Claims(eval, entities, rules, pool)| == |rules|
    ensures forall i :: 0 <= i < |rules| ==> Claims(eval, entities, rules, pool)[i].rule == rules[i].rule
    decreases |rules|
  {
    if rules != [] { ClaimRules(eval, entities, rules[1..], PoolAfter(eval, entities, rules[0], pool)); }
  }

  lemma {:induction false} KeptAll(claims: seq<Claim>)
    requires forall i :: 0 <= i < |claims| ==> claims[i].status != Declined
    ensures Kept(claims) == seq(|claims|, i requires 0 <= i < |claims| => claims[i].rule)
  {
    if claims != [] { KeptAll(claims[1..]); }
  }

  lemma {:induction false} SatisfiesKept(
      eval: Evaluator, entities: seq<string>, claims: seq<Claim>, w: Perm, rules: seq<Tagged>)
    requires |claims| == |rules| && forall i :: 0 <= i < |claims| ==> claims[i].rule == rules[i].rule
    requires forall i :: 0 <= i < |rules| ==> Satisfies(eval, entities, rules[i].rule, w)
    ensures SatisfiesAll(eval, entities, Kept(claims), w)
    decreases |claims|
  {
    if claims != [] {
      hide Satisfies;
      SatisfiesKept(eval, entities, claims[1..], w, rules[1..]);
      assert Satisfies(eval, entities, rules[0].rule, w);
      assert [] + Kept(claims[1..]) == Kept(claims[1..]);
    }
  }
}
