/** `itertools.permutations(range(n))`: every permutation once, in lexicographic order. */
module Permutations {
  import opened Basics

  type Perm = seq<nat>

  function Range(n: nat): Perm { seq(n, i => i) }

  function Without(xs: Perm, i: nat): Perm
    requires i < |xs|
  {
    xs[..i] + xs[i + 1..]
  }

  function Prefixed(x: nat, ps: seq<Perm>): seq<Perm> {
    seq(|ps|, i requires 0 <= i < |ps| => [x] + ps[i])
  }

  /** The permutations of xs by position, in the order of itertools. */
  function PermsOf(xs: Perm): seq<Perm>
    decreases |xs|, |xs| + 1
  {
    if xs == [] then [[]] else PermsFrom(xs, 0)
  }

  function PermsFrom(xs: Perm, i: nat): seq<Perm>
    requires i <= |xs| && xs != []
    decreases |xs|, |xs| - i
  {
    if i == |xs| then [] else Prefixed(xs[i], PermsOf(Without(xs, i))) + PermsFrom(xs, i + 1)
  }

  function Perms(n: nat): seq<Perm> { PermsOf(Range(n)) }

  // ---- exactly the permutations ----

  lemma WithoutElements(xs: Perm, i: nat)
    requires i < |xs|
    ensures multiset(xs) == multiset{xs[i]} + multiset(Without(xs, i))
  {
    assert xs == xs[..i] + [xs[i]] + xs[i + 1..];
  }

  lemma {:induction false} PermsAreRearrangements(xs: Perm, p: Perm)
    ensures p in PermsOf(xs) <==> multiset(p) == multiset(xs)
    decreases |xs|, |xs| + 1
  {
    if xs == [] {
      assert multiset(p) == multiset(xs) ==> |p| == 0;
    } else {
      PermsFromAre(xs, 0, p);
      if multiset(p) == multiset(xs) {
        HeadIsThere(xs, p);
      }
    }
  }

  lemma HeadIsThere(xs: Perm, p: Perm)
    requires xs != [] && multiset(p) == multiset(xs)
    ensures p != [] && exists i :: 0 <= i < |xs| && xs[i] == p[0]
  {
    assert xs[0] in multiset(xs);
    assert xs[0] in multiset(p);
    assert p[0] in multiset(p);
    assert p[0] in multiset(xs);
  }

  lemma {:induction false} PermsFromAre(xs: Perm, i: nat, p: Perm)
    requires i <= |xs| && xs != []
    ensures p in PermsFrom(xs, i) <==> multiset(p) == multiset(xs) && p != [] && p[0] in xs[i..]
    decreases |xs|, |xs| - i
  {
    if i < |xs| {
      PermsFromAre(xs, i + 1, p);
      PrefixedHas(xs[i], PermsOf(Without(xs, i)), p);
      WithoutElements(xs, i);
      assert xs[i..] == [xs[i]] + xs[i + 1..];
      if p != [] {
        PermsAreRearrangements(Without(xs, i), p[1..]);
        assert p == [p[0]] + p[1..];
        assert multiset(p) == multiset{p[0]} + multiset(p[1..]);
        if p[0] == xs[i] {
          assert multiset(p) == multiset(xs) <==> multiset(p[1..]) == multiset(Without(xs, i)) by {
            assert multiset(p) - multiset{xs[i]} == multiset(p[1..]);
            assert multiset(xs) - multiset{xs[i]} == multiset(Without(xs, i));
          }
        }
      }
    }
  }

  lemma PrefixedHas(x: nat, ps: seq<Perm>, p: Perm)
    ensures p in Prefixed(x, ps) <==> p != [] && p[0] == x && p[1..] in ps
  {
    if p in Prefixed(x, ps) {
      var i :| 0 <= i < |ps| && p == [x] + ps[i];
      assert p[1..] == ps[i];
    }
    if p != [] && p[0] == x && p[1..] in ps {
      var i :| 0 <= i < |ps| && ps[i] == p[1..];
      assert p == [x] + ps[i] == Prefixed(x, ps)[i];
    }
  }

  predicate IsPerm(p: Perm, n: nat) {
    |p| == n && (forall i :: 0 <= i < n ==> p[i] < n) && (forall i, j :: 0 <= i < j < n ==> p[i] != p[j])
  }

  lemma {:induction false} RangeElements(n: nat, x: nat)
    ensures multiset(Range(n))[x] == if x < n then 1 else 0
  {
    if n > 0 {
      RangeElements(n - 1, x);
      assert Range(n) == Range(n - 1) + [n - 1];
    }
  }

  lemma {:induction false} DistinctCounts(p: Perm, x: nat)
    requires forall i, j :: 0 <= i < j < |p| ==> p[i] != p[j]
    ensures multiset(p)[x] == if x in p then 1 else 0
  {
    if p != [] {
      var q := p[..|p| - 1];
      assert p == q + [p[|p| - 1]];
      DistinctCounts(q, x);
    }
  }

  lemma {:induction false} TwiceCounts(p: Perm, i: nat, j: nat)
    requires i < j < |p| && p[i] == p[j]
    ensures multiset(p)[p[i]] >= 2
  {
    assert p == p[..j] + [p[j]] + p[j + 1..];
    assert p[..j][i] == p[i] && p[i] in multiset(p[..j]);
    assert multiset(p) == multiset(p[..j]) + multiset{p[j]} + multiset(p[j + 1..]);
  }

  function Below(n: nat): (s: set<nat>)
    ensures |s| == n && forall x: nat :: x in s <==> x < n
  {
    if n == 0 then {} else Below(n - 1) + {n - 1}
  }

  /** Values below n that are pairwise different and n in number leave none out. */
  lemma {:induction false} Pigeonhole(p: Perm, n: nat, x: nat)
    requires IsPerm(p, n) && x < n
    ensures x in p
  {
    if x !in p {
      DistinctSize(p);
      SubsetSize(Values(p), Below(n) - {x});
      assert false;
    }
  }

  function Values(p: Perm): set<nat> { set x | x in p }

  lemma {:induction false} DistinctSize(p: Perm)
    requires forall i, j :: 0 <= i < j < |p| ==> p[i] != p[j]
    ensures |Values(p)| == |p|
  {
    if p != [] {
      var q := p[..|p| - 1];
      DistinctSize(q);
      assert p == q + [p[|p| - 1]];
      assert Values(p) == Values(q) + {p[|p| - 1]};
    }
  }

  /** The list holds exactly the permutations of 0 .. n - 1. */
  lemma PermsExact(n: nat, p: Perm)
    ensures p in Perms(n) <==> IsPerm(p, n)
  {
    PermsAreRearrangements(Range(n), p);
    if multiset(p) == multiset(Range(n)) {
      assert |p| == |multiset(p)| == |multiset(Range(n))| == n;
      forall i | 0 <= i < n ensures p[i] < n {
        RangeElements(n, p[i]);
        assert p[i] in multiset(p);
      }
      forall i, j | 0 <= i < j < n ensures p[i] != p[j] {
        RangeElements(n, p[i]);
        if p[i] == p[j] { TwiceCounts(p, i, j); }
      }
    }
    if IsPerm(p, n) {
      forall x: nat ensures multiset(p)[x] == multiset(Range(n))[x] {
        RangeElements(n, x);
        DistinctCounts(p, x);
        if x < n { Pigeonhole(p, n, x); }
      }
    }
  }

  // ---- in order ----

  predicate LexLess(a: Perm, b: Perm) {
    a != [] && b != [] && (a[0] < b[0] || (a[0] == b[0] && LexLess(a[1..], b[1..])))
  }

  predicate Ascending(ps: seq<Perm>) { forall i, j :: 0 <= i < j < |ps| ==> LexLess(ps[i], ps[j]) }

  predicate Increasing(xs: Perm) { forall i, j :: 0 <= i < j < |xs| ==> xs[i] < xs[j] }

  lemma {:induction false} PermsAscend(xs: Perm)
    requires Increasing(xs)
    ensures Ascending(PermsOf(xs))
    decreases |xs|, |xs| + 1
  {
    if xs != [] { PermsFromAscend(xs, 0); }
  }

  lemma {:induction false} PermsFromAscend(xs: Perm, i: nat)
    requires Increasing(xs) && i <= |xs| && xs != []
    ensures Ascending(PermsFrom(xs, i))
    decreases |xs|, |xs| - i
  {
    if i < |xs| {
      var here := Prefixed(xs[i], PermsOf(Without(xs, i)));
      var rest := PermsFrom(xs, i + 1);
      assert Increasing(Without(xs, i));
      PermsAscend(Without(xs, i));
      PermsFromAscend(xs, i + 1);
      PrefixedAscends(xs[i], PermsOf(Without(xs, i)));
      forall a, b | a in here && b in rest ensures LexLess(a, b) {
        PrefixedHas(xs[i], PermsOf(Without(xs, i)), a);
        PermsFromAre(xs, i + 1, b);
        var k :| 0 <= k < |xs| - i - 1 && xs[i + 1..][k] == b[0];
        assert b[0] == xs[i + 1 + k];
      }
      AscendingAppend(here, rest);
    }
  }

  lemma PrefixedAscends(x: nat, ps: seq<Perm>)
    requires Ascending(ps)
    ensures Ascending(Prefixed(x, ps))
  {
    forall i, j | 0 <= i < j < |ps| ensures LexLess([x] + ps[i], [x] + ps[j]) {
      assert ([x] + ps[i])[1..] == ps[i] && ([x] + ps[j])[1..] == ps[j];
    }
  }

  lemma AscendingAppend(a: seq<Perm>, b: seq<Perm>)
    requires Ascending(a) && Ascending(b)
    requires forall x, y :: x in a && y in b ==> LexLess(x, y)
    ensures Ascending(a + b)
  {
    hide LexLess;
    forall i, j | 0 <= i < j < |a + b| ensures LexLess((a + b)[i], (a + b)[j]) {
      if i < |a| <= j { assert a[i] in a && b[j - |a|] in b; }
    }
  }

  /** Strictly ascending, so that no permutation occurs twice. */
  lemma PermsInOrder(n: nat)
    ensures Ascending(Perms(n)) && Perms(n) != []
  {
    PermsAscend(Range(n));
    PermsAreRearrangements(Range(n), Range(n));
  }

  lemma {:induction false} LexIrreflexive(p: Perm)
    ensures !LexLess(p, p)
  {
    if p != [] { LexIrreflexive(p[1..]); }
  }
}
