/** Stock notions that several parts of the model share. */
module Basics {
  datatype Option<+T> = None | Some(value: T)

  predicate Distinct<T(==)>(s: seq<T>) { forall i, k :: 0 <= i < k < |s| ==> s[i] != s[k] }

  lemma SubsetSize<T>(a: set<T>, b: set<T>)
    requires a <= b
    ensures |a| <= |b|
  {
    if a != {} {
      var x :| x in a;
      SubsetSize(a - {x}, b - {x});
    }
  }

  lemma SubsetEqual<T>(a: set<T>, b: set<T>)
    requires a <= b && |a| == |b|
    ensures a == b
  {
    if x :| x in b && x !in a {
      SubsetSize(a, b - {x});
    }
  }

  lemma MulLe(x: nat, a: nat, b: nat)
    requires a <= b
    ensures x * a <= x * b && a * x <= b * x
  {
  }

  lemma MulSucc(x: nat, n: nat)
    requires n > 0
    ensures x + (n - 1) * x == n * x
  {
  }
}
