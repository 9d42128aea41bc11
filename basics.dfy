/**
 * Small numeric and collection helpers shared by the services: Python's
 * `max(0, x)`, `min`, clamping to 0..100, `int()` of a real, set sizes, the
 * "extend a list with the parts of every entry" loop, and `sum`, `max` and
 * `min` of a list with the bounds of its mean.
 */
module Basics {
  function Max0(x: int): int { if x < 0 then 0 else x }

  function Min(a: int, b: int): int { if a < b then a else b }

  function Clamp100(x: int): int { if x < 0 then 0 else if x > 100 then 100 else x }

  function MinReal(a: real, b: real): real { if a < b then a else b }

  function Abs(x: real): real { if x < 0.0 then -x else x }

  /** Python's `int(x)` on a real: truncation toward zero. */
  function Trunc(x: real): int
  {
    if x >= 0.0 then x.Floor else -((-x).Floor)
  }

  lemma TruncMonotone(x: real, y: real)
    requires 0.0 <= x <= y
    ensures 0 <= Trunc(x) <= Trunc(y)
  {
  }

  /** Dividing by a positive whole keeps the order of the parts. */
  lemma ShareMonotone(a: nat, a': nat, b: nat)
    requires a <= a' && 0 < b
    ensures a as real / b as real <= a' as real / b as real
  {
    assert a' as real / b as real - a as real / b as real == (a' - a) as real / b as real;
  }

  /** A share `a / b` of a positive whole lies between 0 and 1 and is 1 exactly for the whole. */
  lemma ShareBounds(a: nat, b: nat)
    requires a <= b && 0 < b
    ensures 0.0 <= a as real / b as real <= 1.0
    ensures a as real / b as real == 1.0 <==> a == b
  {
    ShareMonotone(0, a, b);
    ShareMonotone(a, b, b);
    assert b as real / b as real == 1.0;
    assert (a as real / b as real) * b as real == a as real;
  }

  lemma SubsetCardinality<T>(a: set<T>, b: set<T>)
    requires a <= b
    ensures |a| <= |b|
  {
    if a != {} {
      var x :| x in a;
      SubsetCardinality(a - {x}, b - {x});
    }
  }

  function SetOf<T>(xs: seq<T>): set<T> { set x | x in xs }

  /** The first `n` elements, as `xs[:n]`. */
  function Take<T>(xs: seq<T>, n: nat): (r: seq<T>)
    ensures |r| == Min(n, |xs|) && r == xs[..|r|]
  {
    if |xs| <= n then xs else xs[..n]
  }

  /** `sum(1 for x in xs if p(x))`. */
  function CountWhere<T>(xs: seq<T>, p: T -> bool): (n: nat)
    ensures n <= |xs|
  {
    if xs == [] then 0 else CountWhere(xs[..|xs| - 1], p) + (if p(xs[|xs| - 1]) then 1 else 0)
  }

  /** A counting loop over `xs`. */
  method CountMatching<T>(xs: seq<T>, p: T -> bool) returns (n: nat)
    ensures n == CountWhere(xs, p)
  {
    n := 0;
    var i := 0;
    while i < |xs|
      invariant 0 <= i <= |xs|
      invariant n == CountWhere(xs[..i], p)
    {
      if p(xs[i]) {
        n := n + 1;
      }
      assert xs[..i + 1][..i] == xs[..i];
      i := i + 1;
    }
    assert xs[..i] == xs;
  }

  /** The parts of every entry of `xs`, entry after entry. */
  function FlatMap<T, U>(xs: seq<T>, f: T -> seq<U>): seq<U>
  {
    if xs == [] then [] else FlatMap(xs[..|xs| - 1], f) + f(xs[|xs| - 1])
  }

  /** `parts.extend(f(x))` for every entry `x` of `xs`. */
  method AppendParts<T, U>(start: seq<U>, xs: seq<T>, f: T -> seq<U>) returns (parts: seq<U>)
    ensures parts == start + FlatMap(xs, f)
  {
    parts := start;
    var i := 0;
    while i < |xs|
      invariant 0 <= i <= |xs|
      invariant parts == start + FlatMap(xs[..i], f)
    {
      parts := parts + f(xs[i]);
      assert xs[..i + 1][..i] == xs[..i];
      i := i + 1;
    }
    assert xs[..i] == xs;
  }

  /** `sum(xs)`. */
  function Sum(xs: seq<int>): int
  {
    if xs == [] then 0 else Sum(xs[..|xs| - 1]) + xs[|xs| - 1]
  }

  /** `max(xs)`. */
  function Highest(xs: seq<int>): (m: int)
    requires xs != []
    ensures m in xs && forall i :: 0 <= i < |xs| ==> xs[i] <= m
  {
    if |xs| == 1 then xs[0]
    else
      var m := Highest(xs[..|xs| - 1]);
      if xs[|xs| - 1] > m then xs[|xs| - 1] else m
  }

  /** `min(xs)`. */
  function Lowest(xs: seq<int>): (m: int)
    requires xs != []
    ensures m in xs && forall i :: 0 <= i < |xs| ==> m <= xs[i]
  {
    if |xs| == 1 then xs[0]
    else
      var m := Lowest(xs[..|xs| - 1]);
      if xs[|xs| - 1] < m then xs[|xs| - 1] else m
  }

  lemma {:induction false} SumBetween(xs: seq<int>, lo: int, hi: int)
    requires forall i :: 0 <= i < |xs| ==> lo <= xs[i] <= hi
    ensures |xs| * lo <= Sum(xs) <= |xs| * hi
  {
    if xs != [] {
      var init := xs[..|xs| - 1];
      SumBetween(init, lo, hi);
      assert |xs| * lo == |init| * lo + lo;
      assert |xs| * hi == |init| * hi + hi;
    }
  }

  /** A mean of values between `lo` and `hi` lies between them. */
  lemma MeanBetween(total: int, n: nat, lo: int, hi: int)
    requires n > 0 && n * lo <= total <= n * hi
    ensures lo as real <= (total as real) / (n as real) <= hi as real
  {
    var q := (total as real) / (n as real);
    var nr := n as real;
    assert q * nr == total as real;
    assert (n * lo) as real == nr * (lo as real);
    assert (n * hi) as real == nr * (hi as real);
  }

  predicate Distinct<T(==)>(xs: seq<T>)
  {
    forall i, j | 0 <= i < j < |xs| :: xs[i] != xs[j]
  }

  /** A sequence has at most as many distinct elements as entries, exactly as many when none repeats. */
  lemma {:induction false} DistinctCount<T>(xs: seq<T>)
    ensures |SetOf(xs)| <= |xs|
    ensures |SetOf(xs)| == |xs| <==> Distinct(xs)
    ensures xs != [] ==> |SetOf(xs)| >= 1
  {
    if xs != [] {
      var init, last := xs[..|xs| - 1], xs[|xs| - 1];
      DistinctCount(init);
      SnocFacts(init, last);
      assert xs == init + [last];
    }
  }

  /** Appending one element: the set grows by it, and distinctness holds exactly when it is new. */
  lemma SnocFacts<T>(init: seq<T>, last: T)
    ensures SetOf(init + [last]) == SetOf(init) + {last}
    ensures Distinct(init + [last]) <==> Distinct(init) && last !in init
    ensures last in init <==> last in SetOf(init)
  {
    var xs := init + [last];
    if last in init {
      var k :| 0 <= k < |init| && init[k] == last;
      assert xs[k] == xs[|xs| - 1];
    }
    assert forall i | 0 <= i < |init| :: xs[i] == init[i];
  }
}
