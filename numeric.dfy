/**
 * Exact-arithmetic stand-ins for the JavaScript number operations the models
 * use. Money is a `real`; the rounding `Math.round(x * 100) / 100` becomes
 * `Round2`, computed without floating point.
 */
module Numeric {

  function Abs(x: real): (r: real)
    ensures r >= 0.0 && (r == x || r == -x)
  {
    if x < 0.0 then -x else x
  }

  /** Math.round: the nearest integer, with halves rounded toward +infinity. */
  function RoundHalfUp(x: real): (r: int)
    ensures x - 0.5 < r as real <= x + 0.5
  {
    (x + 0.5).Floor
  }

  /** Math.round(x * 100) / 100: the nearest whole number of cents. */
  function Round2(x: real): (r: real)
    ensures -0.005 < r - x <= 0.005
    ensures (r * 100.0).Floor as real == r * 100.0
    ensures x >= 0.0 ==> r >= 0.0
  {
    RoundHalfUp(x * 100.0) as real / 100.0
  }

  /** Rounding an amount that is already a whole number of cents changes nothing. */
  lemma Round2Idempotent(x: real)
    ensures Round2(Round2(x)) == Round2(x)
  {
    var n := RoundHalfUp(x * 100.0);
    assert Round2(x) * 100.0 == n as real;
    assert RoundHalfUp(n as real) == n;
  }

  /** Array.prototype.reduce((s, x) => s + x, 0) over amounts. */
  function Sum(xs: seq<real>): real
  {
    if xs == [] then 0.0 else Sum(xs[..|xs| - 1]) + xs[|xs| - 1]
  }

  lemma {:induction false} SumConcat(a: seq<real>, b: seq<real>)
    ensures Sum(a + b) == Sum(a) + Sum(b)
    decreases |b|
  {
    if b == [] {
      assert a + b == a;
    } else {
      var b' := b[..|b| - 1];
      assert (a + b)[..|a + b| - 1] == a + b';
      SumConcat(a, b');
    }
  }

  /** Replacing one element moves the sum by the difference. */
  lemma SumUpdate(xs: seq<real>, i: nat, v: real)
    requires i < |xs|
    ensures Sum(xs[i := v]) == Sum(xs) - xs[i] + v
  {
    assert xs == xs[..i] + [xs[i]] + xs[i + 1..];
    assert xs[i := v] == xs[..i] + [v] + xs[i + 1..];
    SumConcat(xs[..i] + [xs[i]], xs[i + 1..]);
    SumConcat(xs[..i] + [v], xs[i + 1..]);
    SumConcat(xs[..i], [xs[i]]);
    SumConcat(xs[..i], [v]);
  }

  /** Removing one element lowers the sum by that element. */
  lemma SumRemove(xs: seq<real>, i: nat)
    requires i < |xs|
    ensures Sum(xs[..i] + xs[i + 1..]) == Sum(xs) - xs[i]
  {
    var a, b := xs[..i], xs[i + 1..];
    PickOut(xs, i);
    SumConcat(a + [xs[i]], b);
    SumSnoc(a, xs[i]);
    SumConcat(a, b);
  }

  lemma SumSnoc(xs: seq<real>, x: real)
    ensures Sum(xs + [x]) == Sum(xs) + x
  {
    assert (xs + [x])[..|xs|] == xs;
  }

  /** A sum of non-negative amounts is non-negative. */
  lemma {:induction false} SumNonNegative(xs: seq<real>)
    requires forall k :: 0 <= k < |xs| ==> xs[k] >= 0.0
    ensures Sum(xs) >= 0.0
    decreases |xs|
  {
    if xs != [] {
      SumNonNegative(xs[..|xs| - 1]);
    }
  }

  /** Array.prototype.reduce((s, x) => s + x, 0) over counts. */
  function Total(xs: seq<int>): int
  {
    if xs == [] then 0 else Total(xs[..|xs| - 1]) + xs[|xs| - 1]
  }

  lemma {:induction false} TotalConcat(a: seq<int>, b: seq<int>)
    ensures Total(a + b) == Total(a) + Total(b)
    decreases |b|
  {
    if b == [] {
      assert a + b == a;
    } else {
      var b' := b[..|b| - 1];
      assert (a + b)[..|a + b| - 1] == a + b';
      TotalConcat(a, b');
    }
  }

  lemma TotalUpdate(xs: seq<int>, i: nat, v: int)
    requires i < |xs|
    ensures Total(xs[i := v]) == Total(xs) - xs[i] + v
  {
    assert xs == xs[..i] + [xs[i]] + xs[i + 1..];
    assert xs[i := v] == xs[..i] + [v] + xs[i + 1..];
    TotalConcat(xs[..i] + [xs[i]], xs[i + 1..]);
    TotalConcat(xs[..i] + [v], xs[i + 1..]);
    TotalConcat(xs[..i], [xs[i]]);
    TotalConcat(xs[..i], [v]);
  }

  lemma TotalRemove(xs: seq<int>, i: nat)
    requires i < |xs|
    ensures Total(xs[..i] + xs[i + 1..]) == Total(xs) - xs[i]
  {
    var a, b := xs[..i], xs[i + 1..];
    PickOut(xs, i);
    TotalConcat(a + [xs[i]], b);
    TotalSnoc(a, xs[i]);
    TotalConcat(a, b);
  }

  lemma TotalSnoc(xs: seq<int>, x: int)
    ensures Total(xs + [x]) == Total(xs) + x
  {
    assert (xs + [x])[..|xs|] == xs;
  }

  /** A sequence is what comes before position i, its element there, and what follows. */
  lemma PickOut<T>(xs: seq<T>, i: nat)
    requires i < |xs|
    ensures xs == (xs[..i] + [xs[i]]) + xs[i + 1..]
  {
  }

  /** Taking out the element at position i takes one occurrence of it out of the multiset. */
  lemma RemovedMultiset<T>(xs: seq<T>, i: nat)
    requires i < |xs|
    ensures multiset(xs[..i] + xs[i + 1..]) + multiset{xs[i]} == multiset(xs)
  {
    PickOut(xs, i);
  }

  /** A sum of n counts that are each at least lo is at least n * lo. */
  lemma {:induction false} TotalAtLeast(xs: seq<int>, lo: int)
    requires forall k :: 0 <= k < |xs| ==> lo <= xs[k]
    ensures |xs| * lo <= Total(xs)
    decreases |xs|
  {
    if xs != [] {
      var n := |xs| - 1;
      TotalAtLeast(xs[..n], lo);
      assert (n + 1) * lo == n * lo + lo;
    }
  }

  /** A sum of n counts that are each within [lo, hi] lies within [n * lo, n * hi]. */
  lemma {:induction false} TotalBounds(xs: seq<int>, lo: int, hi: int)
    requires forall k :: 0 <= k < |xs| ==> lo <= xs[k] <= hi
    ensures |xs| * lo <= Total(xs) <= |xs| * hi
    decreases |xs|
  {
    if xs != [] {
      var n := |xs| - 1;
      TotalBounds(xs[..n], lo, hi);
      assert (n + 1) * lo == n * lo + lo;
      assert (n + 1) * hi == n * hi + hi;
    }
  }
}
