/**
 * `xs.reduce((acc, x) => acc + f(x), 0)`, the summing idiom the market and
 * dashboard totals use, as a left fold over exact reals.
 */
module Reduce {

  /** The running sum after visiting every element of `xs` from left to right. */
  function SumOf<T>(xs: seq<T>, f: T -> real): (sum: real)
    ensures xs == [] ==> sum == 0.0
    ensures |xs| == 1 ==> sum == f(xs[0])
  {
    if xs == [] then 0.0 else SumOf(xs[..|xs| - 1], f) + f(xs[|xs| - 1])
  }

  /** A sum of non-negative terms is non-negative. */
  lemma {:induction false} SumOfNonNegative<T>(xs: seq<T>, f: T -> real)
    requires forall i :: 0 <= i < |xs| ==> f(xs[i]) >= 0.0
    ensures SumOf(xs, f) >= 0.0
  {
    if xs != [] {
      SumOfNonNegative(xs[..|xs| - 1], f);
    }
  }

  /** Summing a pointwise smaller term gives a smaller sum. */
  lemma {:induction false} SumOfMonotone<T>(xs: seq<T>, f: T -> real, g: T -> real)
    requires forall i :: 0 <= i < |xs| ==> f(xs[i]) <= g(xs[i])
    ensures SumOf(xs, f) <= SumOf(xs, g)
  {
    if xs != [] {
      SumOfMonotone(xs[..|xs| - 1], f, g);
    }
  }

  /** Two sequences whose terms agree position by position have the same sum. */
  lemma {:induction false} SumOfCongruent<T, U>(xs: seq<T>, f: T -> real, ys: seq<U>, g: U -> real)
    requires |xs| == |ys|
    requires forall i :: 0 <= i < |xs| ==> f(xs[i]) == g(ys[i])
    ensures SumOf(xs, f) == SumOf(ys, g)
  {
    if xs != [] {
      SumOfCongruent(xs[..|xs| - 1], f, ys[..|ys| - 1], g);
    }
  }
}
