/** Rounding to the nearest cent, as a relation: amounts are counted in cents, and the
    rounded amount is at most half a cent away. */
module Rounding {

  ghost predicate Nearest(rnd: real -> int) {
    forall x :: -0.5 <= rnd(x) as real - x <= 0.5
  }

  /** A whole number of cents stays. */
  lemma WholeStays(rnd: real -> int, n: int)
    requires Nearest(rnd)
    ensures rnd(n as real) == n
  {
    var d := rnd(n as real) - n;
    assert -0.5 <= d as real <= 0.5;
  }

  function Abs(x: real): real {
    if x < 0.0 then -x else x
  }

  function Sum(xs: seq<real>): real {
    if xs == [] then 0.0 else Sum(xs[..|xs| - 1]) + xs[|xs| - 1]
  }

  function IntSum(xs: seq<int>): int {
    if xs == [] then 0 else IntSum(xs[..|xs| - 1]) + xs[|xs| - 1]
  }

  lemma {:induction false} SumScaled(xs: seq<real>, ys: seq<real>, k: real)
    requires |xs| == |ys| && forall i :: 0 <= i < |xs| ==> ys[i] == k * xs[i]
    ensures Sum(ys) == k * Sum(xs)
  {
    if xs != [] {
      SumScaled(xs[..|xs| - 1], ys[..|ys| - 1], k);
    }
  }

  lemma {:induction false} SumNonNegative(xs: seq<real>)
    requires forall i :: 0 <= i < |xs| ==> xs[i] >= 0.0
    ensures Sum(xs) >= 0.0
    ensures forall i :: 0 <= i < |xs| ==> xs[i] <= Sum(xs)
  {
    if xs != [] {
      SumNonNegative(xs[..|xs| - 1]);
    }
  }

  /** Rounding n amounts separately moves their sum by at most n halves of a cent. */
  lemma {:induction false} RoundedSum(rnd: real -> int, xs: seq<real>, ns: seq<int>)
    requires Nearest(rnd) && |ns| == |xs| && forall i :: 0 <= i < |xs| ==> ns[i] == rnd(xs[i])
    ensures Abs(IntSum(ns) as real - Sum(xs)) <= 0.5 * |xs| as real
  {
    if xs != [] {
      RoundedSum(rnd, xs[..|xs| - 1], ns[..|ns| - 1]);
    }
  }
}
