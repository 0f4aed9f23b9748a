/** Sums and pointwise order of counter vectors (one entry a stream). */
module Sequences {

  function Sum(xs: seq<nat>): nat {
    if xs == [] then 0 else Sum(xs[..|xs| - 1]) + xs[|xs| - 1]
  }

  /** `xs` is at most `ys` in every position. */
  predicate PointwiseLe(xs: seq<nat>, ys: seq<nat>) {
    |xs| == |ys| && forall j :: 0 <= j < |xs| ==> xs[j] <= ys[j]
  }

  lemma {:induction false} SumMonotone(xs: seq<nat>, ys: seq<nat>)
    requires PointwiseLe(xs, ys)
    ensures Sum(xs) <= Sum(ys)
  {
    if xs != [] {
      SumMonotone(xs[..|xs| - 1], ys[..|ys| - 1]);
    }
  }

  lemma {:induction false} SumBound(xs: seq<nat>, bound: nat)
    requires forall j :: 0 <= j < |xs| ==> xs[j] <= bound
    ensures Sum(xs) <= |xs| * bound
  {
    if xs != [] {
      SumBound(xs[..|xs| - 1], bound);
    }
  }

  lemma {:induction false} SumAtLeast(xs: seq<nat>, k: nat)
    requires k < |xs|
    ensures xs[k] <= Sum(xs)
  {
    if k < |xs| - 1 {
      SumAtLeast(xs[..|xs| - 1], k);
    }
  }

  lemma {:induction false} SumConcat(xs: seq<nat>, ys: seq<nat>)
    ensures Sum(xs + ys) == Sum(xs) + Sum(ys)
  {
    if ys == [] {
      assert xs + ys == xs;
    } else {
      assert (xs + ys)[..|xs + ys| - 1] == xs + ys[..|ys| - 1];
      SumConcat(xs, ys[..|ys| - 1]);
    }
  }

  lemma {:induction false} SumPairsAtMost(xs: seq<nat>, ys: seq<nat>, bound: nat)
    requires |xs| == |ys| && forall j :: 0 <= j < |xs| ==> xs[j] + ys[j] <= bound
    ensures Sum(xs) + Sum(ys) <= |xs| * bound
  {
    if xs != [] {
      SumPairsAtMost(xs[..|xs| - 1], ys[..|ys| - 1], bound);
      assert |xs| * bound == (|xs| - 1) * bound + bound;
    }
  }

  lemma {:induction false} SumPairs(xs: seq<nat>, ys: seq<nat>, bound: nat)
    requires |xs| == |ys| && forall j :: 0 <= j < |xs| ==> xs[j] + ys[j] == bound
    ensures Sum(xs) + Sum(ys) == |xs| * bound
  {
    if xs != [] {
      SumPairs(xs[..|xs| - 1], ys[..|ys| - 1], bound);
      assert |xs| * bound == (|xs| - 1) * bound + bound;
    }
  }
}
