/** Sums of a weight over a list: what counters, gauges and conservation laws are stated with. */
module Sums {

  ghost function SumBy<T>(xs: seq<T>, v: T -> nat): nat
  {
    if xs == [] then 0 else SumBy(xs[..|xs| - 1], v) + v(xs[|xs| - 1])
  }

  lemma SumAppend<T>(xs: seq<T>, x: T, v: T -> nat)
    ensures SumBy(xs + [x], v) == SumBy(xs, v) + v(x)
  {
    assert (xs + [x])[..|xs|] == xs;
  }

  lemma {:induction false} SumConcat<T>(xs: seq<T>, ys: seq<T>, v: T -> nat)
    ensures SumBy(xs + ys, v) == SumBy(xs, v) + SumBy(ys, v)
  {
    if ys == [] {
      assert xs + ys == xs;
    } else {
      SumConcat(xs, ys[..|ys| - 1], v);
      assert (xs + ys)[..|xs + ys| - 1] == xs + ys[..|ys| - 1];
    }
  }

  lemma SumRemove<T>(xs: seq<T>, i: nat, v: T -> nat)
    requires i < |xs|
    ensures SumBy(xs, v) == SumBy(xs[..i] + xs[i + 1..], v) + v(xs[i])
  {
    hide SumBy;
    SumConcat(xs[..i] + [xs[i]], xs[i + 1..], v);
    SumConcat(xs[..i], xs[i + 1..], v);
    SumAppend(xs[..i], xs[i], v);
    assert xs == xs[..i] + [xs[i]] + xs[i + 1..];
  }

  lemma SumUpdate<T>(xs: seq<T>, i: nat, x: T, v: T -> nat)
    requires i < |xs|
    ensures SumBy(xs[i := x], v) + v(xs[i]) == SumBy(xs, v) + v(x)
  {
    hide SumBy;
    SumRemove(xs, i, v);
    SumRemove(xs[i := x], i, v);
    assert xs[i := x][..i] + xs[i := x][i + 1..] == xs[..i] + xs[i + 1..];
  }

  /** A positive sum has a positive term. */
  lemma {:induction false} SumPositive<T>(xs: seq<T>, v: T -> nat) returns (i: nat)
    requires SumBy(xs, v) > 0
    ensures i < |xs| && v(xs[i]) > 0
  {
    if v(xs[|xs| - 1]) > 0 {
      i := |xs| - 1;
    } else {
      i := SumPositive(xs[..|xs| - 1], v);
    }
  }

  lemma SumTerm<T>(xs: seq<T>, i: nat, v: T -> nat)
    requires i < |xs|
    ensures v(xs[i]) <= SumBy(xs, v)
  {
    SumRemove(xs, i, v);
  }

  /** Weights that add up pointwise below a third one do so in the sum. */
  lemma {:induction false} SumBelow<T(!new)>(xs: seq<T>, u: T -> nat, v: T -> nat, w: T -> nat)
    requires forall x :: u(x) + v(x) <= w(x)
    ensures SumBy(xs, u) + SumBy(xs, v) <= SumBy(xs, w)
  {
    if xs == [] {
    } else {
      SumBelow(xs[..|xs| - 1], u, v, w);
    }
  }
}
