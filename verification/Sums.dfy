/** Weighted counts over a sequence. */
module Sums {

  function Total<T>(xs: seq<T>, f: T -> nat): nat {
    if xs == [] then 0 else f(xs[0]) + Total(xs[1..], f)
  }

  lemma {:induction false} TotalUpdate<T>(xs: seq<T>, k: nat, x: T, f: T -> nat)
    requires k < |xs|
    ensures Total(xs[k := x], f) + f(xs[k]) == Total(xs, f) + f(x)
  {
    if k == 0 {
      assert xs[k := x][1..] == xs[1..];
    } else {
      assert xs[k := x][1..] == xs[1..][k - 1 := x];
      TotalUpdate(xs[1..], k - 1, x, f);
    }
  }

  lemma {:induction false} TotalAtLeast<T>(xs: seq<T>, k: nat, f: T -> nat)
    requires k < |xs|
    ensures f(xs[k]) <= Total(xs, f)
  {
    if k > 0 {
      TotalAtLeast(xs[1..], k - 1, f);
    }
  }

  lemma {:induction false} TotalZero<T>(xs: seq<T>, f: T -> nat)
    requires forall k :: 0 <= k < |xs| ==> f(xs[k]) == 0
    ensures Total(xs, f) == 0
  {
    if xs != [] {
      TotalZero(xs[1..], f);
    }
  }

  lemma {:induction false} TotalAppend<T>(xs: seq<T>, ys: seq<T>, f: T -> nat)
    ensures Total(xs + ys, f) == Total(xs, f) + Total(ys, f)
  {
    if xs == [] {
      assert xs + ys == ys;
    } else {
      assert (xs + ys)[1..] == xs[1..] + ys;
      TotalAppend(xs[1..], ys, f);
    }
  }

  lemma {:induction false} TotalBound<T>(xs: seq<T>, f: T -> nat, bound: nat)
    requires forall k :: 0 <= k < |xs| ==> f(xs[k]) <= bound
    ensures Total(xs, f) <= |xs| * bound
  {
    if xs != [] {
      TotalBound(xs[1..], f, bound);
    }
  }

  lemma {:induction false} TotalMonotone<T>(xs: seq<T>, ys: seq<T>, f: T -> nat)
    requires |xs| == |ys| && forall k :: 0 <= k < |xs| ==> f(xs[k]) <= f(ys[k])
    ensures Total(xs, f) <= Total(ys, f)
  {
    if xs != [] {
      TotalMonotone(xs[1..], ys[1..], f);
    }
  }
}
