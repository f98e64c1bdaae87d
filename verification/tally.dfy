/** Counting over sequences: weighted sums and ordered selections of indices. */
module Tally {

  /** The sum of the weights of the elements. */
  ghost function Sum<T(!new)>(xs: seq<T>, w: T -> int): int {
    if xs == [] then 0 else Sum(xs[..|xs| - 1], w) + w(xs[|xs| - 1])
  }

  lemma {:induction false} SumAppend<T(!new)>(xs: seq<T>, x: T, w: T -> int)
    ensures Sum(xs + [x], w) == Sum(xs, w) + w(x)
  {
    assert (xs + [x])[..|xs|] == xs;
  }

  lemma {:induction false} SumConcat<T(!new)>(xs: seq<T>, ys: seq<T>, w: T -> int)
    ensures Sum(xs + ys, w) == Sum(xs, w) + Sum(ys, w)
  {
    if ys == [] {
      assert xs + ys == xs;
    } else {
      var init, last := ys[..|ys| - 1], ys[|ys| - 1];
      assert xs + ys == (xs + init) + [last];
      SumAppend(xs + init, last, w);
      SumConcat(xs, init, w);
    }
  }

  lemma {:induction false} SumUpdate<T(!new)>(xs: seq<T>, i: nat, x: T, w: T -> int)
    requires i < |xs|
    ensures Sum(xs[i := x], w) == Sum(xs, w) - w(xs[i]) + w(x)
  {
    var n := |xs| - 1;
    if i == n {
      assert xs[i := x][..n] == xs[..n];
    } else {
      assert xs[i := x][..n] == xs[..n][i := x];
      SumUpdate(xs[..n], i, x, w);
    }
  }

  /** Pointwise differences add up. */
  lemma {:induction false} SumShift<S(!new), T(!new)>(xs: seq<S>, ys: seq<T>, w: S -> int, v: T -> int)
    requires |xs| == |ys| && forall i :: 0 <= i < |xs| ==> w(xs[i]) == v(ys[i])
    ensures Sum(xs, w) == Sum(ys, v)
  {
    if xs == [] {
    } else {
      SumShift(xs[..|xs| - 1], ys[..|ys| - 1], w, v);
    }
  }

  lemma {:induction false} SumBound<T(!new)>(xs: seq<T>, w: T -> int, lo: int, hi: int)
    requires forall i :: 0 <= i < |xs| ==> lo <= w(xs[i]) <= hi
    ensures lo * |xs| <= Sum(xs, w) <= hi * |xs|
  {
    if xs == [] {
    } else {
      var n := |xs| - 1;
      SumBound(xs[..n], w, lo, hi);
      OneMore(lo, n);
      OneMore(hi, n);
    }
  }

  lemma Distribute(k: int, x: int, y: int)
    ensures k * (x + y) == k * x + k * y
  {
  }

  lemma SubsetSize<T(!new)>(a: set<T>, b: set<T>)
    requires a <= b
    ensures |a| <= |b|
  {
    assert b == a + (b - a);
  }

  lemma OneMore(x: int, n: int)
    ensures x * (n + 1) == x * n + x
  {
  }

  /** A sum of nonnegative weights dominates each of them. */
  lemma {:induction false} SumCovers<T(!new)>(xs: seq<T>, w: T -> int, i: nat)
    requires i < |xs| && forall k :: 0 <= k < |xs| ==> w(xs[k]) >= 0
    ensures Sum(xs, w) >= w(xs[i])
  {
    var n := |xs| - 1;
    if i == n {
      SumBoundBelow(xs[..n], w);
    } else {
      SumCovers(xs[..n], w, i);
    }
  }

  lemma {:induction false} SumBoundBelow<T(!new)>(xs: seq<T>, w: T -> int)
    requires forall k :: 0 <= k < |xs| ==> w(xs[k]) >= 0
    ensures Sum(xs, w) >= 0
  {
    if xs == [] {
    } else {
      SumBoundBelow(xs[..|xs| - 1], w);
    }
  }

  // ----- Ordered selection --------------------------------------------------------

  /** The indices below n that pass the test, in increasing order. */
  function Select(n: nat, test: int -> bool): (r: seq<nat>)
    ensures forall i :: 0 <= i < |r| ==> r[i] < n
  {
    if n == 0 then [] else Select(n - 1, test) + (if test(n - 1) then [n - 1] else [])
  }

  lemma {:induction false} SelectMembers(n: nat, test: int -> bool)
    ensures forall x :: x in Select(n, test) <==> 0 <= x < n && test(x)
    ensures forall i, j :: 0 <= i < j < |Select(n, test)| ==> Select(n, test)[i] < Select(n, test)[j]
  {
    if n == 0 {
    } else {
      SelectMembers(n - 1, test);
      var init := Select(n - 1, test);
      assert forall i :: 0 <= i < |init| ==> init[i] in init;
    }
  }

  /** The numbers below n that pass the test. */
  ghost function Passing(n: nat, test: int -> bool): set<nat> {
    set x: nat | x < n && test(x)
  }

  lemma {:induction false} SelectCount(n: nat, test: int -> bool)
    ensures |Select(n, test)| == |Passing(n, test)|
  {
    if n == 0 {
    } else {
      SelectCount(n - 1, test);
      var rest := Passing(n - 1, test);
      assert Passing(n, test) == if test(n - 1) then rest + {n - 1} else rest;
    }
  }

  /** The places whose element weighs one. */
  ghost function Marked<T(!new)>(xs: seq<T>, w: T -> int): set<nat> {
    set i: nat | i < |xs| && w(xs[i]) == 1
  }

  /** A sum of zeros and ones counts the ones. */
  lemma {:induction false} SumIsCount<T(!new)>(xs: seq<T>, w: T -> int)
    requires forall i :: 0 <= i < |xs| ==> 0 <= w(xs[i]) <= 1
    ensures Sum(xs, w) == |Marked(xs, w)|
  {
    if xs == [] {
    } else {
      var n := |xs| - 1;
      SumIsCount(xs[..n], w);
      var rest := Marked(xs[..n], w);
      assert Marked(xs, w) == if w(xs[n]) == 1 then rest + {n} else rest;
    }
  }

  /** No element occurs twice. */
  predicate Distinct<T(==)>(xs: seq<T>) {
    forall i, j :: 0 <= i < j < |xs| ==> xs[i] != xs[j]
  }
}
