/** Numeric helpers shared by the two flatteners: Python's `int()` on a
    float, and sampling a parametric curve at `t = i/n` for `i` in
    `0..n`, skipping the parameters at which evaluation fails. */
module Sampling {
  import opened Wrappers
  import opened Geometry

  /** Python's `int(x)` on a float: truncation toward zero. */
  function Trunc(x: real): (n: int)
    ensures x >= 0.0 ==> n as real <= x < n as real + 1.0
    ensures x < 0.0 ==> n as real - 1.0 < x <= n as real
  {
    if x >= 0.0 then x.Floor else -((-x).Floor)
  }

  /** The `i`-th of the `n + 1` grid parameters, `i / n`. */
  function GridPoint(n: nat, i: nat): (t: real)
    requires n > 0
    ensures 0.0 <= t
    ensures i <= n ==> t <= 1.0
    ensures i == n ==> t == 1.0
  {
    i as real / n as real
  }

  /** Later grid parameters are larger. */
  lemma GridPointIncreasing(n: nat, i: nat, j: nat)
    requires n > 0 && i < j
    ensures GridPoint(n, i) < GridPoint(n, j)
  {
    var a, b, m := i as real, j as real, n as real;
    assert b / m - a / m == (b - a) / m;
    assert (b - a) / m > 0.0;
  }

  /** The parameters among the first `k` grid points `i/n` at which `eval`
      succeeds, in increasing order. */
  function GridParams(eval: real -> Option<Point>, n: nat, k: nat): seq<real>
    requires n > 0
  {
    if k == 0 then []
    else
      var t := GridPoint(n, k - 1);
      GridParams(eval, n, k - 1) + (if eval(t).Some? then [t] else [])
  }

  /** The points `eval` yields at those parameters, in the same order. */
  function GridSamples(eval: real -> Option<Point>, n: nat, k: nat): seq<Point>
    requires n > 0
  {
    if k == 0 then []
    else
      var t := GridPoint(n, k - 1);
      GridSamples(eval, n, k - 1) + (match eval(t) case Some(p) => [p] case None => [])
  }

  /** The parameters are exactly the grid points among the first `k` at
      which `eval` succeeds. */
  lemma {:induction false} GridParamsExact(eval: real -> Option<Point>, n: nat, k: nat)
    requires n > 0
    ensures forall i :: 0 <= i < k ==>
      (eval(GridPoint(n, i)).Some? <==> GridPoint(n, i) in GridParams(eval, n, k))
    ensures forall j :: 0 <= j < |GridParams(eval, n, k)| ==>
      exists i :: 0 <= i < k && GridParams(eval, n, k)[j] == GridPoint(n, i)
  {
    if k == 0 {
      assert GridParams(eval, n, 0) == [];
    } else {
      GridParamsExact(eval, n, k - 1);
      var t := GridPoint(n, k - 1);
      var ps := GridParams(eval, n, k - 1);
      var extra := if eval(t).Some? then [t] else [];
      assert GridParams(eval, n, k) == ps + extra;
      forall i | 0 <= i < k - 1
        ensures GridPoint(n, i) != t
      {
        GridPointIncreasing(n, i, k - 1);
      }
      assert t !in ps by {
        forall j | 0 <= j < |ps|
          ensures ps[j] != t
        {
          var i :| 0 <= i < k - 1 && ps[j] == GridPoint(n, i);
        }
      }
      forall j | 0 <= j < |ps + extra|
        ensures exists i :: 0 <= i < k && (ps + extra)[j] == GridPoint(n, i)
      {
        if j < |ps| {
          var i :| 0 <= i < k - 1 && ps[j] == GridPoint(n, i);
          assert (ps + extra)[j] == GridPoint(n, i);
        } else {
          assert (ps + extra)[j] == GridPoint(n, k - 1);
        }
      }
    }
  }

  /** Each sample is the curve's value at the matching parameter; the
      parameters rise strictly, lie in `[0, (k-1)/n]`, and are no more
      than `k` in number; and they are exactly the grid points among the
      first `k` at which `eval` succeeds. */
  lemma {:induction false} GridSamplesAtParams(eval: real -> Option<Point>, n: nat, k: nat)
    requires n > 0
    ensures |GridSamples(eval, n, k)| == |GridParams(eval, n, k)| <= k
    ensures forall j :: 0 <= j < |GridParams(eval, n, k)| ==>
      eval(GridParams(eval, n, k)[j]) == Some(GridSamples(eval, n, k)[j])
    ensures forall j :: 0 <= j < |GridParams(eval, n, k)| ==>
      0.0 <= GridParams(eval, n, k)[j] <= GridPoint(n, k - 1)
    ensures forall i, j :: 0 <= i < j < |GridParams(eval, n, k)| ==>
      GridParams(eval, n, k)[i] < GridParams(eval, n, k)[j]
    ensures forall i :: 0 <= i < k ==>
      (eval(GridPoint(n, i)).Some? <==> GridPoint(n, i) in GridParams(eval, n, k))
    ensures forall j :: 0 <= j < |GridParams(eval, n, k)| ==>
      exists i :: 0 <= i < k && GridParams(eval, n, k)[j] == GridPoint(n, i)
  {
    GridParamsExact(eval, n, k);
    GridSamplesOrdered(eval, n, k);
  }

  /** The full grid `0, 1/n, ..., 1` as the flatteners use it: samples
      match rising parameters in `[0, 1]`, and those parameters are exactly
      the grid points at which `eval` succeeds. */
  lemma FullGridSamples(eval: real -> Option<Point>, n: nat, k: nat)
    requires n > 0 && k == n + 1
    ensures |GridSamples(eval, n, k)| == |GridParams(eval, n, k)| <= k
    ensures forall j :: 0 <= j < |GridParams(eval, n, k)| ==>
      0.0 <= GridParams(eval, n, k)[j] <= 1.0 &&
      eval(GridParams(eval, n, k)[j]) == Some(GridSamples(eval, n, k)[j])
    ensures forall i, j :: 0 <= i < j < |GridParams(eval, n, k)| ==>
      GridParams(eval, n, k)[i] < GridParams(eval, n, k)[j]
    ensures forall i :: 0 <= i <= n ==>
      (eval(GridPoint(n, i)).Some? <==> GridPoint(n, i) in GridParams(eval, n, k))
    ensures forall j :: 0 <= j < |GridParams(eval, n, k)| ==>
      exists i :: 0 <= i <= n && GridParams(eval, n, k)[j] == GridPoint(n, i)
  {
    GridSamplesAtParams(eval, n, k);
  }

  /** The order, range and count half of `GridSamplesAtParams`. */
  lemma {:induction false} GridSamplesOrdered(eval: real -> Option<Point>, n: nat, k: nat)
    requires n > 0
    ensures |GridSamples(eval, n, k)| == |GridParams(eval, n, k)| <= k
    ensures forall j :: 0 <= j < |GridParams(eval, n, k)| ==>
      eval(GridParams(eval, n, k)[j]) == Some(GridSamples(eval, n, k)[j])
    ensures forall j :: 0 <= j < |GridParams(eval, n, k)| ==>
      0.0 <= GridParams(eval, n, k)[j] <= GridPoint(n, k - 1)
    ensures forall i, j :: 0 <= i < j < |GridParams(eval, n, k)| ==>
      GridParams(eval, n, k)[i] < GridParams(eval, n, k)[j]
  {
    if k > 0 {
      GridSamplesOrdered(eval, n, k - 1);
      var t := GridPoint(n, k - 1);
      var ps, ss := GridParams(eval, n, k - 1), GridSamples(eval, n, k - 1);
      if k >= 2 {
        GridPointIncreasing(n, k - 2, k - 1);
      }
      assert forall j :: 0 <= j < |ps| ==> ps[j] < t;
    }
  }

  /** When every evaluation succeeds, all `k` parameters are sampled. */
  lemma {:induction false} GridSamplesTotal(eval: real -> Option<Point>, n: nat, k: nat)
    requires n > 0
    requires forall i :: 0 <= i < k ==> eval(GridPoint(n, i)).Some?
    ensures |GridSamples(eval, n, k)| == k
  {
    if k > 0 {
      GridSamplesTotal(eval, n, k - 1);
    }
  }

  /** When every evaluation fails, nothing is sampled. */
  lemma {:induction false} GridSamplesNone(eval: real -> Option<Point>, n: nat, k: nat)
    requires n > 0
    requires forall i :: 0 <= i < k ==> eval(GridPoint(n, i)).None?
    ensures GridSamples(eval, n, k) == []
  {
    if k > 0 {
      GridSamplesNone(eval, n, k - 1);
    }
  }

  /** The sampling loop: the `n + 1` grid parameters `0, 1/n, ..., 1` are
      tried in order, and a parameter whose evaluation raises is skipped. */
  method SampleGrid(eval: real -> Option<Point>, n: nat) returns (pts: seq<Point>)
    requires n > 0
    ensures pts == GridSamples(eval, n, n + 1)
    ensures |pts| <= n + 1
  {
    pts := [];
    var i := 0;
    while i < n + 1
      invariant 0 <= i <= n + 1
      invariant pts == GridSamples(eval, n, i)
    {
      var t := GridPoint(n, i);
      var p := eval(t);
      if p.Some? {
        pts := pts + [p.value];
      }
      i := i + 1;
    }
    GridSamplesAtParams(eval, n, n + 1);
  }
}
