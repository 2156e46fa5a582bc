/** `calculate_bollinger`: a middle band that is the trailing mean of the
    price, and lower and upper bands two trailing standard deviations below
    and above it. pandas' rolling `std()` is the sample deviation (one degree
    of freedom removed). The square root is not computed here: it is the
    parameter `root`, applied to the exact sample variance. */
module Bollinger {
  import opened Wrappers
  import opened Rolling

  /** The sum of squared distances of the values from `m`. */
  function SquaredDeviations(s: seq<real>, m: real): real {
    if s == [] then 0.0 else (s[0] - m) * (s[0] - m) + SquaredDeviations(s[1..], m)
  }

  /** The sample variance, defined from two values on. */
  function SampleVariance(s: seq<real>): real
    requires |s| >= 2
  {
    SquaredDeviations(s, Mean(s)) / (|s| - 1) as real
  }

  /** `price.rolling(window=w).std()`: defined once a full window ends at `i`
      and that window holds at least two values (a one-value sample
      deviation is NaN in pandas). */
  function RollingStd(xs: seq<real>, w: nat, root: real -> real): (r: seq<Option<real>>)
    ensures |r| == |xs|
    ensures forall i :: 0 <= i < |xs| ==> (r[i].Some? <==> 2 <= w <= i + 1)
    ensures forall i :: 0 <= i < |xs| && 2 <= w <= i + 1 ==>
      r[i].value == root(SampleVariance(Window(xs, i, w)))
  {
    seq(|xs|, i requires 0 <= i < |xs| =>
      if 2 <= w <= i + 1 then Some(root(SampleVariance(Window(xs, i, w)))) else None)
  }

  datatype Bands = Bands(middle: seq<Option<real>>, lower: seq<Option<real>>, upper: seq<Option<real>>)

  /** The three band columns. */
  function CalculateBollinger(xs: seq<real>, w: nat, root: real -> real): (b: Bands)
    ensures b.middle == RollingMean(xs, w)
    ensures |b.lower| == |xs| && |b.upper| == |xs|
    ensures forall i :: 0 <= i < |xs| ==>
      (b.lower[i].Some? <==> 2 <= w <= i + 1) && (b.upper[i].Some? <==> 2 <= w <= i + 1)
    ensures forall i :: 0 <= i < |xs| && b.upper[i].Some? ==>
      b.middle[i].Some? && b.upper[i].value - b.middle[i].value == b.middle[i].value - b.lower[i].value
    ensures forall i :: 0 <= i < |xs| && 2 <= w <= i + 1 ==>
      b.lower[i] == Some(Mean(Window(xs, i, w)) - 2.0 * root(SampleVariance(Window(xs, i, w)))) &&
      b.upper[i] == Some(Mean(Window(xs, i, w)) + 2.0 * root(SampleVariance(Window(xs, i, w))))
  {
    var middle := RollingMean(xs, w);
    var std := RollingStd(xs, w, root);
    Bands(
      middle,
      seq(|xs|, i requires 0 <= i < |xs| =>
        if std[i].Some? then Some(middle[i].value - 2.0 * std[i].value) else None),
      seq(|xs|, i requires 0 <= i < |xs| =>
        if std[i].Some? then Some(middle[i].value + 2.0 * std[i].value) else None))
  }

  lemma {:induction false} SquaredDeviationsNonNegative(s: seq<real>, m: real)
    ensures 0.0 <= SquaredDeviations(s, m)
  {
    if s != [] {
      SquaredDeviationsNonNegative(s[1..], m);
      var d := s[0] - m;
      assert 0.0 <= d * d by {
        if d < 0.0 {
          assert d * d == (-d) * (-d);
        }
      }
    }
  }

  lemma {:induction false} SquaredDeviationsOfConstant(s: seq<real>, p: real)
    requires forall k :: 0 <= k < |s| ==> s[k] == p
    ensures SquaredDeviations(s, p) == 0.0
  {
    if s != [] {
      SquaredDeviationsOfConstant(s[1..], p);
    }
  }

  /** The sample variance of any window is non-negative. */
  lemma SampleVarianceNonNegative(s: seq<real>)
    requires |s| >= 2
    ensures 0.0 <= SampleVariance(s)
  {
    SquaredDeviationsNonNegative(s, Mean(s));
  }

  /** With a square root that is non-negative on non-negative arguments, the
      lower band never exceeds the middle band and the middle band never
      exceeds the upper band. */
  lemma BandsOrdered(xs: seq<real>, w: nat, root: real -> real)
    requires forall v :: 0.0 <= v ==> 0.0 <= root(v)
    ensures var b := CalculateBollinger(xs, w, root);
      forall i :: 0 <= i < |xs| && b.upper[i].Some? ==>
        b.lower[i].value <= b.middle[i].value <= b.upper[i].value
  {
    var b := CalculateBollinger(xs, w, root);
    forall i | 0 <= i < |xs| && b.upper[i].Some?
      ensures b.lower[i].value <= b.middle[i].value <= b.upper[i].value
    {
      SampleVarianceNonNegative(Window(xs, i, w));
    }
  }

  /** For a constant price `p` (and a root with `root(0) == 0`) the three
      bands meet at `p` wherever they are defined. */
  lemma BandsOfConstant(xs: seq<real>, w: nat, root: real -> real, p: real)
    requires root(0.0) == 0.0
    requires forall k :: 0 <= k < |xs| ==> xs[k] == p
    ensures var b := CalculateBollinger(xs, w, root);
      forall i :: 0 <= i < |xs| && b.upper[i].Some? ==>
        b.lower[i].value == p && b.middle[i].value == p && b.upper[i].value == p
  {
    var b := CalculateBollinger(xs, w, root);
    RollingMeanOfConstant(xs, w, p);
    forall i | 0 <= i < |xs| && b.upper[i].Some?
      ensures b.lower[i].value == p && b.upper[i].value == p
    {
      var win := Window(xs, i, w);
      SumOfConstant(win, p);
      assert Mean(win) == p;
      SquaredDeviationsOfConstant(win, p);
      assert SampleVariance(win) == 0.0;
    }
  }
}
