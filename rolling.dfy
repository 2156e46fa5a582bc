/** Trailing-window arithmetic over a price column: pandas'
    `Series.rolling(window).mean()` and `calculate_moving_average`, which
    attaches it to the table as the `Moving Average` column. */
module Rolling {
  import opened Wrappers

  function Sum(s: seq<real>): real {
    if s == [] then 0.0 else s[0] + Sum(s[1..])
  }

  function Mean(s: seq<real>): real
    requires |s| > 0
  {
    Sum(s) / |s| as real
  }

  /** The `w` values ending at (and including) position `i`. */
  function Window(xs: seq<real>, i: nat, w: nat): seq<real>
    requires w <= i + 1 <= |xs|
  {
    xs[i + 1 - w .. i + 1]
  }

  /** `xs.rolling(window=w).mean()`: position `i` is defined once a full
      window of `w` values ends there (a window of 0 is never defined) and
      is then the mean of that window. */
  function RollingMean(xs: seq<real>, w: nat): (r: seq<Option<real>>)
    ensures |r| == |xs|
    ensures forall i :: 0 <= i < |xs| ==> (r[i].Some? <==> 1 <= w <= i + 1)
    ensures forall i :: 0 <= i < |xs| && r[i].Some? ==> r[i].value == Mean(Window(xs, i, w))
  {
    seq(|xs|, i requires 0 <= i < |xs| => if 1 <= w <= i + 1 then Some(Mean(Window(xs, i, w))) else None)
  }

  /** `calculate_moving_average`: no table gives no column; otherwise the
      trailing mean of the `Price` column. */
  function CalculateMovingAverage(prices: Option<seq<real>>, window: nat): (r: Option<seq<Option<real>>>)
    ensures r.Some? <==> prices.Some?
    ensures prices.Some? ==> |r.value| == |prices.value|
    ensures prices.Some? ==> forall i :: 0 <= i < |prices.value| ==>
      (r.value[i].Some? <==> 1 <= window <= i + 1) &&
      (r.value[i].Some? ==> r.value[i].value == Mean(Window(prices.value, i, window)))
  {
    match prices
    case None => None
    case Some(xs) => Some(RollingMean(xs, window))
  }

  lemma {:induction false} SumAppend(a: seq<real>, b: seq<real>)
    ensures Sum(a + b) == Sum(a) + Sum(b)
  {
    if a == [] {
      assert a + b == b;
    } else {
      assert (a + b)[1..] == a[1..] + b;
      SumAppend(a[1..], b);
    }
  }

  lemma {:induction false} SumOfConstant(s: seq<real>, p: real)
    requires forall k :: 0 <= k < |s| ==> s[k] == p
    ensures Sum(s) == |s| as real * p
  {
    if s != [] {
      SumOfConstant(s[1..], p);
    }
  }

  lemma {:induction false} SumBounds(s: seq<real>, lo: real, hi: real)
    requires forall k :: 0 <= k < |s| ==> lo <= s[k] <= hi
    ensures |s| as real * lo <= Sum(s) <= |s| as real * hi
  {
    if s != [] {
      SumBounds(s[1..], lo, hi);
    }
  }

  lemma {:induction false} SumNonNegative(s: seq<real>)
    requires forall k :: 0 <= k < |s| ==> 0.0 <= s[k]
    ensures 0.0 <= Sum(s)
  {
    if s != [] {
      SumNonNegative(s[1..]);
    }
  }

  /** The mean of a window of non-negative values is non-negative. */
  lemma MeanNonNegative(s: seq<real>)
    requires |s| > 0
    requires forall k :: 0 <= k < |s| ==> 0.0 <= s[k]
    ensures 0.0 <= Mean(s)
  {
    SumNonNegative(s);
  }

  /** For a constant price `p` every defined moving-average value is `p`. */
  lemma RollingMeanOfConstant(xs: seq<real>, w: nat, p: real)
    requires forall k :: 0 <= k < |xs| ==> xs[k] == p
    ensures forall i :: 0 <= i < |xs| && RollingMean(xs, w)[i].Some? ==> RollingMean(xs, w)[i].value == p
  {
    forall i | 0 <= i < |xs| && 1 <= w <= i + 1
      ensures Mean(Window(xs, i, w)) == p
    {
      SumOfConstant(Window(xs, i, w), p);
    }
  }

  /** A defined moving-average value lies between any lower and upper bound
      of the prices in its window. */
  lemma RollingMeanWithinWindow(xs: seq<real>, w: nat, i: nat, lo: real, hi: real)
    requires i < |xs| && 1 <= w <= i + 1
    requires forall k :: i + 1 - w <= k <= i ==> lo <= xs[k] <= hi
    ensures RollingMean(xs, w)[i].Some?
    ensures lo <= RollingMean(xs, w)[i].value <= hi
  {
    var win := Window(xs, i, w);
    SumBounds(win, lo, hi);
    var n := w as real;
    assert Sum(win) / n >= lo by {
      assert Sum(win) >= n * lo;
    }
    assert Sum(win) / n <= hi by {
      assert Sum(win) <= n * hi;
    }
  }

  /** The sliding-window step: from one full window to the next, the mean
      changes by the entering price minus the leaving price, over `w`. */
  lemma RollingMeanSlides(xs: seq<real>, w: nat, i: nat)
    requires 1 <= w <= i < |xs|
    ensures RollingMean(xs, w)[i].Some? && RollingMean(xs, w)[i - 1].Some?
    ensures RollingMean(xs, w)[i].value == RollingMean(xs, w)[i - 1].value + (xs[i] - xs[i - w]) / w as real
  {
    var cur := Window(xs, i, w);
    var prev := Window(xs, i - 1, w);
    assert xs[i - w .. i + 1] == [xs[i - w]] + cur;
    assert xs[i - w .. i + 1] == prev + [xs[i]];
    SumAppend([xs[i - w]], cur);
    SumAppend(prev, [xs[i]]);
    assert Sum(cur) == Sum(prev) + xs[i] - xs[i - w];
  }
}
