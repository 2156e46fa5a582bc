/** `calculate_rsi`: the relative strength index from simple trailing means
    of day-over-day gains and losses (no Wilder smoothing). */
module Rsi {
  import opened Wrappers
  import opened Rolling

  /** `delta.where(delta > 0, 0)`: each day's rise, 0 on a day that did not
      rise; the first day's difference is NaN, fails `> 0`, and so counts as 0. */
  function Gains(xs: seq<real>): (r: seq<real>)
    ensures |r| == |xs|
    ensures forall i :: 0 <= i < |xs| ==> 0.0 <= r[i]
    ensures |xs| > 0 ==> r[0] == 0.0
  {
    seq(|xs|, i requires 0 <= i < |xs| => if i > 0 && xs[i] - xs[i - 1] > 0.0 then xs[i] - xs[i - 1] else 0.0)
  }

  /** `-delta.where(delta < 0, 0)`: each day's fall as a positive amount, 0
      on a day that did not fall, and 0 on the first day. */
  function Losses(xs: seq<real>): (r: seq<real>)
    ensures |r| == |xs|
    ensures forall i :: 0 <= i < |xs| ==> 0.0 <= r[i]
    ensures |xs| > 0 ==> r[0] == 0.0
  {
    seq(|xs|, i requires 0 <= i < |xs| => if i > 0 && xs[i] - xs[i - 1] < 0.0 then xs[i - 1] - xs[i] else 0.0)
  }

  /** After the first day, the gain minus the loss is the day's change, and
      at most one of the two is positive. */
  lemma GainsAndLosses(xs: seq<real>, i: nat)
    requires 0 < i < |xs|
    ensures Gains(xs)[i] - Losses(xs)[i] == xs[i] - xs[i - 1]
    ensures Gains(xs)[i] == 0.0 || Losses(xs)[i] == 0.0
  {
  }

  /** Line 143, `100*(1 - (1 + gains/losses)**(-1))`, with the floating-point
      outcome of a zero `losses` written out: a positive `gains` over 0 is
      infinite and gives exactly 100; 0 over 0 is NaN, left undefined. */
  function RsiValue(gains: real, losses: real): (r: Option<real>)
    requires 0.0 <= gains && 0.0 <= losses
    ensures r.Some? <==> losses > 0.0 || gains > 0.0
    ensures r.Some? ==> 0.0 <= r.value <= 100.0
    ensures r.Some? ==> (r.value == 100.0 <==> losses == 0.0)
    ensures losses > 0.0 ==> r.value == 100.0 * gains / (gains + losses)
  {
    if losses > 0.0 then
      var rs := gains / losses;
      assert 1.0 / (1.0 + rs) == losses / (gains + losses) by {
        assert (1.0 + rs) * losses == gains + losses;
      }
      Some(100.0 * (1.0 - 1.0 / (1.0 + rs)))
    else if gains > 0.0 then Some(100.0)
    else None
  }

  /** The trailing gain and loss means are never negative. */
  lemma MeansNonNegative(xs: seq<real>, w: nat, i: nat)
    requires 1 <= w <= i + 1 <= |xs|
    ensures RollingMean(Gains(xs), w)[i].Some? && 0.0 <= RollingMean(Gains(xs), w)[i].value
    ensures RollingMean(Losses(xs), w)[i].Some? && 0.0 <= RollingMean(Losses(xs), w)[i].value
  {
    MeanNonNegative(Window(Gains(xs), i, w));
    MeanNonNegative(Window(Losses(xs), i, w));
  }

  /** The `RSI` column for window `w`. */
  function CalculateRsi(xs: seq<real>, w: nat): (r: seq<Option<real>>)
    ensures |r| == |xs|
    ensures forall i :: 0 <= i < |xs| && r[i].Some? ==> 1 <= w <= i + 1
  {
    var gains := RollingMean(Gains(xs), w);
    var losses := RollingMean(Losses(xs), w);
    seq(|xs|, i requires 0 <= i < |xs| =>
      if gains[i].Some? then
        MeansNonNegative(xs, w, i);
        RsiValue(gains[i].value, losses[i].value)
      else None)
  }

  /** Where the RSI is defined it is the line-143 formula of the trailing
      gain and loss means; it is defined exactly when a full window ends at
      `i` and that window saw some movement. */
  lemma RsiFromMeans(xs: seq<real>, w: nat, i: nat)
    requires 1 <= w <= i + 1 <= |xs|
    ensures
      var g := Mean(Window(Gains(xs), i, w));
      var l := Mean(Window(Losses(xs), i, w));
      0.0 <= g && 0.0 <= l &&
      CalculateRsi(xs, w)[i] == RsiValue(g, l) &&
      (CalculateRsi(xs, w)[i].Some? <==> g > 0.0 || l > 0.0)
  {
    MeansNonNegative(xs, w, i);
  }

  /** Every defined RSI value lies in [0, 100], for any price series. */
  lemma RsiInRange(xs: seq<real>, w: nat)
    ensures forall i :: 0 <= i < |xs| && CalculateRsi(xs, w)[i].Some? ==>
      0.0 <= CalculateRsi(xs, w)[i].value <= 100.0
  {
    forall i | 0 <= i < |xs| && CalculateRsi(xs, w)[i].Some?
      ensures 0.0 <= CalculateRsi(xs, w)[i].value <= 100.0
    {
      MeansNonNegative(xs, w, i);
    }
  }

  /** Over a window of rises the losses sum to 0 and the gains to a
      positive amount. */
  lemma {:induction false} RisingWindowSums(xs: seq<real>, w: nat, i: nat)
    requires 1 <= w <= i + 1 <= |xs| && 1 <= i
    requires forall k :: i + 1 - w <= k <= i && 1 <= k ==> xs[k - 1] < xs[k]
    ensures Sum(Window(Losses(xs), i, w)) == 0.0
    ensures Sum(Window(Gains(xs), i, w)) > 0.0
  {
    var gw := Window(Gains(xs), i, w);
    var lw := Window(Losses(xs), i, w);
    forall k | 0 <= k < w
      ensures lw[k] == 0.0 && 0.0 <= gw[k]
    {
      var d := i + 1 - w + k;
      assert lw[k] == Losses(xs)[d] && gw[k] == Gains(xs)[d];
    }
    SumOfConstant(lw, 0.0);
    var last := gw[w - 1];
    assert last == Gains(xs)[i] == xs[i] - xs[i - 1];
    assert gw == gw[..w - 1] + [last];
    SumAppend(gw[..w - 1], [last]);
    SumNonNegative(gw[..w - 1]);
  }

  /** A window in which every day's change is a rise (with at least one real
      day-over-day change in it) has no losses, and its RSI is exactly 100. */
  lemma RsiOfRisingWindow(xs: seq<real>, w: nat, i: nat)
    requires 1 <= w <= i + 1 <= |xs| && 1 <= i
    requires forall k :: i + 1 - w <= k <= i && 1 <= k ==> xs[k - 1] < xs[k]
    ensures CalculateRsi(xs, w)[i] == Some(100.0)
  {
    RisingWindowSums(xs, w, i);
    RsiFromMeans(xs, w, i);
    var g := Mean(Window(Gains(xs), i, w));
    assert g > 0.0;
  }

  /** A flat series moves neither way, so `gains/losses` is 0/0 and every
      position of the RSI column is undefined. */
  lemma RsiOfFlatSeries(xs: seq<real>, w: nat, p: real)
    requires forall k :: 0 <= k < |xs| ==> xs[k] == p
    ensures forall i :: 0 <= i < |xs| ==> CalculateRsi(xs, w)[i].None?
  {
    forall i | 0 <= i < |xs| && 1 <= w <= i + 1
      ensures CalculateRsi(xs, w)[i].None?
    {
      SumOfConstant(Window(Gains(xs), i, w), 0.0);
      SumOfConstant(Window(Losses(xs), i, w), 0.0);
      MeansNonNegative(xs, w, i);
    }
  }

  /** The first defined position, `w - 1`, averages only the `w - 1` real
      changes of days 1 to `w - 1` but divides by `w`: the NaN first
      difference enters the window as a 0 gain. */
  lemma FirstGainMeanHasPhantomDay(xs: seq<real>, w: nat)
    requires 1 <= w <= |xs|
    ensures RollingMean(Gains(xs), w)[w - 1].Some?
    ensures RollingMean(Gains(xs), w)[w - 1].value == Sum(Gains(xs)[1..w]) / w as real
  {
    var win := Window(Gains(xs), w - 1, w);
    assert win == [0.0] + Gains(xs)[1..w];
    SumAppend([0.0], Gains(xs)[1..w]);
  }
}
