/** `calculate_macd`: exponential moving averages in pandas' `adjust=False`
    form (seeded with the first value, smoothing 2/(span+1)), their
    difference, its signal line and the histogram. */
module Macd {

  /** pandas refuses a span below 1. */
  type Span = n: nat | 1 <= n witness 1

  const DEFAULT_SHORT: Span := 12
  const DEFAULT_LONG: Span := 26
  const DEFAULT_SIGNAL: Span := 9

  function Alpha(span: Span): real {
    2.0 / (span as real + 1.0)
  }

  /** `xs.ewm(span=span, adjust=False).mean()`, built one day at a time. */
  function Ema(xs: seq<real>, span: Span): (r: seq<real>)
    ensures |r| == |xs|
    decreases |xs|
  {
    if |xs| <= 1 then xs
    else
      var prev := Ema(xs[..|xs| - 1], span);
      prev + [Blend(Alpha(span), xs[|xs| - 1], prev[|xs| - 2])]
  }

  /** One EMA step: weight `a` on today's price `x`, the rest on yesterday's average `e`. */
  function Blend(a: real, x: real, e: real): real {
    a * x + (1.0 - a) * e
  }

  /** A blend lies between the two values it blends. */
  lemma BlendBetween(a: real, x: real, e: real, lo: real, hi: real)
    requires 0.0 <= a <= 1.0 && lo <= x <= hi && lo <= e <= hi
    ensures lo <= Blend(a, x, e) <= hi
  {
    var d := x - e;
    assert Blend(a, x, e) == e + a * d;
    if d >= 0.0 {
      FractionOf(a, d);
    } else {
      FractionOf(a, -d);
      assert a * d == -(a * (-d));
    }
  }

  lemma FractionOf(a: real, d: real)
    requires 0.0 <= a <= 1.0 && 0.0 <= d
    ensures 0.0 <= a * d <= d
  {
    assert d - a * d == (1.0 - a) * d;
  }

  lemma BlendShift(a: real, x: real, e: real, c: real)
    ensures Blend(a, x + c, e + c) == Blend(a, x, e) + c
  {
  }

  /** The smoothing factor lies in (0, 1]. */
  lemma AlphaRange(span: Span)
    ensures 0.0 < Alpha(span) <= 1.0
  {
  }

  /** The EMA starts at the first price. */
  lemma {:induction false} EmaSeed(xs: seq<real>, span: Span)
    requires |xs| > 0
    ensures Ema(xs, span)[0] == xs[0]
  {
    if |xs| > 1 {
      EmaSeed(xs[..|xs| - 1], span);
    }
  }

  /** Each later EMA value is `alpha * price + (1 - alpha) * previous EMA`. */
  lemma {:induction false} EmaStep(xs: seq<real>, span: Span, i: nat)
    requires 0 < i < |xs|
    ensures Ema(xs, span)[i] == Alpha(span) * xs[i] + (1.0 - Alpha(span)) * Ema(xs, span)[i - 1]
  {
    if i < |xs| - 1 {
      var front := xs[..|xs| - 1];
      EmaStep(front, span, i);
      assert front[i] == xs[i];
    }
  }

  /** A constant price gives a constant EMA. */
  lemma {:induction false} EmaOfConstant(xs: seq<real>, span: Span, p: real)
    requires forall k :: 0 <= k < |xs| ==> xs[k] == p
    ensures forall k :: 0 <= k < |xs| ==> Ema(xs, span)[k] == p
  {
    if |xs| > 1 {
      var front := xs[..|xs| - 1];
      EmaOfConstant(front, span, p);
      AlphaRange(span);
      BlendBetween(Alpha(span), p, p, p, p);
    }
  }

  /** Every EMA value lies between any lower and upper bound of the prices. */
  lemma {:induction false} EmaWithinRange(xs: seq<real>, span: Span, lo: real, hi: real)
    requires forall k :: 0 <= k < |xs| ==> lo <= xs[k] <= hi
    ensures forall k :: 0 <= k < |xs| ==> lo <= Ema(xs, span)[k] <= hi
  {
    if |xs| > 1 {
      var front := xs[..|xs| - 1];
      EmaWithinRange(front, span, lo, hi);
      AlphaRange(span);
      BlendBetween(Alpha(span), xs[|xs| - 1], Ema(front, span)[|xs| - 2], lo, hi);
    }
  }

  /** The series with `c` added to every value. */
  function Shifted(xs: seq<real>, c: real): seq<real> {
    seq(|xs|, i requires 0 <= i < |xs| => xs[i] + c)
  }

  /** Shifting every price by `c` shifts every EMA value by `c`. */
  lemma {:induction false} EmaOfShifted(xs: seq<real>, span: Span, c: real)
    ensures Ema(Shifted(xs, c), span) == Shifted(Ema(xs, span), c)
  {
    if |xs| > 1 {
      var n := |xs|;
      var front := xs[..n - 1];
      EmaOfShifted(front, span, c);
      assert Shifted(xs, c)[..n - 1] == Shifted(front, c);
      BlendShift(Alpha(span), xs[n - 1], Ema(front, span)[n - 2], c);
      var lhs := Ema(Shifted(xs, c), span);
      var rhs := Shifted(Ema(xs, span), c);
      assert |lhs| == |rhs|;
      forall k | 0 <= k < n
        ensures lhs[k] == rhs[k]
      {
      }
    }
  }

  datatype MacdColumns = MacdColumns(
    shortEma: seq<real>, longEma: seq<real>, macd: seq<real>, signal: seq<real>, histogram: seq<real>)

  /** The difference of two equally long columns. */
  function Minus(a: seq<real>, b: seq<real>): seq<real>
    requires |a| == |b|
  {
    seq(|a|, i requires 0 <= i < |a| => a[i] - b[i])
  }

  /** The five columns `calculate_macd` adds (pandas' defaults: spans 12,
      26 and 9). */
  function CalculateMacd(xs: seq<real>, short: Span, long: Span, signal: Span): (m: MacdColumns)
    ensures |m.shortEma| == |m.longEma| == |m.macd| == |m.signal| == |m.histogram| == |xs|
    ensures m.shortEma == Ema(xs, short) && m.longEma == Ema(xs, long)
    ensures m.signal == Ema(m.macd, signal)
    ensures forall i :: 0 <= i < |xs| ==> m.macd[i] == m.shortEma[i] - m.longEma[i]
    ensures forall i :: 0 <= i < |xs| ==> m.histogram[i] == m.macd[i] - m.signal[i]
  {
    var shortEma := Ema(xs, short);
    var longEma := Ema(xs, long);
    var macd := Minus(shortEma, longEma);
    var signalLine := Ema(macd, signal);
    MacdColumns(shortEma, longEma, macd, signalLine, Minus(macd, signalLine))
  }

  /** `calculate_macd(df)` called without spans: pandas' usual 12, 26 and 9. */
  function CalculateMacdWithDefaults(xs: seq<real>): MacdColumns {
    CalculateMacd(xs, DEFAULT_SHORT, DEFAULT_LONG, DEFAULT_SIGNAL)
  }

  /** On the first day both EMAs are the price, so MACD, signal line and
      histogram all start at 0. */
  lemma MacdSeed(xs: seq<real>, short: Span, long: Span, signal: Span)
    requires |xs| > 0
    ensures var m := CalculateMacd(xs, short, long, signal);
      m.shortEma[0] == xs[0] && m.longEma[0] == xs[0] &&
      m.macd[0] == 0.0 && m.signal[0] == 0.0 && m.histogram[0] == 0.0
  {
    var m := CalculateMacd(xs, short, long, signal);
    EmaSeed(xs, short);
    EmaSeed(xs, long);
    EmaSeed(m.macd, signal);
  }

  /** A constant price gives MACD, signal line and histogram identically 0. */
  lemma MacdOfConstant(xs: seq<real>, short: Span, long: Span, signal: Span, p: real)
    requires forall k :: 0 <= k < |xs| ==> xs[k] == p
    ensures var m := CalculateMacd(xs, short, long, signal);
      forall i :: 0 <= i < |xs| ==> m.macd[i] == 0.0 && m.signal[i] == 0.0 && m.histogram[i] == 0.0
  {
    var m := CalculateMacd(xs, short, long, signal);
    EmaOfConstant(xs, short, p);
    EmaOfConstant(xs, long, p);
    EmaOfConstant(m.macd, signal, 0.0);
  }

  /** MACD, signal line and histogram do not change when every price is
      shifted by the same amount. */
  lemma MacdIgnoresShift(xs: seq<real>, short: Span, long: Span, signal: Span, c: real)
    ensures var m := CalculateMacd(xs, short, long, signal);
      var n := CalculateMacd(Shifted(xs, c), short, long, signal);
      n.macd == m.macd && n.signal == m.signal && n.histogram == m.histogram
  {
    var m := CalculateMacd(xs, short, long, signal);
    var n := CalculateMacd(Shifted(xs, c), short, long, signal);
    EmaOfShifted(xs, short, c);
    EmaOfShifted(xs, long, c);
    assert n.macd == m.macd;
  }
}
