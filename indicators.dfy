/** The technical indicators of `predict_next_trading_day_price`, each the
    value its pandas expression takes at the last row (`.iloc[-1]`) of a
    history that has no missing cells. None stands for the NaN pandas gives
    while a rolling window is not yet full. Line numbers refer to
    predict_next_trading_day_price.py. */
module Indicators {
  import opened Values

  const RsiWindow: nat := 14
  const AtrWindow: nat := 14
  const FastSpan: nat := 12
  const SlowSpan: nat := 26

  /** `xs.rolling(window=k).mean().iloc[-1]`: the mean of the last k values,
      NaN while fewer than k values exist. */
  function RollingMeanLast(xs: seq<real>, k: nat): (r: Option<real>)
    requires k > 0
    ensures r.Some? <==> |xs| >= k
  {
    if |xs| < k then None else Some(Mean(xs[|xs| - k..]))
  }

  /** The rolling mean lies between the least and the greatest value of its window. */
  lemma RollingMeanBetween(xs: seq<real>, k: nat, lo: real, hi: real)
    requires 0 < k <= |xs|
    requires forall i :: |xs| - k <= i < |xs| ==> lo <= xs[i] <= hi
    ensures lo <= RollingMeanLast(xs, k).value <= hi
  {
    var w := xs[|xs| - k..];
    assert forall j :: 0 <= j < |w| ==> w[j] == xs[|xs| - k + j];
    MeanAtLeast(w, lo);
    MeanAtMost(w, hi);
  }

  lemma RollingMeanAtLeast(xs: seq<real>, k: nat, lo: real)
    requires 0 < k <= |xs|
    requires forall i :: 0 <= i < |xs| ==> lo <= xs[i]
    ensures lo <= RollingMeanLast(xs, k).value
  {
    var w := xs[|xs| - k..];
    assert forall j :: 0 <= j < |w| ==> w[j] == xs[|xs| - k + j];
    MeanAtLeast(w, lo);
  }

  // ---------------------------------------------------------------- RSI

  /** `delta.where(delta > 0, 0)` with `delta = closes.diff()`: the rise from
      the previous close, 0 for a fall and for the first row (whose NaN delta
      fails the comparison). */
  function Gains(closes: seq<real>): (r: seq<real>)
    ensures |r| == |closes|
    ensures forall t :: 0 <= t < |r| ==> r[t] >= 0.0
    ensures |r| > 0 ==> r[0] == 0.0
  {
    seq(|closes|, t requires 0 <= t < |closes| =>
      if t > 0 && closes[t] - closes[t - 1] > 0.0 then closes[t] - closes[t - 1] else 0.0)
  }

  /** `-delta.where(delta < 0, 0)`: the size of the fall from the previous
      close, 0 for a rise and for the first row. */
  function Losses(closes: seq<real>): (r: seq<real>)
    ensures |r| == |closes|
    ensures forall t :: 0 <= t < |r| ==> r[t] >= 0.0
    ensures |r| > 0 ==> r[0] == 0.0
  {
    seq(|closes|, t requires 0 <= t < |closes| =>
      if t > 0 && closes[t] - closes[t - 1] < 0.0 then closes[t - 1] - closes[t] else 0.0)
  }

  /** Gains and losses split each row's change: from the second row on, the
      gain minus the loss is the change of the close and one of the two is 0. */
  lemma GainsLossesSplitChange(closes: seq<real>, t: nat)
    requires t < |closes|
    ensures t == 0 ==> Gains(closes)[t] == 0.0 && Losses(closes)[t] == 0.0
    ensures t > 0 ==> Gains(closes)[t] - Losses(closes)[t] == closes[t] - closes[t - 1]
    ensures Gains(closes)[t] == 0.0 || Losses(closes)[t] == 0.0
  {
  }

  /** The 14-row average of the gains (line 96). */
  function AverageGain(closes: seq<real>): (r: Option<real>)
    ensures r.Some? <==> |closes| >= RsiWindow
  {
    RollingMeanLast(Gains(closes), RsiWindow)
  }

  /** The 14-row average of the losses (line 97). */
  function AverageLoss(closes: seq<real>): (r: Option<real>)
    ensures r.Some? <==> |closes| >= RsiWindow
  {
    RollingMeanLast(Losses(closes), RsiWindow)
  }

  /** Lines 95-99. `rs` is 0 when the average loss is 0, and the RSI then
      comes out as 100 - 100 / 1 = 0; otherwise it lies in [0, 100). */
  function Rsi(closes: seq<real>): (r: Option<real>)
    ensures r.Some? <==> |closes| >= RsiWindow
    ensures r.Some? ==> 0.0 <= r.value < 100.0
    ensures r.Some? && AverageLoss(closes) == Some(0.0) ==> r.value == 0.0
  {
    var gain := AverageGain(closes);
    var loss := AverageLoss(closes);
    if gain.None? || loss.None? then None
    else
      RollingMeanAtLeast(Gains(closes), RsiWindow, 0.0);
      RollingMeanAtLeast(Losses(closes), RsiWindow, 0.0);
      var rs := if loss.value != 0.0 then gain.value / loss.value else 0.0;
      RsiRange(rs);
      Some(100.0 - 100.0 / (1.0 + rs))
  }

  lemma RsiRange(rs: real)
    requires rs >= 0.0
    ensures 0.0 <= 100.0 - 100.0 / (1.0 + rs) < 100.0
  {
    var q := 100.0 / (1.0 + rs);
    assert q * (1.0 + rs) == 100.0;
  }

  /** With a positive average loss the RSI is at least 50 exactly when the
      average gain is at least the average loss. */
  lemma RsiAtLeastFiftyIffGainsDominate(closes: seq<real>)
    requires |closes| >= RsiWindow && AverageLoss(closes).value > 0.0
    ensures Rsi(closes).value >= 50.0 <==> AverageGain(closes).value >= AverageLoss(closes).value
  {
    var g, l := AverageGain(closes).value, AverageLoss(closes).value;
    RollingMeanAtLeast(Gains(closes), RsiWindow, 0.0);
    var rs := g / l;
    assert rs * l == g;
    assert rs >= 0.0;
    var q := 100.0 / (1.0 + rs);
    assert q * (1.0 + rs) == 100.0;
    assert Rsi(closes).value == 100.0 - q;
    if g >= l {
      QuotientAtLeastOne(g, l);
      assert q <= 50.0;
    } else {
      QuotientBelowOne(g, l);
      assert q > 50.0;
    }
  }

  lemma QuotientBelowOne(g: real, l: real)
    requires l > 0.0 && g < l
    ensures g / l < 1.0
  {
  }

  lemma QuotientAtLeastOne(g: real, l: real)
    requires l > 0.0 && g >= l
    ensures g / l >= 1.0
  {
  }

  /** When no close in the 14-row window falls, the code's RSI is 0 (a
      textbook RSI would be 100): the zero-loss rule at work. */
  lemma RsiOfNonFallingWindowIsZero(closes: seq<real>)
    requires |closes| >= RsiWindow
    requires forall t :: |closes| - RsiWindow <= t < |closes| && t > 0 ==> closes[t - 1] <= closes[t]
    ensures Rsi(closes) == Some(0.0)
  {
    var ls := Losses(closes);
    forall i | |ls| - RsiWindow <= i < |ls|
      ensures 0.0 <= ls[i] <= 0.0
    {
    }
    RollingMeanBetween(ls, RsiWindow, 0.0, 0.0);
  }

  // ---------------------------------------------------------------- MACD

  /** `2 / (span + 1)`, the smoothing factor `ewm(span=...)` uses. */
  function SpanAlpha(span: nat): (a: real)
    requires span >= 1
    ensures 0.0 < a <= 1.0
  {
    2.0 / (span as real + 1.0)
  }

  /** `xs.ewm(alpha=a, adjust=False).mean().iloc[-1]`: the first value starts
      the average and each later value x moves it to `a * x + (1 - a) * previous`. */
  function Ema(xs: seq<real>, alpha: real): real
    requires |xs| > 0
    decreases |xs|
  {
    if |xs| == 1 then xs[0]
    else alpha * xs[|xs| - 1] + (1.0 - alpha) * Ema(xs[..|xs| - 1], alpha)
  }

  /** The average never leaves the range of the values it averages. */
  lemma {:induction false} EmaBetween(xs: seq<real>, alpha: real, lo: real, hi: real)
    requires |xs| > 0 && 0.0 < alpha <= 1.0
    requires forall i :: 0 <= i < |xs| ==> lo <= xs[i] <= hi
    ensures lo <= Ema(xs, alpha) <= hi
    decreases |xs|
  {
    if |xs| > 1 {
      var prev := xs[..|xs| - 1];
      EmaBetween(prev, alpha, lo, hi);
      var e, x := Ema(prev, alpha), xs[|xs| - 1];
      ConvexBetween(alpha, x, e, lo, hi);
    }
  }

  lemma ConvexBetween(a: real, x: real, e: real, lo: real, hi: real)
    requires 0.0 < a <= 1.0 && lo <= x <= hi && lo <= e <= hi
    ensures lo <= a * x + (1.0 - a) * e <= hi
  {
    MulNonneg(a, x - lo);
    MulNonneg(1.0 - a, e - lo);
    MulNonneg(a, hi - x);
    MulNonneg(1.0 - a, hi - e);
  }

  /** `ema_12 - ema_26` (line 104); no signal line. */
  function Macd(closes: seq<real>): real
    requires |closes| > 0
  {
    Ema(closes, SpanAlpha(FastSpan)) - Ema(closes, SpanAlpha(SlowSpan))
  }

  /** The MACD is never wider than the range of the closes... */
  lemma MacdWithinRange(closes: seq<real>, lo: real, hi: real)
    requires |closes| > 0
    requires forall i :: 0 <= i < |closes| ==> lo <= closes[i] <= hi
    ensures -(hi - lo) <= Macd(closes) <= hi - lo
  {
    EmaBetween(closes, SpanAlpha(FastSpan), lo, hi);
    EmaBetween(closes, SpanAlpha(SlowSpan), lo, hi);
  }

  /** ... so a constant close series has MACD 0. */
  lemma MacdOfConstantIsZero(closes: seq<real>, v: real)
    requires |closes| > 0
    requires forall i :: 0 <= i < |closes| ==> closes[i] == v
    ensures Macd(closes) == 0.0
  {
    MacdWithinRange(closes, v, v);
  }

  // ---------------------------------------------------------------- ATR

  /** One row of `high_low.combine(high_close, max).combine(low_close, max)`.
      `prevClose` is the shifted close, None (NaN) at the first row, where
      Python's `max` keeps high - low. */
  function TrueRange(high: real, low: real, prevClose: Option<real>): (r: real)
    ensures r >= high - low
    ensures prevClose.Some? ==> r >= Abs(high - prevClose.value) && r >= Abs(low - prevClose.value)
    ensures r == high - low
         || (prevClose.Some? && (r == Abs(high - prevClose.value) || r == Abs(low - prevClose.value)))
  {
    var highClose := if prevClose.Some? then Some(Abs(high - prevClose.value)) else None;
    var lowClose := if prevClose.Some? then Some(Abs(low - prevClose.value)) else None;
    PyMax(PyMax(high - low, highClose), lowClose)
  }

  function TrueRanges(highs: seq<real>, lows: seq<real>, closes: seq<real>): (r: seq<real>)
    requires |highs| == |lows| == |closes|
    ensures |r| == |closes|
    ensures |r| > 0 ==> r[0] == highs[0] - lows[0]
    ensures forall t {:trigger r[t]} :: 0 < t < |r| ==> r[t] == TrueRange(highs[t], lows[t], Some(closes[t - 1]))
  {
    seq(|closes|, t requires 0 <= t < |closes| =>
      TrueRange(highs[t], lows[t], if t == 0 then None else Some(closes[t - 1])))
  }

  /** Line 113: the mean of the last 14 true ranges. */
  function Atr(highs: seq<real>, lows: seq<real>, closes: seq<real>): (r: Option<real>)
    requires |highs| == |lows| == |closes|
    ensures r.Some? <==> |closes| >= AtrWindow
  {
    RollingMeanLast(TrueRanges(highs, lows, closes), AtrWindow)
  }

  /** The ATR is not negative when no row's high is below its low. */
  lemma AtrNonNegative(highs: seq<real>, lows: seq<real>, closes: seq<real>)
    requires |highs| == |lows| == |closes| >= AtrWindow
    requires forall t :: 0 <= t < |closes| ==> lows[t] <= highs[t]
    ensures Atr(highs, lows, closes).value >= 0.0
  {
    RollingMeanAtLeast(TrueRanges(highs, lows, closes), AtrWindow, 0.0);
  }
}
