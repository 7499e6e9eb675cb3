/**
 * Exponential moving average of the closing prices, as pandas computes
 * `Series.ewm(span=span, adjust=False).mean()`: the first value is the first
 * input, every later value mixes the new input with the previous average.
 */
module Smoothing {

  /** The spans of the fast and the slow average. */
  const FastSpan: nat := 12
  const SlowSpan: nat := 26

  /** The smoothing factor belonging to a span: 2 / (span + 1). */
  function Alpha(span: nat): (alpha: real)
    requires span >= 1
    ensures 0.0 < alpha <= 1.0
    ensures alpha * (span as real + 1.0) == 2.0
  {
    2.0 / (span as real + 1.0)
  }

  /** The recursive average, defined on every prefix of the input. */
  function Ema(xs: seq<real>, alpha: real): (ema: seq<real>)
    ensures |ema| == |xs|
    ensures |xs| > 0 ==> ema[0] == xs[0]
    decreases |xs|
  {
    if |xs| == 0 then []
    else if |xs| == 1 then [xs[0]]
    else
      var prev := Ema(xs[..|xs| - 1], alpha);
      prev + [alpha * xs[|xs| - 1] + (1.0 - alpha) * prev[|xs| - 2]]
  }

  /** The average of a span: `calculate_ema`. */
  function CalculateEma(close: seq<real>, span: nat): (ema: seq<real>)
    requires span >= 1
    ensures |ema| == |close|
    ensures |close| > 0 ==> ema[0] == close[0]
    ensures forall i :: 0 < i < |close| ==> ema[i] == Alpha(span) * close[i] + (1.0 - Alpha(span)) * ema[i - 1]
  {
    var alpha := Alpha(span);
    forall i | 0 < i < |close|
      ensures Ema(close, alpha)[i] == alpha * close[i] + (1.0 - alpha) * Ema(close, alpha)[i - 1]
    {
      EmaRecurrence(close, alpha, i);
    }
    Ema(close, alpha)
  }

  /** The two columns `add_ema` adds beside the closes. */
  datatype Averages = Averages(ema12: seq<real>, ema26: seq<real>)

  function AddEma(close: seq<real>): (avg: Averages)
    ensures |avg.ema12| == |close| && |avg.ema26| == |close|
    ensures avg.ema12 == Ema(close, 2.0 / 13.0) && avg.ema26 == Ema(close, 2.0 / 27.0)
  {
    Averages(CalculateEma(close, FastSpan), CalculateEma(close, SlowSpan))
  }

  /** The recurrence pandas documents for adjust=False, at every index. */
  lemma {:induction false} EmaRecurrence(xs: seq<real>, alpha: real, i: nat)
    requires i < |xs|
    ensures i == 0 ==> Ema(xs, alpha)[0] == xs[0]
    ensures i > 0 ==> Ema(xs, alpha)[i] == alpha * xs[i] + (1.0 - alpha) * Ema(xs, alpha)[i - 1]
    decreases |xs|
  {
    var n := |xs|;
    if n > 1 && i < n - 1 {
      var init := xs[..n - 1];
      EmaRecurrence(init, alpha, i);
      assert Ema(xs, alpha)[..n - 1] == Ema(init, alpha);
      assert init[i] == xs[i];
    }
  }

  /** Every average is a convex mix of inputs, so it stays within their range. */
  lemma {:induction false} EmaWithinRange(xs: seq<real>, alpha: real, lo: real, hi: real)
    requires 0.0 <= alpha <= 1.0
    requires forall k :: 0 <= k < |xs| ==> lo <= xs[k] <= hi
    ensures forall k :: 0 <= k < |xs| ==> lo <= Ema(xs, alpha)[k] <= hi
    decreases |xs|
  {
    var n := |xs|;
    if n > 1 {
      var init := xs[..n - 1];
      EmaWithinRange(init, alpha, lo, hi);
      var prev := Ema(init, alpha);
      assert Ema(xs, alpha)[..n - 1] == prev;
      assert Ema(xs, alpha)[n - 1] == alpha * xs[n - 1] + (1.0 - alpha) * prev[n - 2];
      MixWithinRange(alpha, xs[n - 1], prev[n - 2], lo, hi);
    }
  }

  lemma MixWithinRange(alpha: real, x: real, y: real, lo: real, hi: real)
    requires 0.0 <= alpha <= 1.0 && lo <= x <= hi && lo <= y <= hi
    ensures lo <= alpha * x + (1.0 - alpha) * y <= hi
  {
    NonNegativeProduct(alpha, x - lo);
    NonNegativeProduct(1.0 - alpha, y - lo);
    NonNegativeProduct(alpha, hi - x);
    NonNegativeProduct(1.0 - alpha, hi - y);
    assert alpha * x + (1.0 - alpha) * y - lo == alpha * (x - lo) + (1.0 - alpha) * (y - lo);
    assert hi - (alpha * x + (1.0 - alpha) * y) == alpha * (hi - x) + (1.0 - alpha) * (hi - y);
  }

  lemma NonNegativeProduct(a: real, b: real)
    requires a >= 0.0 && b >= 0.0
    ensures a * b >= 0.0
  {
  }

  /** A constant series is its own average, for any span. */
  lemma EmaOfConstant(xs: seq<real>, alpha: real, c: real)
    requires 0.0 <= alpha <= 1.0
    requires forall k :: 0 <= k < |xs| ==> xs[k] == c
    ensures forall k :: 0 <= k < |xs| ==> Ema(xs, alpha)[k] == c
  {
    EmaWithinRange(xs, alpha, c, c);
  }
}
