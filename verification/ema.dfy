/** Exponential moving average as pandas computes it with
    `ewm(span, adjust=False).mean()`: seeded by the first value, then
    y[t] = alpha * x[t] + (1 - alpha) * y[t-1] with alpha = 2 / (span + 1).
    MACD is the 12-period EMA minus the 26-period EMA. */
module Ema {
  import opened Series

  const ShortSpan: nat := 9
  const LongSpan: nat := 50
  const MacdFast: nat := 12
  const MacdSlow: nat := 26

  /** Smoothing factor for a span: a weight in (0, 1]. */
  function Alpha(span: nat): (a: real)
    requires span >= 1
    ensures 0.0 < a <= 1.0
    ensures a * (span as real + 1.0) == 2.0
  {
    2.0 / (span as real + 1.0)
  }

  /** One smoothing step: weight `alpha` on the new value `x`, the rest on
      the previous average `prev`. */
  function Smooth(alpha: real, x: real, prev: real): real
  {
    alpha * x + (1.0 - alpha) * prev
  }

  /** The EMA series of `xs`, defined back to front: the EMA of a series is
      the EMA of its prefix extended by one smoothing step. */
  function Ema(xs: seq<real>, alpha: real): (ys: seq<real>)
    ensures |ys| == |xs|
    ensures |xs| > 0 ==> ys[0] == xs[0]
    decreases |xs|
  {
    if |xs| <= 1 then xs
    else
      var prev := Ema(xs[..|xs| - 1], alpha);
      prev + [Smooth(alpha, xs[|xs| - 1], prev[|xs| - 2])]
  }

  /** The EMA is causal: its first `k` values depend only on the first `k`
      inputs. */
  lemma {:induction false} EmaPrefix(xs: seq<real>, alpha: real, k: nat)
    requires k <= |xs|
    ensures Ema(xs[..k], alpha) == Ema(xs, alpha)[..k]
    decreases |xs|
  {
    if k == |xs| {
      assert xs[..k] == xs;
    } else if |xs| > 1 {
      var pre := xs[..|xs| - 1];
      EmaPrefix(pre, alpha, k);
      assert pre[..k] == xs[..k];
    }
  }

  /** The pandas recurrence, index by index: the first value is the first
      input and every later value is one smoothing step from the previous. */
  lemma EmaRecurrence(xs: seq<real>, alpha: real, i: nat)
    requires 0 < i < |xs|
    ensures Ema(xs, alpha)[i] == Smooth(alpha, xs[i], Ema(xs, alpha)[i - 1])
  {
    EmaPrefix(xs, alpha, i + 1);
    EmaPrefix(xs, alpha, i);
    var p := xs[..i + 1];
    assert p[..|p| - 1] == xs[..i];
    assert Ema(p, alpha)[i] == Smooth(alpha, xs[i], Ema(xs[..i], alpha)[i - 1]);
  }

  /** The streaming computation pandas performs, one smoothing step per
      input; it produces exactly the series `Ema` defines. */
  method ComputeEma(xs: seq<real>, alpha: real) returns (ys: seq<real>)
    ensures ys == Ema(xs, alpha)
  {
    if |xs| == 0 {
      return [];
    }
    ys := [xs[0]];
    var i := 1;
    while i < |xs|
      invariant 1 <= i <= |xs|
      invariant ys == Ema(xs[..i], alpha)
    {
      var p := xs[..i + 1];
      assert p[..|p| - 1] == xs[..i];
      ys := ys + [Smooth(alpha, xs[i], ys[i - 1])];
      i := i + 1;
    }
    assert xs[..i] == xs;
  }

  /** A weighted average of two values in [lo, hi] stays in [lo, hi]. */
  lemma ConvexStep(alpha: real, x: real, y: real, lo: real, hi: real)
    requires 0.0 <= alpha <= 1.0
    requires lo <= x <= hi && lo <= y <= hi
    ensures lo <= Smooth(alpha, x, y) <= hi
  {
    assert alpha * (x - lo) >= 0.0;
    assert (1.0 - alpha) * (y - lo) >= 0.0;
    assert alpha * (hi - x) >= 0.0;
    assert (1.0 - alpha) * (hi - y) >= 0.0;
  }

  /** The last EMA value lies between the smallest and largest input. */
  lemma {:induction false} EmaLastBounded(xs: seq<real>, alpha: real)
    requires 0.0 <= alpha <= 1.0
    requires |xs| > 0
    ensures SeqMin(xs) <= Ema(xs, alpha)[|xs| - 1] <= SeqMax(xs)
    decreases |xs|
  {
    if |xs| > 1 {
      var pre := xs[..|xs| - 1];
      EmaLastBounded(pre, alpha);
      var prev := Ema(pre, alpha)[|xs| - 2];
      var lo, hi := SeqMin(xs), SeqMax(xs);
      assert lo == Min(SeqMin(pre), xs[|xs| - 1]);
      assert hi == Max(SeqMax(pre), xs[|xs| - 1]);
      ConvexStep(alpha, xs[|xs| - 1], prev, lo, hi);
      assert Ema(xs, alpha)[|xs| - 1] == Smooth(alpha, xs[|xs| - 1], prev);
    }
  }

  /** Every EMA value lies between the minimum and maximum of the inputs
      seen so far. */
  lemma EmaBounded(xs: seq<real>, alpha: real, i: nat)
    requires 0.0 <= alpha <= 1.0
    requires i < |xs|
    ensures SeqMin(xs[..i + 1]) <= Ema(xs, alpha)[i] <= SeqMax(xs[..i + 1])
  {
    EmaPrefix(xs, alpha, i + 1);
    EmaLastBounded(xs[..i + 1], alpha);
  }

  predicate Constant(xs: seq<real>, c: real)
  {
    forall j :: 0 <= j < |xs| ==> xs[j] == c
  }

  /** A constant series is its own EMA, whatever the smoothing factor. */
  lemma {:induction false} EmaOfConstant(xs: seq<real>, alpha: real, c: real)
    requires Constant(xs, c)
    ensures Constant(Ema(xs, alpha), c)
    decreases |xs|
  {
    if |xs| > 1 {
      var pre := xs[..|xs| - 1];
      EmaOfConstant(pre, alpha, c);
      assert Ema(pre, alpha)[|xs| - 2] == c;
      assert Smooth(alpha, c, c) == c;
    }
  }

  /** MACD line: fast EMA minus slow EMA, bar by bar. */
  function Macd(closes: seq<real>): (m: seq<real>)
    ensures |m| == |closes|
  {
    var fast := Ema(closes, Alpha(MacdFast));
    var slow := Ema(closes, Alpha(MacdSlow));
    seq(|closes|, i requires 0 <= i < |closes| => fast[i] - slow[i])
  }

  /** On a flat market the two EMAs coincide, so MACD is zero on every bar. */
  lemma MacdOfConstant(closes: seq<real>, c: real)
    requires Constant(closes, c)
    ensures Constant(Macd(closes), 0.0)
  {
    EmaOfConstant(closes, Alpha(MacdFast), c);
    EmaOfConstant(closes, Alpha(MacdSlow), c);
  }

  /** The first MACD value is always zero: both EMAs start at the first close. */
  lemma MacdStartsAtZero(closes: seq<real>)
    requires |closes| > 0
    ensures Macd(closes)[0] == 0.0
  {
  }
}
