/** Relative strength index as the screener computes it: gains and losses of
    the close-to-close change, their 14-bar simple means, and
    RSI = 100 - 100 / (1 + gain / loss) with IEEE semantics for a zero loss
    (a positive gain over a zero loss saturates at 100, zero over zero is
    undefined). */
module Rsi {
  import opened Wrappers
  import opened Series

  const Period: nat := 14

  /** Upward part of each close-to-close change. The first bar has no
      predecessor; its change is NaN, which `where(delta > 0, 0)` replaces
      by 0. */
  function Gains(closes: seq<real>): (g: seq<real>)
    ensures |g| == |closes|
    ensures AllNonNegative(g)
  {
    seq(|closes|, i requires 0 <= i < |closes| =>
      if i == 0 then 0.0
      else if closes[i] - closes[i - 1] > 0.0 then closes[i] - closes[i - 1]
      else 0.0)
  }

  /** Downward part of each close-to-close change, as a non-negative amount;
      the first bar again counts as 0. */
  function Losses(closes: seq<real>): (l: seq<real>)
    ensures |l| == |closes|
    ensures AllNonNegative(l)
  {
    seq(|closes|, i requires 0 <= i < |closes| =>
      if i == 0 then 0.0
      else if closes[i] - closes[i - 1] < 0.0 then -(closes[i] - closes[i - 1])
      else 0.0)
  }

  /** A bar whose close did not move (the first bar counts as unmoved). */
  predicate Unmoved(closes: seq<real>, j: nat)
    requires j < |closes|
  {
    j == 0 || closes[j] == closes[j - 1]
  }

  /** Gain and loss split the change: their difference is the change, at
      most one of them is non-zero, and both vanish exactly on an unmoved
      bar. */
  lemma GainLossSplit(closes: seq<real>, i: nat)
    requires i < |closes|
    ensures 0 < i ==> Gains(closes)[i] - Losses(closes)[i] == closes[i] - closes[i - 1]
    ensures Gains(closes)[i] == 0.0 || Losses(closes)[i] == 0.0
    ensures Gains(closes)[i] == 0.0 && Losses(closes)[i] == 0.0 <==> Unmoved(closes, i)
  {
  }

  /** RSI from the two averages. `rs = gain / loss`; when the loss is zero
      the float division gives +inf (RSI 100) for a positive gain and NaN
      for a zero gain. The result is the familiar 100 * gain / (gain + loss)
      whenever it is defined. */
  function RsiFromAverages(avgGain: real, avgLoss: real): (r: Option<real>)
    requires avgGain >= 0.0 && avgLoss >= 0.0
    ensures r.None? <==> avgGain == 0.0 && avgLoss == 0.0
    ensures r.Some? ==> 0.0 <= r.value <= 100.0
    ensures r.Some? ==> r.value * (avgGain + avgLoss) == 100.0 * avgGain
  {
    if avgLoss > 0.0 then
      var rs := avgGain / avgLoss;
      var q := 100.0 / (1.0 + rs);
      assert rs * avgLoss == avgGain;
      assert q * (1.0 + rs) == 100.0;
      assert 0.0 < q <= 100.0 by {
        assert q * 1.0 <= q * (1.0 + rs);
      }
      assert (100.0 - q) * (avgGain + avgLoss) == 100.0 * avgGain by {
        assert avgGain + avgLoss == avgLoss * (1.0 + rs);
        assert q * (avgGain + avgLoss) == q * (1.0 + rs) * avgLoss;
      }
      Some(100.0 - q)
    else if avgGain > 0.0 then Some(100.0)
    else None
  }

  /** RSI of bar `i`: undefined during the 13-bar warm-up of the rolling
      means, and where both averages are zero. */
  function Rsi(closes: seq<real>, i: nat): (r: Option<real>)
    requires i < |closes|
    ensures r.Some? ==> Period <= i + 1 && 0.0 <= r.value <= 100.0
  {
    var g := RollingMean(Gains(closes), Period, i);
    var l := RollingMean(Losses(closes), Period, i);
    if g.None? || l.None? then None
    else
      WindowNonNegative(Gains(closes), Period, i);
      WindowNonNegative(Losses(closes), Period, i);
      RollingMeanZeroIffWindowZero(Gains(closes), Period, i);
      RollingMeanZeroIffWindowZero(Losses(closes), Period, i);
      RsiFromAverages(g.value, l.value)
  }

  lemma WindowNonNegative(xs: seq<real>, w: nat, i: nat)
    requires 0 < w <= i + 1 <= |xs|
    requires AllNonNegative(xs)
    ensures AllNonNegative(Window(xs, w, i))
  {
    forall j | 0 <= j < w ensures Window(xs, w, i)[j] >= 0.0 {
      assert Window(xs, w, i)[j] == xs[i + 1 - w + j];
    }
  }

  /** Wherever RSI is defined it lies in [0, 100]. */
  lemma RsiInRange(closes: seq<real>, i: nat)
    requires i < |closes|
    requires Rsi(closes, i).Some?
    ensures 0.0 <= Rsi(closes, i).value <= 100.0
  {
  }

  /** Every bar of the 14-bar window ending at `i` is unmoved. */
  predicate FlatWindow(closes: seq<real>, i: nat)
    requires Period <= i + 1 <= |closes|
  {
    forall j :: i + 1 - Period <= j <= i ==> Unmoved(closes, j)
  }

  /** A window is flat exactly when its gains and its losses are all zero. */
  lemma FlatWindowIffNoGainNoLoss(closes: seq<real>, i: nat)
    requires Period <= i + 1 <= |closes|
    ensures FlatWindow(closes, i) <==>
      AllZero(Window(Gains(closes), Period, i)) && AllZero(Window(Losses(closes), Period, i))
  {
    if FlatWindow(closes, i) {
      FlatWindowHasNoGainNoLoss(closes, i);
    }
    if AllZero(Window(Gains(closes), Period, i)) && AllZero(Window(Losses(closes), Period, i)) {
      NoGainNoLossIsFlat(closes, i);
    }
  }

  lemma FlatWindowHasNoGainNoLoss(closes: seq<real>, i: nat)
    requires Period <= i + 1 <= |closes|
    requires FlatWindow(closes, i)
    ensures AllZero(Window(Gains(closes), Period, i))
    ensures AllZero(Window(Losses(closes), Period, i))
  {
    var g := Gains(closes);
    var l := Losses(closes);
    forall k | 0 <= k < Period
      ensures Window(g, Period, i)[k] == 0.0 && Window(l, Period, i)[k] == 0.0
    {
      var j := i + 1 - Period + k;
      assert Window(g, Period, i)[k] == g[j];
      assert Window(l, Period, i)[k] == l[j];
      assert Unmoved(closes, j);
      GainLossSplit(closes, j);
    }
  }

  lemma NoGainNoLossIsFlat(closes: seq<real>, i: nat)
    requires Period <= i + 1 <= |closes|
    requires AllZero(Window(Gains(closes), Period, i))
    requires AllZero(Window(Losses(closes), Period, i))
    ensures FlatWindow(closes, i)
  {
    var g := Gains(closes);
    var l := Losses(closes);
    forall j | i + 1 - Period <= j <= i ensures Unmoved(closes, j) {
      var k := j - (i + 1 - Period);
      assert Window(g, Period, i)[k] == g[j] == 0.0;
      assert Window(l, Period, i)[k] == l[j] == 0.0;
      GainLossSplit(closes, j);
    }
  }

  /** RSI is undefined exactly during the warm-up and on bars whose whole
      14-bar window is unmoved (zero average gain over zero average loss). */
  lemma RsiUndefinedIffFlat(closes: seq<real>, i: nat)
    requires i < |closes|
    ensures Rsi(closes, i).None? <==> i + 1 < Period || FlatWindow(closes, i)
  {
    if i + 1 >= Period {
      WindowNonNegative(Gains(closes), Period, i);
      WindowNonNegative(Losses(closes), Period, i);
      RollingMeanZeroIffWindowZero(Gains(closes), Period, i);
      RollingMeanZeroIffWindowZero(Losses(closes), Period, i);
      FlatWindowIffNoGainNoLoss(closes, i);
    }
  }

  predicate StrictlyIncreasing(closes: seq<real>)
  {
    forall j :: 0 < j < |closes| ==> closes[j - 1] < closes[j]
  }

  predicate StrictlyDecreasing(closes: seq<real>)
  {
    forall j :: 0 < j < |closes| ==> closes[j - 1] > closes[j]
  }

  /** On a strictly rising series there are no losses, so once the warm-up
      is over RSI saturates at exactly 100. */
  lemma RsiOfRisingSeries(closes: seq<real>, i: nat)
    requires StrictlyIncreasing(closes)
    requires Period - 1 <= i < |closes|
    ensures Rsi(closes, i) == Some(100.0)
  {
    var gw := Window(Gains(closes), Period, i);
    var lw := Window(Losses(closes), Period, i);
    WindowNonNegative(Gains(closes), Period, i);
    WindowNonNegative(Losses(closes), Period, i);
    RollingMeanZeroIffWindowZero(Gains(closes), Period, i);
    RollingMeanZeroIffWindowZero(Losses(closes), Period, i);
    forall k | 0 <= k < Period ensures lw[k] == 0.0 {
      assert lw[k] == Losses(closes)[i + 1 - Period + k];
    }
    assert gw[Period - 1] == Gains(closes)[i] > 0.0;
  }

  /** On a strictly falling series there are no gains, so once the warm-up
      is over RSI is exactly 0. */
  lemma RsiOfFallingSeries(closes: seq<real>, i: nat)
    requires StrictlyDecreasing(closes)
    requires Period - 1 <= i < |closes|
    ensures Rsi(closes, i) == Some(0.0)
  {
    var gw := Window(Gains(closes), Period, i);
    var lw := Window(Losses(closes), Period, i);
    WindowNonNegative(Gains(closes), Period, i);
    WindowNonNegative(Losses(closes), Period, i);
    RollingMeanZeroIffWindowZero(Gains(closes), Period, i);
    RollingMeanZeroIffWindowZero(Losses(closes), Period, i);
    forall k | 0 <= k < Period ensures gw[k] == 0.0 {
      assert gw[k] == Gains(closes)[i + 1 - Period + k];
    }
    assert lw[Period - 1] == Losses(closes)[i] > 0.0;
  }
}
