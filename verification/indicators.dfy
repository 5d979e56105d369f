/** The per-bar indicator table of the screener: EMAs, RSI, high-low ATR,
    volatility, MACD and score for every candle, followed by `dropna`, which
    keeps only the bars on which every indicator is defined. */
module Indicators {
  import opened Wrappers
  import opened Series
  import opened Ema
  import opened Rsi
  import opened Scoring

  const AtrPeriod: nat := 14

  /** One price candle; the timestamp plays no part in the computation. */
  datatype Candle = Candle(open: real, high: real, low: real, close: real, volume: real)

  /** Exchange candles have positive closing prices. */
  predicate WellFormed(candles: seq<Candle>)
  {
    forall i :: 0 <= i < |candles| ==> candles[i].close > 0.0
  }

  /** A downloaded candle series (possibly empty). */
  type Candles = cs: seq<Candle> | WellFormed(cs) witness []

  function Closes(candles: seq<Candle>): (cs: seq<real>)
    ensures |cs| == |candles|
    ensures forall i :: 0 <= i < |candles| ==> cs[i] == candles[i].close
  {
    seq(|candles|, i requires 0 <= i < |candles| => candles[i].close)
  }

  /** High minus low of every candle; no previous-close term. */
  function Ranges(candles: seq<Candle>): (rs: seq<real>)
    ensures |rs| == |candles|
    ensures forall i :: 0 <= i < |candles| ==> rs[i] == candles[i].high - candles[i].low
  {
    seq(|candles|, i requires 0 <= i < |candles| => candles[i].high - candles[i].low)
  }

  /** ATR: 14-bar mean of the high-low range, undefined during warm-up. */
  function Atr(candles: seq<Candle>, i: nat): (a: Option<real>)
    requires i < |candles|
    ensures a.Some? <==> AtrPeriod <= i + 1
    ensures a.Some? ==> a.value * (AtrPeriod as real) == Sum(Window(Ranges(candles), AtrPeriod, i))
  {
    RollingMean(Ranges(candles), AtrPeriod, i)
  }

  /** ATR relative to the close. */
  function Volatility(candles: seq<Candle>, i: nat): (v: Option<real>)
    requires WellFormed(candles) && i < |candles|
    ensures v.Some? <==> Atr(candles, i).Some?
    ensures v.Some? ==> v.value * candles[i].close == Atr(candles, i).value
  {
    var atr := Atr(candles, i);
    if atr.None? then None else Some(atr.value / candles[i].close)
  }

  /** Indicator values of one bar before `dropna`. */
  datatype Bar = Bar(close: real, volume: real, emaShort: real, emaLong: real,
                     rsi: Option<real>, atr: Option<real>, volatility: Option<real>,
                     macd: real, score: real)

  /** Bar `i` of the indicator table. Its score lies in [0, 6], and it
      reaches the alert level exactly when RSI is defined and below 50, the
      short EMA is above the long one and MACD is positive. */
  function BarAt(candles: seq<Candle>, i: nat): (b: Bar)
    requires WellFormed(candles) && i < |candles|
    ensures b.close == candles[i].close > 0.0
    ensures b.rsi.Some? ==> 0.0 <= b.rsi.value <= 100.0
    ensures b.atr.Some? <==> b.volatility.Some?
    ensures 0.0 <= b.score <= 6.0
    ensures Alerts(b.score) <==>
      b.rsi.Some? && b.rsi.value < RsiCeiling && b.emaShort > b.emaLong && b.macd > 0.0
  {
    var closes := Closes(candles);
    var emaShort := Ema.Ema(closes, Alpha(ShortSpan))[i];
    var emaLong := Ema.Ema(closes, Alpha(LongSpan))[i];
    var rsi := Rsi.Rsi(closes, i);
    var volatility := Volatility(candles, i);
    var macd := Macd(closes)[i];
    AlertIffTrendSignals(CriteriaOf(rsi, emaShort, emaLong, volatility, macd));
    Bar(candles[i].close, candles[i].volume, emaShort, emaLong, rsi, Atr(candles, i),
        volatility, macd, Score(CriteriaOf(rsi, emaShort, emaLong, volatility, macd)))
  }

  /** The indicator table, one bar per candle. */
  function Bars(candles: seq<Candle>): (bars: seq<Bar>)
    requires WellFormed(candles)
    ensures |bars| == |candles|
    ensures forall i :: 0 <= i < |candles| ==> bars[i] == BarAt(candles, i)
  {
    seq(|candles|, i requires 0 <= i < |candles| => BarAt(candles, i))
  }

  /** A bar with no NaN cell. */
  predicate Complete(b: Bar)
  {
    b.rsi.Some? && b.atr.Some? && b.volatility.Some?
  }

  /** A bar that survived `dropna`: every indicator is a number. */
  datatype Row = Row(close: real, volume: real, emaShort: real, emaLong: real,
                     rsi: real, atr: real, volatility: real, macd: real, score: real)

  function ToRow(b: Bar): Row
    requires Complete(b)
  {
    Row(b.close, b.volume, b.emaShort, b.emaLong, b.rsi.value, b.atr.value,
        b.volatility.value, b.macd, b.score)
  }

  /** `dropna`: the complete bars, in their original order. */
  function DropNa(bars: seq<Bar>): (rows: seq<Row>)
    ensures |rows| <= |bars|
    ensures forall k :: 0 <= k < |rows| ==>
      exists i :: 0 <= i < |bars| && Complete(bars[i]) && rows[k] == ToRow(bars[i])
    ensures forall i :: 0 <= i < |bars| && Complete(bars[i]) ==> ToRow(bars[i]) in rows
    ensures rows == [] <==> forall i :: 0 <= i < |bars| ==> !Complete(bars[i])
    ensures (forall i :: 0 <= i < |bars| ==> bars[i].close > 0.0) ==>
      forall k :: 0 <= k < |rows| ==> rows[k].close > 0.0
  {
    if |bars| == 0 then []
    else
      var rest := DropNa(bars[1..]);
      assert forall i :: 1 <= i < |bars| ==> bars[i] == bars[1..][i - 1];
      (if Complete(bars[0]) then [ToRow(bars[0])] else []) + rest
  }

  /** `dropna` keeps the order of the table: it distributes over
      concatenation. */
  lemma {:induction false} DropNaAppend(a: seq<Bar>, b: seq<Bar>)
    ensures DropNa(a + b) == DropNa(a) + DropNa(b)
    decreases |a|
  {
    if |a| > 0 {
      assert (a + b)[1..] == a[1..] + b;
      DropNaAppend(a[1..], b);
    } else {
      assert a + b == b;
    }
  }

  /** The rows after `calculate_indicators`. */
  function CalculateIndicators(candles: seq<Candle>): (rows: seq<Row>)
    requires WellFormed(candles)
    ensures |rows| <= |candles|
    ensures forall k :: 0 <= k < |rows| ==> rows[k].close > 0.0
    ensures forall k :: 0 <= k < |rows| ==>
      exists i :: 0 <= i < |candles| && Complete(BarAt(candles, i)) && rows[k] == ToRow(BarAt(candles, i))
    ensures forall i :: 0 <= i < |candles| && Complete(BarAt(candles, i)) ==> ToRow(BarAt(candles, i)) in rows
  {
    DropNa(Bars(candles))
  }

  /** A bar survives `dropna` exactly when its 14-bar warm-up is over and its
      window is not entirely unmoved (an unmoved window makes RSI 0/0). */
  lemma CompleteIff(candles: seq<Candle>, i: nat)
    requires WellFormed(candles) && i < |candles|
    ensures Complete(BarAt(candles, i)) <==>
      Period <= i + 1 && !FlatWindow(Closes(candles), i)
  {
    RsiUndefinedIffFlat(Closes(candles), i);
  }

  /** Every row left by `dropna` carries a positive close, and its score is
      the weighted score of its own indicator values. */
  lemma RowsAreConsistent(candles: seq<Candle>, k: nat)
    requires WellFormed(candles)
    requires k < |CalculateIndicators(candles)|
    ensures CalculateIndicators(candles)[k].close > 0.0
    ensures var r := CalculateIndicators(candles)[k];
      r.score == Score(Criteria(r.rsi < RsiCeiling, r.emaShort > r.emaLong,
                                r.volatility < VolaThreshold, r.macd > 0.0))
  {
    var bars := Bars(candles);
    var i :| 0 <= i < |bars| && Complete(bars[i]) && CalculateIndicators(candles)[k] == ToRow(bars[i]);
    assert bars[i] == BarAt(candles, i);
  }

  /** With fewer than 14 candles no bar ever finishes its warm-up, so
      `dropna` leaves nothing. */
  lemma ShortHistoryLeavesNoRows(candles: seq<Candle>)
    requires WellFormed(candles)
    requires |candles| < Period
    ensures CalculateIndicators(candles) == []
  {
    var bars := Bars(candles);
    forall i | 0 <= i < |bars| ensures !Complete(bars[i]) {
      CompleteIff(candles, i);
    }
    assert CalculateIndicators(candles) == DropNa(bars);
  }

  /** On a series whose close never moves RSI is 0/0 on every bar, so
      `dropna` leaves nothing, however long the series. */
  lemma ConstantCloseLeavesNoRows(candles: seq<Candle>, c: real)
    requires WellFormed(candles)
    requires forall i :: 0 <= i < |candles| ==> candles[i].close == c
    ensures CalculateIndicators(candles) == []
  {
    var closes := Closes(candles);
    var bars := Bars(candles);
    forall i | 0 <= i < |bars| ensures !Complete(bars[i]) {
      CompleteIff(candles, i);
      if Period <= i + 1 {
        forall j | i + 1 - Period <= j <= i ensures Unmoved(closes, j) {
          assert closes[j] == c;
        }
      }
    }
    assert CalculateIndicators(candles) == DropNa(bars);
  }
}
