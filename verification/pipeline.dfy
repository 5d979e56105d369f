/** The per-pair decision of `analyze_pair` and `calculate_potential`.
    The square root inside the Bollinger standard deviation is a parameter
    (`sqrt`). */
module Pipeline {
  import opened Wrappers
  import opened Series
  import opened Tiers
  import opened Scoring
  import opened Indicators

  const PumpLimit: real := 0.10
  const PumpBars: nat := 5
  const VolatilityFloor: real := 0.005
  const BandWindow: nat := 20

  /** The record reported for an accepted pair. `potential` is None where
      the Bollinger band is still NaN. */
  datatype Opportunity = Opportunity(symbol: string, quote: real, rsi: real, macd: real,
                                     score: real, volume: VolumeTier, potential: Option<real>)

  /** `iloc[-1]` on an empty table raises IndexError. */
  datatype ScanError = IndexError

  predicate PositivePrices(closes: seq<real>)
  {
    forall j :: 0 <= j < |closes| ==> closes[j] > 0.0
  }

  function RowCloses(rows: seq<Row>): (cs: seq<real>)
    ensures |cs| == |rows|
    ensures forall k :: 0 <= k < |rows| ==> cs[k] == rows[k].close
  {
    seq(|rows|, k requires 0 <= k < |rows| => rows[k].close)
  }

  function PctChange(prev: real, cur: real): real
    requires prev > 0.0
  {
    cur / prev - 1.0
  }

  /** The non-NaN values among the last five of `pct_change`: the first row
      has no predecessor, so a table of at most five rows contributes one
      change fewer than its length. Changes are taken between consecutive
      rows of the table after `dropna`. */
  function RecentChanges(closes: seq<real>): (ch: seq<real>)
    requires PositivePrices(closes)
    ensures |ch| == if |closes| > PumpBars then PumpBars else if |closes| > 0 then |closes| - 1 else 0
    ensures forall k :: 0 <= k < |ch| ==>
      ch[k] == PctChange(closes[|closes| - |ch| + k - 1], closes[|closes| - |ch| + k])
  {
    var n := |closes|;
    if n <= 1 then []
    else
      var start := if n > PumpBars then n - PumpBars else 1;
      seq(n - start, k requires 0 <= k < n - start => PctChange(closes[start + k - 1], closes[start + k]))
  }

  /** `pct_change().tail(5).sum()`, NaN skipped. */
  /** Sum of the recent changes; pandas sums an empty column to 0, so a
      table of at most one row never trips the pump filter. */
  function PumpSum(closes: seq<real>): (s: real)
    requires PositivePrices(closes)
    ensures |closes| <= 1 ==> s == 0.0
  {
    Sum(RecentChanges(closes))
  }

  /** A positive percent change is a rise. */
  lemma RisingChange(prev: real, cur: real)
    requires prev > 0.0
    requires PctChange(prev, cur) > 0.0
    ensures cur > prev
  {
    var q := cur / prev;
    assert q * prev == cur;
    assert (q - 1.0) * prev > 0.0;
  }

  /** Only a rise can trip the pump filter: if no close in the last five
      changes went up, the sum is at most 0. */
  lemma PumpNeedsRise(closes: seq<real>)
    requires PositivePrices(closes)
    requires PumpSum(closes) > 0.0
    ensures exists j :: 0 < j < |closes| && |closes| - PumpBars <= j && closes[j] > closes[j - 1]
  {
    var ch := RecentChanges(closes);
    if forall k :: 0 <= k < |ch| ==> ch[k] <= 0.0 {
      SumNonPositive(ch);
      assert false;
    }
    var k :| 0 <= k < |ch| && ch[k] > 0.0;
    var j := |closes| - |ch| + k;
    RisingChange(closes[j - 1], closes[j]);
  }

  function Mean(xs: seq<real>): real
    requires |xs| > 0
  {
    Sum(xs) / (|xs| as real)
  }

  function Square(x: real): (s: real)
    ensures s >= 0.0
  {
    if x >= 0.0 then x * x else (-x) * (-x)
  }

  function SquaredDeviations(xs: seq<real>, m: real): (d: seq<real>)
    ensures |d| == |xs|
    ensures AllNonNegative(d)
  {
    seq(|xs|, k requires 0 <= k < |xs| => Square(xs[k] - m))
  }

  /** Sample variance (divisor n - 1), as pandas `std` squares it. */
  function SampleVariance(xs: seq<real>): (v: real)
    requires |xs| > 1
    ensures v >= 0.0
  {
    SumZeroIffAllZero(SquaredDeviations(xs, Mean(xs)));
    Sum(SquaredDeviations(xs, Mean(xs))) / ((|xs| - 1) as real)
  }

  /** Upper Bollinger band of the last row: the 20-row mean plus twice the
      20-row standard deviation; NaN while fewer than 20 rows exist. */
  function UpperBand(closes: seq<real>, sqrt: real -> real): (u: Option<real>)
    ensures u.Some? <==> |closes| >= BandWindow
  {
    if |closes| < BandWindow then None
    else
      var w := closes[|closes| - BandWindow..];
      Some(Mean(w) + 2.0 * sqrt(SampleVariance(w)))
  }

  /** With a square root that is never negative, the upper band is never
      below the middle band. */
  lemma UpperBandAboveMiddle(closes: seq<real>, sqrt: real -> real)
    requires |closes| >= BandWindow
    requires forall x :: x >= 0.0 ==> sqrt(x) >= 0.0
    ensures UpperBand(closes, sqrt).value >= Mean(closes[|closes| - BandWindow..])
  {
  }

  /** `calculate_potential`: distance from the price up to the upper band,
      in percent of the price. */
  function Potential(price: real, upper: real): (p: real)
    requires price > 0.0
    ensures price * (1.0 + p / 100.0) == upper
    ensures p > 0.0 <==> upper > price
    ensures p == 0.0 <==> upper == price
  {
    var p := (upper - price) / price * 100.0;
    assert p / 100.0 == (upper - price) / price;
    assert price * ((upper - price) / price) == upper - price;
    p
  }

  /** Potential of the last row; NaN (None) while its band is NaN. */
  function PotentialOf(closes: seq<real>, sqrt: real -> real): (p: Option<real>)
    requires PositivePrices(closes)
    ensures p.Some? <==> |closes| >= BandWindow
    ensures p.Some? ==>
      closes[|closes| - 1] * (1.0 + p.value / 100.0) == UpperBand(closes, sqrt).value
  {
    var u := UpperBand(closes, sqrt);
    if u.None? then None else Some(Potential(closes[|closes| - 1], u.value))
  }

  /** The reasons `analyze_pair` returns None once the indicator table
      exists: a pump in the last five changes (strictly above 10%), or a
      last-row volatility strictly below 0.5%. */
  predicate ExcludedRows(rows: seq<Row>)
    requires forall k :: 0 <= k < |rows| ==> rows[k].close > 0.0
  {
    || PumpSum(RowCloses(rows)) > PumpLimit
    || (|rows| > 0 && rows[|rows| - 1].volatility < VolatilityFloor)
  }

  /** ... and, before that, an empty download. */
  predicate Excluded(candles: seq<Candle>)
    requires WellFormed(candles)
  {
    |candles| == 0 || ExcludedRows(CalculateIndicators(candles))
  }

  /** The record built from the last row. */
  predicate Describes(o: Opportunity, symbol: string, last: Row, potential: Option<real>)
  {
    && o.symbol == symbol
    && o.quote == last.close
    && o.rsi == last.rsi
    && o.macd == last.macd
    && o.score == last.score
    && o.volume == ClassifyVolume(last.volume)
    && o.potential == potential
  }

  /** The part of `analyze_pair` after `calculate_indicators`: the pump
      filter, then `iloc[-1]` (which raises IndexError on an empty table),
      then the volatility floor, then the record. */
  function AnalyzeRows(symbol: string, rows: seq<Row>, sqrt: real -> real)
    : (r: Result<Option<Opportunity>, ScanError>)
    requires forall k :: 0 <= k < |rows| ==> rows[k].close > 0.0
    ensures r.Failure? <==> rows == []
    ensures r == Success(None) <==> ExcludedRows(rows)
    ensures r.Success? && r.value.Some? ==>
      && |rows| > 0
      && rows[|rows| - 1].volatility >= VolatilityFloor
      && PumpSum(RowCloses(rows)) <= PumpLimit
      && Describes(r.value.value, symbol, rows[|rows| - 1], PotentialOf(RowCloses(rows), sqrt))
  {
    var closes := RowCloses(rows);
    if PumpSum(closes) > PumpLimit then Success(None)
    else if |rows| == 0 then Failure(IndexError)
    else
      var last := rows[|rows| - 1];
      if last.volatility < VolatilityFloor then Success(None)
      else
        Success(Some(Opportunity(symbol, last.close, last.rsi, last.macd, last.score,
                                 ClassifyVolume(last.volume), PotentialOf(closes, sqrt))))
  }

  /** `analyze_pair` on the candles `get_historical_data` returned. It
      raises IndexError when `dropna` left no row. */
  function AnalyzePair(symbol: string, candles: seq<Candle>, sqrt: real -> real)
    : (r: Result<Option<Opportunity>, ScanError>)
    requires WellFormed(candles)
    ensures r.Failure? <==> |candles| > 0 && CalculateIndicators(candles) == []
    ensures r == Success(None) <==> Excluded(candles)
    ensures |candles| > 0 ==> r == AnalyzeRows(symbol, CalculateIndicators(candles), sqrt)
  {
    if |candles| == 0 then Success(None)
    else AnalyzeRows(symbol, CalculateIndicators(candles), sqrt)
  }

  /** The strict comparisons: a pump sum of exactly 10% and a volatility of
      exactly 0.5% both keep the pair, a volatility of 0.4% drops it. */
  lemma ExclusionBoundaries(rows: seq<Row>)
    requires forall k :: 0 <= k < |rows| ==> rows[k].close > 0.0
    requires |rows| > 0 && PumpSum(RowCloses(rows)) == PumpLimit
    ensures rows[|rows| - 1].volatility == 0.005 ==> !ExcludedRows(rows)
    ensures rows[|rows| - 1].volatility == 0.004 ==> ExcludedRows(rows)
  {
  }

  /** Whatever the indicators say, a pump above 10% in the last five
      changes drops the pair; the score is never consulted. */
  lemma PumpOverridesScore(symbol: string, candles: seq<Candle>, sqrt: real -> real)
    requires WellFormed(candles)
    requires PumpSum(RowCloses(CalculateIndicators(candles))) > PumpLimit
    ensures AnalyzePair(symbol, candles, sqrt) == Success(None)
  {
  }

  /** Corrected `analyze_pair`: a table that `dropna` emptied is skipped
      like an empty download instead of raising. */
  function AnalyzePairSafe(symbol: string, candles: seq<Candle>, sqrt: real -> real)
    : (r: Option<Opportunity>)
    requires WellFormed(candles)
    ensures r.None? <==> Excluded(candles) || CalculateIndicators(candles) == []
  {
    var rows := CalculateIndicators(candles);
    if |rows| == 0 then None
    else
      var r := AnalyzeRows(symbol, rows, sqrt);
      if r.Failure? then None else r.value
  }

  /** Wherever `analyze_pair` returns, the corrected version returns the
      same value. */
  lemma SafeAgreesWhereDefined(symbol: string, candles: seq<Candle>, sqrt: real -> real)
    requires WellFormed(candles)
    requires AnalyzePair(symbol, candles, sqrt).Success?
    ensures AnalyzePair(symbol, candles, sqrt).value == AnalyzePairSafe(symbol, candles, sqrt)
  {
  }

  /** A pair whose price never moves also raises: RSI is 0/0 on every bar,
      so `dropna` empties the table before the volatility floor is
      consulted. */
  lemma ConstantPriceRaises(symbol: string, candles: seq<Candle>, sqrt: real -> real, c: real)
    requires WellFormed(candles)
    requires |candles| > 0
    requires forall i :: 0 <= i < |candles| ==> candles[i].close == c
    ensures AnalyzePair(symbol, candles, sqrt) == Failure(IndexError)
    ensures AnalyzePairSafe(symbol, candles, sqrt) == None
  {
    ConstantCloseLeavesNoRows(candles, c);
  }

  /** A reported pair triggers an e-mail exactly when, on its last row, RSI
      is below 50, the short EMA is above the long one and MACD is
      positive. */
  lemma AlertMeansTrendSignals(symbol: string, candles: seq<Candle>, sqrt: real -> real)
    requires WellFormed(candles)
    requires AnalyzePair(symbol, candles, sqrt).Success?
    requires AnalyzePair(symbol, candles, sqrt).value.Some?
    ensures var o := AnalyzePair(symbol, candles, sqrt).value.value;
      var rows := CalculateIndicators(candles);
      var last := rows[|rows| - 1];
      Alerts(o.score) <==> last.rsi < RsiCeiling && last.emaShort > last.emaLong && last.macd > 0.0
  {
    var rows := CalculateIndicators(candles);
    var last := rows[|rows| - 1];
    RowsAreConsistent(candles, |rows| - 1);
    AlertIffTrendSignals(Criteria(last.rsi < RsiCeiling, last.emaShort > last.emaLong,
                                  last.volatility < VolaThreshold, last.macd > 0.0));
  }

  /** The record the corrected `analyze_pair` returns carries the symbol it
      was asked about. */
  lemma SafeRecordNamesItsPair(symbol: string, candles: seq<Candle>, sqrt: real -> real)
    requires WellFormed(candles)
    requires AnalyzePairSafe(symbol, candles, sqrt).Some?
    ensures AnalyzePairSafe(symbol, candles, sqrt).value.symbol == symbol
  {
  }
}
