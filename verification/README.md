# analise-cripto screener, modelled in Dafny

The screener scans Binance USDT pairs on 4-hour candles. For each pair it
computes a small set of indicators:

- EMA 9 and EMA 50;
- RSI 14, from simple means of gains and losses;
- a 14-bar high-low "ATR" and the volatility ATR / close;
- MACD = EMA 12 - EMA 26.

It scores the last bar against four weighted criteria, drops pairs that
have just pumped or are too flat, and e-mails the pairs that score at
least 5. This project models the pure core of `analise_cripto.py` with
prices as exact `real`s. A value pandas leaves NaN is `None`. An exception
that escapes to the caller is a `Result` failure.

Modules, leaf first:

- `Wrappers`: `Option` and `Result`.
- `Series`: sums, rolling means, running minimum and maximum.
- `Tiers`: `classify_volume` and `calculate_trailing_stop`.
- `Ema`: EMA with `adjust=False` semantics (seeded by the first close,
  alpha = 2 / (span + 1)) and MACD.
- `Rsi`: gains, losses, the 14-bar averages, and RSI with the IEEE
  behaviour of `gain / loss`. Division by a zero loss gives +inf, so RSI
  is 100. Zero over zero gives NaN, so RSI is undefined.
- `Scoring`: the four-criterion score and the `score >= 5` alert rule.
- `Indicators`: the per-bar table of `calculate_indicators` and `dropna`.
- `Universe`: the pair filter of `get_all_usdt_pairs`, including Python's
  `replace`, which deletes every occurrence of "USDT", not only a suffix.
- `Pipeline`: `calculate_potential` and the decision logic of
  `analyze_pair`.
- `Scan`: `find_opportunities` and the alert loop of `main`. The scan is
  stated for any per-pair analysis. `Scan.Analysis` is the script's own
  one: `analyze_pair` applied to the downloaded candles.
  `Scan.MainAsWritten` is `main` over the original scan, and
  `Scan.AnalysisRun` is `main` over the corrected one.

The model follows the code, also where it departs from the textbook form
of an indicator or from what a name suggests:

- ATR is the 14-bar mean of high - low. The true range, which would also
  use the previous close, is not part of the code.
- With zero average gain and zero average loss, RSI is NaN and the bar is
  dropped. It does not saturate at 100.
- A series with a constant close is not dropped by the volatility floor.
  RSI is NaN on every bar, `dropna` leaves no row, and `iloc[-1]` raises
  (see Findings).
- `pct_change` is taken between consecutive rows of the table after
  `dropna`. If `dropna` removed an inner row, two non-adjacent candles are
  compared.
- The volume tier is computed from the last candle's base-asset `volume`
  column, not from the 24-hour quote volume.
- `calculate_trailing_stop` is defined but never called. It is modelled on
  its own.

## Model

| member | source | states |
|---|---|---|
| `Tiers.ClassifyVolume` | analise_cripto.py:42-47 | "Alto" exactly above 50,000,000, "Médio" exactly in (10,000,000, 50,000,000], otherwise "Baixo"; both bounds strict |
| `Tiers.ClassifyVolumeMonotone` | analise_cripto.py:42-47 | more volume never gives a lower tier |
| `Tiers.LabelsDistinct` | analise_cripto.py:44-47 | the three printed labels are pairwise different |
| `Tiers.TrailingStop` | analise_cripto.py:49-56 | result is one of 3, 5, 7, 10, and each value is returned exactly on its volatility interval |
| `Tiers.TrailingStopMonotone` | analise_cripto.py:49-56 | the stop is non-decreasing in volatility and does not depend on the ATR argument |
| `Tiers.TrailingStopBoundaries` | analise_cripto.py:49-56 | thresholds are strict: 0.05 gives 7, 0.03 gives 5, 0.02 gives 3; 0.06 gives 10 and 0.025 gives 5 |
| `Ema.Alpha` | analise_cripto.py:83-84 | the smoothing factor of a span lies in (0, 1] and satisfies alpha * (span + 1) = 2 |
| `Ema.Ema` | analise_cripto.py:83-84 | the EMA series has the length of its input and starts at the first close |
| `Ema.EmaPrefix` | analise_cripto.py:83-84 | the EMA is causal: its first k values are the EMA of the first k closes |
| `Ema.EmaRecurrence` | analise_cripto.py:83-84 | every later value is alpha * close + (1 - alpha) * previous EMA, the `adjust=False` recurrence |
| `Ema.ComputeEma` | analise_cripto.py:83-84 | the one-pass streaming computation yields exactly the EMA series |
| `Ema.EmaBounded` | analise_cripto.py:83-84 | every EMA value lies between the minimum and maximum of the closes seen so far |
| `Ema.EmaOfConstant` | analise_cripto.py:83-84 | a constant close series has that constant as its EMA, for any span |
| `Ema.Macd` | analise_cripto.py:92 | MACD has one value per bar |
| `Ema.MacdOfConstant` | analise_cripto.py:92 | on a constant close series MACD is 0 on every bar |
| `Ema.MacdStartsAtZero` | analise_cripto.py:92 | the first MACD value is 0 because both EMAs start at the first close |
| `Series.RollingMean` | analise_cripto.py:86-90 | a 14-bar rolling mean is defined exactly from the 14th bar on, and then it is the window sum divided by 14 |
| `Rsi.Gains` | analise_cripto.py:85-86 | one gain per bar, never negative |
| `Rsi.Losses` | analise_cripto.py:85-87 | one loss per bar, never negative |
| `Rsi.GainLossSplit` | analise_cripto.py:85-87 | gain - loss is the close-to-close change and at most one of them is non-zero; both are 0 exactly on an unmoved bar, and the first bar's NaN change counts as unmoved |
| `Rsi.RsiFromAverages` | analise_cripto.py:88-89 | RSI is undefined exactly when both averages are 0; otherwise it is in [0, 100] and equals 100 * gain / (gain + loss), so a zero loss with a positive gain gives 100 |
| `Rsi.Rsi` | analise_cripto.py:85-89 | a bar's RSI is defined only after the 13-bar warm-up and then lies in [0, 100]; `Rsi.RsiUndefinedIffFlat` gives the exact condition |
| `Rsi.RsiInRange` | analise_cripto.py:86-89 | wherever a bar's RSI is defined it lies in [0, 100] |
| `Rsi.RsiUndefinedIffFlat` | analise_cripto.py:85-89 | a bar's RSI is undefined exactly during the 13-bar warm-up or when the close did not move anywhere in its 14-bar window |
| `Rsi.RsiOfRisingSeries` | analise_cripto.py:85-89 | on a strictly rising series every bar after the warm-up has RSI exactly 100 |
| `Rsi.RsiOfFallingSeries` | analise_cripto.py:85-89 | on a strictly falling series every bar after the warm-up has RSI exactly 0 |
| `Indicators.Atr` | analise_cripto.py:90 | the ATR is defined exactly from the 14th bar on, and then 14 times it is the sum of the last 14 high-low ranges |
| `Indicators.Volatility` | analise_cripto.py:90-91 | volatility is defined exactly where the ATR is, and times the close it gives the ATR |
| `Indicators.BarAt` | analise_cripto.py:82-93 | a bar keeps its positive close, its RSI lies in [0, 100], ATR and volatility are defined together, its score lies in [0, 6], and the score reaches 5 exactly when RSI is defined and below 50, EMA 9 is above EMA 50 and MACD is positive |
| `Indicators.CalculateIndicators` | analise_cripto.py:81-95 | the table has at most one row per candle; every row is a complete bar of the candles, every complete bar appears, and every close is positive |
| `Indicators.DropNa` | analise_cripto.py:94 | `dropna` keeps exactly the complete bars and adds nothing; it is empty exactly when no bar is complete; kept rows keep positive closes |
| `Indicators.DropNaAppend` | analise_cripto.py:94 | `dropna` preserves order, because it distributes over concatenation |
| `Indicators.CompleteIff` | analise_cripto.py:85-94 | a bar survives `dropna` exactly when its 14-bar warm-up is over and its window is not entirely unmoved |
| `Indicators.RowsAreConsistent` | analise_cripto.py:93-94 | every surviving row has a positive close, and its score is the weighted score of its own RSI, EMAs, volatility and MACD |
| `Indicators.ShortHistoryLeavesNoRows` | analise_cripto.py:86-94 | with fewer than 14 candles `dropna` leaves no row |
| `Indicators.ConstantCloseLeavesNoRows` | analise_cripto.py:86-94 | with a constant close `dropna` leaves no row, however long the series |
| `Scoring.UndefinedIndicatorFailsItsCriterion` | analise_cripto.py:93 | a comparison with NaN is false: a bar with undefined RSI scores at most 4.5 and never alerts, and a bar with undefined volatility scores at most 5 |
| `Scoring.Score` | analise_cripto.py:93 | the score lies in [0, 6]; it is 6 exactly when all four criteria hold and 0 exactly when none holds |
| `Scoring.ScoreMonotone` | analise_cripto.py:93 | turning any criterion true never lowers the score, and the score is unchanged only if the criteria are unchanged |
| `Scoring.AlertIffTrendSignals` | analise_cripto.py:149 | `score >= 5` holds exactly when RSI < 50, EMA short > EMA long and MACD > 0, and flipping the volatility criterion never changes it |
| `Universe.RemoveAll` | analise_cripto.py:63 | `replace(pat, "")` never lengthens a string, and a string shorter than the pattern is returned unchanged |
| `Universe.NoOccurrenceUnchanged` | analise_cripto.py:63 | a string with no occurrence of the pattern is returned unchanged |
| `Universe.RemoveAroundQuote` | analise_cripto.py:63 | a "USDT" anywhere in the symbol is deleted, not only the suffix: stripping a + "USDT" + b gives the stripped a followed by the stripped b |
| `Universe.RemoveQuoteSuffix` | analise_cripto.py:63 | stripping every "USDT" from base + "USDT" gives the same as stripping every "USDT" from the base alone |
| `Universe.BaseAsset` | analise_cripto.py:63 | the base of a symbol ending in "USDT" is its part before the quote asset with every further "USDT" deleted, so it is at least four characters shorter than the symbol |
| `Universe.ListedSymbols` | analise_cripto.py:62 | the first stage keeps exactly the symbols of tickers that end in "USDT" with quote volume strictly above 200000 |
| `Universe.DropStablecoins` | analise_cripto.py:63 | the second stage keeps exactly the symbols whose stripped base is not a stablecoin |
| `Universe.UsdtPairs` | analise_cripto.py:62-63 | every kept pair ends in "USDT", has a ticker with quote volume above 200000, and has a stripped base that is not a stablecoin; every ticker passing both tests is kept; never more pairs than tickers |
| `Universe.UsdtPairsAppend` | analise_cripto.py:62-63 | the filter preserves input order, because it distributes over concatenation |
| `Universe.SingleTicker` | analise_cripto.py:62-63 | a single ticker yields its symbol exactly when it passes both stages |
| `Universe.StablecoinPairExcluded` | analise_cripto.py:62-63 | "USDCUSDT" is dropped whatever its volume |
| `Universe.OrdinaryPairKept` | analise_cripto.py:62-63 | "BTCUSDT" with volume above 200000 is kept under its full symbol |
| `Universe.VolumeBoundStrict` | analise_cripto.py:62 | a quote volume of exactly 200000 is not enough |
| `Pipeline.RecentChanges` | analise_cripto.py:119-120 | the pump filter sums min(5, n - 1) changes, each the percent change between consecutive rows of the last part of the table |
| `Pipeline.PumpSum` | analise_cripto.py:119-120 | a table of at most one row sums to 0, because pandas sums an empty column to 0, so it cannot trip the pump filter |
| `Pipeline.PumpNeedsRise` | analise_cripto.py:119-121 | a positive pump sum requires a rising close among the last five rows |
| `Pipeline.SampleVariance` | analise_cripto.py:99 | the sample variance under the Bollinger standard deviation is never negative |
| `Pipeline.UpperBand` | analise_cripto.py:98-100 | the upper band of the last row is defined exactly when the table has at least 20 rows |
| `Pipeline.UpperBandAboveMiddle` | analise_cripto.py:98-100 | with a non-negative square root the upper band is never below the 20-row mean |
| `Pipeline.Potential` | analise_cripto.py:108 | price * (1 + potential / 100) is the upper band, so the potential is positive exactly when the band is above the price |
| `Pipeline.PotentialOf` | analise_cripto.py:104-109 | the reported potential is defined (not NaN) exactly when at least 20 rows remain, and then the last close raised by that percentage is the upper band |
| `Pipeline.AnalyzeRows` | analise_cripto.py:119-137 | on the indicator table: raises exactly when the table is empty; returns None exactly on a pump or a low volatility; otherwise the record describes the last row, which passed both filters |
| `Pipeline.AnalyzePair` | analise_cripto.py:111-137 | raises exactly when candles exist but `dropna` left none; returns None exactly for no candles, a pump sum above 0.10 or a last-row volatility below 0.005 |
| `Pipeline.ExclusionBoundaries` | analise_cripto.py:121-127 | boundaries are strict: a pump sum of exactly 0.10 with volatility 0.005 is kept, and volatility 0.004 is dropped |
| `Pipeline.PumpOverridesScore` | analise_cripto.py:119-122 | a pump sum above 0.10 gives None whatever the score |
| `Scan.MapPairsSplit` | analise_cripto.py:142 | mapping over a pair list is mapping over its two halves and concatenating |
| `Scan.Somes` | analise_cripto.py:143 | the None filter keeps exactly the present records and is never longer than its input |
| `Scan.SomesAppend` | analise_cripto.py:143 | the None filter preserves order, because it distributes over concatenation |
| `Scan.Collect` | analise_cripto.py:142-143 | collecting raises exactly when some pair raised; otherwise it returns exactly the present records |
| `Scan.CollectIsSomes` | analise_cripto.py:142-143 | when no pair raised, collecting is the order-preserving None filter |
| `Scan.FindOpportunities` | analise_cripto.py:139-143 | for any per-pair analysis: raises exactly when some pair's analysis raises; otherwise returns exactly the records the analysis produced, at most one per pair |
| `Pipeline.AnalyzePairSafe` | analise_cripto.py:111-137 | corrected analysis: None exactly when the pair is excluded or `dropna` left no row |
| `Pipeline.SafeAgreesWhereDefined` | analise_cripto.py:111-137 | wherever the original analysis returns, the corrected one returns the same value |
| `Scan.FindOpportunitiesSafe` | analise_cripto.py:139-143 | the corrected scan never raises and returns exactly the records the analysis produced, at most one per pair |
| `Scan.ScanAgrees` | analise_cripto.py:139-143 | if a non-raising analysis agrees with a raising one wherever the latter returns, the two scans return the same list whenever the raising scan returns |
| `Scan.ScriptAnalysesAgree` | analise_cripto.py:111-137 | the corrected `analyze_pair` agrees with the original on every pair where the original returns |
| `Scan.FindOpportunitiesAgrees` | analise_cripto.py:139-143 | wherever `find_opportunities` with `analyze_pair` returns, it returns exactly the corrected scan's list |
| `Scan.FindOpportunitiesSafeSplit` | analise_cripto.py:143 | the records of a pair list are the records of its two halves concatenated, so order is kept |
| `Scan.SkippedPairDropsOut` | analise_cripto.py:143 | a pair whose analysis gives None leaves no trace, and the records on either side of it keep their order |
| `Scan.ShortHistoryAbortsScan` | analise_cripto.py:111-143 | a pair with 1 to 13 candles makes `analyze_pair` raise IndexError and aborts the whole scan |
| `Scan.ShortHistorySkippedBySafeScan` | analise_cripto.py:139-143 | the corrected scan skips such a pair and returns the other pairs' records in order |
| `Pipeline.ConstantPriceRaises` | analise_cripto.py:116-127 | a pair whose close never moves raises in the original analysis and is skipped by the corrected one |
| `Scan.AlertedTrades` | analise_cripto.py:148-149 | the e-mailed trades are exactly the collected trades scoring at least 5 |
| `Pipeline.AlertMeansTrendSignals` | analise_cripto.py:149 | a reported pair triggers an e-mail exactly when its last row has RSI < 50, EMA short > EMA long and MACD > 0 |
| `Pipeline.SafeRecordNamesItsPair` | analise_cripto.py:129-130 | the record carries the symbol of the pair that was analysed |
| `Scan.SafeRecordsNameTheirPairs` | analise_cripto.py:129-143 | every record of the corrected scan names a scanned pair and is the corrected analysis of that pair |
| `Scan.AnalysisRun` | analise_cripto.py:145-149 | `main` on the corrected scan: a trade is e-mailed exactly when it is the corrected analysis record of a pair of the universe and scores at least 5 |
| `Scan.ScanFailsIffSomePairRaises` | analise_cripto.py:139-143 | the scan raises exactly when the analysis of some listed pair raises |
| `Scan.MainAsWritten` | analise_cripto.py:145-149 | `main` as written: it raises exactly when `analyze_pair` raises for some pair of the universe, and otherwise e-mails exactly the trades of the corrected run |

## Left out

- HTTP and JSON (`get_all_usdt_pairs`, `get_historical_data`, lines
  58-79): the ticker list is a parameter, and the candles come from a
  `fetch` function parameter. An empty or failed download is an empty
  candle sequence. A malformed ticker, whose exception makes the universe
  empty, is not modelled.
- E-mail, environment variables, SMTP and SSL (lines 26-40): external side
  effects. `AnalysisRun` returns the trades that would be e-mailed.
- The thread pool and the `tqdm` progress bar (lines 141-142): modelled as
  a sequential map. `executor.map` returns results in pair order, so this
  is faithful.
- The square root inside the Bollinger standard deviation (line 99): it is
  the parameter `sqrt`. The middle band and the sample variance are exact.
- Floating point: IEEE rounding and the display `round(..., 2/4)` of lines
  131-136 are not modelled. Values are exact reals. Every score is a
  multiple of 0.5, so rounding cannot move it across 5.
- Non-positive closing prices: candles must have a positive close
  (`Indicators.WellFormed`). Exchange prices are positive, and the
  infinities and NaNs that a zero close would produce are not modelled.
- The timestamp column, `datetime` and console `print` (lines 146, 162,
  164): no effect on the computation.
- Indicators and policies this file does not contain: true-range ATR,
  MACD signal line, ADX, OBV, Fibonacci levels, candlestick patterns,
  backtest hit rate, 7-criterion or continuous scoring, top-25 ranking,
  and constrained best pick.

## Findings

| source | as written | input that shows it | evidently intended | confidence | as-written member | corrected member |
|---|---|---|---|---|---|---|
| analise_cripto.py:113-143 | Only an empty download is skipped. When `dropna` leaves no row, `iloc[-1]` raises IndexError. `executor.map` re-raises it inside `find_opportunities`, which aborts the whole scan and `main`. | A pair with 1 to 13 four-hour candles (fewer than 14), such as a recently listed one, or any pair whose close never moves | Skip that pair, as for an empty download, and report the others | not executed; the raise follows from the code, and that it is unintended is inferred from the explicit empty-data guard | `Scan.ShortHistoryAbortsScan` | `Scan.ShortHistorySkippedBySafeScan` |

The corrected members are `Pipeline.AnalyzePairSafe` and
`Scan.FindOpportunitiesSafe` run with `Scan.SafeAnalysis`.
`Scan.AnalysisRun` models `main` and is built on them. `Scan.FindOpportunitiesAgrees` proves that the
corrected scan returns the same list as the original whenever the original
does not raise.
