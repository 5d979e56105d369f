/** The four-criterion weighted score and the alert rule built on it. */
module Scoring {
  import opened Wrappers

  const RsiCeiling: real := 50.0
  const VolaThreshold: real := 0.015
  const AlertScore: real := 5.0

  /** Outcome of each criterion for one bar. */
  datatype Criteria = Criteria(rsiBelow50: bool, emaUp: bool, calm: bool, macdUp: bool)

  /** Criteria of a bar whose indicators may be undefined. A comparison with
      NaN is false, so an undefined RSI or volatility never satisfies its
      criterion. */
  function CriteriaOf(rsi: Option<real>, emaShort: real, emaLong: real,
                      volatility: Option<real>, macd: real): (c: Criteria)
    ensures c.rsiBelow50 <==> rsi.Some? && rsi.value < RsiCeiling
    ensures c.emaUp <==> emaShort > emaLong
    ensures c.calm <==> volatility.Some? && volatility.value < VolaThreshold
    ensures c.macdUp <==> macd > 0.0
  {
    Criteria(rsi.Some? && rsi.value < RsiCeiling, emaShort > emaLong,
             volatility.Some? && volatility.value < VolaThreshold, macd > 0.0)
  }

  function Weight(holds: bool, w: real): real
  {
    if holds then w else 0.0
  }

  /** Weighted score: 1.5 for RSI below 50, 2 for the short EMA above the
      long one, 1 for volatility below 1.5%, 1.5 for a positive MACD. */
  function Score(c: Criteria): (s: real)
    ensures 0.0 <= s <= 6.0
    ensures s == 6.0 <==> c.rsiBelow50 && c.emaUp && c.calm && c.macdUp
    ensures s == 0.0 <==> !c.rsiBelow50 && !c.emaUp && !c.calm && !c.macdUp
  {
    Weight(c.rsiBelow50, 1.5) + Weight(c.emaUp, 2.0) + Weight(c.calm, 1.0) + Weight(c.macdUp, 1.5)
  }

  /** Every criterion that holds in `c1` also holds in `c2`. */
  predicate Weaker(c1: Criteria, c2: Criteria)
  {
    && (c1.rsiBelow50 ==> c2.rsiBelow50)
    && (c1.emaUp ==> c2.emaUp)
    && (c1.calm ==> c2.calm)
    && (c1.macdUp ==> c2.macdUp)
  }

  /** Turning a criterion true never lowers the score, and strictly raises
      it. */
  lemma ScoreMonotone(c1: Criteria, c2: Criteria)
    requires Weaker(c1, c2)
    ensures Score(c1) <= Score(c2)
    ensures Score(c1) == Score(c2) <==> c1 == c2
  {
  }

  /** The e-mail alert fires on `score >= 5`. */
  predicate Alerts(score: real)
  {
    score >= AlertScore
  }

  /** A comparison with NaN is false: a bar whose RSI is undefined loses
      the RSI criterion, so it scores at most 4.5 and never alerts; a bar
      whose volatility is undefined loses the calm criterion. */
  lemma UndefinedIndicatorFailsItsCriterion(rsi: Option<real>, emaShort: real, emaLong: real,
                                            volatility: Option<real>, macd: real)
    ensures rsi.None? ==>
      Score(CriteriaOf(rsi, emaShort, emaLong, volatility, macd)) <= 4.5
      && !Alerts(Score(CriteriaOf(rsi, emaShort, emaLong, volatility, macd)))
    ensures volatility.None? ==> Score(CriteriaOf(rsi, emaShort, emaLong, volatility, macd)) <= 5.0
  {
  }

  /** The alert fires exactly when RSI is below 50, the short EMA is above
      the long one and MACD is positive; the volatility criterion can never
      decide it. */
  lemma AlertIffTrendSignals(c: Criteria)
    ensures Alerts(Score(c)) <==> c.rsiBelow50 && c.emaUp && c.macdUp
    ensures Alerts(Score(c)) == Alerts(Score(c.(calm := !c.calm)))
  {
  }
}
