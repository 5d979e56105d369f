/** The two threshold tables of the screener: the volume tier reported with
    an opportunity and the trailing-stop percentage tiered by volatility. */
module Tiers {

  /** Volume tiers, labelled "Baixo", "Médio" and "Alto" in the reports. */
  datatype VolumeTier = Low | Medium | High
  {
    /** The label the report prints for the tier. */
    function Label(): string
    {
      match this
      case Low => "Baixo"
      case Medium => "Médio"
      case High => "Alto"
    }

    /** Position of the tier in the order Low < Medium < High. */
    function Rank(): nat
    {
      match this
      case Low => 0
      case Medium => 1
      case High => 2
    }
  }

  const HighVolume: real := 50000000.0
  const MediumVolume: real := 10000000.0

  /** Tier of a traded volume: both thresholds are strict. */
  function ClassifyVolume(volume: real): (t: VolumeTier)
    ensures t == High <==> volume > HighVolume
    ensures t == Medium <==> MediumVolume < volume <= HighVolume
    ensures t == Low <==> volume <= MediumVolume
  {
    if volume > HighVolume then High
    else if volume > MediumVolume then Medium
    else Low
  }

  /** More volume never gives a lower tier. */
  lemma ClassifyVolumeMonotone(v1: real, v2: real)
    requires v1 <= v2
    ensures ClassifyVolume(v1).Rank() <= ClassifyVolume(v2).Rank()
  {
  }

  /** The labels are pairwise distinct, so a label identifies its tier. */
  lemma LabelsDistinct(t1: VolumeTier, t2: VolumeTier)
    ensures t1.Label() == t2.Label() <==> t1 == t2
  {
    if t1 != t2 {
      assert t1.Label()[0] != t2.Label()[0];
    }
  }

  /** Trailing-stop percentage tiered by volatility; the ATR argument is
      accepted and ignored, as in the screener. */
  function TrailingStop(atr: real, volatility: real): (pct: nat)
    ensures pct in {3, 5, 7, 10}
    ensures pct == 10 <==> volatility > 0.05
    ensures pct == 7 <==> 0.03 < volatility <= 0.05
    ensures pct == 5 <==> 0.02 < volatility <= 0.03
    ensures pct == 3 <==> volatility <= 0.02
  {
    if volatility > 0.05 then 10
    else if volatility > 0.03 then 7
    else if volatility > 0.02 then 5
    else 3
  }

  /** The stop widens (never narrows) as volatility grows, and the ATR
      argument has no influence on the result. */
  lemma TrailingStopMonotone(atr1: real, atr2: real, v1: real, v2: real)
    requires v1 <= v2
    ensures TrailingStop(atr1, v1) <= TrailingStop(atr2, v2)
    ensures TrailingStop(atr1, v1) == TrailingStop(atr2, v1)
  {
  }

  /** The thresholds are strict: a volatility sitting exactly on a threshold
      falls into the lower tier. */
  lemma TrailingStopBoundaries(atr: real)
    ensures TrailingStop(atr, 0.05) == 7
    ensures TrailingStop(atr, 0.03) == 5
    ensures TrailingStop(atr, 0.02) == 3
    ensures TrailingStop(atr, 0.06) == 10
    ensures TrailingStop(atr, 0.025) == 5
  {
  }
}
