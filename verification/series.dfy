/** Plain arithmetic over finite series of reals: sums, rolling means,
    running minimum and maximum. */
module Series {
  import opened Wrappers

  /** Sum of a series, accumulated from the front. */
  function Sum(xs: seq<real>): real
  {
    if |xs| == 0 then 0.0 else xs[0] + Sum(xs[1..])
  }

  predicate AllNonNegative(xs: seq<real>)
  {
    forall j :: 0 <= j < |xs| ==> xs[j] >= 0.0
  }

  predicate AllZero(xs: seq<real>)
  {
    forall j :: 0 <= j < |xs| ==> xs[j] == 0.0
  }

  /** A sum of non-negative terms is non-negative, and it is zero exactly
      when every term is zero. */
  lemma {:induction false} SumZeroIffAllZero(xs: seq<real>)
    requires AllNonNegative(xs)
    ensures Sum(xs) >= 0.0
    ensures Sum(xs) == 0.0 <==> AllZero(xs)
  {
    if |xs| > 0 {
      assert AllNonNegative(xs[1..]) by {
        forall j | 0 <= j < |xs[1..]| ensures xs[1..][j] >= 0.0 {
          assert xs[1..][j] == xs[j + 1];
        }
      }
      SumZeroIffAllZero(xs[1..]);
      if AllZero(xs[1..]) && xs[0] == 0.0 {
        forall j | 0 <= j < |xs| ensures xs[j] == 0.0 {
          if j > 0 { assert xs[j] == xs[1..][j - 1]; }
        }
      }
      if AllZero(xs) {
        forall j | 0 <= j < |xs[1..]| ensures xs[1..][j] == 0.0 {
          assert xs[1..][j] == xs[j + 1];
        }
      }
    }
  }

  /** A sum of non-positive terms is non-positive. */
  lemma {:induction false} SumNonPositive(xs: seq<real>)
    requires forall j :: 0 <= j < |xs| ==> xs[j] <= 0.0
    ensures Sum(xs) <= 0.0
  {
    if |xs| > 0 {
      assert forall j :: 0 <= j < |xs[1..]| ==> xs[1..][j] == xs[j + 1];
      SumNonPositive(xs[1..]);
    }
  }

  /** The trailing window of `w` values ending at index `i` (inclusive). */
  function Window(xs: seq<real>, w: nat, i: nat): seq<real>
    requires 0 < w <= i + 1 <= |xs|
  {
    xs[i + 1 - w .. i + 1]
  }

  /** pandas `rolling(window=w).mean()` on a series without NaN: undefined
      (NaN) until `w` values are available, then the mean of the trailing
      window. */
  function RollingMean(xs: seq<real>, w: nat, i: nat): (r: Option<real>)
    requires 0 < w && i < |xs|
    ensures r.Some? <==> i + 1 >= w
    ensures r.Some? ==> r.value * (w as real) == Sum(Window(xs, w, i))
  {
    if i + 1 < w then None else Some(Sum(Window(xs, w, i)) / (w as real))
  }

  /** Mean of a window of non-negative values is non-negative, and zero
      exactly when the whole window is zero. */
  lemma RollingMeanZeroIffWindowZero(xs: seq<real>, w: nat, i: nat)
    requires 0 < w <= i + 1 <= |xs|
    requires AllNonNegative(Window(xs, w, i))
    ensures RollingMean(xs, w, i).value >= 0.0
    ensures RollingMean(xs, w, i).value == 0.0 <==> AllZero(Window(xs, w, i))
  {
    SumZeroIffAllZero(Window(xs, w, i));
  }

  function Min(a: real, b: real): real { if a <= b then a else b }
  function Max(a: real, b: real): real { if a >= b then a else b }

  /** Smallest value of a non-empty series: a lower bound that is attained. */
  function SeqMin(xs: seq<real>): (m: real)
    requires |xs| > 0
    ensures forall j :: 0 <= j < |xs| ==> m <= xs[j]
    ensures exists j :: 0 <= j < |xs| && m == xs[j]
  {
    if |xs| == 1 then xs[0]
    else
      var p := SeqMin(xs[..|xs| - 1]);
      assert forall j :: 0 <= j < |xs| - 1 ==> xs[..|xs| - 1][j] == xs[j];
      Min(p, xs[|xs| - 1])
  }

  /** Largest value of a non-empty series: an upper bound that is attained. */
  function SeqMax(xs: seq<real>): (m: real)
    requires |xs| > 0
    ensures forall j :: 0 <= j < |xs| ==> xs[j] <= m
    ensures exists j :: 0 <= j < |xs| && m == xs[j]
  {
    if |xs| == 1 then xs[0]
    else
      var p := SeqMax(xs[..|xs| - 1]);
      assert forall j :: 0 <= j < |xs| - 1 ==> xs[..|xs| - 1][j] == xs[j];
      Max(p, xs[|xs| - 1])
  }
}
