/** `find_opportunities` and the alert loop of `main`: every pair of the
    universe is analysed, results are collected in pair order, and the
    trades scoring at least 5 are e-mailed. Downloading candles is the
    parameter `fetch`; the thread pool is a sequential, order-preserving
    map, which is what `executor.map` returns. */
module Scan {
  import opened Wrappers
  import opened Scoring
  import opened Indicators
  import opened Universe
  import opened Pipeline

  /** `executor.map(analyze, symbols)`: one result per pair, in pair order. */
  function MapPairs<R>(symbols: seq<string>, analyze: string -> R): (rs: seq<R>)
    ensures |rs| == |symbols|
    ensures forall i :: 0 <= i < |symbols| ==> rs[i] == analyze(symbols[i])
  {
    seq(|symbols|, i requires 0 <= i < |symbols| => analyze(symbols[i]))
  }

  /** Mapping over a list is mapping over its two halves. */
  lemma MapPairsSplit<R>(symbols: seq<string>, analyze: string -> R, k: nat)
    requires k <= |symbols|
    ensures MapPairs(symbols, analyze) == MapPairs(symbols[..k], analyze) + MapPairs(symbols[k..], analyze)
  {
    var a := symbols[..k];
    var b := symbols[k..];
    assert forall i :: 0 <= i < |a| ==> a[i] == symbols[i];
    assert forall i :: 0 <= i < |b| ==> b[i] == symbols[k + i];
  }

  /** `[r for r in results if r]`: the present values, in order. */
  function Somes(os: seq<Option<Opportunity>>): (r: seq<Opportunity>)
    ensures |r| <= |os|
    ensures forall x :: x in r <==> Some(x) in os
  {
    if |os| == 0 then []
    else
      assert forall o :: o in os <==> o == os[0] || o in os[1..];
      (if os[0].Some? then [os[0].value] else []) + Somes(os[1..])
  }

  /** Dropping the Nones keeps the order: `Somes` distributes over
      concatenation. */
  lemma {:induction false} SomesAppend(a: seq<Option<Opportunity>>, b: seq<Option<Opportunity>>)
    ensures Somes(a + b) == Somes(a) + Somes(b)
    decreases |a|
  {
    if |a| > 0 {
      assert (a + b)[1..] == a[1..] + b;
      SomesAppend(a[1..], b);
    } else {
      assert a + b == b;
    }
  }

  /** `list(executor.map(...))` followed by the None filter: the first
      exception in pair order propagates; otherwise the present records
      are kept in order. */
  function Collect(rs: seq<Result<Option<Opportunity>, ScanError>>): (r: Result<seq<Opportunity>, ScanError>)
    ensures r.Failure? <==> exists i :: 0 <= i < |rs| && rs[i].Failure?
    ensures r.Success? ==> |r.value| <= |rs|
    ensures r.Success? ==> forall x :: x in r.value <==> Success(Some(x)) in rs
  {
    if |rs| == 0 then Success([])
    else if rs[0].Failure? then Failure(rs[0].error)
    else
      var rest := Collect(rs[1..]);
      assert forall i :: 1 <= i < |rs| ==> rs[i] == rs[1..][i - 1];
      assert forall o :: o in rs <==> o == rs[0] || o in rs[1..];
      if rest.Failure? then Failure(rest.error)
      else Success((if rs[0].value.Some? then [rs[0].value.value] else []) + rest.value)
  }

  function Values(rs: seq<Result<Option<Opportunity>, ScanError>>): (vs: seq<Option<Opportunity>>)
    requires forall i :: 0 <= i < |rs| ==> rs[i].Success?
    ensures |vs| == |rs|
    ensures forall i :: 0 <= i < |rs| ==> rs[i] == Success(vs[i])
  {
    seq(|rs|, i requires 0 <= i < |rs| => rs[i].value)
  }

  /** When nothing raised, collecting is exactly dropping the Nones. */
  lemma {:induction false} CollectIsSomes(rs: seq<Result<Option<Opportunity>, ScanError>>)
    requires forall i :: 0 <= i < |rs| ==> rs[i].Success?
    ensures Collect(rs) == Success(Somes(Values(rs)))
    decreases |rs|
  {
    if |rs| > 0 {
      var tail := rs[1..];
      assert forall i :: 0 <= i < |tail| ==> tail[i] == rs[i + 1];
      CollectIsSomes(tail);
      assert Values(rs)[1..] == Values(tail);
    }
  }

  /** A per-pair analysis as `find_opportunities` hands it to the pool:
      the pair name in, a record, nothing, or an exception out. */
  type PairAnalysis = string -> Result<Option<Opportunity>, ScanError>

  /** `find_opportunities`: `analyze` is mapped over the pairs in order, the
      first exception propagates, and the present records are kept. */
  function FindOpportunities(symbols: seq<string>, analyze: PairAnalysis): (r: Result<seq<Opportunity>, ScanError>)
    ensures r.Failure? <==> exists i :: 0 <= i < |symbols| && analyze(symbols[i]).Failure?
    ensures r.Success? ==> |r.value| <= |symbols|
    ensures r.Success? ==> forall o :: o in r.value <==>
      exists i :: 0 <= i < |symbols| && analyze(symbols[i]) == Success(Some(o))
  {
    var rs := MapPairs(symbols, analyze);
    assert forall o :: Success(Some(o)) in rs <==> exists i :: 0 <= i < |rs| && rs[i] == Success(Some(o));
    Collect(rs)
  }

  /** Corrected `find_opportunities`: the analysis never raises and the
      Nones are dropped. */
  function FindOpportunitiesSafe(symbols: seq<string>, analyze: string -> Option<Opportunity>): (r: seq<Opportunity>)
    ensures |r| <= |symbols|
    ensures forall o :: o in r <==> exists i :: 0 <= i < |symbols| && analyze(symbols[i]) == Some(o)
  {
    var os := MapPairs(symbols, analyze);
    assert forall o :: Some(o) in os <==> exists i :: 0 <= i < |os| && os[i] == Some(o);
    Somes(os)
  }

  /** `analyze_pair` with its download: the analysis the script scans with. */
  function Analysis(fetch: string -> Candles, sqrt: real -> real): (analyze: PairAnalysis)
    ensures forall s :: analyze(s) == AnalyzePair(s, fetch(s), sqrt)
  {
    s => AnalyzePair(s, fetch(s), sqrt)
  }

  /** The corrected `analyze_pair` with its download. */
  function SafeAnalysis(fetch: string -> Candles, sqrt: real -> real): (analyze: string -> Option<Opportunity>)
    ensures forall s :: analyze(s) == AnalyzePairSafe(s, fetch(s), sqrt)
  {
    s => AnalyzePairSafe(s, fetch(s), sqrt)
  }

  /** A safe analysis agrees with a raising one where the latter returns. */
  predicate AgreesWhereDefined(analyze: PairAnalysis, safe: string -> Option<Opportunity>, symbols: seq<string>)
  {
    forall i :: 0 <= i < |symbols| && analyze(symbols[i]).Success? ==> safe(symbols[i]) == analyze(symbols[i]).value
  }

  /** Wherever the raising scan returns, it returns what the safe scan
      returns, record for record and in order. */
  lemma ScanAgrees(symbols: seq<string>, analyze: PairAnalysis, safe: string -> Option<Opportunity>)
    requires AgreesWhereDefined(analyze, safe, symbols)
    requires FindOpportunities(symbols, analyze).Success?
    ensures FindOpportunities(symbols, analyze).value == FindOpportunitiesSafe(symbols, safe)
  {
    var rs := MapPairs(symbols, analyze);
    var os := MapPairs(symbols, safe);
    CollectIsSomes(rs);
    assert Values(rs) == os;
  }

  /** The script's corrected analysis agrees with `analyze_pair` wherever
      that returns. */
  lemma ScriptAnalysesAgree(symbols: seq<string>, fetch: string -> Candles, sqrt: real -> real)
    ensures AgreesWhereDefined(Analysis(fetch, sqrt), SafeAnalysis(fetch, sqrt), symbols)
  {
    forall i | 0 <= i < |symbols| && Analysis(fetch, sqrt)(symbols[i]).Success?
      ensures SafeAnalysis(fetch, sqrt)(symbols[i]) == Analysis(fetch, sqrt)(symbols[i]).value
    {
      SafeAgreesWhereDefined(symbols[i], fetch(symbols[i]), sqrt);
    }
  }

  /** Wherever the script's scan returns, it returns exactly what the
      corrected scan returns. */
  lemma FindOpportunitiesAgrees(symbols: seq<string>, fetch: string -> Candles, sqrt: real -> real)
    requires FindOpportunities(symbols, Analysis(fetch, sqrt)).Success?
    ensures FindOpportunities(symbols, Analysis(fetch, sqrt)).value ==
      FindOpportunitiesSafe(symbols, SafeAnalysis(fetch, sqrt))
  {
    ScriptAnalysesAgree(symbols, fetch, sqrt);
    ScanAgrees(symbols, Analysis(fetch, sqrt), SafeAnalysis(fetch, sqrt));
  }

  /** The corrected scan is order-preserving pair by pair: the records of a
      list of pairs are the records of its two halves, concatenated. */
  lemma FindOpportunitiesSafeSplit(symbols: seq<string>, analyze: string -> Option<Opportunity>, k: nat)
    requires k <= |symbols|
    ensures FindOpportunitiesSafe(symbols, analyze) ==
      FindOpportunitiesSafe(symbols[..k], analyze) + FindOpportunitiesSafe(symbols[k..], analyze)
  {
    MapPairsSplit(symbols, analyze, k);
    SomesAppend(MapPairs(symbols[..k], analyze), MapPairs(symbols[k..], analyze));
  }

  /** A pair the analysis skips leaves no trace in the corrected scan. */
  lemma SkippedPairDropsOut(symbols: seq<string>, analyze: string -> Option<Opportunity>, k: nat)
    requires k < |symbols|
    requires analyze(symbols[k]) == None
    ensures FindOpportunitiesSafe(symbols, analyze) ==
      FindOpportunitiesSafe(symbols[..k], analyze) + FindOpportunitiesSafe(symbols[k + 1..], analyze)
  {
    var rest := symbols[k..];
    FindOpportunitiesSafeSplit(symbols, analyze, k);
    FindOpportunitiesSafeSplit(rest, analyze, 1);
    assert rest[1..] == symbols[k + 1..];
    assert MapPairs(rest[..1], analyze) == [None];
    assert Somes([None]) == [];
  }

  /** A pair with fewer than 14 candles (a recently listed one) makes
      `analyze_pair` raise, and the exception aborts the whole scan. */
  lemma ShortHistoryAbortsScan(symbols: seq<string>, fetch: string -> Candles, sqrt: real -> real, k: nat)
    requires k < |symbols|
    requires 0 < |fetch(symbols[k])| < Rsi.Period
    ensures Analysis(fetch, sqrt)(symbols[k]) == Failure(IndexError)
    ensures FindOpportunities(symbols, Analysis(fetch, sqrt)).Failure?
  {
    ShortHistoryLeavesNoRows(fetch(symbols[k]));
  }

  /** The corrected scan skips such a pair and still reports every other
      pair's record, in order. */
  lemma ShortHistorySkippedBySafeScan(symbols: seq<string>, fetch: string -> Candles, sqrt: real -> real, k: nat)
    requires k < |symbols|
    requires |fetch(symbols[k])| < Rsi.Period
    ensures SafeAnalysis(fetch, sqrt)(symbols[k]) == None
    ensures FindOpportunitiesSafe(symbols, SafeAnalysis(fetch, sqrt)) ==
      FindOpportunitiesSafe(symbols[..k], SafeAnalysis(fetch, sqrt)) +
      FindOpportunitiesSafe(symbols[k + 1..], SafeAnalysis(fetch, sqrt))
  {
    ShortHistoryLeavesNoRows(fetch(symbols[k]));
    SkippedPairDropsOut(symbols, SafeAnalysis(fetch, sqrt), k);
  }

  /** Every record of the corrected scan is the corrected analysis of the
      pair it names, and that pair was scanned. */
  lemma SafeRecordsNameTheirPairs(symbols: seq<string>, fetch: string -> Candles, sqrt: real -> real)
    ensures forall o :: o in FindOpportunitiesSafe(symbols, SafeAnalysis(fetch, sqrt)) ==>
      o.symbol in symbols && AnalyzePairSafe(o.symbol, fetch(o.symbol), sqrt) == Some(o)
  {
    var f := SafeAnalysis(fetch, sqrt);
    forall o | o in FindOpportunitiesSafe(symbols, f)
      ensures o.symbol in symbols && AnalyzePairSafe(o.symbol, fetch(o.symbol), sqrt) == Some(o)
    {
      var i :| 0 <= i < |symbols| && f(symbols[i]) == Some(o);
      SafeRecordNamesItsPair(symbols[i], fetch(symbols[i]), sqrt);
    }
  }

  /** The trades `main` e-mails about, in order: those scoring at least 5. */
  function AlertedTrades(trades: seq<Opportunity>): (alerted: seq<Opportunity>)
    ensures |alerted| <= |trades|
    ensures forall o :: o in alerted <==> o in trades && Alerts(o.score)
  {
    if |trades| == 0 then []
    else
      assert forall o :: o in trades <==> o == trades[0] || o in trades[1..];
      (if Alerts(trades[0].score) then [trades[0]] else []) + AlertedTrades(trades[1..])
  }

  /** One run of `main` on the corrected scan: the pair universe from the
      ticker list, every pair analysed, and the trades that trigger an
      e-mail, in pair order. Exactly the universe pairs whose record scores
      at least 5 are e-mailed. */
  function AnalysisRun(tickers: seq<Ticker>, fetch: string -> Candles, sqrt: real -> real)
    : (alerted: seq<Opportunity>)
    ensures forall o :: o in alerted ==>
      && Alerts(o.score)
      && o.symbol in UsdtPairs(tickers)
      && AnalyzePairSafe(o.symbol, fetch(o.symbol), sqrt) == Some(o)
    ensures forall s, o ::
      (s in UsdtPairs(tickers) && AnalyzePairSafe(s, fetch(s), sqrt) == Some(o) && Alerts(o.score)) ==>
      o in alerted
  {
    var pairs := UsdtPairs(tickers);
    var trades := FindOpportunitiesSafe(pairs, SafeAnalysis(fetch, sqrt));
    SafeRecordsNameTheirPairs(pairs, fetch, sqrt);
    assert forall s, o :: s in pairs && AnalyzePairSafe(s, fetch(s), sqrt) == Some(o) ==> o in trades by {
      forall s, o | s in pairs && AnalyzePairSafe(s, fetch(s), sqrt) == Some(o) ensures o in trades {
        var i :| 0 <= i < |pairs| && pairs[i] == s;
        assert SafeAnalysis(fetch, sqrt)(pairs[i]) == Some(o);
      }
    }
    AlertedTrades(trades)
  }

  /** The scan raises exactly when the analysis of some listed pair raises. */
  lemma ScanFailsIffSomePairRaises(symbols: seq<string>, analyze: PairAnalysis)
    ensures FindOpportunities(symbols, analyze).Failure? <==> exists s :: s in symbols && analyze(s).Failure?
  {
  }

  /** `main` as written: the scan raises whenever some pair's `analyze_pair`
      raises, and the exception ends the run before any e-mail is sent;
      otherwise the e-mailed trades are those of the corrected run. */
  function MainAsWritten(tickers: seq<Ticker>, fetch: string -> Candles, sqrt: real -> real)
    : (r: Result<seq<Opportunity>, ScanError>)
    ensures r.Failure? <==> exists s :: s in UsdtPairs(tickers) && AnalyzePair(s, fetch(s), sqrt).Failure?
    ensures r.Success? ==> r.value == AnalysisRun(tickers, fetch, sqrt)
  {
    var pairs := UsdtPairs(tickers);
    var scan := FindOpportunities(pairs, Analysis(fetch, sqrt));
    ScanFailsIffSomePairRaises(pairs, Analysis(fetch, sqrt));
    if scan.Failure? then Failure(scan.error)
    else
      FindOpportunitiesAgrees(pairs, fetch, sqrt);
      Success(AlertedTrades(scan.value))
  }
}
