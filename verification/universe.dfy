/** The pair universe: USDT-quoted symbols with enough 24-hour quote volume,
    minus the stablecoins. */
module Universe {

  const Quote: string := "USDT"
  const MinQuoteVolume: real := 200000.0
  const Stablecoins: set<string> := {"USDT", "BUSD", "USDC", "DAI", "TUSD", "PAX", "GUSD", "UST"}

  /** One entry of the 24-hour ticker list. */
  datatype Ticker = Ticker(symbol: string, quoteVolume: real)

  predicate EndsWith(s: string, suffix: string)
  {
    |suffix| <= |s| && s[|s| - |suffix|..] == suffix
  }

  predicate OccursAt(s: string, pat: string, i: nat)
  {
    i + |pat| <= |s| && s[i..i + |pat|] == pat
  }

  /** Python's `s.replace(pat, "")`: scanning left to right, every
      non-overlapping occurrence of `pat` is deleted, not only a suffix. */
  function RemoveAll(s: string, pat: string): (r: string)
    requires |pat| > 0
    ensures |r| <= |s|
    ensures |s| < |pat| ==> r == s
    decreases |s|
  {
    if |s| < |pat| then s
    else if s[..|pat|] == pat then RemoveAll(s[|pat|..], pat)
    else [s[0]] + RemoveAll(s[1..], pat)
  }

  /** A string with no occurrence of the pattern is left unchanged. */
  lemma {:induction false} NoOccurrenceUnchanged(s: string, pat: string)
    requires |pat| > 0
    requires forall i: nat :: !OccursAt(s, pat, i)
    ensures RemoveAll(s, pat) == s
    decreases |s|
  {
    if |pat| <= |s| {
      assert !OccursAt(s, pat, 0);
      forall i: nat ensures !OccursAt(s[1..], pat, i) {
        assert !OccursAt(s, pat, i + 1);
        if i + |pat| <= |s[1..]| {
          assert s[1..][i..i + |pat|] == s[i + 1..i + 1 + |pat|];
        }
      }
      NoOccurrenceUnchanged(s[1..], pat);
      assert [s[0]] + s[1..] == s;
    }
  }

  /** "USDT" cannot overlap itself, so an occurrence cannot start inside the
      three characters before a trailing "USDT" and run into it. */
  lemma NoStraddle(s: string)
    requires 0 < |s| < |Quote|
    ensures (s + Quote)[..|Quote|] != Quote
  {
    assert (s + Quote)[|s|] == 'U';
    assert Quote[|s|] != 'U';
  }

  /** A string shorter than the quote asset contains no occurrence of it. */
  lemma ShortIsUnchanged(s: string)
    requires |s| < |Quote|
    ensures RemoveAll(s, Quote) == s
  {
  }

  /** A leading occurrence of the pattern is deleted. */
  lemma RemoveLeading(s: string, pat: string)
    requires 0 < |pat| <= |s| && s[..|pat|] == pat
    ensures RemoveAll(s, pat) == RemoveAll(s[|pat|..], pat)
  {
  }

  /** Otherwise the first character is kept. */
  lemma KeepFirst(s: string, pat: string)
    requires 0 < |pat| <= |s| && s[..|pat|] != pat
    ensures RemoveAll(s, pat) == [s[0]] + RemoveAll(s[1..], pat)
  {
  }

  /** Slicing identities on `a + pat + b`, kept apart from `RemoveAll`. */
  lemma DropFirst(a: string, pat: string, b: string)
    requires 0 < |a|
    ensures (a + pat + b)[1..] == a[1..] + pat + b
    ensures (a + pat + b)[0] == a[0]
  {
  }

  lemma DropPrefix(a: string, pat: string, b: string)
    requires |pat| <= |a|
    ensures (a + pat + b)[|pat|..] == a[|pat|..] + pat + b
    ensures (a + pat + b)[..|pat|] == a[..|pat|]
  {
  }

  lemma Regroup(c: char, x: string, y: string)
    ensures [c] + (x + y) == [c] + x + y
  {
  }

  lemma EmptyPrefix(a: string, pat: string, b: string)
    requires |a| == 0
    ensures a + pat + b == pat + b
  {
  }

  lemma Recompose(a: string)
    requires 0 < |a|
    ensures [a[0]] + a[1..] == a
  {
  }

  /** One to three characters before "USDT" cannot start an occurrence. */
  lemma NoStraddleBefore(a: string, b: string)
    requires 0 < |a| < |Quote|
    ensures (a + Quote + b)[..|Quote|] != Quote
  {
    NoStraddle(a);
    assert (a + Quote + b)[..|Quote|] == (a + Quote)[..|Quote|];
  }

  /** Deleting around a leading occurrence of the pattern. */
  lemma AroundEmpty(b: string, pat: string)
    requires 0 < |pat|
    ensures RemoveAll(pat + b, pat) == RemoveAll(b, pat)
  {
    var s := pat + b;
    RemoveLeading(s, pat);
    assert s[|pat|..] == b;
  }

  /** Deleting around an occurrence of the pattern whose prefix keeps its
      first character. */
  lemma AroundKeep(a: string, b: string, pat: string)
    requires 0 < |pat| && 0 < |a|
    requires (a + pat + b)[..|pat|] != pat
    requires RemoveAll(a[1..] + pat + b, pat) == RemoveAll(a[1..], pat) + RemoveAll(b, pat)
    ensures RemoveAll(a + pat + b, pat) == [a[0]] + RemoveAll(a[1..], pat) + RemoveAll(b, pat)
  {
    DropFirst(a, pat, b);
    KeepFirst(a + pat + b, pat);
    Regroup(a[0], RemoveAll(a[1..], pat), RemoveAll(b, pat));
  }

  /** Deleting around an occurrence of the pattern when the prefix itself
      starts with the pattern. */
  lemma AroundLeading(a: string, b: string, pat: string)
    requires 0 < |pat| <= |a| && a[..|pat|] == pat
    requires RemoveAll(a[|pat|..] + pat + b, pat) == RemoveAll(a[|pat|..], pat) + RemoveAll(b, pat)
    ensures RemoveAll(a + pat + b, pat) == RemoveAll(a, pat) + RemoveAll(b, pat)
  {
    DropPrefix(a, pat, b);
    RemoveLeading(a + pat + b, pat);
    RemoveLeading(a, pat);
  }

  /** A "USDT" in the middle of a string is deleted too, and the deletion
      works on the two sides of it independently. */
  lemma {:induction false} RemoveAroundQuote(a: string, b: string)
    ensures RemoveAll(a + Quote + b, Quote) == RemoveAll(a, Quote) + RemoveAll(b, Quote)
    decreases |a|
  {
    if |a| == 0 {
      EmptyPrefix(a, Quote, b);
      AroundEmpty(b, Quote);
    } else if |Quote| <= |a| && a[..|Quote|] == Quote {
      RemoveAroundQuote(a[|Quote|..], b);
      AroundLeading(a, b, Quote);
    } else if |a| < |Quote| {
      RemoveAroundQuote(a[1..], b);
      NoStraddleBefore(a, b);
      AroundKeep(a, b, Quote);
      ShortIsUnchanged(a);
      ShortIsUnchanged(a[1..]);
      Recompose(a);
    } else {
      RemoveAroundQuote(a[1..], b);
      DropPrefix(a, Quote, b);
      AroundKeep(a, b, Quote);
      KeepFirst(a, Quote);
    }
  }

  /** Deleting every "USDT" from `base + "USDT"` gives the same string as
      deleting every "USDT" from `base`: the trailing quote asset is always
      removed and never interferes with what comes before it. */
  lemma RemoveQuoteSuffix(base: string)
    ensures RemoveAll(base + Quote, Quote) == RemoveAll(base, Quote)
  {
    RemoveAroundQuote(base, []);
    assert base + Quote + [] == base + Quote;
  }

  /** Base asset of a symbol, as the filter computes it. For a USDT-quoted
      symbol it is the part before the quote asset, with every further
      "USDT" in it deleted as well. */
  function BaseAsset(symbol: string): (base: string)
    ensures |base| <= |symbol|
    ensures EndsWith(symbol, Quote) ==>
      base == RemoveAll(symbol[..|symbol| - |Quote|], Quote) && |base| <= |symbol| - |Quote|
  {
    if EndsWith(symbol, Quote) then
      var prefix := symbol[..|symbol| - |Quote|];
      assert symbol == prefix + Quote;
      RemoveQuoteSuffix(prefix);
      RemoveAll(symbol, Quote)
    else RemoveAll(symbol, Quote)
  }


  /** First stage: USDT-quoted and strictly more than 200000 of quote volume. */
  predicate Listed(t: Ticker)
  {
    EndsWith(t.symbol, Quote) && t.quoteVolume > MinQuoteVolume
  }

  function ListedSymbols(tickers: seq<Ticker>): (symbols: seq<string>)
    ensures |symbols| <= |tickers|
    ensures forall s :: s in symbols <==> exists t :: t in tickers && Listed(t) && t.symbol == s
  {
    if |tickers| == 0 then []
    else
      assert forall t :: t in tickers <==> t == tickers[0] || t in tickers[1..];
      (if Listed(tickers[0]) then [tickers[0].symbol] else []) + ListedSymbols(tickers[1..])
  }

  /** Second stage: drop symbols whose base asset is a stablecoin. */
  function DropStablecoins(symbols: seq<string>): (kept: seq<string>)
    ensures |kept| <= |symbols|
    ensures forall s :: s in kept <==> s in symbols && BaseAsset(s) !in Stablecoins
  {
    if |symbols| == 0 then []
    else
      assert forall s :: s in symbols <==> s == symbols[0] || s in symbols[1..];
      (if BaseAsset(symbols[0]) !in Stablecoins then [symbols[0]] else [])
        + DropStablecoins(symbols[1..])
  }

  /** The pairs the screener analyses. */
  function UsdtPairs(tickers: seq<Ticker>): (pairs: seq<string>)
    ensures |pairs| <= |tickers|
    ensures forall s :: s in pairs ==>
      EndsWith(s, Quote) && BaseAsset(s) !in Stablecoins
      && exists t :: t in tickers && t.symbol == s && t.quoteVolume > MinQuoteVolume
    ensures forall t :: t in tickers && Listed(t) && BaseAsset(t.symbol) !in Stablecoins ==>
      t.symbol in pairs
  {
    DropStablecoins(ListedSymbols(tickers))
  }

  /** Both stages keep the input order: the filter distributes over
      concatenation of ticker lists. */
  lemma {:induction false} UsdtPairsAppend(a: seq<Ticker>, b: seq<Ticker>)
    ensures UsdtPairs(a + b) == UsdtPairs(a) + UsdtPairs(b)
    decreases |a|
  {
    ListedAppend(a, b);
    DropStablecoinsAppend(ListedSymbols(a), ListedSymbols(b));
  }

  lemma {:induction false} ListedAppend(a: seq<Ticker>, b: seq<Ticker>)
    ensures ListedSymbols(a + b) == ListedSymbols(a) + ListedSymbols(b)
    decreases |a|
  {
    if |a| > 0 {
      assert (a + b)[1..] == a[1..] + b;
      ListedAppend(a[1..], b);
    } else {
      assert a + b == b;
    }
  }

  lemma {:induction false} DropStablecoinsAppend(a: seq<string>, b: seq<string>)
    ensures DropStablecoins(a + b) == DropStablecoins(a) + DropStablecoins(b)
    decreases |a|
  {
    if |a| > 0 {
      assert (a + b)[1..] == a[1..] + b;
      DropStablecoinsAppend(a[1..], b);
    } else {
      assert a + b == b;
    }
  }

  /** A single ticker is kept exactly when it passes both stages. */
  lemma SingleTicker(t: Ticker)
    ensures UsdtPairs([t]) == if Listed(t) && BaseAsset(t.symbol) !in Stablecoins then [t.symbol] else []
  {
    assert [t][1..] == [];
    assert [t.symbol][1..] == [];
  }

  /** A pair whose base asset is a stablecoin, such as "USDCUSDT", is
      excluded however large its volume. */
  lemma StablecoinPairExcluded(v: real)
    ensures UsdtPairs([Ticker("USDCUSDT", v)]) == []
  {
    SingleTicker(Ticker("USDCUSDT", v));
    assert BaseAsset("USDCUSDT") == "USDC" by {
      RemoveQuoteSuffix("USDC");
      assert "USDCUSDT" == "USDC" + Quote;
      assert "USDC"[..|Quote|] != Quote;
      assert RemoveAll("USDC", Quote) == "USDC";
    }
  }

  /** An ordinary pair such as "BTCUSDT" with enough volume is kept, under
      its full symbol. */
  lemma OrdinaryPairKept(v: real)
    requires v > MinQuoteVolume
    ensures UsdtPairs([Ticker("BTCUSDT", v)]) == ["BTCUSDT"]
  {
    BitcoinListed(v);
    BitcoinBase();
    SingleTicker(Ticker("BTCUSDT", v));
  }

  lemma BitcoinListed(v: real)
    requires v > MinQuoteVolume
    ensures Listed(Ticker("BTCUSDT", v))
  {
    assert "BTCUSDT"[3..] == Quote;
  }

  lemma BitcoinBase()
    ensures BaseAsset("BTCUSDT") !in Stablecoins
  {
    assert EndsWith("BTCUSDT", Quote) && "BTCUSDT"[..3] == "BTC" by {
      assert "BTCUSDT" == "BTC" + Quote;
    }
    ShortIsUnchanged("BTC");
    assert "BTC"[0] == 'B';
  }

  /** The volume bound is strict: exactly 200000 is not enough. */
  lemma VolumeBoundStrict()
    ensures UsdtPairs([Ticker("BTCUSDT", MinQuoteVolume)]) == []
  {
    SingleTicker(Ticker("BTCUSDT", MinQuoteVolume));
  }
}
