/** Quote resolution: the symbol-shape classifier that yields candidate market
    identifiers (secids), the read-through, write-once quote cache, and the two
    quote providers (live Eastmoney lookups, md5-seeded mock values) that share it. */
module Quotes {
  import opened Common
  import opened Oracles
  import Mock

  datatype QuoteSource = EastmoneyQuotes | MockQuotes

  /** `str.isdigit()` on ASCII text: non-empty and all decimal digits. */
  predicate AllDigits(s: string) {
    |s| > 0 && forall i :: 0 <= i < |s| ==> '0' <= s[i] <= '9'
  }

  /** `re.fullmatch(r"[A-Z.]{1,10}", s)`. */
  predicate IsTickerText(s: string) {
    1 <= |s| <= 10 && forall i :: 0 <= i < |s| ==> ('A' <= s[i] <= 'Z' || s[i] == '.')
  }

  /** `symbol.upper().strip()`. */
  function NormalizeSymbol(symbol: string): string {
    Strip(Upper(symbol))
  }

  /** The symbol shapes `_candidate_secids` recognises, tested in this order. */
  datatype Shape = ShanghaiCode | SplitCode | HongKongCode | UsTicker | NoShape

  /** Six digits led by 6, 5 or 9; six digits led by 0, 3, 8 or 4; five digits;
      a short dotted upper-case ticker; anything else. */
  function ShapeOf(s: string): Shape {
    if AllDigits(s) && |s| == 6 && (s[0] == '6' || s[0] == '5' || s[0] == '9') then ShanghaiCode
    else if AllDigits(s) && |s| == 6 && (s[0] == '0' || s[0] == '3' || s[0] == '8' || s[0] == '4') then SplitCode
    else if AllDigits(s) && |s| == 5 then HongKongCode
    else if IsTickerText(s) then UsTicker
    else NoShape
  }

  /** The market prefixes tried for each shape, in order: Shanghai (1), Shenzhen
      then Shanghai (0, 1), Hong Kong (116), US (105). */
  function Markets(shape: Shape): (ms: seq<string>)
    ensures forall i :: 0 <= i < |ms| ==> '.' !in ms[i]
  {
    match shape
    case ShanghaiCode => ["1"]
    case SplitCode => ["0", "1"]
    case HongKongCode => ["116"]
    case UsTicker => ["105"]
    case NoShape => []
  }

  /** The market part of a secid: the text before its first dot. */
  function MarketOf(secid: string): (m: string)
    ensures |m| <= |secid| && m == secid[..|m|]
    ensures '.' !in m
  {
    if secid == [] || secid[0] == '.' then [] else [secid[0]] + MarketOf(secid[1..])
  }

  /** The symbol part of a secid: the text after its first dot. */
  function SymbolOf(secid: string): string {
    var m := MarketOf(secid);
    if |m| < |secid| then secid[|m| + 1..] else []
  }

  /** Splitting `market.symbol` at its first dot gives back both parts. */
  lemma {:induction false} SecidParts(market: string, s: string)
    requires '.' !in market
    ensures MarketOf(market + "." + s) == market
    ensures SymbolOf(market + "." + s) == s
  {
    if market != [] {
      assert (market + "." + s)[1..] == market[1..] + "." + s;
      SecidParts(market[1..], s);
    } else {
      assert (market + "." + s)[0] == '.';
    }
  }

  lemma SecidsParts(ms: seq<string>, s: string)
    requires forall i :: 0 <= i < |ms| ==> '.' !in ms[i]
    ensures forall i :: 0 <= i < |ms| ==> MarketOf(ms[i] + "." + s) == ms[i] && SymbolOf(ms[i] + "." + s) == s
  {
    forall i | 0 <= i < |ms|
      ensures MarketOf(ms[i] + "." + s) == ms[i] && SymbolOf(ms[i] + "." + s) == s
    {
      SecidParts(ms[i], s);
    }
  }

  /** `_candidate_secids`: the secids to try for a symbol, in order. */
  function CandidateSecids(symbol: string): (r: seq<string>) {
    var s := NormalizeSymbol(symbol);
    var ms := Markets(ShapeOf(s));
    seq(|ms|, i requires 0 <= i < |ms| => ms[i] + "." + s)
  }

  /** The candidate table on the upper-cased, stripped symbol `s`: six digits led
      by 6, 5 or 9 go to market 1; six digits led by 0, 3, 8 or 4 to market 0 and
      then 1; five digits to 116; a dotted upper-case ticker of at most ten
      characters to 105; anything else, six digits led by 1, 2 or 7 included,
      to nothing. */
  lemma CandidateTable(symbol: string)
    ensures var s := NormalizeSymbol(symbol); var r := CandidateSecids(symbol);
      (AllDigits(s) && |s| == 6 && s[0] in "659" ==> r == ["1." + s]) &&
      (AllDigits(s) && |s| == 6 && s[0] in "0384" ==> r == ["0." + s, "1." + s]) &&
      (AllDigits(s) && |s| == 6 && s[0] in "127" ==> r == []) &&
      (AllDigits(s) && |s| == 5 ==> r == ["116." + s]) &&
      (IsTickerText(s) ==> r == ["105." + s]) &&
      (!AllDigits(s) && !IsTickerText(s) ==> r == []) &&
      (AllDigits(s) && |s| != 5 && |s| != 6 ==> r == [])
  {
    var s := NormalizeSymbol(symbol);
    var r := CandidateSecids(symbol);
    var shape := ShapeOf(s);
    assert |r| == |Markets(shape)| && forall i :: 0 <= i < |r| ==> r[i] == Markets(shape)[i] + "." + s;
    if IsTickerText(s) {
      TickerNotDigits(s);
    }
    if AllDigits(s) && |s| == 6 && s[0] in "127" {
      SixDigitsOutsideMarkets(s);
    }
    if AllDigits(s) && |s| != 5 && |s| != 6 {
      assert !IsTickerText(s) by {
        assert '0' <= s[0] <= '9';
      }
    }
    match shape {
      case ShanghaiCode =>
        assert "1" + "." == "1.";
        assert r[0] == "1." + s;
      case SplitCode =>
        assert "0" + "." == "0." && "1" + "." == "1.";
        assert r[0] == "0." + s && r[1] == "1." + s;
      case HongKongCode =>
        assert "116" + "." == "116.";
        assert r[0] == "116." + s;
      case UsTicker =>
        assert "105" + "." == "105.";
        assert r[0] == "105." + s;
      case NoShape => assert r == [];
    }
  }

  /** Each candidate splits back into the market its shape is sent to and the
      normalised symbol. */
  lemma CandidateParts(symbol: string)
    ensures var s := NormalizeSymbol(symbol); var r := CandidateSecids(symbol);
      |r| == |Markets(ShapeOf(s))| &&
      forall i :: 0 <= i < |r| ==> MarketOf(r[i]) == Markets(ShapeOf(s))[i] && SymbolOf(r[i]) == s
  {
    SecidsParts(Markets(ShapeOf(NormalizeSymbol(symbol))), NormalizeSymbol(symbol));
  }

  /** At most two candidates, and none exactly when the symbol has no known shape. */
  lemma CandidateCount(symbol: string)
    ensures |CandidateSecids(symbol)| <= 2
    ensures CandidateSecids(symbol) == [] <==> ShapeOf(NormalizeSymbol(symbol)) == NoShape
  {
  }

  /** A six-digit code led by 1, 2 or 7 has no shape, hence no candidate. */
  lemma SixDigitsOutsideMarkets(s: string)
    requires AllDigits(s) && |s| == 6
    requires s[0] == '1' || s[0] == '2' || s[0] == '7'
    ensures ShapeOf(s) == NoShape
  {
    assert !IsTickerText(s) by {
      assert '0' <= s[0] <= '9';
    }
  }

  /** The shapes are told apart by the text alone: a ticker is never a digit code. */
  lemma TickerNotDigits(s: string)
    requires IsTickerText(s)
    ensures ShapeOf(s) == UsTicker
  {
    assert !AllDigits(s) by {
      assert 'A' <= s[0] <= 'Z' || s[0] == '.';
    }
  }

  /** Examples of each shape, as the source's callers use them. */
  lemma CandidateExamples()
    ensures ShapeOf("600519") == ShanghaiCode && Markets(ShanghaiCode) == ["1"]
    ensures ShapeOf("000001") == SplitCode && Markets(SplitCode) == ["0", "1"]
    ensures ShapeOf("00700") == HongKongCode
    ensures ShapeOf("AAPL") == UsTicker
    ensures ShapeOf("ABC123") == NoShape
  {
    assert "ABC123"[3] == '1';
    assert "AAPL"[0] == 'A';
  }

  /** The first candidate whose quote exists, as a percent (`f170 / 100`). */
  function FirstQuote(secids: seq<string>, f170: string -> Option<real>): Option<real> {
    if secids == [] then None
    else if f170(secids[0]).Some? then Some(f170(secids[0]).value / 100.0)
    else FirstQuote(secids[1..], f170)
  }

  /** `FirstQuote` is none exactly when every candidate fails, and otherwise the
      value of the first candidate that answers. */
  lemma {:induction false} FirstQuoteSpec(secids: seq<string>, f170: string -> Option<real>)
    ensures FirstQuote(secids, f170).None? <==> forall i :: 0 <= i < |secids| ==> f170(secids[i]).None?
    ensures FirstQuote(secids, f170).Some? ==>
      exists i :: 0 <= i < |secids| && f170(secids[i]).Some? &&
        FirstQuote(secids, f170).value == f170(secids[i]).value / 100.0 &&
        forall j :: 0 <= j < i ==> f170(secids[j]).None?
  {
    if secids != [] && f170(secids[0]).None? {
      FirstQuoteSpec(secids[1..], f170);
      if FirstQuote(secids, f170).Some? {
        var i :| 0 <= i < |secids| - 1 && f170(secids[1..][i]).Some? &&
          FirstQuote(secids[1..], f170).value == f170(secids[1..][i]).value / 100.0 &&
          forall j :: 0 <= j < i ==> f170(secids[1..][j]).None?;
        assert forall j :: 0 <= j < i + 1 ==> f170(secids[j]).None? by {
          forall j | 0 <= j < i + 1 ensures f170(secids[j]).None? {
            if j > 0 { assert secids[j] == secids[1..][j - 1]; }
          }
        }
        assert secids[i + 1] == secids[1..][i];
      }
      if forall i :: 0 <= i < |secids[1..]| ==> f170(secids[1..][i]).None? {
        forall i | 0 <= i < |secids| ensures f170(secids[i]).None? {
          if i > 0 { assert secids[i] == secids[1..][i - 1]; }
        }
      }
    } else if secids != [] {
      assert 0 <= 0 < |secids| && f170(secids[0]).Some?;
    }
  }

  /** What a provider of the given source answers for a symbol it has not cached. */
  function Resolve(source: QuoteSource, symbol: string, w: World): Option<real> {
    match source
    case EastmoneyQuotes => FirstQuote(CandidateSecids(symbol), w.f170)
    case MockQuotes => Some(Mock.StablePct(w.md5Prefix, symbol, -2.0, 2.0))
  }

  /** `Resolve` for one source, as a function of the symbol. */
  function Resolver(source: QuoteSource, w: World): string -> Option<real> {
    symbol => Resolve(source, symbol, w)
  }

  /** The mock source always answers, with a percent in [-2, 2]. */
  lemma MockResolves(symbol: string, w: World)
    ensures Resolver(MockQuotes, w)(symbol).Some?
    ensures -2.0 <= Resolver(MockQuotes, w)(symbol).value <= 2.0
  {
  }

  /** One `get_pct_change` against a cache, `resolve` giving the answer for a
      symbol not cached yet: the value returned and the new cache. */
  function Lookup(entries: map<string, Option<real>>, symbol: string, resolve: string -> Option<real>)
    : (r: (Option<real>, map<string, Option<real>>))
  {
    if symbol in entries then (entries[symbol], entries)
    else
      var v := resolve(symbol);
      (v, entries[symbol := v])
  }

  /** A hit returns the stored value, none included, and changes nothing; a miss
      stores the resolved value (none when nothing answers) under the symbol and
      returns it; no other entry changes. */
  lemma LookupSpec(entries: map<string, Option<real>>, symbol: string, resolve: string -> Option<real>)
    ensures var r := Lookup(entries, symbol, resolve);
      symbol in r.1 && r.0 == r.1[symbol] &&
      (forall k :: k in r.1 <==> k in entries || k == symbol) &&
      (forall k :: k in entries ==> r.1[k] == entries[k]) &&
      (symbol in entries ==> r == (entries[symbol], entries)) &&
      (symbol !in entries ==> r.0 == resolve(symbol))
  {
  }

  /** A symbol is resolved at most once per cache: asking again, through any
      provider sharing the cache, returns the first answer and leaves the cache
      as it was. */
  lemma LookupIdempotent(entries: map<string, Option<real>>, symbol: string,
                         first: string -> Option<real>, second: string -> Option<real>)
    ensures var (v, e) := Lookup(entries, symbol, first);
      Lookup(e, symbol, second) == (v, e)
  {
  }

  /** A symbol with no candidate is cached as none without any quote request. */
  lemma NoCandidateIsNone(entries: map<string, Option<real>>, symbol: string, w: World)
    requires symbol !in entries && ShapeOf(NormalizeSymbol(symbol)) == NoShape
    ensures Lookup(entries, symbol, Resolver(EastmoneyQuotes, w)) == (None, entries[symbol := None])
  {
  }

  /** The quote dictionary one batch shares between its providers. */
  class QuoteCache {
    var entries: map<string, Option<real>>

    constructor ()
      ensures entries == map[]
    {
      entries := map[];
    }
  }

  /** `EastmoneyQuoteProvider` or `MockQuoteProvider`, over a cache it may share. */
  class QuoteProvider {
    const source: QuoteSource
    const cache: QuoteCache

    /** Uses the cache passed in, or owns a fresh empty one when given none. */
    constructor (source: QuoteSource, cache: QuoteCache?)
      ensures this.source == source
      ensures cache != null ==> this.cache == cache
      ensures cache == null ==> fresh(this.cache) && this.cache.entries == map[]
    {
      this.source := source;
      if cache != null {
        this.cache := cache;
      } else {
        var own := new QuoteCache();
        this.cache := own;
      }
    }

    /** `get_pct_change`. */
    method GetPctChange(symbol: string, w: World) returns (pct: Option<real>)
      modifies cache
      ensures (pct, cache.entries) == Lookup(old(cache.entries), symbol, Resolver(source, w))
    {
      if symbol in cache.entries {
        return cache.entries[symbol];
      }
      if source == MockQuotes {
        cache.entries := cache.entries[symbol := Some(Mock.StablePct(w.md5Prefix, symbol, -2.0, 2.0))];
        return cache.entries[symbol];
      }
      var value := QueryCandidates(CandidateSecids(symbol), w.f170);
      cache.entries := cache.entries[symbol := value];
      pct := value;
    }
  }

  /** The candidate loop of `get_pct_change`: ask each secid in turn and stop at
      the first that answers. */
  method QueryCandidates(candidates: seq<string>, f170: string -> Option<real>) returns (value: Option<real>)
    ensures value == FirstQuote(candidates, f170)
  {
    var i := 0;
    while i < |candidates|
      invariant 0 <= i <= |candidates|
      invariant FirstQuote(candidates[i..], f170) == FirstQuote(candidates, f170)
    {
      var raw := f170(candidates[i]);
      if raw.Some? {
        return Some(raw.value / 100.0);
      }
      assert candidates[i..][1..] == candidates[i + 1..];
      i := i + 1;
    }
    value := None;
  }
}
