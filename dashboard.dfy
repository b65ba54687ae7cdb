/** The single-file dashboard: the same engine without configurable providers.
    Holdings come from akshare when it yields any, silently, and from the
    Eastmoney scrape otherwise; quotes always come from Eastmoney, through one
    dict shared by a whole request. Its table parser, candidate table and quote
    lookup are those of the provider modules (`TableParser`, `Quotes`). */
module Dashboard {
  import opened Common
  import opened Oracles
  import opened TableParser
  import opened Quotes
  import opened Valuation
  import Akshare
  import Eastmoney
  import Config
  import opened Providers
  import Service = Estimate

  /** `_fetch_latest_holdings_akshare`: the holdings and period of the first year
      that yields any; none, never an error, when the library is missing, when it
      raises, or when no year yields holdings. */
  function FetchAkshare(code: string, w: World): (r: Option<(seq<Holding>, string)>)
    ensures !Akshare.IsAvailable(w) ==> r.None?
    ensures r.Some? ==> r.value.0 != []
  {
    if !w.akshareInstalled then None
    else
      match Akshare.Scan(code, Akshare.Years(w.currentYear), w)
      case Raised(_) => None
      case Skipped => None
      case Found(hs, period) => Some((hs, period))
  }

  /** The dashboard's akshare path finds holdings exactly when the akshare
      provider does, and the same ones; where the provider raises a
      `ProviderError`, the dashboard has none. */
  lemma AkshareAgrees(code: string, w: World)
    ensures FetchAkshare(code, w).Some? <==> Akshare.LatestHoldings(code, w).Success?
    ensures FetchAkshare(code, w).Some? ==>
      Akshare.LatestHoldings(code, w).value ==
        Snapshot(FetchAkshare(code, w).value.0, FetchAkshare(code, w).value.1, "akshare")
  {
  }

  /** The year loop, with its `continue`, `break` and catch-all `except`. */
  method FetchLatestHoldingsAkshare(code: string, w: World) returns (r: Option<(seq<Holding>, string)>)
    ensures r == FetchAkshare(code, w)
  {
    if !w.akshareInstalled {
      return None;
    }
    var years := Akshare.Years(w.currentYear);
    var best: seq<Holding> := [];
    var bestPeriod := "";
    var i := 0;
    while i < |years|
      invariant 0 <= i <= |years|
      invariant best == []
      invariant Akshare.Scan(code, years, w) == Akshare.Scan(code, years[i..], w)
    {
      var fetched := w.portfolio(code, IntToString(years[i]));
      if fetched.PortfolioRaised? {
        return None;
      }
      var table := fetched.table;
      if !Akshare.Unusable(table) && Akshare.HasHoldingColumns(table.value.columns) {
        var (latestPeriod, kept) := Akshare.Selection(table.value, years[i]);
        var holdings := Akshare.CollectHoldings(kept, w.parseFloat);
        if holdings != [] {
          best := holdings;
          bestPeriod := latestPeriod;
          break;
        }
      }
      assert years[i..][1..] == years[i + 1..];
      i := i + 1;
    }
    if best != [] {
      return Some((best, bestPeriod));
    }
    r := None;
  }

  /** `_fetch_latest_holdings_eastmoney`: the scrape of the provider module, except
      that its structural failures are `ValueError`s, not `ProviderError`s. */
  function FetchEastmoney(code: string, w: World): (r: Result<(seq<Holding>, string), Error>)
    ensures r.Failure? ==> r.error.OtherError?
  {
    match w.holdingsPage(code)
    case NetError(m) => Failure(OtherError(m))
    case Got(page) =>
      match Eastmoney.ExtractHoldings(page.content, w)
      case Failure(e) => Failure(OtherError(e.Message()))
      case Success(hs) => Success((hs, Eastmoney.Period(page.periodLabel)))
  }

  /** The dashboard's scrape succeeds exactly when the provider's does, with the
      same holdings and period; a failure carries the same message, and is raised
      as a `ValueError` exactly where the provider raises a `ProviderError`. */
  lemma EastmoneyAgrees(code: string, w: World)
    ensures var mine := FetchEastmoney(code, w);
      var theirs := Eastmoney.LatestHoldings(code, w);
      (mine.Success? <==> theirs.Success?) &&
      (mine.Success? ==> theirs.value == Snapshot(mine.value.0, mine.value.1, "eastmoney")) &&
      (mine.Failure? ==> mine.error == OtherError(theirs.error.message)) &&
      (mine.Failure? ==> (theirs.error.ProviderError? <==> w.holdingsPage(code).Got?))
  {
  }

  /** The scrape run on a parser object, as written. */
  method FetchLatestHoldingsEastmoney(code: string, w: World) returns (r: Result<(seq<Holding>, string), Error>)
    ensures r == FetchEastmoney(code, w)
  {
    var fetched := w.holdingsPage(code);
    if fetched.NetError? {
      return Failure(OtherError(fetched.message));
    }
    var page := fetched.value;
    var period := Eastmoney.Period(page.periodLabel);
    if page.content.None? {
      return Failure(OtherError(Eastmoney.ExtractError.MissingContent.Message()));
    }
    var parser := new SimpleTableParser();
    parser.Feed(w.tokenize(Eastmoney.Unescape(page.content.value)));
    if parser.rows == [] {
      return Failure(OtherError(Eastmoney.ExtractError.EmptyTable.Message()));
    }
    var idx := Eastmoney.ScanHeader(parser.rows[0]);
    if !idx.Complete() {
      return Failure(OtherError(Eastmoney.ExtractError.IncompleteHeader.Message()));
    }
    var holdings := Eastmoney.CollectHoldings(parser.rows[1..], idx, w.parseFloat);
    r := Success((holdings, period));
  }

  /** `fetch_latest_holdings`: akshare's holdings when it has any, else the scrape. */
  function FetchLatestHoldings(code: string, w: World): (r: Result<Snapshot, Error>)
    ensures FetchAkshare(code, w).Some? ==>
      r == Success(Snapshot(FetchAkshare(code, w).value.0, FetchAkshare(code, w).value.1, "akshare"))
    ensures FetchAkshare(code, w).None? && r.Success? ==> r.value.source == "eastmoney"
    ensures FetchAkshare(code, w).None? ==> (r.Failure? <==> FetchEastmoney(code, w).Failure?)
  {
    match FetchAkshare(code, w)
    case Some((hs, period)) => Success(Snapshot(hs, period, "akshare"))
    case None =>
      match FetchEastmoney(code, w)
      case Failure(e) => Failure(e)
      case Success((hs, period)) => Success(Snapshot(hs, period, "eastmoney"))
  }

  method FetchLatestHoldingsMethod(code: string, w: World) returns (r: Result<Snapshot, Error>)
    ensures r == FetchLatestHoldings(code, w)
  {
    var akData := FetchLatestHoldingsAkshare(code, w);
    if akData.Some? {
      return Success(Snapshot(akData.value.0, akData.value.1, "akshare"));
    }
    var scraped := FetchLatestHoldingsEastmoney(code, w);
    if scraped.Failure? {
      return Failure(scraped.error);
    }
    r := Success(Snapshot(scraped.value.0, scraped.value.1, "eastmoney"));
  }

  /** `fetch_pct_change(symbol, quote_cache)`: the Eastmoney provider's lookup on
      the caller's dict. */
  method FetchPctChange(symbol: string, cache: QuoteCache, w: World) returns (pct: Option<real>)
    modifies cache
    ensures (pct, cache.entries) == Lookup(old(cache.entries), symbol, Resolver(EastmoneyQuotes, w))
  {
    var provider := new QuoteProvider(EastmoneyQuotes, cache);
    pct := provider.GetPctChange(symbol, w);
  }

  /** The dashboard's `estimate_fund(code, quote_cache)`: the result and the
      cache afterwards. */
  function EstimateOutcome(code: string, entries: map<string, Option<real>>, w: World)
    : (r: (Result<Estimate, Error>, map<string, Option<real>>))
    ensures r.0.Failure? ==> r.1 == entries
    ensures r.0.Success? ==> r.0.value.code == code
  {
    match Eastmoney.FundName(code, w)
    case Failure(e) => (Failure(e), entries)
    case Success(name) =>
      match FetchLatestHoldings(code, w)
      case Failure(e) => (Failure(e), entries)
      case Success(snap) =>
        var run := Service.QuoteRun(entries, Symbols(snap.holdings), Resolver(EastmoneyQuotes, w));
        (Success(Summarize(code, name, snap, run.0)), run.1)
  }

  /** Same result up to the kind of error, same cache. */
  predicate SameOutcome(mine: (Result<Estimate, Error>, map<string, Option<real>>),
                        theirs: (Result<Estimate, Error>, map<string, Option<real>>))
  {
    mine.1 == theirs.1 &&
    (mine.0.Success? <==> theirs.0.Success?) &&
    (mine.0.Success? ==> mine.0.value == theirs.0.value) &&
    (mine.0.Failure? ==> mine.0.error.message == theirs.0.error.message)
  }

  /** When akshare has holdings, the dashboard is the akshare provider's estimate. */
  lemma AkshareFoundAgrees(code: string, entries: map<string, Option<real>>, w: World)
    requires FetchAkshare(code, w).Some?
    ensures EstimateOutcome(code, entries, w) == Service.EstimateOutcome(code, AkshareHoldings, EastmoneyQuotes, entries, w)
  {
    AkshareAgrees(code, w);
  }

  /** When it has none, the dashboard is the Eastmoney provider's estimate, up to the
      kind of error. */
  lemma ScrapeAgrees(code: string, entries: map<string, Option<real>>, w: World)
    requires FetchAkshare(code, w).None?
    ensures SameOutcome(EstimateOutcome(code, entries, w),
                        Service.EstimateOutcome(code, EastmoneyHoldings, EastmoneyQuotes, entries, w))
  {
    EastmoneyAgrees(code, w);
  }

  /** A text without an `a` in either case never names akshare. */
  lemma {:induction false} NoAkshare(m: string)
    requires forall i :: 0 <= i < |m| ==> m[i] != 'a' && m[i] != 'A'
    ensures !Contains(Lower(m), "akshare")
  {
    var l := Lower(m);
    ContainsAt(l, "akshare");
    if exists i :: OccursAt(l, "akshare", i) {
      var i :| OccursAt(l, "akshare", i);
      OccursHead(l, "akshare", i);
      assert false;
    }
  }

  lemma OccursHead(s: string, sub: string, i: int)
    requires OccursAt(s, sub, i) && sub != []
    ensures s[i] == sub[0]
  {
    assert s[i..i + |sub|][0] == s[i];
  }

  /** The Eastmoney provider's errors are never retried in `auto` mode with live
      quotes: its structural messages do not name akshare. */
  lemma ScrapeNotRetried(code: string, entries: map<string, Option<real>>, w: World)
    requires Service.EstimateOutcome(code, EastmoneyHoldings, EastmoneyQuotes, entries, w).0.Failure?
    ensures Service.RetryFor(Config.Settings("auto", "eastmoney"),
                             Service.EstimateOutcome(code, EastmoneyHoldings, EastmoneyQuotes, entries, w).0.error) == Service.NoRetry
  {
    var e := Service.EstimateOutcome(code, EastmoneyHoldings, EastmoneyQuotes, entries, w).0.error;
    if e.ProviderError? {
      assert e.message in {"未解析到持仓内容", "持仓表为空", "持仓表字段不完整"};
      NoAkshare(e.message);
    }
  }

  /** Without akshare holdings, the service in `auto` mode with live quotes ends
      on the Eastmoney provider's estimate, directly or after its retry. */
  lemma ScrapeAttempt(code: string, entries: map<string, Option<real>>, w: World)
    requires FetchAkshare(code, w).None?
    ensures SameOutcome(Service.EstimateOutcome(code, EastmoneyHoldings, EastmoneyQuotes, entries, w),
                        Service.Attempt(code, Config.Settings("auto", "eastmoney"), w, entries))
  {
    var scrape := Service.EstimateOutcome(code, EastmoneyHoldings, EastmoneyQuotes, entries, w);
    if scrape.0.Failure? {
      ScrapeNotRetried(code, entries, w);
    }
    if w.akshareInstalled && Eastmoney.FundName(code, w).Success? {
      AkshareAgrees(code, w);
      Service.AkshareFallsBackToEastmoney(code, Config.Settings("auto", "eastmoney"), w, entries);
    }
  }

  /** The dashboard is the service in `auto` holdings mode with live quotes: the
      same estimate and cache, and a failure with the same message (the service
      raises the scrape's structural failures as `ProviderError`s). */
  lemma AgreesWithService(code: string, entries: map<string, Option<real>>, w: World)
    ensures SameOutcome(EstimateOutcome(code, entries, w),
                        Service.Attempt(code, Config.Settings("auto", "eastmoney"), w, entries))
  {
    if FetchAkshare(code, w).Some? {
      AkshareFoundAgrees(code, entries, w);
      AkshareAgrees(code, w);
    } else {
      ScrapeAgrees(code, entries, w);
      ScrapeAttempt(code, entries, w);
    }
  }

  /** The dashboard's `estimate_fund`: its holdings loop is the service's, on a
      provider over the caller's dict. */
  method EstimateFund(code: string, cache: QuoteCache, w: World) returns (r: Result<Estimate, Error>)
    modifies cache
    ensures (r, cache.entries) == EstimateOutcome(code, old(cache.entries), w)
  {
    var name := Eastmoney.FundName(code, w);
    if name.Failure? {
      return Failure(name.error);
    }
    var latest := FetchLatestHoldingsMethod(code, w);
    if latest.Failure? {
      return Failure(latest.error);
    }
    var snap := latest.value;
    var provider := new QuoteProvider(EastmoneyQuotes, cache);
    var details, estimated, matched, missing := Service.PriceHoldings(snap.holdings, provider, w);
    r := Success(Estimate(code, name.value, snap.period, estimated, matched, missing,
                          SortByContribution(details), snap.source));
  }

  /** `s.split(",")`: the pieces between commas, empty ones included. */
  function SplitCommas(s: string): (parts: seq<string>)
    ensures |parts| >= 1
  {
    if s == [] then [""]
    else
      var rest := SplitCommas(s[1..]);
      if s[0] == ',' then [""] + rest else [[s[0]] + rest[0]] + rest[1..]
  }

  /** `",".join(parts)`. */
  function JoinCommas(parts: seq<string>): string
    requires |parts| >= 1
  {
    if |parts| == 1 then parts[0] else parts[0] + "," + JoinCommas(parts[1..])
  }

  /** Splitting loses nothing: joining the pieces back gives the text, and no
      piece holds a comma. */
  lemma {:induction false} SplitJoin(s: string)
    ensures JoinCommas(SplitCommas(s)) == s
    ensures forall i :: 0 <= i < |SplitCommas(s)| ==> ',' !in SplitCommas(s)[i]
  {
    if s != [] {
      var rest := SplitCommas(s[1..]);
      SplitJoin(s[1..]);
      if s[0] == ',' {
        assert ([""] + rest)[1..] == rest;
      } else {
        var parts := [[s[0]] + rest[0]] + rest[1..];
        if |rest| > 1 {
          assert parts[1..] == rest[1..];
          assert JoinCommas(rest) == rest[0] + "," + JoinCommas(rest[1..]);
        }
        forall i | 0 <= i < |parts| ensures ',' !in parts[i] {
          if i > 0 {
            assert parts[i] == rest[i];
          }
        }
      }
    }
  }

  /** `[c.strip() for c in pieces if c.strip()]`. */
  function CleanCodes(pieces: seq<string>): (codes: seq<string>)
    ensures |codes| <= |pieces|
    ensures forall i :: 0 <= i < |codes| ==> codes[i] != []
  {
    if pieces == [] then []
    else
      var init := CleanCodes(pieces[..|pieces| - 1]);
      var c := Strip(pieces[|pieces| - 1]);
      if c == [] then init else init + [c]
  }

  /** The codes of a request are its pieces with blanks trimmed, blank pieces
      dropped: each code is trimmed, and a piece is dropped only when it is blank. */
  lemma {:induction false} CleanCodesSpec(pieces: seq<string>)
    ensures forall i :: 0 <= i < |CleanCodes(pieces)| ==> Strip(CleanCodes(pieces)[i]) == CleanCodes(pieces)[i]
    ensures |CleanCodes(pieces)| == |pieces| - BlankCount(pieces)
  {
    if pieces != [] {
      var c := Strip(pieces[|pieces| - 1]);
      CleanCodesSpec(pieces[..|pieces| - 1]);
      StripIdempotent(pieces[|pieces| - 1]);
    }
  }

  /** Cleaning two blocks of pieces is cleaning each: codes keep the order of
      their pieces. */
  lemma {:induction false} CleanCodesAppend(a: seq<string>, b: seq<string>)
    ensures CleanCodes(a + b) == CleanCodes(a) + CleanCodes(b)
    decreases |b|
  {
    if b == [] {
      assert a + b == a;
    } else {
      var init := b[..|b| - 1];
      assert (a + b)[..|a + b| - 1] == a + init;
      assert (a + b)[|a + b| - 1] == b[|b| - 1];
      CleanCodesAppend(a, init);
    }
  }

  /** One piece gives its stripped text, or nothing when that is empty. */
  lemma CleanCodesOne(piece: string)
    ensures CleanCodes([piece]) == if Strip(piece) == [] then [] else [Strip(piece)]
  {
  }

  /** The number of pieces that are blank once stripped. */
  function BlankCount(pieces: seq<string>): nat {
    if pieces == [] then 0
    else BlankCount(pieces[..|pieces| - 1]) + (if Strip(pieces[|pieces| - 1]) == [] then 1 else 0)
  }

  /** The codes of `/api/estimate?codes=...`; a request without the parameter has none. */
  function RequestCodes(query: Option<string>): seq<string> {
    CleanCodes(SplitCommas(query.GetOr("")))
  }

  /** The dashboard's estimate under a fixed world, as a batch step. */
  function AttemptWith(w: World): (f: Service.Attempter)
    ensures forall code, entries :: f(code, entries).0.Success? ==> f(code, entries).0.value.code == code
  {
    (code, entries) => EstimateOutcome(code, entries, w)
  }

  /** The `/api/estimate` batch: the request's codes, one dict for all of them. */
  function BatchOutcome(query: Option<string>, w: World): Service.Batch {
    var codes := RequestCodes(query);
    Service.Collect(codes, Service.BatchRun(codes, AttemptWith(w)).0)
  }

  /** The batch loop of `do_GET`. */
  method EstimateBatch(query: Option<string>, w: World) returns (batch: Service.Batch)
    ensures batch == BatchOutcome(query, w)
  {
    var codes := RequestCodes(query);
    var cache := new QuoteCache();
    ghost var outcomes: seq<Result<Estimate, Error>> := [];
    var results: seq<Estimate> := [];
    var failures: seq<string> := [];
    var i := 0;
    while i < |codes|
      invariant 0 <= i <= |codes|
      invariant fresh(cache)
      invariant outcomes == Service.BatchRun(codes[..i], AttemptWith(w)).0
      invariant cache.entries == Service.BatchRun(codes[..i], AttemptWith(w)).1
      invariant Service.Batch(results, failures) == Service.Collect(codes[..i], outcomes)
    {
      Service.BatchRunStep(codes, AttemptWith(w), i);
      var r := EstimateFund(codes[i], cache, w);
      assert codes[..i + 1][..i] == codes[..i];
      if r.Success? {
        results := results + [r.value];
      } else {
        failures := failures + [Service.FailureLine(codes[i], r.error)];
      }
      outcomes := outcomes + [r];
      i := i + 1;
    }
    assert codes[..i] == codes;
    batch := Service.Batch(results, failures);
  }
}
