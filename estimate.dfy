/** The valuation service: `estimate_fund` over a holdings provider and a quote
    provider, the provider fallback of `estimate_codes` and `build_fund_detail`,
    the batch and the detail view. */
module Estimate {
  import opened Common
  import opened Oracles
  import opened Quotes
  import opened Providers
  import opened Config
  import opened Valuation
  import Mock
  import Akshare
  import Eastmoney

  /** The answer a quote lookup gives against a cache, whoever asks first. */
  function Answer(entries: map<string, Option<real>>, symbol: string, resolve: string -> Option<real>): Option<real> {
    if symbol in entries then entries[symbol] else resolve(symbol)
  }

  /** One `get_pct_change` per symbol, in order, on one cache: the answers and
      the cache afterwards. */
  function QuoteRun(entries: map<string, Option<real>>, symbols: seq<string>, resolve: string -> Option<real>)
    : (r: (seq<Option<real>>, map<string, Option<real>>))
    ensures |r.0| == |symbols|
  {
    if symbols == [] then ([], entries)
    else
      var (qs, e) := QuoteRun(entries, symbols[..|symbols| - 1], resolve);
      var (v, e2) := Lookup(e, symbols[|symbols| - 1], resolve);
      (qs + [v], e2)
  }

  /** A run adds exactly the symbols it asks for and never changes an entry
      that was already cached. */
  lemma {:induction false} QuoteRunKeys(entries: map<string, Option<real>>, symbols: seq<string>,
                                        resolve: string -> Option<real>)
    ensures var e := QuoteRun(entries, symbols, resolve).1;
      (forall k :: k in e <==> k in entries || k in symbols) &&
      (forall k :: k in entries ==> e[k] == entries[k])
  {
    if symbols != [] {
      var prefix := symbols[..|symbols| - 1];
      var last := symbols[|symbols| - 1];
      QuoteRunKeys(entries, prefix, resolve);
      LookupSpec(QuoteRun(entries, prefix, resolve).1, last, resolve);
      assert symbols == prefix + [last];
    }
  }

  /** Every entry of the cache after a run, and every answer the run gives, is
      the answer its symbol gets against the starting cache: a symbol listed
      twice gets the same answer twice. */
  lemma {:induction false} QuoteRunAnswersAt(entries: map<string, Option<real>>, symbols: seq<string>,
                                             resolve: string -> Option<real>)
    ensures var r := QuoteRun(entries, symbols, resolve);
      (forall k :: k in r.1 ==> r.1[k] == Answer(entries, k, resolve)) &&
      (forall i :: 0 <= i < |symbols| ==> r.0[i] == Answer(entries, symbols[i], resolve))
  {
    if symbols != [] {
      var prefix := symbols[..|symbols| - 1];
      var last := symbols[|symbols| - 1];
      QuoteRunAnswersAt(entries, prefix, resolve);
      QuoteRunKeys(entries, prefix, resolve);
      var qs := QuoteRun(entries, prefix, resolve).0;
      var e := QuoteRun(entries, prefix, resolve).1;
      LookupSpec(e, last, resolve);
      var v := Lookup(e, last, resolve).0;
      var e2 := Lookup(e, last, resolve).1;
      assert QuoteRun(entries, symbols, resolve).0 == qs + [v];
      assert QuoteRun(entries, symbols, resolve).1 == e2;
      assert v == Answer(entries, last, resolve);
      forall k | k in e2 ensures e2[k] == Answer(entries, k, resolve) {
        if k != last {
          assert k in e;
        }
      }
      forall i | 0 <= i < |symbols| ensures (qs + [v])[i] == Answer(entries, symbols[i], resolve) {
        if i < |prefix| {
          assert prefix[i] == symbols[i];
        }
      }
    }
  }

  /** The quotes a run hands out, without the cache threading. */
  function Answers(entries: map<string, Option<real>>, symbols: seq<string>, resolve: string -> Option<real>)
    : (r: seq<Option<real>>)
    ensures |r| == |symbols|
  {
    seq(|symbols|, i requires 0 <= i < |symbols| => Answer(entries, symbols[i], resolve))
  }

  /** A run's answers depend only on the cache it starts from. */
  lemma QuoteRunAnswers(entries: map<string, Option<real>>, symbols: seq<string>, resolve: string -> Option<real>)
    ensures QuoteRun(entries, symbols, resolve).0 == Answers(entries, symbols, resolve)
  {
    QuoteRunAnswersAt(entries, symbols, resolve);
  }

  /** Mock quotes never miss, except where the cache already holds a miss (one an
      earlier live lookup stored, which a mock provider on the same cache reuses). */
  lemma MockRunComplete(entries: map<string, Option<real>>, symbols: seq<string>, w: World)
    requires forall k :: k in entries ==> entries[k].Some?
    ensures forall i :: 0 <= i < |symbols| ==> QuoteRun(entries, symbols, Resolver(MockQuotes, w)).0[i].Some?
  {
    QuoteRunAnswersAt(entries, symbols, Resolver(MockQuotes, w));
    forall i | 0 <= i < |symbols| ensures Answer(entries, symbols[i], Resolver(MockQuotes, w)).Some? {
      MockResolves(symbols[i], w);
    }
  }

  /** `estimate_fund(code, holdings_provider, quote_provider)` against a cache:
      the result and the cache afterwards. A failure of the name or the holdings
      is passed on before any quote is asked for. */
  function EstimateOutcome(code: string, holdings: HoldingsSource, quotes: QuoteSource,
                           entries: map<string, Option<real>>, w: World)
    : (r: (Result<Estimate, Error>, map<string, Option<real>>))
    ensures r.0.Failure? ==> r.1 == entries
    ensures r.0.Success? ==> r.0.value.code == code && r.0.value.source == holdings.Tag()
    ensures forall k :: k in entries ==> k in r.1 && r.1[k] == entries[k]
  {
    match FundName(holdings, code, w)
    case Failure(e) => (Failure(e), entries)
    case Success(name) =>
      match LatestHoldings(holdings, code, w)
      case Failure(e) => (Failure(e), entries)
      case Success(snap) =>
        QuoteRunKeys(entries, Symbols(snap.holdings), Resolver(quotes, w));
        var (qs, e2) := QuoteRun(entries, Symbols(snap.holdings), Resolver(quotes, w));
        (Success(Summarize(code, name, snap, qs)), e2)
  }

  /** The outcome, stated without the cache: it fails exactly when the name or the
      holdings cannot be had, with that error, and otherwise summarises the
      holdings with the answer each symbol gets against the starting cache. */
  lemma EstimateOutcomeSpec(code: string, holdings: HoldingsSource, quotes: QuoteSource,
                            entries: map<string, Option<real>>, w: World)
    ensures var r := EstimateOutcome(code, holdings, quotes, entries, w).0;
      var name := FundName(holdings, code, w);
      var latest := LatestHoldings(holdings, code, w);
      (name.Failure? ==> r == Failure(name.error)) &&
      (name.Success? && latest.Failure? ==> r == Failure(latest.error)) &&
      (name.Success? && latest.Success? ==>
        r == Success(Summarize(code, name.value, latest.value,
                               Answers(entries, Symbols(latest.value.holdings), Resolver(quotes, w)))))
  {
    var name := FundName(holdings, code, w);
    var latest := LatestHoldings(holdings, code, w);
    if name.Success? && latest.Success? {
      QuoteRunAnswers(entries, Symbols(latest.value.holdings), Resolver(quotes, w));
    }
  }

  /** A failure does not depend on the quotes: retrying with other quotes (or
      another cache) gives the same error, and asks for no quote either. */
  lemma FailureIgnoresQuotes(code: string, holdings: HoldingsSource, quotes: QuoteSource, other: QuoteSource,
                             entries: map<string, Option<real>>, others: map<string, Option<real>>, w: World)
    requires EstimateOutcome(code, holdings, quotes, entries, w).0.Failure?
    ensures EstimateOutcome(code, holdings, other, others, w) == (EstimateOutcome(code, holdings, quotes, entries, w).0, others)
  {
  }

  /** Mock holdings priced by mock quotes on a fresh cache: every holding matched. */
  lemma MockEstimateComplete(code: string, w: World)
    ensures var r := EstimateOutcome(code, MockHoldings, MockQuotes, map[], w).0;
      r.Success? && r.value.missingSymbols == [] &&
      r.value.matchedWeight == TotalWeight(Mock.MockHoldings) &&
      r.value.reportPeriod == "Mock季度" && r.value.name == Mock.MockFundName(code)
  {
    var snap := Mock.MockLatestHoldings(code);
    var (qs, _) := QuoteRun(map[], Symbols(snap.holdings), Resolver(MockQuotes, w));
    MockRunComplete(map[], Symbols(snap.holdings), w);
    AllQuoted(snap.holdings, qs);
  }

  /** Asking for one more holding's quote extends the run by one lookup. */
  lemma QuoteRunStep(start: map<string, Option<real>>, hs: seq<Holding>, i: int, resolve: string -> Option<real>)
    requires 0 <= i < |hs|
    ensures var prev := QuoteRun(start, Symbols(hs[..i]), resolve);
      var next := Lookup(prev.1, hs[i].symbol, resolve);
      QuoteRun(start, Symbols(hs[..i + 1]), resolve).0 == prev.0 + [next.0] &&
      QuoteRun(start, Symbols(hs[..i + 1]), resolve).1 == next.1
  {
    var longer := Symbols(hs[..i + 1]);
    assert longer[..i] == Symbols(hs[..i]);
    assert longer[i] == hs[i].symbol;
  }

  /** The running totals after one more holding. */
  lemma TotalsStep(hs: seq<Holding>, qs: seq<Option<real>>, i: int, pct: Option<real>)
    requires 0 <= i < |hs| && |qs| == i
    ensures Details(hs[..i + 1], qs + [pct]) == Details(hs[..i], qs) + [DetailOf(hs[i], pct)]
    ensures Matched(hs[..i + 1], qs + [pct]) == Matched(hs[..i], qs) + (if pct.Some? then hs[i].weight else 0.0)
    ensures Missing(hs[..i + 1], qs + [pct]) == Missing(hs[..i], qs) + (if pct.None? then [hs[i].symbol] else [])
  {
    var init, h := hs[..i], hs[i];
    assert hs[..i + 1] == init + [h];
    assert Details(hs[..i + 1], qs + [pct]) == Details(init, qs) + [DetailOf(h, pct)] by {
      DetailsSnoc(init, qs, h, pct);
    }
    assert Matched(hs[..i + 1], qs + [pct]) == Matched(init, qs) + (if pct.Some? then h.weight else 0.0) by {
      MatchedSnoc(init, qs, h, pct);
    }
    assert Missing(hs[..i + 1], qs + [pct]) == Missing(init, qs) + (if pct.None? then [h.symbol] else []) by {
      MissingSnoc(init, qs, h, pct);
    }
  }

  /** One pass of the `for h in holdings` body: a missing quote counts as a change
      of 0 and adds the symbol to the missing list, a present one adds the
      holding's weight to the matched weight. */
  method Accumulate(h: Holding, pct: Option<real>, details: seq<Detail>, estimated: real, matched: real, missing: seq<string>)
    returns (details': seq<Detail>, estimated': real, matched': real, missing': seq<string>)
    ensures details' == details + [DetailOf(h, pct)]
    ensures estimated' == estimated + DetailOf(h, pct).contribution
    ensures matched' == matched + (if pct.Some? then h.weight else 0.0)
    ensures missing' == missing + (if pct.None? then [h.symbol] else [])
  {
    var change := 0.0;
    matched', missing' := matched, missing;
    if pct.None? {
      missing' := missing + [h.symbol];
    } else {
      change := pct.value;
      matched' := matched + h.weight;
    }
    DetailOfFields(h, pct, change);
    var contribution := h.weight * change / 100.0;
    estimated' := estimated + contribution;
    details' := details + [Detail(h.symbol, h.name, h.weight, change, contribution)];
  }

  /** The `for h in holdings` loop of `estimate_fund`: one quote per holding, in
      order, through the provider's cache; the running estimate, matched weight,
      missing symbols and detail rows are those of the answers it got. */
  method PriceHoldings(hs: seq<Holding>, qp: QuoteProvider, w: World)
    returns (details: seq<Detail>, estimated: real, matched: real, missing: seq<string>)
    modifies qp.cache
    ensures var (qs, e) := QuoteRun(old(qp.cache.entries), Symbols(hs), Resolver(qp.source, w));
      qp.cache.entries == e &&
      details == Details(hs, qs) && estimated == Total(details) &&
      matched == Matched(hs, qs) && missing == Missing(hs, qs)
  {
    ghost var start := qp.cache.entries;
    ghost var resolve := Resolver(qp.source, w);
    ghost var qs: seq<Option<real>> := [];
    details, estimated, matched, missing := [], 0.0, 0.0, [];
    var i := 0;
    while i < |hs|
      invariant 0 <= i <= |hs|
      invariant |qs| == i
      invariant qs == QuoteRun(start, Symbols(hs[..i]), resolve).0
      invariant qp.cache.entries == QuoteRun(start, Symbols(hs[..i]), resolve).1
      invariant details == Details(hs[..i], qs)
      invariant estimated == Total(details)
      invariant matched == Matched(hs[..i], qs)
      invariant missing == Missing(hs[..i], qs)
    {
      QuoteRunStep(start, hs, i, resolve);
      var pct := qp.GetPctChange(hs[i].symbol, w);
      TotalsStep(hs, qs, i, pct);
      TotalSnoc(details, DetailOf(hs[i], pct));
      details, estimated, matched, missing := Accumulate(hs[i], pct, details, estimated, matched, missing);
      qs := qs + [pct];
      i := i + 1;
    }
    assert hs[..i] == hs;
  }

  /** `estimate_fund(code, holdings_provider, quote_provider)`: name, then
      holdings, then the quotes; the detail rows are sorted before returning. */
  method EstimateFund(code: string, holdings: HoldingsSource, qp: QuoteProvider, w: World)
    returns (r: Result<Estimate, Error>)
    modifies qp.cache
    ensures (r, qp.cache.entries) == EstimateOutcome(code, holdings, qp.source, old(qp.cache.entries), w)
  {
    var name := FundName(holdings, code, w);
    if name.Failure? {
      return Failure(name.error);
    }
    var latest := LatestHoldings(holdings, code, w);
    if latest.Failure? {
      return Failure(latest.error);
    }
    var snap := latest.value;
    var details, estimated, matched, missing := PriceHoldings(snap.holdings, qp, w);
    r := Success(Estimate(code, name.value, snap.period, estimated, matched, missing,
                          SortByContribution(details), snap.source));
  }

  /** The retry the `except ProviderError` branch of `estimate_codes` and
      `build_fund_detail` makes after a failed estimate. */
  datatype Retry = NoRetry | RetryEastmoneyHoldings | RetryMockQuotes

  function RetryFor(settings: Settings, e: Error): Retry {
    if !e.ProviderError? then NoRetry
    else if settings.holdingsMode == "auto" && Contains(Lower(e.message), "akshare") then RetryEastmoneyHoldings
    else if settings.quoteMode == "auto" then RetryMockQuotes
    else NoRetry
  }

  /** One code's estimate with the configured providers and, after a
      `ProviderError`, the one retry: the result and the shared cache afterwards. */
  function Attempt(code: string, settings: Settings, w: World, entries: map<string, Option<real>>)
    : (r: (Result<Estimate, Error>, map<string, Option<real>>))
    ensures r.0.Success? ==> r.0.value.code == code
    ensures forall k :: k in entries ==> k in r.1 && r.1[k] == entries[k]
  {
    var holdings := HoldingsSourceFor(settings.holdingsMode, Akshare.IsAvailable(w));
    var quotes := QuoteSourceFor(settings.quoteMode);
    var first := EstimateOutcome(code, holdings, quotes, entries, w);
    if first.0.Success? then first
    else
      match RetryFor(settings, first.0.error)
      case NoRetry => first
      case RetryEastmoneyHoldings => EstimateOutcome(code, EastmoneyHoldings, quotes, entries, w)
      case RetryMockQuotes => EstimateOutcome(code, holdings, MockQuotes, entries, w)
  }

  /** A message that starts with `akshare` still contains it once lower-cased. */
  lemma NamesAkshare(m: string)
    requires StartsWith(m, "akshare")
    ensures Contains(Lower(m), "akshare")
  {
    var l := Lower(m);
    forall i | 0 <= i < 7 ensures l[i] == "akshare"[i] {
      assert m[i] == m[..7][i];
    }
    assert l[..7] == "akshare";
  }

  /** In `auto` holdings mode with the library installed, a code whose akshare
      holdings cannot be had is estimated from the Eastmoney scrape instead (a
      success then reports `eastmoney`), on the cache as it was. */
  lemma AkshareFallsBackToEastmoney(code: string, settings: Settings, w: World, entries: map<string, Option<real>>)
    requires settings.holdingsMode == "auto" && Akshare.IsAvailable(w)
    requires Eastmoney.FundName(code, w).Success? && Akshare.LatestHoldings(code, w).Failure?
    ensures Attempt(code, settings, w, entries) ==
      EstimateOutcome(code, EastmoneyHoldings, QuoteSourceFor(settings.quoteMode), entries, w)
    ensures Attempt(code, settings, w, entries).0.Success? ==> Attempt(code, settings, w, entries).0.value.source == "eastmoney"
  {
    NamesAkshare(Akshare.LatestHoldings(code, w).error.message);
  }

  /** The mock-quote retry never rescues a code: every `ProviderError` comes from
      the holdings provider before any quote is asked for, so the retry on the same
      holdings provider fails again with the same error and leaves the cache alone. */
  lemma MockRetryRepeatsFailure(code: string, settings: Settings, w: World, entries: map<string, Option<real>>)
    requires var first := EstimateOutcome(code, HoldingsSourceFor(settings.holdingsMode, Akshare.IsAvailable(w)),
                                           QuoteSourceFor(settings.quoteMode), entries, w).0;
      first.Failure? && RetryFor(settings, first.error) == RetryMockQuotes
    ensures Attempt(code, settings, w, entries) ==
      EstimateOutcome(code, HoldingsSourceFor(settings.holdingsMode, Akshare.IsAvailable(w)),
                      QuoteSourceFor(settings.quoteMode), entries, w)
  {
    var holdings := HoldingsSourceFor(settings.holdingsMode, Akshare.IsAvailable(w));
    FailureIgnoresQuotes(code, holdings, QuoteSourceFor(settings.quoteMode), MockQuotes, entries, entries, w);
  }

  /** An error that is not a `ProviderError` (a network failure) is never retried,
      and neither is any error when no mode is `auto`. */
  lemma NoRetryWithoutAuto(code: string, settings: Settings, w: World, entries: map<string, Option<real>>)
    requires var first := EstimateOutcome(code, HoldingsSourceFor(settings.holdingsMode, Akshare.IsAvailable(w)),
                                           QuoteSourceFor(settings.quoteMode), entries, w).0;
      first.Failure? && (first.error.OtherError? || (settings.holdingsMode != "auto" && settings.quoteMode != "auto"))
    ensures Attempt(code, settings, w, entries) ==
      EstimateOutcome(code, HoldingsSourceFor(settings.holdingsMode, Akshare.IsAvailable(w)),
                      QuoteSourceFor(settings.quoteMode), entries, w)
  {
  }

  /** The `try` / `except ProviderError` of one code, on the shared provider and cache. */
  method EstimateWithRetry(code: string, settings: Settings, holdings: HoldingsSource, qp: QuoteProvider, w: World)
    returns (r: Result<Estimate, Error>)
    requires holdings == HoldingsSourceFor(settings.holdingsMode, Akshare.IsAvailable(w))
    requires qp.source == QuoteSourceFor(settings.quoteMode)
    modifies qp.cache
    ensures (r, qp.cache.entries) == Attempt(code, settings, w, old(qp.cache.entries))
  {
    r := EstimateFund(code, holdings, qp, w);
    if r.Failure? {
      match RetryFor(settings, r.error)
      case NoRetry =>
      case RetryEastmoneyHoldings =>
        r := EstimateFund(code, EastmoneyHoldings, qp, w);
      case RetryMockQuotes =>
        var fallback := new QuoteProvider(MockQuotes, qp.cache);
        r := EstimateFund(code, holdings, fallback, w);
    }
  }

  /** The `results` / `failures` pair `estimate_codes` returns. */
  datatype Batch = Batch(results: seq<Estimate>, failures: seq<string>)

  /** `f"{code}:{exc}"`. */
  function FailureLine(code: string, e: Error): string {
    code + ":" + e.message
  }

  /** A way of estimating one code against a cache: the result and the cache afterwards. */
  type Attempter = (string, map<string, Option<real>>) -> (Result<Estimate, Error>, map<string, Option<real>>)

  /** `Attempt` under fixed settings and world. */
  function AttemptWith(settings: Settings, w: World): (f: Attempter)
    ensures forall code, entries :: f(code, entries).0.Success? ==> f(code, entries).0.value.code == code
  {
    (code, entries) => Attempt(code, settings, w, entries)
  }

  /** The attempts for the codes in order, all on one cache that starts empty. */
  function BatchRun(codes: seq<string>, attempt: Attempter)
    : (r: (seq<Result<Estimate, Error>>, map<string, Option<real>>))
    ensures |r.0| == |codes|
  {
    if codes == [] then ([], map[])
    else
      var prev := BatchRun(codes[..|codes| - 1], attempt);
      var next := attempt(codes[|codes| - 1], prev.1);
      (prev.0 + [next.0], next.1)
  }

  /** When every attempt files its estimate under the code it was given, so does
      the batch. */
  lemma {:induction false} BatchRunCodes(codes: seq<string>, attempt: Attempter)
    requires forall code, entries :: attempt(code, entries).0.Success? ==> attempt(code, entries).0.value.code == code
    ensures var outcomes := BatchRun(codes, attempt).0;
      forall i :: 0 <= i < |codes| && outcomes[i].Success? ==> outcomes[i].value.code == codes[i]
  {
    if codes != [] {
      var n := |codes| - 1;
      BatchRunCodes(codes[..n], attempt);
      forall i | 0 <= i < n ensures codes[..n][i] == codes[i] {
      }
    }
  }

  /** The number of successes among some outcomes. */
  function SuccessCount(outcomes: seq<Result<Estimate, Error>>): (n: nat)
    ensures n <= |outcomes|
  {
    if outcomes == [] then 0
    else SuccessCount(outcomes[..|outcomes| - 1]) + (if outcomes[|outcomes| - 1].Success? then 1 else 0)
  }

  /** Successes go to `results`, failures to `failures` as `code:message`, each
      list in the order of the codes. */
  function Collect(codes: seq<string>, outcomes: seq<Result<Estimate, Error>>): Batch
    requires |codes| == |outcomes|
  {
    if codes == [] then Batch([], [])
    else
      var b := Collect(codes[..|codes| - 1], outcomes[..|outcomes| - 1]);
      match outcomes[|outcomes| - 1]
      case Success(est) => Batch(b.results + [est], b.failures)
      case Failure(e) => Batch(b.results, b.failures + [FailureLine(codes[|codes| - 1], e)])
  }

  /** Each list is as long as the outcomes of its kind. */
  lemma {:induction false} CollectCounts(codes: seq<string>, outcomes: seq<Result<Estimate, Error>>)
    requires |codes| == |outcomes|
    ensures |Collect(codes, outcomes).results| == SuccessCount(outcomes)
    ensures |Collect(codes, outcomes).failures| == |codes| - SuccessCount(outcomes)
  {
    if codes != [] {
      CollectCounts(codes[..|codes| - 1], outcomes[..|outcomes| - 1]);
    }
  }

  /** Code `i` lands in exactly one of the two lists, at the place its rank among
      the successes (or the failures) gives it: none is lost or listed twice, and
      both lists keep the order of the codes. */
  lemma {:induction false} CollectAt(codes: seq<string>, outcomes: seq<Result<Estimate, Error>>, i: int)
    requires |codes| == |outcomes| && 0 <= i < |codes|
    ensures var b := Collect(codes, outcomes);
      var k := SuccessCount(outcomes[..i]);
      (outcomes[i].Success? ==> k < |b.results| && b.results[k] == outcomes[i].value) &&
      (outcomes[i].Failure? ==> i - k < |b.failures| && b.failures[i - k] == FailureLine(codes[i], outcomes[i].error))
  {
    var n := |codes| - 1;
    var cs := codes[..n];
    var os := outcomes[..n];
    if i == n {
      CollectCounts(cs, os);
    } else {
      CollectAt(cs, os, i);
      assert os[..i] == outcomes[..i];
      assert os[i] == outcomes[i] && cs[i] == codes[i];
    }
  }

  /** `estimate_codes(codes)` with the settings read at start-up. */
  function BatchOutcome(codes: seq<string>, settings: Settings, w: World): Batch {
    Collect(codes, BatchRun(codes, AttemptWith(settings, w)).0)
  }

  /** Outcomes filed under their codes give one estimate under its own code or one
      failure line that starts with it per code, each list in the order of the codes. */
  lemma CollectPartition(codes: seq<string>, outcomes: seq<Result<Estimate, Error>>)
    requires |codes| == |outcomes|
    requires forall i :: 0 <= i < |codes| && outcomes[i].Success? ==> outcomes[i].value.code == codes[i]
    ensures |Collect(codes, outcomes).results| + |Collect(codes, outcomes).failures| == |codes|
    ensures forall i :: 0 <= i < |codes| ==> CodeFiled(codes, outcomes, Collect(codes, outcomes), i)
  {
    CollectCounts(codes, outcomes);
    forall i | 0 <= i < |codes|
      ensures CodeFiled(codes, outcomes, Collect(codes, outcomes), i)
    {
      CollectCode(codes, outcomes, i);
    }
  }

  /** Code `i` has its estimate, under its own code, or its failure line at its rank. */
  predicate CodeFiled(codes: seq<string>, outcomes: seq<Result<Estimate, Error>>, b: Batch, i: int)
    requires |codes| == |outcomes| && 0 <= i < |codes|
  {
    var k := SuccessCount(outcomes[..i]);
    (outcomes[i].Success? ==> k < |b.results| && b.results[k].code == codes[i]) &&
    (outcomes[i].Failure? ==> 0 <= i - k < |b.failures| && StartsWith(b.failures[i - k], codes[i] + ":"))
  }

  lemma CollectCode(codes: seq<string>, outcomes: seq<Result<Estimate, Error>>, i: int)
    requires |codes| == |outcomes| && 0 <= i < |codes|
    requires outcomes[i].Success? ==> outcomes[i].value.code == codes[i]
    ensures CodeFiled(codes, outcomes, Collect(codes, outcomes), i)
  {
    CollectAt(codes, outcomes, i);
    assert |outcomes[..i]| == i;
    if outcomes[i].Failure? {
      LinePrefix(codes[i], outcomes[i].error);
    }
  }

  lemma LinePrefix(code: string, e: Error)
    ensures StartsWith(FailureLine(code, e), code + ":")
  {
    assert FailureLine(code, e)[..|code + ":"|] == code + ":";
  }

  /** Each code of a batch yields one estimate under its own code or one failure
      line that starts with it; the estimates come in the order of the codes.
      `AttemptWith` meets the requirement. */
  lemma BatchPartition(codes: seq<string>, attempt: Attempter)
    requires forall code, entries :: attempt(code, entries).0.Success? ==> attempt(code, entries).0.value.code == code
    ensures var outcomes := BatchRun(codes, attempt).0;
      |Collect(codes, outcomes).results| + |Collect(codes, outcomes).failures| == |codes| &&
      forall i :: 0 <= i < |codes| ==> CodeFiled(codes, outcomes, Collect(codes, outcomes), i)
  {
    BatchRunCodes(codes, attempt);
    CollectPartition(codes, BatchRun(codes, attempt).0);
  }

  /** The batch after one more code. */
  lemma BatchRunStep(codes: seq<string>, attempt: Attempter, i: int)
    requires 0 <= i < |codes|
    ensures var prev := BatchRun(codes[..i], attempt);
      var next := attempt(codes[i], prev.1);
      BatchRun(codes[..i + 1], attempt).0 == prev.0 + [next.0] &&
      BatchRun(codes[..i + 1], attempt).1 == next.1
  {
    assert codes[..i + 1][..i] == codes[..i];
  }

  /** `estimate_codes`: one cache and one pair of providers for the whole batch,
      each code's exception turned into a failure line. */
  method EstimateCodes(codes: seq<string>, settings: Settings, w: World) returns (batch: Batch)
    ensures batch == BatchOutcome(codes, settings, w)
  {
    var cache := new QuoteCache();
    var holdings := HoldingsSourceFor(settings.holdingsMode, Akshare.IsAvailable(w));
    var qp := GetQuoteProvider(settings.quoteMode, cache);
    ghost var outcomes: seq<Result<Estimate, Error>> := [];
    var results: seq<Estimate> := [];
    var failures: seq<string> := [];
    var i := 0;
    while i < |codes|
      invariant 0 <= i <= |codes|
      invariant fresh(cache) && qp.cache == cache && qp.source == QuoteSourceFor(settings.quoteMode)
      invariant outcomes == BatchRun(codes[..i], AttemptWith(settings, w)).0
      invariant cache.entries == BatchRun(codes[..i], AttemptWith(settings, w)).1
      invariant Batch(results, failures) == Collect(codes[..i], outcomes)
    {
      BatchRunStep(codes, AttemptWith(settings, w), i);
      var r := EstimateWithRetry(codes[i], settings, holdings, qp, w);
      assert codes[..i + 1][..i] == codes[..i];
      if r.Success? {
        results := results + [r.value];
      } else {
        failures := failures + [FailureLine(codes[i], r.error)];
      }
      outcomes := outcomes + [r];
      i := i + 1;
    }
    assert codes[..i] == codes;
    batch := Batch(results, failures);
  }

  /** One row of the stage performance table. The returns, averages and rank
      numerators are md5-derived decoration and are not modelled. */
  datatype StageRow = StageRow(period: string, rankDen: int)

  /** One row of the synthetic NAV history: the day it stands for, counted back
      from today. The NAV values themselves are md5-derived and not modelled. */
  datatype NavRow = NavRow(daysAgo: int)

  /** What `build_fund_detail` returns. */
  datatype FundDetail = FundDetail(
    code: string, name: string, estimatedPct: real, matchedWeight: real,
    reportPeriod: string, source: string, holdings: seq<Detail>,
    stagePerformance: seq<StageRow>, navHistory: seq<NavRow>)

  const StagePeriods: seq<string> := ["近1月", "近3月", "近6月", "近1年", "近3年"]

  /** The stage rows the loop over `enumerate(periods)` appends. */
  function Stages(): seq<StageRow> {
    seq(|StagePeriods|, i requires 0 <= i < |StagePeriods| => StageRow(StagePeriods[i], 1000 + i * 250))
  }

  /** The NAV rows the loop over `range(30)` appends: oldest first, today last. */
  function NavDays(): seq<NavRow> {
    seq(30, idx requires 0 <= idx < 30 => NavRow(29 - idx))
  }

  /** `build_fund_detail(code)`: the estimate with the same retry as the batch, on a
      cache of its own, plus the synthetic tables; an error that survives the retry
      is raised. */
  function DetailOutcome(code: string, settings: Settings, w: World): Result<FundDetail, Error> {
    match Attempt(code, settings, w, map[]).0
    case Failure(e) => Failure(e)
    case Success(est) => Success(DetailFrom(est))
  }

  /** The detail view fails exactly when the estimate does, with its error, and
      otherwise copies the estimate (its sorted rows become the holdings) and adds
      five stage rows and thirty NAV rows, one per day up to today. */
  lemma DetailView(code: string, settings: Settings, w: World)
    ensures var est := Attempt(code, settings, w, map[]).0;
      var r := DetailOutcome(code, settings, w);
      (est.Failure? <==> r.Failure?) &&
      (est.Failure? ==> r.error == est.error) &&
      (est.Success? ==>
        r.value.code == code && r.value.name == est.value.name &&
        r.value.estimatedPct == est.value.estimatedPct && r.value.matchedWeight == est.value.matchedWeight &&
        r.value.reportPeriod == est.value.reportPeriod && r.value.source == est.value.source &&
        r.value.holdings == est.value.details && SortedDesc(r.value.holdings) &&
        |r.value.stagePerformance| == 5 && |r.value.navHistory| == 30 &&
        (forall i :: 0 <= i < 5 ==> r.value.stagePerformance[i].rankDen == 1000 + 250 * i) &&
        (forall i :: 0 <= i < 30 ==> r.value.navHistory[i].daysAgo == 29 - i))
  {
    var est := Attempt(code, settings, w, map[]).0;
    if est.Success? {
      AttemptSorted(code, settings, w, map[]);
    }
  }

  /** Every estimate lists its rows by contribution, largest first. */
  lemma AttemptSorted(code: string, settings: Settings, w: World, entries: map<string, Option<real>>)
    requires Attempt(code, settings, w, entries).0.Success?
    ensures SortedDesc(Attempt(code, settings, w, entries).0.value.details)
  {
    var holdings := HoldingsSourceFor(settings.holdingsMode, Akshare.IsAvailable(w));
    var quotes := QuoteSourceFor(settings.quoteMode);
    EstimateSorted(code, holdings, quotes, entries, w);
    EstimateSorted(code, EastmoneyHoldings, quotes, entries, w);
    EstimateSorted(code, holdings, MockQuotes, entries, w);
  }

  lemma EstimateSorted(code: string, holdings: HoldingsSource, quotes: QuoteSource,
                       entries: map<string, Option<real>>, w: World)
    ensures var r := EstimateOutcome(code, holdings, quotes, entries, w).0;
      r.Success? ==> SortedDesc(r.value.details)
  {
    var name := FundName(holdings, code, w);
    var latest := LatestHoldings(holdings, code, w);
    if name.Success? && latest.Success? {
      var symbols := Symbols(latest.value.holdings);
      var qs := QuoteRun(entries, symbols, Resolver(quotes, w)).0;
      SortSorted(Details(latest.value.holdings, qs));
    }
  }

  /** The `for i, period in enumerate(periods)` loop. */
  method StageTable() returns (stages: seq<StageRow>)
    ensures stages == Stages()
  {
    stages := [];
    for i := 0 to |StagePeriods|
      invariant stages == Stages()[..i]
    {
      stages := stages + [StageRow(StagePeriods[i], 1000 + i * 250)];
    }
  }

  /** The `for idx in range(30)` loop. */
  method NavTable() returns (nav: seq<NavRow>)
    ensures nav == NavDays()
  {
    nav := [];
    for idx := 0 to 30
      invariant nav == NavDays()[..idx]
    {
      nav := nav + [NavRow(29 - idx)];
    }
  }

  /** The view of a successful estimate. */
  function DetailFrom(est: Estimate): FundDetail {
    FundDetail(est.code, est.name, est.estimatedPct, est.matchedWeight, est.reportPeriod,
               est.source, est.details, Stages(), NavDays())
  }

  /** `build_fund_detail`: the estimate, then the two table loops. */
  method BuildFundDetail(code: string, settings: Settings, w: World) returns (r: Result<FundDetail, Error>)
    ensures r == DetailOutcome(code, settings, w)
  {
    var cache := new QuoteCache();
    var holdings := HoldingsSourceFor(settings.holdingsMode, Akshare.IsAvailable(w));
    var qp := GetQuoteProvider(settings.quoteMode, cache);
    var estimated := EstimateWithRetry(code, settings, holdings, qp, w);
    if estimated.Failure? {
      return Failure(estimated.error);
    }
    var stages := StageTable();
    var nav := NavTable();
    var est := estimated.value;
    r := Success(FundDetail(est.code, est.name, est.estimatedPct, est.matchedWeight, est.reportPeriod,
                            est.source, est.details, stages, nav));
  }
}
