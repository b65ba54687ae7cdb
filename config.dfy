/** Provider selection from the `HOLDINGS_PROVIDER` and `QUOTE_PROVIDER` settings. */
module Config {
  import opened Common
  import opened Providers
  import opened Quotes

  /** A mode as the settings hold it: no whitespace at either end and no capital letter. */
  predicate CleanMode(m: string) {
    (m == [] || (!IsSpace(m[0]) && !IsSpace(m[|m| - 1]))) &&
    forall i :: 0 <= i < |m| ==> !('A' <= m[i] <= 'Z')
  }

  /** `os.getenv(name, "auto").strip().lower()`, for an unset (`None`) or set variable. */
  function ModeOf(env: Option<string>): (mode: string)
    ensures env.None? ==> mode == "auto"
    ensures CleanMode(mode)
    ensures |mode| <= |env.GetOr("auto")|
  {
    var t := Strip(env.GetOr("auto"));
    StripShape(env.GetOr("auto"));
    Lower(t)
  }

  /** A setting already in clean form is read as it is. */
  lemma ModeOfClean(m: string)
    requires CleanMode(m)
    ensures ModeOf(Some(m)) == m
  {
    StripUnpadded(m);
    assert Lower(m) == m;
  }

  /** Reading a mode back gives the same mode. */
  lemma ModeOfIdempotent(env: Option<string>)
    ensures ModeOf(Some(ModeOf(env))) == ModeOf(env)
  {
    ModeOfClean(ModeOf(env));
  }

  /** Both modes, read once when the configuration is loaded. */
  datatype Settings = Settings(holdingsMode: string, quoteMode: string)

  /** Surrounding blanks and capitals in a setting do not matter. */
  lemma ModeExample()
    ensures ModeOf(Some(" Mock ")) == "mock"
  {
    BlanksStripped();
    assert Lower("Mock") == "mock";
  }

  lemma BlanksStripped()
    ensures Strip(" Mock ") == "Mock"
  {
    assert " Mock "[1..] == "Mock ";
    assert DropSpaces("Mock ") == "Mock ";
    assert "Mock "[..4] == "Mock";
    assert DropTrailingSpaces("Mock") == "Mock";
  }

  /** `get_holdings_provider`. */
  function HoldingsSourceFor(mode: string, akshareAvailable: bool): (r: HoldingsSource)
    ensures r == MockHoldings <==> mode == "mock"
    ensures r == AkshareHoldings <==> mode == "akshare" || (mode == "auto" && akshareAvailable)
    ensures r == EastmoneyHoldings <==>
      mode != "mock" && mode != "akshare" && (mode == "auto" ==> !akshareAvailable)
  {
    if mode == "mock" then MockHoldings
    else if mode == "eastmoney" then EastmoneyHoldings
    else if mode == "akshare" then AkshareHoldings
    else if mode == "auto" then (if akshareAvailable then AkshareHoldings else EastmoneyHoldings)
    else EastmoneyHoldings
  }

  /** `get_quote_provider`'s choice: only `mock` selects the mock quotes; `auto`
      starts on live quotes and leaves falling back to the service. */
  function QuoteSourceFor(mode: string): (r: QuoteSource)
    ensures r == MockQuotes <==> mode == "mock"
  {
    if mode == "mock" then MockQuotes else EastmoneyQuotes
  }

  /** `get_quote_provider(quote_cache)`: the provider always works on the cache passed in. */
  method GetQuoteProvider(mode: string, cache: QuoteCache?) returns (qp: QuoteProvider)
    ensures qp.source == QuoteSourceFor(mode)
    ensures cache != null ==> qp.cache == cache
    ensures cache == null ==> fresh(qp.cache) && qp.cache.entries == map[]
  {
    qp := new QuoteProvider(QuoteSourceFor(mode), cache);
  }
}
