/** The deterministic synthetic providers: a fixed holdings set, md5-seeded quotes,
    and the index and gold boards built from them. */
module Mock {
  import opened Common
  import opened Oracles

  /** `low + (high - low) * ratio` with `ratio = raw / 0xFFFFFFFF` in [0, 1]
      (the rounding of the result is not modelled). */
  function Scale(raw: Hash32, low: real, high: real): (r: real)
    ensures low <= high ==> low <= r <= high
  {
    var ratio := raw as real / 4294967295.0;
    assert 0.0 <= ratio <= 1.0;
    ScaleBetween(ratio, low, high);
    low + (high - low) * ratio
  }

  lemma ScaleBetween(ratio: real, low: real, high: real)
    requires 0.0 <= ratio <= 1.0
    ensures low <= high ==> low <= low + (high - low) * ratio <= high
  {
    if low <= high {
      assert (high - low) * ratio <= (high - low) * 1.0;
    }
  }

  /** `_stable_pct(seed, low, high)`. */
  function StablePct(md5: string -> Hash32, seed: string, low: real, high: real): (r: real)
    ensures low <= high ==> low <= r <= high
  {
    Scale(md5(seed), low, high)
  }

  /** `_stable_base(seed, low, high)`: the same scale over the digest of `seed + "_base"`. */
  function StableBase(md5: string -> Hash32, seed: string, low: real, high: real): (r: real)
    ensures low <= high ==> low <= r <= high
  {
    Scale(md5(seed + "_base"), low, high)
  }

  /** `MockHoldingsProvider.get_fund_name`. */
  function MockFundName(code: string): (r: string)
    ensures StartsWith(r, "Mock基金") && r[|"Mock基金"|..] == code
  {
    "Mock基金" + code
  }

  const MockHoldings: seq<Holding> := [
    Holding("600000", "浦发银行", 8.0),
    Holding("000001", "平安银行", 6.2),
    Holding("600519", "贵州茅台", 5.1),
    Holding("000333", "美的集团", 4.6)
  ]

  /** `MockHoldingsProvider.get_latest_holdings`: the same four holdings whatever the code. */
  function MockLatestHoldings(code: string): (r: Snapshot)
    ensures r.period == "Mock季度" && r.source == "mock"
    ensures |r.holdings| == 4
    ensures forall i :: 0 <= i < |r.holdings| ==> 0.0 < r.holdings[i].weight && r.holdings[i].symbol != []
  {
    Snapshot(MockHoldings, "Mock季度", "mock")
  }

  /** The code plays no part in the mock holdings. */
  lemma MockHoldingsIgnoreCode(a: string, b: string)
    ensures MockLatestHoldings(a) == MockLatestHoldings(b)
  {
  }

  datatype IndexQuote = IndexQuote(
    code: string, name: string, current: real, changePercent: real,
    changeValue: real, market: string, status: string, updatedAt: int)

  datatype GoldQuote = GoldQuote(
    platform: string, price: real, change: real, changePercent: real,
    status: string, updatedAt: int)

  /** `(market or "cn").lower()`. */
  function NormalizeMarket(market: string): string {
    Lower(if market == "" then "cn" else market)
  }

  /** `MockIndexProvider._INDEXES.get(normalized, _INDEXES["cn"])`. */
  function IndexRows(normalized: string): (rows: seq<(string, string)>)
    ensures |rows| > 0
  {
    if normalized == "hk" then [("HSI", "恒生指数"), ("HSCEI", "恒生中国企业指数"), ("HSTECH", "恒生科技指数")]
    else if normalized == "us" then [("DJI", "道琼斯"), ("IXIC", "纳斯达克"), ("GSPC", "标普500")]
    else [("000001", "上证指数"), ("399001", "深证成指"), ("399006", "创业板指"),
          ("000300", "沪深300"), ("000688", "科创50"), ("000016", "上证50")]
  }

  /** The quote `get_indexes` builds for one listed index. */
  predicate IndexQuoteOf(q: IndexQuote, row: (string, string), normalized: string, md5: string -> Hash32, now: int) {
    q.code == row.0 && q.name == row.1 &&
    q.market == normalized && q.status == "open" && q.updatedAt == now &&
    q.changePercent == StablePct(md5, row.0 + normalized, -2.2, 2.2) &&
    q.current == StableBase(md5, row.0 + normalized, 1000.0, 30000.0) &&
    -2.2 <= q.changePercent <= 2.2 && 1000.0 <= q.current <= 30000.0 &&
    q.changeValue == q.current * q.changePercent / 100.0
  }

  /** An unknown market (anything but `hk`, `us` after normalising) lists the `cn` indexes. */
  lemma UnknownMarketIsCn(market: string)
    requires NormalizeMarket(market) != "hk" && NormalizeMarket(market) != "us"
    ensures IndexRows(NormalizeMarket(market)) == IndexRows("cn")
  {
  }

  /** `MockIndexProvider.get_indexes`: one quote per listed index, in list order,
      tagged with the normalised market; `now` is `int(time.time())`. */
  method GetIndexes(market: string, md5: string -> Hash32, now: int) returns (quotes: seq<IndexQuote>)
    ensures var normalized := NormalizeMarket(market);
      var rows := IndexRows(normalized);
      |quotes| == |rows| &&
      forall i :: 0 <= i < |quotes| ==> IndexQuoteOf(quotes[i], rows[i], normalized, md5, now)
  {
    var normalized := NormalizeMarket(market);
    var rows := IndexRows(normalized);
    quotes := [];
    var i := 0;
    while i < |rows|
      invariant 0 <= i <= |rows|
      invariant |quotes| == i
      invariant forall k :: 0 <= k < i ==> IndexQuoteOf(quotes[k], rows[k], normalized, md5, now)
    {
      var (code, name) := rows[i];
      var changePercent := StablePct(md5, code + normalized, -2.2, 2.2);
      var current := StableBase(md5, code + normalized, 1000.0, 30000.0);
      var changeValue := current * changePercent / 100.0;
      var q := IndexQuote(code, name, current, changePercent, changeValue, normalized, "open", now);
      assert IndexQuoteOf(q, rows[i], normalized, md5, now);
      quotes := quotes + [q];
      i := i + 1;
    }
  }

  const GoldPlatforms: seq<string> := ["招商", "浙商", "民生"]

  /** The quote `get_gold_quotes` builds for one platform. */
  predicate GoldQuoteOf(q: GoldQuote, platform: string, md5: string -> Hash32, now: int) {
    q.platform == platform && q.status == "tradable" && q.updatedAt == now &&
    q.price == StableBase(md5, platform, 520.0, 620.0) &&
    q.changePercent == StablePct(md5, platform, -1.0, 1.0) &&
    520.0 <= q.price <= 620.0 && -1.0 <= q.changePercent <= 1.0 &&
    q.change == q.price * q.changePercent / 100.0
  }

  /** `MockGoldProvider.get_gold_quotes`: exactly the three platforms, in order. */
  method GetGoldQuotes(md5: string -> Hash32, now: int) returns (result: seq<GoldQuote>)
    ensures |result| == |GoldPlatforms|
    ensures forall i :: 0 <= i < |result| ==> GoldQuoteOf(result[i], GoldPlatforms[i], md5, now)
  {
    result := [];
    var i := 0;
    while i < |GoldPlatforms|
      invariant 0 <= i <= |GoldPlatforms|
      invariant |result| == i
      invariant forall k :: 0 <= k < i ==> GoldQuoteOf(result[k], GoldPlatforms[k], md5, now)
    {
      var platform := GoldPlatforms[i];
      var price := StableBase(md5, platform, 520.0, 620.0);
      var changePercent := StablePct(md5, platform, -1.0, 1.0);
      var change := price * changePercent / 100.0;
      var q := GoldQuote(platform, price, change, changePercent, "tradable", now);
      assert GoldQuoteOf(q, platform, md5, now);
      result := result + [q];
      i := i + 1;
    }
  }
}
