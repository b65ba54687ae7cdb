/** Everything the engine obtains from outside: HTTP pages reduced to what the
    regular expressions find in them, the akshare library's tables, the HTML
    tokenizer, `float()` on text, quote lookups and md5. Each is a fixed function,
    so a second call with the same argument gives the same answer. */
module Oracles {
  import opened Common
  import opened TableParser

  /** `int(md5(seed).hexdigest()[:8], 16)`: the first 32 bits of an md5 digest. */
  type Hash32 = x: int | 0 <= x <= 0xFFFF_FFFF

  /** The outcome of one HTTP request: its (digested) body, or the exception raised. */
  datatype Fetch<+T> = Got(value: T) | NetError(message: string)

  /** What the two regular expressions find on the holdings archive page: the text
      of `<label class='left'>…</label>` and the `content:"…",arryear` blob. */
  datatype HoldingsPage = HoldingsPage(periodLabel: Option<string>, content: Option<string>)

  /** A pandas table: its column names and, per row, the `str()` of each cell. */
  datatype DataFrame = DataFrame(columns: set<string>, rows: seq<map<string, string>>)

  /** The outcome of `ak.fund_portfolio_hold_em(symbol=code, date=year)`. */
  datatype PortfolioFetch = PortfolioRaised(message: string) | PortfolioTable(table: Option<DataFrame>)

  datatype World = World(
    /** whether `import akshare` succeeded */
    akshareInstalled: bool,
    /** `time.localtime().tm_year` */
    currentYear: int,
    portfolio: (string, string) -> PortfolioFetch,
    /** the `fS_name = "…"` match on the fund's pingzhongdata script */
    fundNamePage: string -> Fetch<Option<string>>,
    holdingsPage: string -> Fetch<HoldingsPage>,
    /** `html.parser` tokenisation of a markup text */
    tokenize: string -> seq<Event>,
    /** `float(text)`, `None` where it raises `ValueError` */
    parseFloat: string -> Option<real>,
    /** `float(data["f170"])` of the push2 quote for a secid, `None` when the request
        fails, the payload has no data or the field is missing */
    f170: string -> Option<real>,
    md5Prefix: string -> Hash32)
}
