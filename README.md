# Fund valuation engine

A model of the valuation engine of a fund dashboard. The engine estimates a
mutual fund's intraday move from two inputs:

- the fund's last disclosed stock holdings;
- the live percent change of each of those stocks.

The model covers:

- **Holdings sources.** The Eastmoney holdings page scrape is modelled as a
  table parser over HTML tag events, then a header scan, then a row filter.
  The akshare multi-year provider and the mock provider are also modelled.
- **Quote resolution.** A stock symbol maps to candidate market ids ("secids").
  Quotes go through a read-through cache shared by one request.
- **Contribution calculation.** Each holding contributes `weight * change / 100`.
  The engine tracks the matched weight and the missing symbols, and sorts the
  detail rows by contribution, largest first, stably.
- **Provider selection and fallback.** Provider choice follows two mode
  strings. The batch and detail endpoints retry once, with the retry chosen by
  the kind of error.
- **The stand-alone command-line estimator.** It has weight validation and a
  direction label.
- **The single-file dashboard.** It is a second copy of the same engine. It is
  proved to give the same estimate as the service running with holdings mode
  `auto` and quote mode `eastmoney`.

Every network access, `html.parser` tokenisation, `float(...)`, md5 and the
clock are fields of one `World` value (`oracles.dfy`). This makes each
operation a deterministic function of its inputs and that value.

Modules:

- `Common`: `Option`, `Result`, `Holding`, `Snapshot` and `Error`, plus Python's
  `strip`, `lower`/`upper` and substring search.
- `Oracles`: the `World`.
- `TableParser`: the `_SimpleTableParser` state machine, both as a step function
  and as a class whose handlers update the state in place.
- `Quotes`: `_candidate_secids`, the candidate loop and the quote providers
  with their cache.
- `Mock`: the mock holdings, quote, index and gold providers.
- `Eastmoney`: the Eastmoney holdings scrape and fund name.
- `Akshare`: the akshare year loop.
- `Providers`: dispatch on the holdings provider.
- `Config`: mode-based provider selection.
- `Valuation`: detail rows, totals and the stable descending sort.
- `Estimate`: `estimate_fund`, `estimate_codes` and `build_fund_detail`.
- `Estimator`: `fund_estimator.py`.
- `Dashboard`: `fund_dashboard.py`.

## Model

| member | source | states |
|---|---|---|
| Common.CellText | app/providers/eastmoney.py:36-37 | a cell text is normalised: no surrounding whitespace, every whitespace run inside is one space |
| Common.CellTextIdempotent | app/providers/eastmoney.py:36-37 | normalising a cell text twice gives the same text as normalising it once |
| Common.StripShape | app/providers/eastmoney.py:36 | `strip` removes exactly the leading and trailing whitespace, and what remains neither starts nor ends with whitespace |
| Common.StripIdempotent | app/providers/eastmoney.py:36 | stripping a stripped text changes nothing |
| Common.Upper | app/providers/eastmoney.py:134 | upper-casing keeps the length and maps exactly the ASCII lower-case letters to upper case |
| Common.Lower | app/services/estimate.py:74 | lower-casing keeps the length and maps exactly the ASCII upper-case letters to lower case |
| TableParser.Join | app/providers/eastmoney.py:36 | joining the data pieces of a cell with one piece gives that piece |
| TableParser.StepWellFormed | app/providers/eastmoney.py:22-42 | each tag or data event keeps the parser's state well formed: collected rows are non-empty, and their cells and the pending row's cells are normalised |
| TableParser.RunWellFormed | app/providers/eastmoney.py:22-42 | a whole event sequence keeps the state well formed |
| TableParser.ParsedRowsShape | app/providers/eastmoney.py:34-42 | every parsed row has at least one cell, and every cell is stripped with collapsed whitespace |
| TableParser.RowAppendedOnlyAtRowEnd | app/providers/eastmoney.py:39-41 | an event adds a row only when it is a closing `tr` inside a row whose pending cells are non-empty; the row added is exactly those cells |
| TableParser.IgnoredContent | app/providers/eastmoney.py:22-32 | data outside a cell changes nothing; a cell tag outside a row changes nothing; `tr` opens a row with no cells; other tags change nothing |
| TableParser.RowsOnlyGrow | app/providers/eastmoney.py:39-41 | rows already collected are never changed or removed |
| TableParser.RunAppend | app/providers/eastmoney.py:75-76 | feeding two event sequences one after the other is the same as feeding their concatenation |
| TableParser.NormalizedCellText | app/providers/eastmoney.py:36-37 | an already normalised text is left as it is by cell normalisation |
| TableParser.ParseRenderRoundTrip | app/providers/eastmoney.py:13-42 | rendering non-empty rows of normalised cells as `tr`/`td` events and parsing them gives back exactly those rows, and leaves no row or cell open |
| TableParser.UnclosedRowDropped | app/providers/eastmoney.py:39-41 | a row whose closing `tr` never comes is not emitted |
| TableParser.OpenCellCarriesOver | app/providers/eastmoney.py:22-42 | a cell left open across a `tr` boundary collects the data of the next row, and that row then contains the joined cell |
| TableParser.SimpleTableParser.constructor | app/providers/eastmoney.py:14-20 | a new parser is outside any row or cell and has no rows |
| TableParser.SimpleTableParser.HandleStartTag | app/providers/eastmoney.py:22-28 | the fields become the step of a start-tag event from the old state |
| TableParser.SimpleTableParser.HandleData | app/providers/eastmoney.py:30-32 | the fields become the step of a data event from the old state |
| TableParser.SimpleTableParser.HandleEndTag | app/providers/eastmoney.py:34-42 | the fields become the step of an end-tag event from the old state |
| TableParser.SimpleTableParser.Feed | app/providers/eastmoney.py:75-76 | after feeding, the fields are the run of all events from the old state |
| Quotes.Markets | app/providers/eastmoney.py:133-144 | no market id of any symbol shape contains a dot, so a secid splits back into market and symbol |
| Quotes.MarketOf | app/providers/eastmoney.py:137-143 | the market part of a secid is a dot-free prefix of it |
| Quotes.CandidateTable | app/providers/eastmoney.py:133-144 | on the upper-cased, stripped symbol: 6 digits starting 6/5/9 give `1.s`; 6 digits starting 0/3/8/4 give `0.s` then `1.s`; 6 digits starting 1/2/7 give none; 5 digits give `116.s`; `[A-Z.]{1,10}` gives `105.s`; anything else gives none |
| Quotes.CandidateParts | app/providers/eastmoney.py:133-144 | every candidate is the market id of the symbol's shape, a dot, and the normalised symbol, in market order |
| Quotes.CandidateCount | app/providers/eastmoney.py:133-144 | a symbol has at most two candidates, and none exactly when its shape is unrecognised |
| Quotes.SixDigitsOutsideMarkets | app/providers/eastmoney.py:135-139 | six digits starting with 1, 2 or 7 match no market, and do not fall through to another rule |
| Quotes.TickerNotDigits | app/providers/eastmoney.py:142-143 | a ticker of letters and dots is classified as a US ticker |
| Quotes.CandidateExamples | app/providers/eastmoney.py:133-144 | `600519` is Shanghai-only, `000001` tries Shenzhen then Shanghai, `00700` is Hong Kong, `AAPL` is a US ticker, `ABC123` matches nothing |
| Quotes.FirstQuoteSpec | app/providers/eastmoney.py:117-130 | the candidate loop gives none exactly when every candidate's `f170` is missing; otherwise it gives the first present `f170 / 100`, and every earlier candidate had none |
| Quotes.QueryCandidates | app/providers/eastmoney.py:117-127 | the loop over candidates returns the first candidate's quote, as the candidate-loop function gives it |
| Quotes.MockResolves | app/providers/mock.py:40-44 | the mock quote source always answers, with a value between -2 and 2 |
| Quotes.LookupSpec | app/providers/eastmoney.py:113-130 | a cache hit returns the stored value, `None` included, and changes nothing; a miss stores the resolved answer under the symbol and returns it; other entries are unchanged and no other key is added |
| Quotes.LookupIdempotent | app/providers/eastmoney.py:113-115 | asking again for a symbol just looked up returns the same answer and leaves the cache as it is, whatever source the second query would use |
| Quotes.NoCandidateIsNone | app/providers/eastmoney.py:129-130 | a symbol with no candidates caches and returns `None` |
| Quotes.QuoteCache.constructor | app/services/estimate.py:62 | a new quote cache is empty |
| Quotes.QuoteProvider.constructor | app/providers/eastmoney.py:110-111 | the provider uses the cache passed in, or owns a fresh empty cache when none is given |
| Quotes.QuoteProvider.GetPctChange | app/providers/eastmoney.py:113-130 | the answer and the new cache are those of a cache lookup that falls back on the provider's source |
| Mock.Scale | app/providers/mock.py:10-13 | a ratio of an md5 prefix to `0xFFFFFFFF` scaled into `[low, high]` lies in `[low, high]` |
| Mock.StablePct | app/providers/mock.py:10-13 | `_stable_pct` lies between its bounds |
| Mock.StableBase | app/providers/mock.py:16-19 | `_stable_base` lies between its bounds |
| Mock.MockFundName | app/providers/mock.py:23-24 | the mock fund name is `Mock基金` followed by the code |
| Mock.MockLatestHoldings | app/providers/mock.py:26-33 | four holdings with positive weights and non-empty symbols, period `Mock季度`, source `mock` |
| Mock.MockHoldingsIgnoreCode | app/providers/mock.py:26-33 | every fund code gets the same mock holdings |
| Mock.IndexRows | app/providers/mock.py:47-71 | every market lists at least one index |
| Mock.UnknownMarketIsCn | app/providers/mock.py:70-71 | a market other than `hk` and `us`, after lower-casing and mapping `""` to `cn`, lists the `cn` indexes |
| Mock.GetIndexes | app/providers/mock.py:69-91 | one quote per listed index, in order, tagged with the normalised market; change and level are the stable values in their ranges, and change value is level × change / 100 |
| Mock.GetGoldQuotes | app/providers/mock.py:94-113 | exactly the three platforms, in order, with price in [520, 620] and change percent in [-1, 1] |
| Eastmoney.UnescapePlain | app/providers/eastmoney.py:74 | a blob without backslashes is left as it is by the unescape chain |
| Eastmoney.UnescapeExamples | app/providers/eastmoney.py:74 | `\/` becomes `/`, `\"` becomes `"`, and `\n` is removed |
| Eastmoney.LastWith | app/providers/eastmoney.py:80-88 | the header scan keeps the last column with a given role, or -1 when no column has it |
| Eastmoney.HeaderColumnsDistinct | app/providers/eastmoney.py:80-88 | each found index points at a column with its label; the name column does not also hold the code label; one column never sets two indexes |
| Eastmoney.ScanHeader | app/providers/eastmoney.py:80-88 | the loop over the header gives the code, name and weight indexes of the header scan |
| Eastmoney.WeightTextShape | app/providers/eastmoney.py:98 | the cleaned weight text never contains `%` and is never empty |
| Eastmoney.WeightTextPercent | app/providers/eastmoney.py:98 | `8.00%` becomes `8.00` |
| Eastmoney.WeightTextDashes | app/providers/eastmoney.py:98 | `--` becomes `0` |
| Eastmoney.WeightTextEmpty | app/providers/eastmoney.py:98 | an empty weight cell becomes `0` |
| Eastmoney.RowHolding | app/providers/eastmoney.py:94-104 | a kept row gives a holding with a non-empty symbol |
| Eastmoney.RowHoldingSpec | app/providers/eastmoney.py:94-104 | a row is kept exactly when it is long enough for all three indexes, has a non-empty stripped symbol and a weight that parses; it then gives the stripped symbol, the stripped name and the parsed weight |
| Eastmoney.HoldingsFromRows | app/providers/eastmoney.py:92-104 | at most one holding per data row, every one with a symbol |
| Eastmoney.HoldingsFromRowsAppend | app/providers/eastmoney.py:93 | holdings come out in row order: the holdings of two blocks of rows are those of the first block followed by those of the second |
| Eastmoney.HoldingsFromRow | app/providers/eastmoney.py:93-104 | one row gives its holding when it is kept, and nothing otherwise |
| Eastmoney.SkippedRow | app/providers/eastmoney.py:94-102 | a skipped row adds nothing |
| Eastmoney.CollectHoldings | app/providers/eastmoney.py:92-104 | the loop over the data rows gives the filtered holdings |
| Eastmoney.ExtractOutcomes | app/providers/eastmoney.py:70-90 | no content blob, no parsed rows and an incomplete header each fail with their own error exactly in their situation; otherwise the extraction succeeds |
| Eastmoney.LatestHoldings | app/providers/eastmoney.py:63-106 | a success is tagged `eastmoney`, holds the holdings of the data rows, and has the stripped period label or `最新披露期`; it succeeds exactly when the page is fetched and the table is well formed; structural failures are `ProviderError`s with one of the three messages |
| Eastmoney.GetLatestHoldings | app/providers/eastmoney.py:63-106 | the steps on a parser object give the scrape's result |
| Eastmoney.FundName | app/providers/eastmoney.py:58-61 | a matched `fS_name` is returned as the name; with no match the name is the code; a failed fetch fails with its error, and only then |
| Akshare.PeriodColumn | app/providers/akshare_provider.py:46 | the period column is `季度` when present, else `报告期` when present, else none |
| Akshare.SamePeriod | app/providers/akshare_provider.py:52 | the rows kept are exactly the rows whose period cell equals the given period |
| Akshare.SamePeriodAppend | app/providers/akshare_provider.py:52 | filtering two blocks of rows is filtering each, so kept rows stay in table order |
| Akshare.SamePeriodOne | app/providers/akshare_provider.py:52 | a single row is kept exactly when its period cell equals the period |
| Akshare.SamePeriodCounts | app/providers/akshare_provider.py:52 | a matching row is kept as many times as it occurs, and a non-matching row never |
| Akshare.Selection | app/providers/akshare_provider.py:50-55 | with a period column, the period is the first row's cell and every kept row has it; without one, the label is `<year> 年` and every row is kept |
| Akshare.DashesKept | app/providers/akshare_provider.py:61 | akshare does not turn `--` into `0`, unlike the Eastmoney scrape |
| Akshare.RowHolding | app/providers/akshare_provider.py:58-67 | a row is kept exactly when its weight text parses and its stripped code is non-empty and not `nan` in any case; the holding is the stripped code, the stripped name and the parsed weight |
| Akshare.MissingCodeSkipped | app/providers/akshare_provider.py:59-66 | a row without a code cell is skipped |
| Akshare.HoldingsFromRows | app/providers/akshare_provider.py:57-67 | at most one holding per row, every one with a usable symbol |
| Akshare.CollectHoldings | app/providers/akshare_provider.py:57-67 | the loop over the rows gives the filtered holdings |
| Akshare.Outcome | app/providers/akshare_provider.py:38-72 | a raise is reported with its message; no table, an empty table or a missing holding column skips the year; otherwise the year yields the holdings of the selected rows with the selected period, or is skipped when there are none |
| Akshare.FoundSinglePeriod | app/providers/akshare_provider.py:50-72 | a found year's holdings come only from rows of the first row's period, so periods are never merged |
| Akshare.Scan | app/providers/akshare_provider.py:37-72 | the year loop's result, when found, is a non-empty list of usable holdings |
| Akshare.ScanFirst | app/providers/akshare_provider.py:37-72 | the first year that is not skipped decides the outcome, and later years are not consulted |
| Akshare.ScanAllSkipped | app/providers/akshare_provider.py:37-48 | when every year is skipped, nothing is found |
| Akshare.Years | app/providers/akshare_provider.py:37 | three years, starting at the current one and descending by one |
| Akshare.LatestHoldings | app/providers/akshare_provider.py:28-79 | without the library it fails with `akshare 不可用`; a scan that finds nothing fails with `akshare 无可用持仓数据`; a raise fails with `akshare 抓持仓失败: ` and its message; a success is the found holdings and period, tagged `akshare` |
| Akshare.LatestHoldingsByYear | app/providers/akshare_provider.py:36-79 | every year skipped gives the no-data error; otherwise the first year that is not skipped decides, with its exception wrapped or its holdings and period returned |
| Akshare.GetLatestHoldings | app/providers/akshare_provider.py:28-79 | the year loop with `continue`/`break` gives the provider's result |
| Akshare.FundName | app/providers/akshare_provider.py:19-26 | without the library it fails with `ProviderError`; otherwise it is the Eastmoney fund name |
| Config.ModeOf | app/config.py:18-19 | an unset variable gives `auto`; a mode has no whitespace at either end and no capital letter |
| Config.ModeOfClean | app/config.py:18-19 | a value already without surrounding whitespace and capitals is read unchanged |
| Config.ModeOfIdempotent | app/config.py:18-19 | reading a mode back gives the same mode |
| Config.ModeExample | app/config.py:18 | a value with blanks and capitals, ` Mock `, reads as `mock` |
| Config.HoldingsSourceFor | app/config.py:24-36 | `mock` gives mock; `akshare`, or `auto` with the library installed, gives akshare; every other value gives Eastmoney |
| Config.QuoteSourceFor | app/config.py:39-48 | the mock quote source exactly for `mock`, Eastmoney otherwise |
| Config.GetQuoteProvider | app/config.py:39-48 | the provider has the selected source and uses the cache passed in, or a fresh empty one |
| Providers.FundName | app/services/estimate.py:20 | the mock name for the mock source; the akshare error without the library; otherwise the `fS_name` match, the code when there is none, or the fetch error |
| Providers.LatestHoldings | app/services/estimate.py:21 | a success is tagged with the selected source's name; the mock source gives the mock holdings |
| Valuation.DetailOf | app/services/estimate.py:29-46 | a row copies symbol, name and weight; a missing quote gives change 0 and contribution 0; contribution is weight × change / 100 |
| Valuation.DetailsAt | app/services/estimate.py:38-46 | row i is the detail of holding i, so there is exactly one row per holding, missing ones included |
| Valuation.Missing | app/services/estimate.py:30-32 | there are never more missing symbols than holdings |
| Valuation.WeightSplit | app/services/estimate.py:28-34 | matched weight plus the weight of the unquoted holdings is the total weight |
| Valuation.MatchedBounded | app/services/estimate.py:33-34 | with non-negative weights, the matched weight lies between 0 and the total weight |
| Valuation.MissingCount | app/services/estimate.py:30-32 | one missing symbol per unanswered quote |
| Valuation.MissingExactly | app/services/estimate.py:28-32 | a symbol is listed as missing exactly when some holding with that symbol got no quote |
| Valuation.AllQuoted | app/services/estimate.py:28-34 | when every quote is present, nothing is missing and the whole weight is matched |
| Valuation.SortSorted | app/services/estimate.py:48 | the sorted rows are in descending contribution order |
| Valuation.SortPermutes | app/services/estimate.py:48 | the sort is a permutation of the rows |
| Valuation.SortStable | app/services/estimate.py:48 | rows with equal contribution keep their original order |
| Valuation.SortTotal | app/services/estimate.py:48 | the sort keeps the sum of contributions |
| Valuation.SummarizeSpec | app/services/estimate.py:19-58 | the estimate carries code, name, period and source; its total is the sum of its rows; one row per holding, sorted, a permutation of the built rows; matched plus missing weight is the total weight; one missing symbol per absent quote |
| Estimate.QuoteRunKeys | app/services/estimate.py:28-29 | after the quote loop the cache holds the old keys and the holdings' symbols, and no others; old entries are unchanged |
| Estimate.QuoteRunAnswersAt | app/services/estimate.py:28-29 | every cached value and every holding's quote is the old entry when there was one, and otherwise the source's answer |
| Estimate.QuoteRunAnswers | app/services/estimate.py:28-29 | the loop's quotes are, holding by holding, the old cached value when there is one and the source's answer otherwise, so a repeated symbol gets the same quote each time |
| Estimate.MockRunComplete | app/services/estimate.py:78-79 | with the mock source and a cache without `None` entries, every holding gets a quote |
| Estimate.EstimateOutcome | app/services/estimate.py:19-58 | a failure leaves the cache unchanged; a success carries the code and the source's tag; old cache entries are kept |
| Estimate.EstimateOutcomeSpec | app/services/estimate.py:19-58 | a name failure and a holdings failure propagate in that order; otherwise the result is the summary of the holdings and their answers |
| Estimate.FailureIgnoresQuotes | app/services/estimate.py:20-21 | a failure comes from the name or the holdings, whatever the quote source and cache |
| Estimate.MockEstimateComplete | app/services/estimate.py:19-58 | the all-mock estimate succeeds with nothing missing, the whole weight matched, period `Mock季度` and the mock name |
| Estimate.Accumulate | app/services/estimate.py:29-46 | one pass of the loop body adds the holding's row, its contribution, its weight when quoted, and its symbol when not |
| Estimate.PriceHoldings | app/services/estimate.py:28-46 | the loop over the holdings leaves the cache and totals of one cached lookup per holding in order: the rows, the total, the matched weight and the missing symbols |
| Estimate.EstimateFund | app/services/estimate.py:19-58 | the result and the new cache are those of the estimate outcome |
| Estimate.Attempt | app/services/estimate.py:70-83 | a success carries the code asked for; old cache entries are kept |
| Estimate.AkshareFallsBackToEastmoney | app/services/estimate.py:73-76 | in holdings mode `auto` with the library installed, an akshare holdings failure is retried with Eastmoney holdings over the same cache, and a success is tagged `eastmoney` |
| Estimate.MockRetryRepeatsFailure | app/services/estimate.py:77-79 | the mock-quote retry re-runs name and holdings, and so fails again with the same error |
| Estimate.NoRetryWithoutAuto | app/services/estimate.py:80-83 | an error that is not a `ProviderError`, or one raised with neither mode `auto`, is final |
| Estimate.EstimateWithRetry | app/services/estimate.py:70-83 | the provider calls with the one retry give the attempt's result and cache |
| Estimate.BatchRunCodes | app/services/estimate.py:69-83 | each code's outcome, when a success, is for that code |
| Estimate.CollectCounts | app/services/estimate.py:67-85 | results count the successes, failures count the rest |
| Estimate.CollectAt | app/services/estimate.py:67-85 | the i-th code lands at its rank among the successes in results, or among the failures as `<code>:<message>`, so both lists keep input order |
| Estimate.CollectPartition | app/services/estimate.py:67-85 | results and failures together have one entry per code, and each code is filed in exactly one of them |
| Estimate.BatchPartition | app/services/estimate.py:61-85 | the batch over one shared cache files every code once, in order, whatever each attempt does |
| Estimate.EstimateCodes | app/services/estimate.py:61-85 | the loop with one fresh shared cache gives the batch outcome |
| Estimate.DetailView | app/services/estimate.py:88-149 | the detail fails exactly when the estimate fails, with its error; otherwise it copies code, name, estimate, matched weight, period and source, sets holdings to the sorted rows, and has 5 stage rows with denominators 1000 + 250·i and 30 NAV rows for 29 down to 0 days ago |
| Estimate.AttemptSorted | app/services/estimate.py:48 | the rows of a successful attempt are in descending contribution order |
| Estimate.EstimateSorted | app/services/estimate.py:48 | the rows of a successful estimate are in descending contribution order |
| Estimate.StageTable | app/services/estimate.py:103-119 | the loop builds the five stage rows |
| Estimate.NavTable | app/services/estimate.py:121-137 | the loop builds the thirty NAV rows |
| Estimate.BuildFundDetail | app/services/estimate.py:88-149 | the steps give the detail outcome |
| Estimator.NewEstimator | fund_estimator.py:32-42 | construction succeeds exactly when weights plus cash are at most 100 + 1e-9, keeping the fields; the error reports that total |
| Estimator.Direction | fund_estimator.py:57-62 | `上涨` iff positive, `下跌` iff negative, `持平` iff zero |
| Estimator.Estimate | fund_estimator.py:44-70 | the loop gives the fund's name and code, the sum of contributions, the contribution map and the direction of the sum |
| Estimator.ContributionsKeys | fund_estimator.py:48-54 | the map has a key exactly for each holding's symbol |
| Estimator.ContributionsLast | fund_estimator.py:54 | a symbol's entry is the contribution of its last holding |
| Estimator.AgreesWithService | fund_estimator.py:44-55 | the estimate equals the service's total over the same holdings, a change absent from the map being a missing quote |
| Estimator.QuotesOf | fund_estimator.py:49-52 | a change absent from the map reads as a missing quote, a present one as that quote |
| Estimator.NoChangesFlat | fund_estimator.py:49-62 | without any changes the estimate is 0 and flat |
| Estimator.DuplicateSymbol | fund_estimator.py:54-55 | with two holdings of one symbol, the map keeps the second contribution while the total counts both |
| Dashboard.FetchAkshare | fund_dashboard.py:81-129 | none without the library; a found result has holdings |
| Dashboard.AkshareAgrees | fund_dashboard.py:81-129 | the dashboard finds akshare holdings exactly when the akshare provider succeeds, with the same holdings and period; every error becomes none |
| Dashboard.FetchLatestHoldingsAkshare | fund_dashboard.py:81-129 | the year loop gives the akshare result |
| Dashboard.FetchEastmoney | fund_dashboard.py:132-175 | every failure is a plain error (`ValueError` or a network error), never a `ProviderError` |
| Dashboard.EastmoneyAgrees | fund_dashboard.py:132-175 | the dashboard scrape succeeds exactly when the provider's does, with the same holdings and period and the same failure message |
| Dashboard.FetchLatestHoldingsEastmoney | fund_dashboard.py:132-175 | the steps on a parser object give the scrape's result |
| Dashboard.FetchLatestHoldings | fund_dashboard.py:178-185 | a found akshare result is returned, tagged `akshare`; otherwise the scrape decides, tagged `eastmoney` |
| Dashboard.FetchLatestHoldingsMethod | fund_dashboard.py:178-185 | the steps give the holdings lookup's result |
| Dashboard.FetchPctChange | fund_dashboard.py:188-218 | the answer and the new cache are those of a cache lookup over the Eastmoney candidates |
| Dashboard.EstimateOutcome | fund_dashboard.py:221-260 | a failure leaves the cache unchanged; a success carries the code |
| Dashboard.AkshareFoundAgrees | fund_dashboard.py:221-260 | when akshare finds holdings, the dashboard estimate is the service estimate with akshare holdings |
| Dashboard.ScrapeAgrees | fund_dashboard.py:221-260 | otherwise the dashboard gives the same estimate and cache as the service with Eastmoney holdings, and the same failure message; only the exception class may differ |
| Dashboard.ScrapeNotRetried | app/services/estimate.py:73-83 | a failure of the Eastmoney scrape is not retried by the service in quote mode `eastmoney` |
| Dashboard.ScrapeAttempt | app/services/estimate.py:70-83 | without akshare holdings, the service attempt is the single Eastmoney estimate |
| Dashboard.AgreesWithService | fund_dashboard.py:221-260 | the dashboard's estimate and cache equal the service's in holdings mode `auto` and quote mode `eastmoney`, with the same error message on failure |
| Dashboard.EstimateFund | fund_dashboard.py:221-260 | the result and the new cache are those of the dashboard's estimate outcome |
| Dashboard.SplitCommas | fund_dashboard.py:387 | splitting gives at least one piece |
| Dashboard.SplitJoin | fund_dashboard.py:387 | joining the pieces with commas gives the query back, and no piece contains a comma |
| Dashboard.CleanCodes | fund_dashboard.py:387 | no code is empty, and there are no more codes than pieces |
| Dashboard.CleanCodesSpec | fund_dashboard.py:387 | every code is stripped, and the number of codes is the number of pieces that are not blank |
| Dashboard.CleanCodesAppend | fund_dashboard.py:387 | cleaning two blocks of pieces is cleaning each, so codes keep the order of their pieces |
| Dashboard.CleanCodesOne | fund_dashboard.py:387 | one piece gives its stripped text, or nothing when that is blank |
| Dashboard.EstimateBatch | fund_dashboard.py:385-396 | the loop over the cleaned codes with one shared cache gives the batch outcome, each code in results or failures |

## Left out

- HTTP fetching, JSON decoding of quote responses and the regex matches on the
  fetched pages (`fS_name`, the period label, the `content:"…",arryear` blob)
  are fields of the `World` value, not modelled text processing.
- `html.parser` tokenisation is a `World` field from markup to tag events. The
  parser is modelled over those events.
- `float(...)` is the abstract `parseFloat`, and `round(x, n)` is not modelled.
  Contributions, totals and weights are exact reals.
- Valuation.SortByContribution: sorts by the exact contribution, not by the
  value rounded to 4 places. Rows whose contributions differ only beyond the
  fourth decimal can therefore be ordered differently.
- `hashlib.md5` is the abstract `md5Prefix`. `_stable`, `_stable_pct` and
  `_stable_base` are stated only through their ranges.
- The synthetic stage-performance and NAV values of `build_fund_detail` are
  float presentation data. Only the periods, the rank denominators and the day
  offsets are modelled; dates and values are left out.
- `time.localtime().tm_year` and `dt.date.today()` are parameters (`currentYear`
  in the `World`, day offsets in the NAV rows). `int(time.time())` is the `now`
  parameter of the index and gold methods.
- `str(exc)` of an exception raised by the network or by akshare is modelled
  as the error's message string. Exception classes other than `ProviderError`
  are one `OtherError` kind.
- Estimate.MockRetryRepeatsFailure: the external world is a fixed value, so a
  retry that repeats the name and holdings fetches sees the same answers as
  the first try. Fetches that change between calls are not modelled.
- Common.Lower and Common.Upper: map only ASCII letters. Python's full Unicode
  case mapping is not modelled.
- Quotes.CandidateTable: its digit test (`Quotes.AllDigits`) accepts only `0`-`9`.
  Python's `str.isdigit` also accepts other Unicode digits, such as fullwidth
  or Arabic-Indic ones, which the source would send to a market and the model
  gives no candidate.
- Estimator.Contributions: a map has no order. Python's dict keeps a repeated
  symbol at its first insertion position, which only the left-out printing of
  `main` shows.
- The dashboard's `Handler`, `INDEX_HTML` and server, `app/main.py`,
  `app/serve_stdlib.py`, `app/db.py` and `app/web/app.js` are routing,
  persistence and UI, and are not part of this model. Only the batch loop of
  `do_GET` is kept, with the query decoded to the optional `codes` value.
- `app/schemas.py` and `app/providers/base.py` only define shapes. `Holding`
  and `ProviderError` are reused as datatypes.
- The command-line part of `fund_estimator.py` (`load_holdings_csv`,
  `load_changes_json`, `build_parser`, `main`) is file I/O and printing.
- Estimator.NewEstimator: keeps only the total in the `ValueError`, not its
  formatted message.
- The dashboard keeps its quote cache in a dict passed between calls. It is
  modelled with the same cache object and lookup as the service's quote
  provider, so aliasing between two distinct dicts does not arise.
