/** The akshare holdings provider: up to three report years, newest first, each
    year's table restricted to its latest period, rows turned into holdings. */
module Akshare {
  import opened Common
  import opened Oracles
  import Eastmoney

  /** `is_available()`: whether the library could be imported. */
  function IsAvailable(w: World): bool {
    w.akshareInstalled
  }

  const Unavailable := "akshare 不可用"
  const NoData := "akshare 无可用持仓数据"
  const FetchFailedPrefix := "akshare 抓持仓失败: "

  /** `str(row[col])`; a cell the row does not have reads as pandas' missing value. */
  function Cell(row: map<string, string>, col: string): string {
    if col in row then row[col] else "nan"
  }

  /** `df is None or df.empty`: pandas calls a frame empty when it has no rows or
      no columns. */
  predicate Unusable(table: Option<DataFrame>) {
    table.None? || table.value.rows == [] || table.value.columns == {}
  }

  predicate HasHoldingColumns(cols: set<string>) {
    "股票代码" in cols && "股票名称" in cols && "占净值比例" in cols
  }

  /** The period column: `季度` when present, else `报告期`, else none. */
  function PeriodColumn(cols: set<string>): (r: Option<string>)
    ensures r.Some? ==> r.value in cols
    ensures r == Some("报告期") <==> "季度" !in cols && "报告期" in cols
    ensures r.None? <==> "季度" !in cols && "报告期" !in cols
  {
    if "季度" in cols then Some("季度") else if "报告期" in cols then Some("报告期") else None
  }

  /** `df[df[col].astype(str) == period]`: the rows of one period, in order. */
  function SamePeriod(rows: seq<map<string, string>>, col: string, period: string): (r: seq<map<string, string>>)
    ensures |r| <= |rows|
    ensures forall i :: 0 <= i < |r| ==> Cell(r[i], col) == period && r[i] in rows
    ensures forall i :: 0 <= i < |rows| && Cell(rows[i], col) == period ==> rows[i] in r
  {
    if rows == [] then []
    else
      var rest := SamePeriod(rows[1..], col, period);
      assert rows == [rows[0]] + rows[1..];
      if Cell(rows[0], col) == period then [rows[0]] + rest else rest
  }

  /** Filtering two blocks of rows is filtering each: kept rows stay in their
      original order. */
  lemma {:induction false} SamePeriodAppend(a: seq<map<string, string>>, b: seq<map<string, string>>, col: string, period: string)
    ensures SamePeriod(a + b, col, period) == SamePeriod(a, col, period) + SamePeriod(b, col, period)
  {
    if a != [] {
      var t := a[1..];
      assert (a + b)[0] == a[0] && (a + b)[1..] == t + b;
      SamePeriodAppend(t, b, col, period);
      var st, sb := SamePeriod(t, col, period), SamePeriod(b, col, period);
      if Cell(a[0], col) == period {
        calc {
          SamePeriod(a + b, col, period);
          [a[0]] + SamePeriod(t + b, col, period);
          [a[0]] + (st + sb);
          ([a[0]] + st) + sb;
          SamePeriod(a, col, period) + sb;
        }
      } else {
        assert SamePeriod(a + b, col, period) == SamePeriod(t + b, col, period);
        assert SamePeriod(a, col, period) == st;
      }
    } else {
      assert a + b == b;
    }
  }

  /** Each row occurs among the kept rows as often as among all rows when its
      period cell matches, and not at all otherwise. */
  lemma {:induction false} SamePeriodCounts(rows: seq<map<string, string>>, col: string, period: string, x: map<string, string>)
    ensures multiset(SamePeriod(rows, col, period))[x] == if Cell(x, col) == period then multiset(rows)[x] else 0
  {
    if rows != [] {
      SamePeriodCounts(rows[1..], col, period, x);
      assert rows == [rows[0]] + rows[1..];
    }
  }

  /** One row is kept exactly when its period cell matches. */
  lemma SamePeriodOne(row: map<string, string>, col: string, period: string)
    ensures SamePeriod([row], col, period) == if Cell(row, col) == period then [row] else []
  {
  }

  /** The period label and the rows kept for one usable year's table. */
  function Selection(df: DataFrame, year: int): (r: (string, seq<map<string, string>>))
    requires df.rows != []
    ensures PeriodColumn(df.columns).None? ==> r == (IntToString(year) + " 年", df.rows)
    ensures PeriodColumn(df.columns).Some? ==>
      r.0 == Cell(df.rows[0], PeriodColumn(df.columns).value) && df.rows[0] in r.1 &&
      forall i :: 0 <= i < |r.1| ==> Cell(r.1[i], PeriodColumn(df.columns).value) == r.0
  {
    match PeriodColumn(df.columns)
    case None => (IntToString(year) + " 年", df.rows)
    case Some(col) =>
      var latest := Cell(df.rows[0], col);
      (latest, SamePeriod(df.rows, col, latest))
  }

  /** `str(row[weight_col]).replace("%", "").strip() or "0"`: no `--` rule here. */
  function WeightText(cell: string): string {
    var t := Strip(ReplaceAll(cell, "%", ""));
    if t == [] then "0" else t
  }

  /** Unlike the Eastmoney scrape, a dash placeholder is left for `float` to reject. */
  lemma DashesKept()
    ensures WeightText("--") == "--"
    ensures Eastmoney.WeightText("--") == "0"
  {
    assert ReplaceAll("-", "%", "") == "-";
    assert ReplaceAll("--", "%", "") == "--";
    assert DropSpaces("--") == "--";
    assert DropTrailingSpaces("--") == "--";
    Eastmoney.WeightTextDashes();
  }

  /** The holding one table row yields: none when its weight text does not parse
      or its stripped code is empty or reads `nan` in any case. */
  function RowHolding(row: map<string, string>, parse: string -> Option<real>): (r: Option<Holding>)
    ensures r.Some? ==> r.value.symbol != [] && Lower(r.value.symbol) != "nan"
    ensures r.Some? <==>
      parse(WeightText(Cell(row, "占净值比例"))).Some? &&
      Strip(Cell(row, "股票代码")) != [] && Lower(Strip(Cell(row, "股票代码"))) != "nan"
    ensures r.Some? ==>
      r.value == Holding(Strip(Cell(row, "股票代码")), Strip(Cell(row, "股票名称")),
                         parse(WeightText(Cell(row, "占净值比例"))).value)
  {
    var symbol := Strip(Cell(row, "股票代码"));
    var name := Strip(Cell(row, "股票名称"));
    match parse(WeightText(Cell(row, "占净值比例")))
    case None => None
    case Some(weight) => if symbol != [] && Lower(symbol) != "nan" then Some(Holding(symbol, name, weight)) else None
  }

  /** A missing code cell never becomes a holding. */
  lemma MissingCodeSkipped(row: map<string, string>, parse: string -> Option<real>)
    requires "股票代码" !in row
    ensures RowHolding(row, parse).None?
  {
    assert DropSpaces("nan") == "nan";
    assert DropTrailingSpaces("nan") == "nan";
    assert Lower("nan") == "nan";
  }

  predicate UsableSymbols(hs: seq<Holding>) {
    forall k :: 0 <= k < |hs| ==> hs[k].symbol != [] && Lower(hs[k].symbol) != "nan"
  }

  lemma UsableSymbolsAppend(a: seq<Holding>, b: seq<Holding>)
    requires UsableSymbols(a) && UsableSymbols(b)
    ensures UsableSymbols(a + b)
  {
  }

  /** The holdings of the kept rows, in row order. */
  function HoldingsFromRows(rows: seq<map<string, string>>, parse: string -> Option<real>): (hs: seq<Holding>)
    ensures |hs| <= |rows|
    ensures UsableSymbols(hs)
  {
    if rows == [] then []
    else
      var init := HoldingsFromRows(rows[..|rows| - 1], parse);
      var last := RowHolding(rows[|rows| - 1], parse);
      var tail := if last.Some? then [last.value] else [];
      UsableSymbolsAppend(init, tail);
      init + tail
  }

  /** The `for _, row in sub_df.iterrows()` loop. */
  method CollectHoldings(rows: seq<map<string, string>>, parse: string -> Option<real>) returns (holdings: seq<Holding>)
    ensures holdings == HoldingsFromRows(rows, parse)
  {
    holdings := [];
    var i := 0;
    while i < |rows|
      invariant 0 <= i <= |rows|
      invariant holdings == HoldingsFromRows(rows[..i], parse)
    {
      assert rows[..i + 1][..i] == rows[..i];
      var row := rows[i];
      var symbol := Strip(Cell(row, "股票代码"));
      var name := Strip(Cell(row, "股票名称"));
      var weight := parse(WeightText(Cell(row, "占净值比例")));
      if weight.Some? && symbol != [] && Lower(symbol) != "nan" {
        holdings := holdings + [Holding(symbol, name, weight.value)];
      }
      i := i + 1;
    }
    assert rows[..i] == rows;
  }

  /** What one year of the loop comes to: the library raised, the year is passed
      over (`continue`, or no holdings), or it supplies the holdings and period. */
  datatype YearOutcome = Raised(message: string) | Skipped | Found(holdings: seq<Holding>, period: string)

  function Outcome(code: string, year: int, w: World): (r: YearOutcome)
    ensures r.Found? ==> r.holdings != [] && UsableSymbols(r.holdings)
    ensures w.portfolio(code, IntToString(year)).PortfolioRaised? <==> r.Raised?
    ensures r.Raised? ==> r.message == w.portfolio(code, IntToString(year)).message
    ensures var f := w.portfolio(code, IntToString(year));
      f.PortfolioTable? && (Unusable(f.table) || !HasHoldingColumns(f.table.value.columns)) ==> r == Skipped
    ensures var f := w.portfolio(code, IntToString(year));
      f.PortfolioTable? && !Unusable(f.table) && HasHoldingColumns(f.table.value.columns) ==>
        var sel := Selection(f.table.value, year);
        var hs := HoldingsFromRows(sel.1, w.parseFloat);
        r == if hs == [] then Skipped else Found(hs, sel.0)
  {
    match w.portfolio(code, IntToString(year))
    case PortfolioRaised(m) => Raised(m)
    case PortfolioTable(table) =>
      if Unusable(table) || !HasHoldingColumns(table.value.columns) then Skipped
      else
        var (period, kept) := Selection(table.value, year);
        var hs := HoldingsFromRows(kept, w.parseFloat);
        if hs == [] then Skipped else Found(hs, period)
  }

  /** A found year's holdings all come from the rows of its first row's period:
      holdings of two periods are never merged. */
  lemma FoundSinglePeriod(code: string, year: int, w: World)
    requires w.portfolio(code, IntToString(year)).PortfolioTable?
    requires var t := w.portfolio(code, IntToString(year)).table;
      !Unusable(t) && HasHoldingColumns(t.value.columns) && PeriodColumn(t.value.columns).Some?
    ensures var df := w.portfolio(code, IntToString(year)).table.value;
      var col := PeriodColumn(df.columns).value;
      var kept := Selection(df, year).1;
      (forall i :: 0 <= i < |kept| ==> Cell(kept[i], col) == Cell(df.rows[0], col)) &&
      (Outcome(code, year, w).Found? ==>
        Outcome(code, year, w) == Found(HoldingsFromRows(kept, w.parseFloat), Cell(df.rows[0], col)))
  {
  }

  /** The loop over years: the first outcome that is not a skip, else a skip. */
  function Scan(code: string, years: seq<int>, w: World): (r: YearOutcome)
    ensures r.Found? ==> r.holdings != [] && UsableSymbols(r.holdings)
  {
    if years == [] then Skipped
    else
      var o := Outcome(code, years[0], w);
      if o.Skipped? then Scan(code, years[1..], w) else o
  }

  /** The first year that does not skip decides the scan; later years are not consulted. */
  lemma {:induction false} ScanFirst(code: string, years: seq<int>, w: World, i: nat)
    requires i < |years|
    requires forall j :: 0 <= j < i ==> Outcome(code, years[j], w).Skipped?
    requires !Outcome(code, years[i], w).Skipped?
    ensures Scan(code, years, w) == Outcome(code, years[i], w)
  {
    if i > 0 {
      assert Outcome(code, years[0], w).Skipped?;
      assert forall j :: 0 <= j < i - 1 ==> years[1..][j] == years[j + 1];
      ScanFirst(code, years[1..], w, i - 1);
    }
  }

  /** When every year skips, the scan skips. */
  lemma {:induction false} ScanAllSkipped(code: string, years: seq<int>, w: World)
    requires forall j :: 0 <= j < |years| ==> Outcome(code, years[j], w).Skipped?
    ensures Scan(code, years, w) == Skipped
  {
    if years != [] {
      assert Outcome(code, years[0], w).Skipped?;
      assert forall j :: 0 <= j < |years| - 1 ==> years[1..][j] == years[j + 1];
      ScanAllSkipped(code, years[1..], w);
    }
  }

  /** `[current_year, current_year - 1, current_year - 2]`. */
  function Years(current: int): (ys: seq<int>)
    ensures |ys| == 3 && ys[0] == current
    ensures forall i :: 0 < i < |ys| ==> ys[i] == ys[i - 1] - 1
  {
    [current, current - 1, current - 2]
  }

  /** `AkshareHoldingsProvider.get_latest_holdings`. Every failure is a
      `ProviderError`; a success is non-empty and tagged `akshare`. */
  function LatestHoldings(code: string, w: World): (r: Result<Snapshot, Error>)
    ensures !IsAvailable(w) ==> r == Failure(ProviderError(Unavailable))
    ensures r.Failure? ==> r.error.ProviderError? && StartsWith(r.error.message, "akshare")
    ensures r.Success? ==> r.value.source == "akshare" && r.value.holdings != [] && UsableSymbols(r.value.holdings)
    ensures var s := Scan(code, Years(w.currentYear), w);
      IsAvailable(w) ==>
        (s.Skipped? ==> r == Failure(ProviderError(NoData))) &&
        (s.Raised? ==> r == Failure(ProviderError(FetchFailedPrefix + s.message))) &&
        (s.Found? ==> r == Success(Snapshot(s.holdings, s.period, "akshare")))
  {
    if !w.akshareInstalled then Failure(ProviderError(Unavailable))
    else
      match Scan(code, Years(w.currentYear), w)
      case Raised(m) => Failure(ProviderError(FetchFailedPrefix + m))
      case Skipped => Failure(ProviderError(NoData))
      case Found(hs, period) => Success(Snapshot(hs, period, "akshare"))
  }

  /** The provider's outcome year by year: when every year is skipped it reports
      no data; otherwise the first year that is not skipped decides, with its
      exception wrapped or its holdings and period returned. */
  lemma LatestHoldingsByYear(code: string, w: World)
    requires IsAvailable(w)
    ensures var ys := Years(w.currentYear);
      (forall j :: 0 <= j < 3 ==> Outcome(code, ys[j], w).Skipped?) ==>
        LatestHoldings(code, w) == Failure(ProviderError(NoData))
    ensures var ys := Years(w.currentYear);
      forall i :: 0 <= i < 3 && (forall j :: 0 <= j < i ==> Outcome(code, ys[j], w).Skipped?) ==>
        var o := Outcome(code, ys[i], w);
        (o.Raised? ==> LatestHoldings(code, w) == Failure(ProviderError(FetchFailedPrefix + o.message))) &&
        (o.Found? ==> LatestHoldings(code, w) == Success(Snapshot(o.holdings, o.period, "akshare")))
  {
    var ys := Years(w.currentYear);
    if forall j :: 0 <= j < 3 ==> Outcome(code, ys[j], w).Skipped? {
      ScanAllSkipped(code, ys, w);
    }
    forall i | 0 <= i < 3 && (forall j :: 0 <= j < i ==> Outcome(code, ys[j], w).Skipped?)
      ensures var o := Outcome(code, ys[i], w);
        (o.Raised? ==> LatestHoldings(code, w) == Failure(ProviderError(FetchFailedPrefix + o.message))) &&
        (o.Found? ==> LatestHoldings(code, w) == Success(Snapshot(o.holdings, o.period, "akshare")))
    {
      if !Outcome(code, ys[i], w).Skipped? {
        ScanFirst(code, ys, w, i);
      }
    }
  }

  /** The year loop with its `continue` and `break`, as written. */
  method GetLatestHoldings(code: string, w: World) returns (r: Result<Snapshot, Error>)
    ensures r == LatestHoldings(code, w)
  {
    if !w.akshareInstalled {
      return Failure(ProviderError(Unavailable));
    }
    var years := Years(w.currentYear);
    var best: seq<Holding> := [];
    var bestPeriod := "";
    var i := 0;
    while i < |years|
      invariant 0 <= i <= |years|
      invariant best == []
      invariant Scan(code, years, w) == Scan(code, years[i..], w)
    {
      var fetched := w.portfolio(code, IntToString(years[i]));
      if fetched.PortfolioRaised? {
        return Failure(ProviderError(FetchFailedPrefix + fetched.message));
      }
      var table := fetched.table;
      if !Unusable(table) && HasHoldingColumns(table.value.columns) {
        var (latestPeriod, kept) := Selection(table.value, years[i]);
        var holdings := CollectHoldings(kept, w.parseFloat);
        if holdings != [] {
          best := holdings;
          bestPeriod := latestPeriod;
          break;
        }
      }
      assert years[i..][1..] == years[i + 1..];
      i := i + 1;
    }
    if best == [] {
      return Failure(ProviderError(NoData));
    }
    r := Success(Snapshot(best, bestPeriod, "akshare"));
  }

  /** `AkshareHoldingsProvider.get_fund_name`: the Eastmoney name once the library is there. */
  function FundName(code: string, w: World): (r: Result<string, Error>)
    ensures !IsAvailable(w) ==> r == Failure(ProviderError(Unavailable))
    ensures IsAvailable(w) ==> r == Eastmoney.FundName(code, w)
  {
    if !w.akshareInstalled then Failure(ProviderError(Unavailable)) else Eastmoney.FundName(code, w)
  }
}
