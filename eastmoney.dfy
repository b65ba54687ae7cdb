/** The Eastmoney holdings scrape: unescaping the archive page's markup blob,
    parsing its table, locating the code, name and weight columns, and turning
    each data row into a holding or skipping it. */
module Eastmoney {
  import opened Common
  import opened Oracles
  import opened TableParser

  /** `.replace('\\"', '"').replace("\\n", "").replace("\\/", "/")`, in that order. */
  function Unescape(blob: string): string {
    ReplaceAll(ReplaceAll(ReplaceAll(blob, "\\\"", "\""), "\\n", ""), "\\/", "/")
  }

  /** Text without a backslash has no escape to undo. */
  lemma UnescapePlain(blob: string)
    requires '\\' !in blob
    ensures Unescape(blob) == blob
  {
    AbsentHead(blob, "\\\"");
    ReplaceAbsent(blob, "\\\"", "\"");
    AbsentHead(blob, "\\n");
    ReplaceAbsent(blob, "\\n", "");
    AbsentHead(blob, "\\/");
    ReplaceAbsent(blob, "\\/", "/");
  }

  /** A text cannot contain a pattern whose first character it lacks. */
  lemma {:induction false} AbsentHead(s: string, pat: string)
    requires pat != [] && pat[0] !in s
    ensures !Contains(s, pat)
    decreases |s|
  {
    if s != [] {
      assert s[0] != pat[0];
      AbsentHead(s[1..], pat);
    }
  }

  /** The three escapes the page uses are each undone. */
  lemma UnescapeExamples()
    ensures Unescape("\\/") == "/"
    ensures Unescape("\\\"") == "\""
    ensures Unescape("\\n") == ""
  {
  }

  /** Which index a header cell sets: the `if`/`elif` chain tests the code label
      first, then the name label, then the weight label, so a cell sets at most one. */
  datatype Role = CodeColumn | NameColumn | WeightColumn | OtherColumn

  function RoleOf(col: string): Role {
    if Contains(col, "股票代码") then CodeColumn
    else if Contains(col, "股票名称") then NameColumn
    else if Contains(col, "占净值") then WeightColumn
    else OtherColumn
  }

  /** The index of the last header cell playing a role, `-1` when none does. */
  function LastWith(header: seq<string>, role: Role): (r: int)
    ensures -1 <= r < |header|
    ensures r >= 0 ==> RoleOf(header[r]) == role
    ensures forall j :: r < j < |header| ==> RoleOf(header[j]) != role
  {
    if header == [] then -1
    else if RoleOf(header[|header| - 1]) == role then |header| - 1
    else LastWith(header[..|header| - 1], role)
  }

  /** The code, name and weight column indices, `-1` for a column not found. */
  datatype Columns = Columns(code: int, name: int, weight: int) {
    predicate Complete() {
      code >= 0 && name >= 0 && weight >= 0
    }

    /** `max(idx_code, idx_name, idx_weight) < n`: a row of length `n` has all three cells. */
    predicate FitIn(n: int) {
      code < n && name < n && weight < n
    }
  }

  function HeaderColumns(header: seq<string>): Columns {
    Columns(LastWith(header, CodeColumn), LastWith(header, NameColumn), LastWith(header, WeightColumn))
  }

  /** Found columns are distinct cells, each carrying its label. */
  lemma HeaderColumnsDistinct(header: seq<string>)
    ensures var c := HeaderColumns(header);
      (c.code >= 0 ==> Contains(header[c.code], "股票代码")) &&
      (c.name >= 0 ==> Contains(header[c.name], "股票名称") && !Contains(header[c.name], "股票代码")) &&
      (c.weight >= 0 ==> Contains(header[c.weight], "占净值")) &&
      (c.code >= 0 && c.name >= 0 ==> c.code != c.name) &&
      (c.code >= 0 && c.weight >= 0 ==> c.code != c.weight) &&
      (c.name >= 0 && c.weight >= 0 ==> c.name != c.weight)
  {
  }

  /** The `for i, col in enumerate(header)` scan. */
  method ScanHeader(header: seq<string>) returns (idx: Columns)
    ensures idx == HeaderColumns(header)
  {
    idx := Columns(-1, -1, -1);
    var i := 0;
    while i < |header|
      invariant 0 <= i <= |header|
      invariant idx == HeaderColumns(header[..i])
    {
      assert header[..i + 1][..i] == header[..i];
      var col := header[i];
      if Contains(col, "股票代码") {
        idx := idx.(code := i);
      } else if Contains(col, "股票名称") {
        idx := idx.(name := i);
      } else if Contains(col, "占净值") {
        idx := idx.(weight := i);
      }
      i := i + 1;
    }
    assert header[..i] == header;
  }

  /** `row[idx_weight].replace("%", "").replace("--", "0").strip() or "0"`. */
  function WeightText(cell: string): string {
    var t := Strip(ReplaceAll(ReplaceAll(cell, "%", ""), "--", "0"));
    if t == [] then "0" else t
  }

  /** A character absent from the text and from the replacement stays absent. */
  lemma {:induction false} ReplaceKeepsAbsent(s: string, pat: string, rep: string, c: char)
    requires pat != [] && c !in s && c !in rep
    ensures c !in ReplaceAll(s, pat, rep)
    decreases |s|
  {
    if |s| >= |pat| {
      if s[..|pat|] == pat {
        ReplaceKeepsAbsent(s[|pat|..], pat, rep, c);
      } else {
        ReplaceKeepsAbsent(s[1..], pat, rep, c);
      }
    }
  }

  /** Stripping only removes characters. */
  lemma StripKeepsAbsent(s: string, c: char)
    requires c !in s
    ensures c !in Strip(s)
  {
    StripShape(s);
    var k := |s| - |DropSpaces(s)|;
    assert forall j :: 0 <= j < |Strip(s)| ==> Strip(s)[j] == s[k + j];
  }

  /** No percent sign survives in the weight text, and it is never empty. */
  lemma WeightTextShape(cell: string)
    ensures '%' !in WeightText(cell) && WeightText(cell) != []
  {
    var a := ReplaceAll(cell, "%", "");
    RemoveCharGone(cell, '%');
    assert '%' !in a;
    ReplaceKeepsAbsent(a, "--", "0", '%');
    StripKeepsAbsent(ReplaceAll(a, "--", "0"), '%');
  }

  /** The normalisations on the cells the page uses: a percent sign goes, */
  lemma WeightTextPercent()
    ensures WeightText("8.00%") == "8.00"
  {
    assert ReplaceAll("%", "%", "") == "";
    assert ReplaceAll("8.00%", "%", "") == "8.00";
    assert ReplaceAll("8.00", "--", "0") == "8.00";
    assert DropSpaces("8.00") == "8.00";
    assert DropTrailingSpaces("8.00") == "8.00";
  }

  /** a dash placeholder reads as zero, */
  lemma WeightTextDashes()
    ensures WeightText("--") == "0"
  {
    assert ReplaceAll("-", "%", "") == "-";
    assert ReplaceAll("--", "%", "") == "--";
    assert ReplaceAll("", "--", "0") == "";
    assert ReplaceAll("--", "--", "0") == "0";
    assert DropSpaces("0") == "0";
    assert DropTrailingSpaces("0") == "0";
  }

  /** and so does an empty cell. */
  lemma WeightTextEmpty()
    ensures WeightText("") == "0"
  {
  }

  /** The holding a data row yields: none when the row is too short for the
      widest column, its stripped code is empty, or its weight text does not parse. */
  function RowHolding(row: seq<string>, idx: Columns, parse: string -> Option<real>): (r: Option<Holding>)
    requires idx.Complete()
    ensures r.Some? ==> r.value.symbol != []
  {
    if !idx.FitIn(|row|) then None
    else
      var symbol := Strip(row[idx.code]);
      var name := Strip(row[idx.name]);
      match parse(WeightText(row[idx.weight]))
      case None => None
      case Some(weight) => if symbol != [] then Some(Holding(symbol, name, weight)) else None
  }

  lemma RowHoldingSpec(row: seq<string>, idx: Columns, parse: string -> Option<real>)
    requires idx.Complete()
    ensures var r := RowHolding(row, idx, parse);
      (r.Some? <==>
        idx.FitIn(|row|) && Strip(row[idx.code]) != [] && parse(WeightText(row[idx.weight])).Some?) &&
      (r.Some? ==>
        r.value == Holding(Strip(row[idx.code]), Strip(row[idx.name]), parse(WeightText(row[idx.weight])).value))
  {
  }

  /** The holdings of the data rows, in row order; none has an empty symbol. */
  function HoldingsFromRows(rows: seq<seq<string>>, idx: Columns, parse: string -> Option<real>): (hs: seq<Holding>)
    requires idx.Complete()
    ensures |hs| <= |rows|
    ensures HaveSymbols(hs)
  {
    if rows == [] then []
    else
      var init := HoldingsFromRows(rows[..|rows| - 1], idx, parse);
      var last := RowHolding(rows[|rows| - 1], idx, parse);
      var tail := if last.Some? then [last.value] else [];
      HaveSymbolsAppend(init, tail);
      init + tail
  }

  predicate HaveSymbols(hs: seq<Holding>) {
    forall k :: 0 <= k < |hs| ==> hs[k].symbol != []
  }

  lemma HaveSymbolsAppend(a: seq<Holding>, b: seq<Holding>)
    requires HaveSymbols(a) && HaveSymbols(b)
    ensures HaveSymbols(a + b)
  {
  }

  /** Rows contribute independently and in order: the holdings of two runs of rows
      are the holdings of the first followed by those of the second. */
  lemma {:induction false} HoldingsFromRowsAppend(a: seq<seq<string>>, b: seq<seq<string>>, idx: Columns,
                                                  parse: string -> Option<real>)
    requires idx.Complete()
    ensures HoldingsFromRows(a + b, idx, parse) == HoldingsFromRows(a, idx, parse) + HoldingsFromRows(b, idx, parse)
    decreases |b|
  {
    if b != [] {
      assert (a + b)[..|a + b| - 1] == a + b[..|b| - 1];
      HoldingsFromRowsAppend(a, b[..|b| - 1], idx, parse);
    } else {
      assert a + b == a;
    }
  }

  /** One row yields its holding, or nothing. With `HoldingsFromRowsAppend` this
      says the holdings are the rows' holdings in row order, skipped rows left out. */
  lemma HoldingsFromRow(row: seq<string>, idx: Columns, parse: string -> Option<real>)
    requires idx.Complete()
    ensures HoldingsFromRows([row], idx, parse) ==
      (if RowHolding(row, idx, parse).Some? then [RowHolding(row, idx, parse).value] else [])
  {
    assert [row][..0] == [];
  }

  /** A row that yields nothing leaves the holdings as they were. */
  lemma SkippedRow(rows: seq<seq<string>>, row: seq<string>, idx: Columns, parse: string -> Option<real>)
    requires idx.Complete() && RowHolding(row, idx, parse).None?
    ensures HoldingsFromRows(rows + [row], idx, parse) == HoldingsFromRows(rows, idx, parse)
  {
    assert (rows + [row])[..|rows + [row]| - 1] == rows;
  }

  /** The `for row in parser.rows[1:]` loop. */
  method CollectHoldings(rows: seq<seq<string>>, idx: Columns, parse: string -> Option<real>)
    returns (holdings: seq<Holding>)
    requires idx.Complete()
    ensures holdings == HoldingsFromRows(rows, idx, parse)
  {
    holdings := [];
    var i := 0;
    while i < |rows|
      invariant 0 <= i <= |rows|
      invariant holdings == HoldingsFromRows(rows[..i], idx, parse)
    {
      assert rows[..i + 1][..i] == rows[..i];
      var row := rows[i];
      if idx.FitIn(|row|) {
        var symbol := Strip(row[idx.code]);
        var name := Strip(row[idx.name]);
        var weight := parse(WeightText(row[idx.weight]));
        if weight.Some? && symbol != [] {
          holdings := holdings + [Holding(symbol, name, weight.value)];
        }
      }
      i := i + 1;
    }
    assert rows[..i] == rows;
  }

  /** The three structural failures of the scrape. */
  datatype ExtractError = MissingContent | EmptyTable | IncompleteHeader {
    function Message(): string {
      match this
      case MissingContent => "未解析到持仓内容"
      case EmptyTable => "持仓表为空"
      case IncompleteHeader => "持仓表字段不完整"
    }
  }

  /** The table part of `get_latest_holdings`, from the `content` blob onwards. */
  function ExtractHoldings(content: Option<string>, w: World): Result<seq<Holding>, ExtractError> {
    match content
    case None => Failure(MissingContent)
    case Some(blob) =>
      var rows := ParseRows(w.tokenize(Unescape(blob)));
      if rows == [] then Failure(EmptyTable)
      else if !HeaderColumns(rows[0]).Complete() then Failure(IncompleteHeader)
      else Success(HoldingsFromRows(rows[1..], HeaderColumns(rows[0]), w.parseFloat))
  }

  /** Each structural failure happens exactly in its situation, and the holdings
      of a success come from the data rows only. */
  lemma ExtractOutcomes(content: Option<string>, w: World)
    ensures ExtractHoldings(content, w) == Failure(MissingContent) <==> content.None?
    ensures content.Some? ==> var rows := ParseRows(w.tokenize(Unescape(content.value)));
      (ExtractHoldings(content, w) == Failure(EmptyTable) <==> rows == []) &&
      (ExtractHoldings(content, w) == Failure(IncompleteHeader) <==>
        rows != [] && !HeaderColumns(rows[0]).Complete()) &&
      (ExtractHoldings(content, w).Success? <==>
        rows != [] && HeaderColumns(rows[0]).Complete())
  {
  }

  /** `period_match.group(1).strip() if period_match else "最新披露期"`. */
  function Period(heading: Option<string>): string {
    match heading
    case Some(l) => Strip(l)
    case None => "最新披露期"
  }

  /** `EastmoneyHoldingsProvider.get_latest_holdings`: a network failure propagates
      as it is; a structural failure is a `ProviderError` with its message; a
      success is tagged `eastmoney`. */
  function LatestHoldings(code: string, w: World): (r: Result<Snapshot, Error>)
    ensures r.Success? ==> r.value.source == "eastmoney"
    ensures r.Failure? && r.error.ProviderError? ==>
      r.error.message in {"未解析到持仓内容", "持仓表为空", "持仓表字段不完整"}
    ensures r.Success? <==> w.holdingsPage(code).Got? && ExtractHoldings(w.holdingsPage(code).value.content, w).Success?
    ensures r.Success? ==> var page := w.holdingsPage(code).value;
      r.value.holdings == ExtractHoldings(page.content, w).value &&
      r.value.period == (if page.periodLabel.Some? then Strip(page.periodLabel.value) else "最新披露期")
  {
    match w.holdingsPage(code)
    case NetError(m) => Failure(OtherError(m))
    case Got(page) =>
      match ExtractHoldings(page.content, w)
      case Failure(e) => Failure(ProviderError(e.Message()))
      case Success(hs) => Success(Snapshot(hs, Period(page.periodLabel), "eastmoney"))
  }

  /** The steps of `get_latest_holdings`, run on a parser object. */
  method GetLatestHoldings(code: string, w: World) returns (r: Result<Snapshot, Error>)
    ensures r == LatestHoldings(code, w)
  {
    var fetched := w.holdingsPage(code);
    if fetched.NetError? {
      return Failure(OtherError(fetched.message));
    }
    var page := fetched.value;
    var period := Period(page.periodLabel);
    if page.content.None? {
      return Failure(ProviderError(MissingContent.Message()));
    }
    var tableHtml := Unescape(page.content.value);
    var parser := new SimpleTableParser();
    parser.Feed(w.tokenize(tableHtml));
    if parser.rows == [] {
      return Failure(ProviderError(EmptyTable.Message()));
    }
    var idx := ScanHeader(parser.rows[0]);
    if !idx.Complete() {
      return Failure(ProviderError(IncompleteHeader.Message()));
    }
    var holdings := CollectHoldings(parser.rows[1..], idx, w.parseFloat);
    r := Success(Snapshot(holdings, period, "eastmoney"));
  }

  /** `get_fund_name`: the `fS_name` string, or the code itself when the script has none. */
  function FundName(code: string, w: World): (r: Result<string, Error>)
    ensures r.Success? && w.fundNamePage(code) == Got(None) ==> r.value == code
    ensures r.Failure? <==> w.fundNamePage(code).NetError?
    ensures w.fundNamePage(code).Got? && w.fundNamePage(code).value.Some? ==>
      r == Success(w.fundNamePage(code).value.value)
    ensures w.fundNamePage(code).NetError? ==> r == Failure(OtherError(w.fundNamePage(code).message))
  {
    match w.fundNamePage(code)
    case NetError(m) => Failure(OtherError(m))
    case Got(found) => Success(found.GetOr(code))
  }
}
