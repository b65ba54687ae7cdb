/** The holdings-table parser: a state machine over the tag events an HTML
    tokenizer reports (`handle_starttag`, `handle_endtag`, `handle_data`).
    Rows are delimited by `tr`, cells by `td` or `th`; every other tag is ignored. */
module TableParser {
  import opened Common

  /** A tokenizer event; tag names are lower-case, as `html.parser` reports them. */
  datatype Event = StartTag(name: string) | EndTag(name: string) | Data(text: string)

  datatype ParserState = ParserState(
    inTr: bool,
    inCell: bool,
    cellText: seq<string>,
    currentRow: seq<string>,
    rows: seq<seq<string>>)

  function Init(): ParserState {
    ParserState(false, false, [], [], [])
  }

  predicate IsCellTag(t: string) {
    t == "td" || t == "th"
  }

  /** `"".join(parts)`. */
  function Join(parts: seq<string>): (r: string)
    ensures |parts| == 1 ==> r == parts[0]
  {
    if parts == [] then "" else Join(parts[..|parts| - 1]) + parts[|parts| - 1]
  }

  /** One event, as the three handlers of the parser treat it. */
  function Step(s: ParserState, e: Event): ParserState {
    match e
    case StartTag(t) =>
      if t == "tr" then s.(inTr := true, currentRow := [])
      else if s.inTr && IsCellTag(t) then s.(inCell := true, cellText := [])
      else s
    case Data(d) =>
      if s.inCell then s.(cellText := s.cellText + [d]) else s
    case EndTag(t) =>
      if s.inTr && IsCellTag(t) && s.inCell then
        s.(currentRow := s.currentRow + [CellText(Join(s.cellText))], inCell := false)
      else if t == "tr" && s.inTr then
        s.(rows := if s.currentRow != [] then s.rows + [s.currentRow] else s.rows, inTr := false)
      else s
  }

  /** The state after a sequence of events. */
  function Run(s: ParserState, es: seq<Event>): ParserState {
    if es == [] then s else Step(Run(s, es[..|es| - 1]), es[|es| - 1])
  }

  /** The rows the parser collects from a whole event sequence (`parser.rows`). */
  function ParseRows(es: seq<Event>): seq<seq<string>> {
    Run(Init(), es).rows
  }

  /** What the parser keeps true of its state: every collected row has a cell,
      and every cell text is stripped with single inner spaces. */
  ghost predicate WellFormed(s: ParserState) {
    (forall i :: 0 <= i < |s.rows| ==> s.rows[i] != []) &&
    (forall i, j :: 0 <= i < |s.rows| && 0 <= j < |s.rows[i]| ==> Normalized(s.rows[i][j])) &&
    (forall j :: 0 <= j < |s.currentRow| ==> Normalized(s.currentRow[j]))
  }

  lemma StepWellFormed(s: ParserState, e: Event)
    requires WellFormed(s)
    ensures WellFormed(Step(s, e))
  {
  }

  lemma {:induction false} RunWellFormed(s: ParserState, es: seq<Event>)
    requires WellFormed(s)
    ensures WellFormed(Run(s, es))
  {
    if es != [] {
      RunWellFormed(s, es[..|es| - 1]);
      StepWellFormed(Run(s, es[..|es| - 1]), es[|es| - 1]);
    }
  }

  /** Every row the parser reports is non-empty and every cell is normalised. */
  lemma ParsedRowsShape(es: seq<Event>)
    ensures forall i :: 0 <= i < |ParseRows(es)| ==> ParseRows(es)[i] != []
    ensures forall i, j :: 0 <= i < |ParseRows(es)| && 0 <= j < |ParseRows(es)[i]| ==>
              Normalized(ParseRows(es)[i][j])
  {
    RunWellFormed(Init(), es);
  }

  /** A row is appended only at a closing `tr` inside a row holding a cell, and
      then exactly that row is appended. */
  lemma RowAppendedOnlyAtRowEnd(s: ParserState, e: Event)
    ensures Step(s, e).rows == s.rows ||
            (e == EndTag("tr") && s.inTr && s.currentRow != [] && Step(s, e).rows == s.rows + [s.currentRow])
  {
  }

  /** Data outside a cell is dropped; a cell tag outside a row is ignored; a new
      row start discards the row being built. */
  lemma IgnoredContent(s: ParserState, d: string, t: string)
    ensures !s.inCell ==> Step(s, Data(d)) == s
    ensures !s.inTr && IsCellTag(t) ==> Step(s, StartTag(t)) == s
    ensures Step(s, StartTag("tr")).inTr && Step(s, StartTag("tr")).currentRow == []
    ensures t != "tr" && !IsCellTag(t) ==> Step(s, StartTag(t)) == s && Step(s, EndTag(t)) == s
  {
  }

  /** Rows once collected are never changed: the collected rows only grow. */
  lemma {:induction false} RowsOnlyGrow(s: ParserState, es: seq<Event>)
    ensures |s.rows| <= |Run(s, es).rows| && Run(s, es).rows[..|s.rows|] == s.rows
  {
    if es != [] {
      RowsOnlyGrow(s, es[..|es| - 1]);
      RowAppendedOnlyAtRowEnd(Run(s, es[..|es| - 1]), es[|es| - 1]);
    }
  }

  lemma {:induction false} RunAppend(s: ParserState, a: seq<Event>, b: seq<Event>)
    ensures Run(s, a + b) == Run(Run(s, a), b)
  {
    if b == [] {
      assert a + b == a;
    } else {
      RunAppend(s, a, b[..|b| - 1]);
      assert (a + b)[..|a + b| - 1] == a + b[..|b| - 1];
    }
  }

  /** The events of a well-formed table: `<tr><td>c</td>...</tr>` per row. */
  function RenderCells(cells: seq<string>): seq<Event> {
    if cells == [] then []
    else RenderCells(cells[..|cells| - 1]) + [StartTag("td"), Data(cells[|cells| - 1]), EndTag("td")]
  }

  function RenderRows(rows: seq<seq<string>>): seq<Event> {
    if rows == [] then []
    else RenderRows(rows[..|rows| - 1]) + ([StartTag("tr")] + RenderCells(rows[|rows| - 1]) + [EndTag("tr")])
  }

  lemma NormalizedCellText(c: string)
    requires Normalized(c)
    ensures CellText(c) == c
  {
    StripUnpadded(c);
    CollapseNormalized(c);
  }

  lemma RunSnoc(s: ParserState, es: seq<Event>, e: Event)
    ensures Run(s, es + [e]) == Step(Run(s, es), e)
  {
    assert (es + [e])[..|es|] == es;
  }

  lemma CellEvents(s: ParserState, c: string)
    requires s.inTr && !s.inCell && Normalized(c)
    ensures var t := Run(s, [StartTag("td"), Data(c), EndTag("td")]);
      t.inTr && !t.inCell && t.currentRow == s.currentRow + [c] && t.rows == s.rows
  {
    assert [StartTag("td")] == [] + [StartTag("td")];
    assert [StartTag("td"), Data(c)] == [StartTag("td")] + [Data(c)];
    assert [StartTag("td"), Data(c), EndTag("td")] == [StartTag("td"), Data(c)] + [EndTag("td")];
    RunSnoc(s, [], StartTag("td"));
    RunSnoc(s, [StartTag("td")], Data(c));
    RunSnoc(s, [StartTag("td"), Data(c)], EndTag("td"));
    var s1 := Step(s, StartTag("td"));
    assert s1 == s.(inCell := true, cellText := []);
    var s2 := Step(s1, Data(c));
    assert s2 == s1.(cellText := [c]);
    NormalizedCellText(c);
    assert Join([c]) == c;
    var s3 := Step(s2, EndTag("td"));
    assert s3 == s2.(currentRow := s.currentRow + [c], inCell := false);
  }

  lemma {:induction false} RenderCellsRun(s: ParserState, cells: seq<string>)
    requires s.inTr && !s.inCell
    requires forall j :: 0 <= j < |cells| ==> Normalized(cells[j])
    ensures var t := Run(s, RenderCells(cells));
      t.inTr && !t.inCell && t.currentRow == s.currentRow + cells && t.rows == s.rows
  {
    if cells == [] {
      assert s.currentRow + cells == s.currentRow;
    } else {
      var init := cells[..|cells| - 1];
      var c := cells[|cells| - 1];
      var cellEv := [StartTag("td"), Data(c), EndTag("td")];
      var m := Run(s, RenderCells(init));
      assert m.inTr && !m.inCell && m.currentRow == s.currentRow + init && m.rows == s.rows by {
        assert forall j :: 0 <= j < |init| ==> init[j] == cells[j];
        RenderCellsRun(s, init);
      }
      assert Run(s, RenderCells(cells)) == Run(m, cellEv) by {
        assert RenderCells(cells) == RenderCells(init) + cellEv;
        RunAppend(s, RenderCells(init), cellEv);
      }
      CellEvents(m, c);
      assert m.currentRow + [c] == s.currentRow + cells;
    }
  }

  lemma RowEvents(m: ParserState, row: seq<string>)
    requires !m.inTr && !m.inCell && row != []
    requires forall j :: 0 <= j < |row| ==> Normalized(row[j])
    ensures var t := Run(m, [StartTag("tr")] + RenderCells(row) + [EndTag("tr")]);
      !t.inTr && !t.inCell && t.rows == m.rows + [row]
  {
    var cellsEv := RenderCells(row);
    RunSnoc(m, [StartTag("tr")] + cellsEv, EndTag("tr"));
    RunAppend(m, [StartTag("tr")], cellsEv);
    assert [StartTag("tr")] == [] + [StartTag("tr")];
    RunSnoc(m, [], StartTag("tr"));
    var m1 := Step(m, StartTag("tr"));
    assert m1 == m.(inTr := true, currentRow := []);
    RenderCellsRun(m1, row);
    var m2 := Run(m1, cellsEv);
    assert m2.currentRow == row;
  }

  /** Parsing the events of a well-formed table gives back its rows: the parser
      loses nothing of a table whose rows hold cells and whose cells are normalised. */
  lemma {:induction false} ParseRenderRoundTrip(rows: seq<seq<string>>)
    requires forall i :: 0 <= i < |rows| ==> rows[i] != []
    requires forall i, j :: 0 <= i < |rows| && 0 <= j < |rows[i]| ==> Normalized(rows[i][j])
    ensures ParseRows(RenderRows(rows)) == rows
    ensures !Run(Init(), RenderRows(rows)).inTr && !Run(Init(), RenderRows(rows)).inCell
  {
    if rows != [] {
      var init := rows[..|rows| - 1];
      var row := rows[|rows| - 1];
      ParseRenderRoundTrip(init);
      RunAppend(Init(), RenderRows(init), [StartTag("tr")] + RenderCells(row) + [EndTag("tr")]);
      RowEvents(Run(Init(), RenderRows(init)), row);
      assert init + [row] == rows;
    }
  }

  /** A row still open when the input ends is not reported. */
  lemma UnclosedRowDropped(c: string)
    ensures ParseRows([StartTag("tr"), StartTag("td"), Data(c), EndTag("td")]) == []
  {
    var es := [StartTag("tr"), StartTag("td"), Data(c), EndTag("td")];
    RowsOnlyGrow(Init(), es[..3]);
    RunSnoc(Init(), es[..3], es[3]);
    assert es[..3] + [es[3]] == es;
    RowAppendedOnlyAtRowEnd(Run(Init(), es[..3]), es[3]);
    assert Run(Init(), es[..3]).rows == [] by {
      RunSnoc(Init(), es[..2], es[2]);
      assert es[..2] + [es[2]] == es[..3];
      RunSnoc(Init(), es[..1], es[1]);
      assert es[..1] + [es[1]] == es[..2];
      RunSnoc(Init(), [], es[0]);
      assert [] + [es[0]] == es[..1];
    }
  }

  /** A cell still open when its row closes keeps collecting data, so text of one
      row can surface in a cell of the next: `<tr><td>a</tr><tr>x</td></tr>`
      yields the single row `[a x]`, with `a` and `x` joined in one cell. */
  lemma OpenCellCarriesOver(a: string, x: string, es: seq<Event>)
    requires es == [StartTag("tr"), StartTag("td"), Data(a), EndTag("tr"),
                    StartTag("tr"), Data(x), EndTag("td"), EndTag("tr")]
    ensures ParseRows(es) == [[CellText(a + x)]]
  {
    var first := [StartTag("tr"), StartTag("td"), Data(a), EndTag("tr")];
    var second := [StartTag("tr"), Data(x), EndTag("td"), EndTag("tr")];
    assert es == first + second;
    RunAppend(Init(), first, second);
    OpenCellFirstRow(a);
    OpenCellSecondRow(a, x);
  }

  lemma OpenCellFirstRow(a: string)
    ensures Run(Init(), [StartTag("tr"), StartTag("td"), Data(a), EndTag("tr")]) ==
            ParserState(false, true, [a], [], [])
  {
    Run4(Init(), StartTag("tr"), StartTag("td"), Data(a), EndTag("tr"));
  }

  lemma OpenCellSecondRow(a: string, x: string)
    ensures Run(ParserState(false, true, [a], [], []),
                [StartTag("tr"), Data(x), EndTag("td"), EndTag("tr")]).rows == [[CellText(a + x)]]
  {
    var s4 := ParserState(false, true, [a], [], []);
    Run4(s4, StartTag("tr"), Data(x), EndTag("td"), EndTag("tr"));
    var s6 := Step(Step(s4, StartTag("tr")), Data(x));
    assert s6 == ParserState(true, true, [a, x], [], []);
    assert Join([a, x]) == a + x by {
      assert [a, x][..1] == [a];
    }
    var s7 := Step(s6, EndTag("td"));
    assert s7 == ParserState(true, false, [a, x], [CellText(a + x)], []);
    assert Step(s7, EndTag("tr")).rows == [[CellText(a + x)]];
  }

  lemma Run4(s: ParserState, e0: Event, e1: Event, e2: Event, e3: Event)
    ensures Run(s, [e0, e1, e2, e3]) == Step(Step(Step(Step(s, e0), e1), e2), e3)
  {
    RunSnoc(s, [], e0);
    RunSnoc(s, [e0], e1);
    RunSnoc(s, [e0, e1], e2);
    RunSnoc(s, [e0, e1, e2], e3);
    assert [] + [e0] == [e0];
    assert [e0] + [e1] == [e0, e1];
    assert [e0, e1] + [e2] == [e0, e1, e2];
    assert [e0, e1, e2] + [e3] == [e0, e1, e2, e3];
  }

  /** The parser as the source writes it: an object whose handlers update its fields. */
  class SimpleTableParser {
    var inTr: bool
    var inCell: bool
    var cellText: seq<string>
    var currentRow: seq<string>
    var rows: seq<seq<string>>

    function State(): ParserState
      reads this
    {
      ParserState(inTr, inCell, cellText, currentRow, rows)
    }

    constructor ()
      ensures State() == Init()
    {
      inTr, inCell := false, false;
      cellText, currentRow, rows := [], [], [];
    }

    method HandleStartTag(tag: string)
      modifies this
      ensures State() == Step(old(State()), StartTag(tag))
    {
      if tag == "tr" {
        inTr := true;
        currentRow := [];
      } else if inTr && (tag == "td" || tag == "th") {
        inCell := true;
        cellText := [];
      }
    }

    method HandleData(data: string)
      modifies this
      ensures State() == Step(old(State()), Data(data))
    {
      if inCell {
        cellText := cellText + [data];
      }
    }

    method HandleEndTag(tag: string)
      modifies this
      ensures State() == Step(old(State()), EndTag(tag))
    {
      if inTr && (tag == "td" || tag == "th") && inCell {
        currentRow := currentRow + [CellText(Join(cellText))];
        inCell := false;
      } else if tag == "tr" && inTr {
        if currentRow != [] {
          rows := rows + [currentRow];
        }
        inTr := false;
      }
    }

    /** `feed`: dispatch each event to its handler, in order. */
    method Feed(events: seq<Event>)
      modifies this
      ensures State() == Run(old(State()), events)
    {
      var i := 0;
      while i < |events|
        invariant 0 <= i <= |events|
        invariant State() == Run(old(State()), events[..i])
        decreases |events| - i
      {
        assert events[..i + 1][..i] == events[..i];
        match events[i] {
          case StartTag(t) => HandleStartTag(t);
          case EndTag(t) => HandleEndTag(t);
          case Data(d) => HandleData(d);
        }
        i := i + 1;
      }
      assert events[..i] == events;
    }
  }
}
