/** Values shared by every part of the valuation engine: optional values, results,
    the Holding record, the two kinds of error the engine distinguishes, and the
    string operations the Python code takes from `str` (strip, upper, lower,
    replace, `in`) and from `re.sub(r"\s+", " ", ...)`. */
module Common {

  datatype Option<+T> = None | Some(value: T) {
    function GetOr(default: T): T {
      match this
      case Some(v) => v
      case None => default
    }
  }

  datatype Result<+R, +E> = Success(value: R) | Failure(error: E)

  /** One disclosed constituent: ticker, display name, percent of net asset value. */
  datatype Holding = Holding(symbol: string, name: string, weight: real)

  /** What `get_latest_holdings` returns: the holdings, the disclosure-period label
      and the tag of the source that produced them. */
  datatype Snapshot = Snapshot(holdings: seq<Holding>, period: string, source: string)

  /** `ProviderError` is the recoverable error the orchestrator may fall back on;
      `OtherError` stands for every other exception (network errors, `ValueError`). */
  datatype Error = ProviderError(message: string) | OtherError(message: string)

  /** The characters Python's `str.isspace` (and `\s` in a `str` pattern) accept. */
  predicate IsSpace(c: char) {
    c == ' ' || ('\t' <= c <= '\r') || ('\U{1C}' <= c <= '\U{1F}') || c == '\U{85}' ||
    c == '\U{A0}' || c == '\U{1680}' || ('\U{2000}' <= c <= '\U{200A}') || c == '\U{2028}' ||
    c == '\U{2029}' || c == '\U{202F}' || c == '\U{205F}' || c == '\U{3000}'
  }

  /** `str.lstrip()`: drop leading whitespace. What is left is a suffix. */
  function DropSpaces(s: string): (r: string)
    ensures |r| <= |s|
  {
    if s != [] && IsSpace(s[0]) then DropSpaces(s[1..]) else s
  }

  /** `str.rstrip()`: drop trailing whitespace. What is left is a prefix. */
  function DropTrailingSpaces(s: string): (r: string)
    ensures |r| <= |s|
  {
    if s != [] && IsSpace(s[|s| - 1]) then DropTrailingSpaces(s[..|s| - 1]) else s
  }

  /** `str.strip()`. */
  function Strip(s: string): string {
    DropTrailingSpaces(DropSpaces(s))
  }

  /** `lstrip` removes exactly the leading run of whitespace. */
  lemma {:induction false} DropSpacesShape(s: string)
    ensures var r := DropSpaces(s);
      r == s[|s| - |r|..] && (r == [] || !IsSpace(r[0])) && forall i :: 0 <= i < |s| - |r| ==> IsSpace(s[i])
  {
    if s != [] && IsSpace(s[0]) {
      DropSpacesShape(s[1..]);
      assert forall i :: 1 <= i < |s| - |DropSpaces(s)| ==> s[i] == s[1..][i - 1];
    }
  }

  /** `rstrip` removes exactly the trailing run of whitespace. */
  lemma {:induction false} DropTrailingSpacesShape(s: string)
    ensures var r := DropTrailingSpaces(s);
      r == s[..|r|] && (r == [] || !IsSpace(r[|r| - 1])) && forall i :: |r| <= i < |s| ==> IsSpace(s[i])
  {
    if s != [] && IsSpace(s[|s| - 1]) {
      DropTrailingSpacesShape(s[..|s| - 1]);
    }
  }

  /** A stripped text is a slice of the original with no whitespace at either end,
      and only whitespace was cut off. */
  lemma StripShape(s: string)
    ensures var r := Strip(s); var k := |s| - |DropSpaces(s)|;
      (r == [] || (!IsSpace(r[0]) && !IsSpace(r[|r| - 1]))) &&
      k + |r| <= |s| && r == s[k..k + |r|] &&
      (forall i :: 0 <= i < k ==> IsSpace(s[i])) &&
      (forall i :: k + |r| <= i < |s| ==> IsSpace(s[i]))
  {
    var l := DropSpaces(s);
    var r := DropTrailingSpaces(l);
    DropSpacesShape(s);
    DropTrailingSpacesShape(l);
    var k := |s| - |l|;
    assert r == s[k..k + |r|];
    forall i | k + |r| <= i < |s| ensures IsSpace(s[i]) {
      assert s[i] == l[i - k];
    }
    assert r != [] ==> r[0] == l[0];
  }

  /** `re.sub(r"\s+", " ", s)`: every maximal run of whitespace becomes one space. */
  function CollapseSpaces(s: string): (r: string)
    decreases |s|
  {
    if s == [] then []
    else if IsSpace(s[0]) then [' '] + CollapseSpaces(DropSpaces(s[1..]))
    else [s[0]] + CollapseSpaces(s[1..])
  }

  /** A cell text as the table parser emits it: no whitespace at either end, and
      inside only single plain spaces. */
  ghost predicate Normalized(c: string) {
    (c == [] || (!IsSpace(c[0]) && !IsSpace(c[|c| - 1]))) &&
    (forall i :: 0 <= i < |c| && IsSpace(c[i]) ==> c[i] == ' ') &&
    (forall i :: 0 <= i < |c| - 1 && IsSpace(c[i]) ==> !IsSpace(c[i + 1]))
  }

  /** Collapsing keeps the first character, or turns a leading run into one space. */
  lemma CollapseHead(s: string)
    ensures s != [] ==>
              CollapseSpaces(s) != [] && CollapseSpaces(s)[0] == if IsSpace(s[0]) then ' ' else s[0]
  {
  }

  /** Collapsing keeps a last character that is not whitespace. */
  lemma {:induction false} CollapseLast(s: string)
    ensures s != [] && !IsSpace(s[|s| - 1]) ==>
      CollapseSpaces(s) != [] && CollapseSpaces(s)[|CollapseSpaces(s)| - 1] == s[|s| - 1]
    decreases |s|
  {
    if s == [] || IsSpace(s[|s| - 1]) {
    } else if IsSpace(s[0]) {
      var t := DropSpaces(s[1..]);
      DropSpacesShape(s[1..]);
      assert t != [] && t[|t| - 1] == s[|s| - 1];
      CollapseLast(t);
    } else if |s| > 1 {
      CollapseLast(s[1..]);
    }
  }

  /** Whitespace in a collapsed string is a plain space and never two in a row. */
  lemma {:induction false} CollapsePlain(s: string)
    ensures var r := CollapseSpaces(s);
      (forall i :: 0 <= i < |r| && IsSpace(r[i]) ==> r[i] == ' ') &&
      (forall i :: 0 <= i < |r| - 1 && IsSpace(r[i]) ==> !IsSpace(r[i + 1]))
    decreases |s|
  {
    if s == [] {
    } else if IsSpace(s[0]) {
      var t := DropSpaces(s[1..]);
      DropSpacesShape(s[1..]);
      CollapsePlain(t);
      CollapseHead(t);
      assert CollapseSpaces(s) == [' '] + CollapseSpaces(t);
    } else {
      var t := s[1..];
      CollapsePlain(t);
      assert CollapseSpaces(s) == [s[0]] + CollapseSpaces(t);
    }
  }

  /** The text of one cell: joined data, stripped, whitespace runs collapsed. */
  function CellText(s: string): (r: string)
    ensures Normalized(r)
  {
    var t := Strip(s);
    StripShape(s);
    CollapsePlain(t);
    CollapseHead(t);
    CollapseLast(t);
    CollapseSpaces(t)
  }

  /** A text already in cell form is left as it is, so normalising twice is
      normalising once. */
  lemma {:induction false} CollapseNormalized(c: string)
    requires forall i :: 0 <= i < |c| && IsSpace(c[i]) ==> c[i] == ' '
    requires forall i :: 0 <= i < |c| - 1 && IsSpace(c[i]) ==> !IsSpace(c[i + 1])
    ensures CollapseSpaces(c) == c
    decreases |c|
  {
    if c != [] {
      if IsSpace(c[0]) {
        assert |c| > 1 ==> !IsSpace(c[1]);
        assert DropSpaces(c[1..]) == c[1..];
      }
      CollapseNormalized(c[1..]);
    }
  }

  /** Stripping a text with no whitespace at either end changes nothing. */
  lemma StripUnpadded(c: string)
    requires c == [] || (!IsSpace(c[0]) && !IsSpace(c[|c| - 1]))
    ensures Strip(c) == c
  {
  }

  /** Stripping twice is stripping once. */
  lemma StripIdempotent(s: string)
    ensures Strip(Strip(s)) == Strip(s)
  {
    StripShape(s);
    StripUnpadded(Strip(s));
  }

  /** Every cell text is normalised already: normalising twice is normalising once. */
  lemma CellTextIdempotent(s: string)
    ensures CellText(CellText(s)) == CellText(s)
  {
    var c := CellText(s);
    StripUnpadded(c);
    CollapseNormalized(c);
  }

  function Upper(s: string): (r: string)
    ensures |r| == |s|
    ensures forall i :: 0 <= i < |s| ==> r[i] == (if 'a' <= s[i] <= 'z' then (s[i] as int - 32) as char else s[i])
  {
    if s == [] then [] else [if 'a' <= s[0] <= 'z' then (s[0] as int - 32) as char else s[0]] + Upper(s[1..])
  }

  function Lower(s: string): (r: string)
    ensures |r| == |s|
    ensures forall i :: 0 <= i < |s| ==> r[i] == (if 'A' <= s[i] <= 'Z' then (s[i] as int + 32) as char else s[i])
  {
    if s == [] then [] else [if 'A' <= s[0] <= 'Z' then (s[0] as int + 32) as char else s[0]] + Lower(s[1..])
  }

  predicate StartsWith(s: string, prefix: string) {
    |prefix| <= |s| && s[..|prefix|] == prefix
  }

  /** Python's `sub in s`. */
  predicate Contains(s: string, sub: string)
    decreases |s|
  {
    StartsWith(s, sub) || (s != [] && Contains(s[1..], sub))
  }

  predicate OccursAt(s: string, sub: string, i: int) {
    0 <= i <= |s| - |sub| && s[i..i + |sub|] == sub
  }

  /** `Contains` is "occurs at some position". */
  lemma {:induction false} ContainsAt(s: string, sub: string)
    ensures Contains(s, sub) <==> exists i :: OccursAt(s, sub, i)
    decreases |s|
  {
    if StartsWith(s, sub) {
      assert OccursAt(s, sub, 0);
    } else if s != [] {
      ContainsAt(s[1..], sub);
      if exists i :: OccursAt(s, sub, i) {
        var i :| OccursAt(s, sub, i);
        assert i > 0;
        assert s[1..][i - 1..i - 1 + |sub|] == s[i..i + |sub|];
        assert OccursAt(s[1..], sub, i - 1);
      }
      if Contains(s[1..], sub) {
        var j :| OccursAt(s[1..], sub, j);
        assert s[1..][j..j + |sub|] == s[j + 1..j + 1 + |sub|];
        assert OccursAt(s, sub, j + 1);
      }
    }
  }

  /** Python's `s.replace(pat, rep)` for a non-empty `pat`: a left-to-right scan
      replacing non-overlapping occurrences. */
  function ReplaceAll(s: string, pat: string, rep: string): (r: string)
    requires pat != []
    decreases |s|
  {
    if |s| < |pat| then s
    else if s[..|pat|] == pat then rep + ReplaceAll(s[|pat|..], pat, rep)
    else [s[0]] + ReplaceAll(s[1..], pat, rep)
  }

  /** Replacing a text that does not occur changes nothing. */
  lemma {:induction false} ReplaceAbsent(s: string, pat: string, rep: string)
    requires pat != []
    requires !Contains(s, pat)
    ensures ReplaceAll(s, pat, rep) == s
    decreases |s|
  {
    if |s| >= |pat| {
      assert !StartsWith(s, pat);
      ReplaceAbsent(s[1..], pat, rep);
    }
  }

  /** Removing a single character removes every occurrence of it. */
  lemma {:induction false} RemoveCharGone(s: string, c: char)
    ensures forall i :: 0 <= i < |ReplaceAll(s, [c], "")| ==> ReplaceAll(s, [c], "")[i] != c
    ensures |ReplaceAll(s, [c], "")| <= |s|
    decreases |s|
  {
    if |s| >= 1 {
      RemoveCharGone(s[1..], c);
    }
  }

  /** Decimal text of an integer, as `str(year)` writes it. */
  function IntToString(i: int): (r: string)
    ensures r != []
  {
    if i < 0 then "-" + NatToString(-i) else NatToString(i)
  }

  function NatToString(n: nat): (r: string)
    ensures r != []
    ensures forall k :: 0 <= k < |r| ==> '0' <= r[k] <= '9'
  {
    if n < 10 then [DigitChar(n)] else NatToString(n / 10) + [DigitChar(n % 10)]
  }

  function DigitChar(d: nat): (c: char)
    requires d < 10
    ensures '0' <= c <= '9' && c as int - '0' as int == d
  {
    ('0' as int + d) as char
  }
}
