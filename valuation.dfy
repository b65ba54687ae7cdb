/** The contribution calculator shared by the service and the dashboard: per
    holding `weight * pct / 100`, a missing quote counting as 0; the matched
    weight; the missing symbols; and the detail rows ordered by contribution,
    largest first, ties in holdings order (Python's sort is stable). */
module Valuation {
  import opened Common

  datatype Detail = Detail(symbol: string, name: string, weight: real, change: real, contribution: real)

  /** The holdings' symbols, in holdings order. */
  function Symbols(hs: seq<Holding>): (r: seq<string>)
    ensures |r| == |hs| && forall i :: 0 <= i < |hs| ==> r[i] == hs[i].symbol
  {
    seq(|hs|, i requires 0 <= i < |hs| => hs[i].symbol)
  }

  /** One holding's detail row for the quote found for it. */
  function DetailOf(h: Holding, pct: Option<real>): (d: Detail)
    ensures d.symbol == h.symbol && d.name == h.name && d.weight == h.weight
    ensures pct.None? ==> d.change == 0.0 && d.contribution == 0.0
    ensures pct.Some? ==> d.change == pct.value
    ensures d.contribution == h.weight * d.change / 100.0
  {
    var change := pct.GetOr(0.0);
    Detail(h.symbol, h.name, h.weight, change, h.weight * change / 100.0)
  }

  /** A row built field by field, as the loop of `estimate_fund` does, is `DetailOf`. */
  lemma DetailOfFields(h: Holding, pct: Option<real>, change: real)
    requires change == pct.GetOr(0.0)
    ensures DetailOf(h, pct) == Detail(h.symbol, h.name, h.weight, change, h.weight * change / 100.0)
  {
  }

  /** The detail rows in holdings order, one per holding, missing ones included. */
  function Details(hs: seq<Holding>, qs: seq<Option<real>>): (ds: seq<Detail>)
    requires |hs| == |qs|
    ensures |ds| == |hs|
  {
    if hs == [] then [] else Details(hs[..|hs| - 1], qs[..|qs| - 1]) + [DetailOf(hs[|hs| - 1], qs[|qs| - 1])]
  }

  /** Row `i` is the detail of holding `i`. */
  lemma {:induction false} DetailsAt(hs: seq<Holding>, qs: seq<Option<real>>, i: int)
    requires |hs| == |qs| && 0 <= i < |hs|
    ensures Details(hs, qs)[i] == DetailOf(hs[i], qs[i])
  {
    if i < |hs| - 1 {
      DetailsAt(hs[..|hs| - 1], qs[..|qs| - 1], i);
    }
  }

  /** The symbols whose quote is missing, in holdings order. */
  function Missing(hs: seq<Holding>, qs: seq<Option<real>>): (m: seq<string>)
    requires |hs| == |qs|
    ensures |m| <= |hs|
  {
    if hs == [] then []
    else Missing(hs[..|hs| - 1], qs[..|qs| - 1]) + (if qs[|qs| - 1].None? then [hs[|hs| - 1].symbol] else [])
  }

  /** The weight of the holdings that have a quote. */
  function Matched(hs: seq<Holding>, qs: seq<Option<real>>): real
    requires |hs| == |qs|
  {
    if hs == [] then 0.0
    else Matched(hs[..|hs| - 1], qs[..|qs| - 1]) + (if qs[|qs| - 1].Some? then hs[|hs| - 1].weight else 0.0)
  }

  /** The weight of the holdings without a quote. */
  function MissingWeight(hs: seq<Holding>, qs: seq<Option<real>>): real
    requires |hs| == |qs|
  {
    if hs == [] then 0.0
    else MissingWeight(hs[..|hs| - 1], qs[..|qs| - 1]) + (if qs[|qs| - 1].None? then hs[|hs| - 1].weight else 0.0)
  }

  function TotalWeight(hs: seq<Holding>): real {
    if hs == [] then 0.0 else TotalWeight(hs[..|hs| - 1]) + hs[|hs| - 1].weight
  }

  /** The sum of the contributions of some rows. */
  function Total(ds: seq<Detail>): real {
    if ds == [] then 0.0 else Total(ds[..|ds| - 1]) + ds[|ds| - 1].contribution
  }

  /** The number of missing quotes. */
  function NoneCount(qs: seq<Option<real>>): nat {
    if qs == [] then 0 else NoneCount(qs[..|qs| - 1]) + (if qs[|qs| - 1].None? then 1 else 0)
  }

  /** One more holding adds its row, its weight if quoted, its symbol if not. */
  lemma DetailsSnoc(hs: seq<Holding>, qs: seq<Option<real>>, h: Holding, q: Option<real>)
    requires |hs| == |qs|
    ensures Details(hs + [h], qs + [q]) == Details(hs, qs) + [DetailOf(h, q)]
  {
    assert (hs + [h])[..|hs|] == hs;
    assert (qs + [q])[..|qs|] == qs;
  }

  lemma MatchedSnoc(hs: seq<Holding>, qs: seq<Option<real>>, h: Holding, q: Option<real>)
    requires |hs| == |qs|
    ensures Matched(hs + [h], qs + [q]) == Matched(hs, qs) + (if q.Some? then h.weight else 0.0)
  {
    assert (hs + [h])[..|hs|] == hs;
    assert (qs + [q])[..|qs|] == qs;
  }

  lemma MissingSnoc(hs: seq<Holding>, qs: seq<Option<real>>, h: Holding, q: Option<real>)
    requires |hs| == |qs|
    ensures Missing(hs + [h], qs + [q]) == Missing(hs, qs) + (if q.None? then [h.symbol] else [])
  {
    assert (hs + [h])[..|hs|] == hs;
    assert (qs + [q])[..|qs|] == qs;
  }

  lemma TotalSnoc(ds: seq<Detail>, d: Detail)
    ensures Total(ds + [d]) == Total(ds) + d.contribution
  {
    assert (ds + [d])[..|ds|] == ds;
  }

  /** Matched and missing weight partition the holdings' weight. */
  lemma {:induction false} WeightSplit(hs: seq<Holding>, qs: seq<Option<real>>)
    requires |hs| == |qs|
    ensures Matched(hs, qs) + MissingWeight(hs, qs) == TotalWeight(hs)
  {
    if hs != [] {
      WeightSplit(hs[..|hs| - 1], qs[..|qs| - 1]);
    }
  }

  /** With weights that are not negative, the matched weight lies between 0 and the total. */
  lemma {:induction false} MatchedBounded(hs: seq<Holding>, qs: seq<Option<real>>)
    requires |hs| == |qs|
    requires forall i :: 0 <= i < |hs| ==> hs[i].weight >= 0.0
    ensures 0.0 <= Matched(hs, qs) <= TotalWeight(hs)
  {
    if hs != [] {
      MatchedBounded(hs[..|hs| - 1], qs[..|qs| - 1]);
    }
  }

  /** One missing symbol per missing quote. */
  lemma {:induction false} MissingCount(hs: seq<Holding>, qs: seq<Option<real>>)
    requires |hs| == |qs|
    ensures |Missing(hs, qs)| == NoneCount(qs)
  {
    if hs != [] {
      MissingCount(hs[..|hs| - 1], qs[..|qs| - 1]);
    }
  }

  /** A symbol is listed missing exactly when some holding with it has no quote. */
  lemma {:induction false} MissingExactly(hs: seq<Holding>, qs: seq<Option<real>>)
    requires |hs| == |qs|
    ensures forall i :: 0 <= i < |hs| && qs[i].None? ==> hs[i].symbol in Missing(hs, qs)
    ensures forall s :: s in Missing(hs, qs) ==> exists i :: 0 <= i < |hs| && qs[i].None? && hs[i].symbol == s
  {
    if hs != [] {
      var hi, qi := hs[..|hs| - 1], qs[..|qs| - 1];
      MissingExactly(hi, qi);
      var m := Missing(hs, qs);
      assert Missing(hi, qi) <= m;
      forall i | 0 <= i < |hs| && qs[i].None?
        ensures hs[i].symbol in m
      {
        if i < |hi| {
          assert hi[i] == hs[i] && qi[i] == qs[i];
        }
      }
      forall s | s in m
        ensures exists i :: 0 <= i < |hs| && qs[i].None? && hs[i].symbol == s
      {
        if s in Missing(hi, qi) {
          var i :| 0 <= i < |hi| && qi[i].None? && hi[i].symbol == s;
          assert hi[i] == hs[i] && qi[i] == qs[i];
        } else {
          assert qs[|hs| - 1].None? && hs[|hs| - 1].symbol == s;
        }
      }
    }
  }

  /** When every holding has a quote, nothing is missing and all weight is matched. */
  lemma {:induction false} AllQuoted(hs: seq<Holding>, qs: seq<Option<real>>)
    requires |hs| == |qs|
    requires forall i :: 0 <= i < |qs| ==> qs[i].Some?
    ensures Missing(hs, qs) == [] && Matched(hs, qs) == TotalWeight(hs)
  {
    if hs != [] {
      AllQuoted(hs[..|hs| - 1], qs[..|qs| - 1]);
    }
  }

  /** Ordered by contribution, largest first. */
  predicate SortedDesc(ds: seq<Detail>) {
    forall i, j :: 0 <= i < j < |ds| ==> ds[i].contribution >= ds[j].contribution
  }

  /** Place `x` after every row whose contribution is at least its own. */
  function Insert(t: seq<Detail>, x: Detail): (r: seq<Detail>)
    ensures |r| == |t| + 1
  {
    if t == [] || t[|t| - 1].contribution >= x.contribution then t + [x]
    else Insert(t[..|t| - 1], x) + [t[|t| - 1]]
  }

  /** `details.sort(key=contribution, reverse=True)`: a stable insertion sort. */
  function SortByContribution(ds: seq<Detail>): (r: seq<Detail>)
    ensures |r| == |ds|
  {
    if ds == [] then [] else Insert(SortByContribution(ds[..|ds| - 1]), ds[|ds| - 1])
  }

  /** The rows with one given contribution, in their order. */
  function WithKey(ds: seq<Detail>, k: real): seq<Detail> {
    if ds == [] then []
    else WithKey(ds[..|ds| - 1], k) + (if ds[|ds| - 1].contribution == k then [ds[|ds| - 1]] else [])
  }

  lemma {:induction false} WithKeyAppend(a: seq<Detail>, b: seq<Detail>, k: real)
    ensures WithKey(a + b, k) == WithKey(a, k) + WithKey(b, k)
    decreases |b|
  {
    if b == [] {
      assert a + b == a;
    } else {
      assert (a + b)[..|a + b| - 1] == a + b[..|b| - 1];
      WithKeyAppend(a, b[..|b| - 1], k);
    }
  }

  lemma WithKeySingle(x: Detail, k: real)
    ensures WithKey([x], k) == if x.contribution == k then [x] else []
  {
    assert [x][..0] == [];
  }

  lemma {:induction false} InsertSorted(t: seq<Detail>, x: Detail)
    requires SortedDesc(t)
    ensures SortedDesc(Insert(t, x))
    ensures forall i :: 0 <= i < |Insert(t, x)| ==> Insert(t, x)[i] == x || Insert(t, x)[i] in t
  {
    if t != [] && t[|t| - 1].contribution < x.contribution {
      var init := t[..|t| - 1];
      var last := t[|t| - 1];
      assert SortedDesc(init);
      InsertSorted(init, x);
      var a := Insert(init, x);
      forall i | 0 <= i < |a|
        ensures a[i].contribution >= last.contribution
      {
        if a[i] != x {
          var j :| 0 <= j < |init| && init[j] == a[i];
          assert t[j] == init[j];
        }
      }
      forall i | 0 <= i < |a| ensures a[i] == x || a[i] in t {
        if a[i] != x {
          assert a[i] in init;
        }
      }
    }
  }

  lemma {:induction false} InsertMultiset(t: seq<Detail>, x: Detail)
    ensures multiset(Insert(t, x)) == multiset(t) + multiset{x}
  {
    if t != [] && t[|t| - 1].contribution < x.contribution {
      var init := t[..|t| - 1];
      InsertMultiset(init, x);
      assert t == init + [t[|t| - 1]];
    }
  }

  /** Inserting keeps the rows of every other contribution in place and puts `x`
      last among the rows of its own. */
  lemma {:induction false} InsertWithKey(t: seq<Detail>, x: Detail, k: real)
    ensures WithKey(Insert(t, x), k) == WithKey(t, k) + (if x.contribution == k then [x] else [])
  {
    var xs := if x.contribution == k then [x] else [];
    if t == [] || t[|t| - 1].contribution >= x.contribution {
      assert Insert(t, x) == t + [x];
      WithKeyAppend(t, [x], k);
      WithKeySingle(x, k);
    } else {
      var init, last := t[..|t| - 1], t[|t| - 1];
      var ls := if last.contribution == k then [last] else [];
      var inserted := Insert(init, x);
      assert t == init + [last];
      assert Insert(t, x) == inserted + [last];
      assert xs == [] || ls == [];
      calc {
        WithKey(Insert(t, x), k);
      == { WithKeyAppend(inserted, [last], k); WithKeySingle(last, k); }
        WithKey(inserted, k) + ls;
      == { InsertWithKey(init, x, k); }
        WithKey(init, k) + xs + ls;
      ==
        WithKey(init, k) + ls + xs;
      == { WithKeyAppend(init, [last], k); WithKeySingle(last, k); }
        WithKey(t, k) + xs;
      }
    }
  }

  lemma {:induction false} InsertTotal(t: seq<Detail>, x: Detail)
    ensures Total(Insert(t, x)) == Total(t) + x.contribution
  {
    if t != [] && t[|t| - 1].contribution < x.contribution {
      var init := t[..|t| - 1];
      InsertTotal(init, x);
      var a := Insert(init, x);
      assert (a + [t[|t| - 1]])[..|a|] == a;
    } else {
      assert (t + [x])[..|t|] == t;
    }
  }

  /** The sort orders by contribution, largest first. */
  lemma {:induction false} SortSorted(ds: seq<Detail>)
    ensures SortedDesc(SortByContribution(ds))
  {
    if ds != [] {
      SortSorted(ds[..|ds| - 1]);
      InsertSorted(SortByContribution(ds[..|ds| - 1]), ds[|ds| - 1]);
    }
  }

  /** The sort reorders without losing or adding a row. */
  lemma {:induction false} SortPermutes(ds: seq<Detail>)
    ensures multiset(SortByContribution(ds)) == multiset(ds)
  {
    if ds != [] {
      var init := ds[..|ds| - 1];
      SortPermutes(init);
      InsertMultiset(SortByContribution(init), ds[|ds| - 1]);
      assert ds == init + [ds[|ds| - 1]];
    }
  }

  /** The sort is stable: rows with equal contributions keep their order. */
  lemma {:induction false} SortStable(ds: seq<Detail>, k: real)
    ensures WithKey(SortByContribution(ds), k) == WithKey(ds, k)
  {
    if ds != [] {
      var init := ds[..|ds| - 1];
      var x := ds[|ds| - 1];
      var s := SortByContribution(init);
      var tail := if x.contribution == k then [x] else [];
      assert SortByContribution(ds) == Insert(s, x);
      SortStable(init, k);
      SortSorted(init);
      InsertWithKey(s, x, k);
      assert WithKey(Insert(s, x), k) == WithKey(init, k) + tail;
      assert WithKey(ds, k) == WithKey(init, k) + tail by {
        assert ds[..|ds| - 1] == init;
      }
    }
  }

  /** The sort keeps the sum of contributions. */
  lemma {:induction false} SortTotal(ds: seq<Detail>)
    ensures Total(SortByContribution(ds)) == Total(ds)
  {
    if ds != [] {
      SortTotal(ds[..|ds| - 1]);
      InsertTotal(SortByContribution(ds[..|ds| - 1]), ds[|ds| - 1]);
    }
  }

  /** What `estimate_fund` returns, before rounding. */
  datatype Estimate = Estimate(
    code: string, name: string, reportPeriod: string,
    estimatedPct: real, matchedWeight: real, missingSymbols: seq<string>,
    details: seq<Detail>, source: string)

  /** The estimate for a snapshot and the quote found for each of its holdings. */
  function Summarize(code: string, name: string, snap: Snapshot, qs: seq<Option<real>>): Estimate
    requires |qs| == |snap.holdings|
  {
    var ds := Details(snap.holdings, qs);
    Estimate(code, name, snap.period, Total(ds), Matched(snap.holdings, qs), Missing(snap.holdings, qs),
             SortByContribution(ds), snap.source)
  }

  /** The estimate is the sum of the contributions it lists, one row per holding,
      ordered and without a row lost; the matched and missing weights partition
      the total weight. */
  lemma SummarizeSpec(code: string, name: string, snap: Snapshot, qs: seq<Option<real>>)
    requires |qs| == |snap.holdings|
    ensures var e := Summarize(code, name, snap, qs);
      e.code == code && e.name == name && e.reportPeriod == snap.period && e.source == snap.source &&
      Total(e.details) == e.estimatedPct &&
      |e.details| == |snap.holdings| &&
      SortedDesc(e.details) &&
      multiset(e.details) == multiset(Details(snap.holdings, qs)) &&
      e.matchedWeight + MissingWeight(snap.holdings, qs) == TotalWeight(snap.holdings) &&
      |e.missingSymbols| == NoneCount(qs)
  {
    var ds := Details(snap.holdings, qs);
    SortSorted(ds);
    SortPermutes(ds);
    SortTotal(ds);
    WeightSplit(snap.holdings, qs);
    MissingCount(snap.holdings, qs);
  }
}
