/** The stand-alone command-line estimator: a fund's holdings, an optional cash
    weight, and a map from symbol to today's change in percent. It predates the
    service and computes each contribution as `weight / 100 * change`, keeps the
    contributions in a map keyed by symbol, and labels the direction. */
module Estimator {
  import opened Common
  import Valuation

  /** `FundEstimator`: its fields are set once, in the constructor. */
  datatype FundEstimator = FundEstimator(fundName: string, fundCode: string, holdings: seq<Holding>, cashWeight: real)

  /** The `ValueError` of `_validate_weights`, with the total it reports. */
  datatype WeightError = WeightError(total: real)

  /** `100.0 + 1e-9`, the largest total weight accepted. */
  const MaxTotalWeight: real := 100.000000001

  /** `FundEstimator(fund_name, fund_code, holdings, cash_weight)`: the estimator,
      or the `ValueError` raised when the weights and the cash add up to more
      than 100 percent (with a tolerance of 1e-9). */
  function NewEstimator(fundName: string, fundCode: string, holdings: seq<Holding>, cashWeight: real)
    : (r: Result<FundEstimator, WeightError>)
    ensures r.Success? <==> Valuation.TotalWeight(holdings) + cashWeight <= MaxTotalWeight
    ensures r.Success? ==> r.value == FundEstimator(fundName, fundCode, holdings, cashWeight)
    ensures r.Failure? ==> r.error.total == Valuation.TotalWeight(holdings) + cashWeight
  {
    var total := Valuation.TotalWeight(holdings) + cashWeight;
    if total > MaxTotalWeight then Failure(WeightError(total))
    else Success(FundEstimator(fundName, fundCode, holdings, cashWeight))
  }

  /** What `estimate` returns. */
  datatype EstimateResult = EstimateResult(
    fundName: string, fundCode: string, estimatedChangePct: real, direction: string,
    contributions: map<string, real>)

  /** `pct_changes.get(symbol)`, a symbol without a change counting as 0. */
  function ChangeOf(changes: map<string, real>, symbol: string): real {
    if symbol in changes then changes[symbol] else 0.0
  }

  function Contribution(h: Holding, changes: map<string, real>): real {
    h.weight / 100.0 * ChangeOf(changes, h.symbol)
  }

  /** The sum of every holding's contribution, duplicates included. */
  function EstimatedChange(hs: seq<Holding>, changes: map<string, real>): real {
    if hs == [] then 0.0 else EstimatedChange(hs[..|hs| - 1], changes) + Contribution(hs[|hs| - 1], changes)
  }

  /** The `contributions` dict after the loop: each insertion overwrites the
      entry of an earlier holding with the same symbol. */
  function Contributions(hs: seq<Holding>, changes: map<string, real>): map<string, real> {
    if hs == [] then map[]
    else Contributions(hs[..|hs| - 1], changes)[hs[|hs| - 1].symbol := Contribution(hs[|hs| - 1], changes)]
  }

  /** The label of an estimate's sign: rise, fall or flat. */
  function Direction(x: real): (d: string)
    ensures d == "上涨" <==> x > 0.0
    ensures d == "下跌" <==> x < 0.0
    ensures d == "持平" <==> x == 0.0
  {
    if x > 0.0 then "上涨" else if x < 0.0 then "下跌" else "持平"
  }

  /** `FundEstimator.estimate(pct_changes)`: the loop over the holdings. */
  method Estimate(est: FundEstimator, changes: map<string, real>) returns (r: EstimateResult)
    ensures r.fundName == est.fundName && r.fundCode == est.fundCode
    ensures r.estimatedChangePct == EstimatedChange(est.holdings, changes)
    ensures r.contributions == Contributions(est.holdings, changes)
    ensures r.direction == Direction(r.estimatedChangePct)
  {
    var contributions: map<string, real> := map[];
    var estimated := 0.0;
    for i := 0 to |est.holdings|
      invariant contributions == Contributions(est.holdings[..i], changes)
      invariant estimated == EstimatedChange(est.holdings[..i], changes)
    {
      assert est.holdings[..i + 1][..i] == est.holdings[..i];
      var h := est.holdings[i];
      var change := 0.0;
      if h.symbol in changes {
        change := changes[h.symbol];
      }
      var contribution := h.weight / 100.0 * change;
      assert contribution == Contribution(h, changes);
      contributions := contributions[h.symbol := contribution];
      estimated := estimated + contribution;
    }
    assert est.holdings[..|est.holdings|] == est.holdings;
    var direction: string;
    if estimated > 0.0 {
      direction := "上涨";
    } else if estimated < 0.0 {
      direction := "下跌";
    } else {
      direction := "持平";
    }
    r := EstimateResult(est.fundName, est.fundCode, estimated, direction, contributions);
  }

  /** The map has one key per distinct symbol. */
  lemma {:induction false} ContributionsKeys(hs: seq<Holding>, changes: map<string, real>)
    ensures forall k :: k in Contributions(hs, changes) <==> k in Valuation.Symbols(hs)
  {
    if hs != [] {
      var n := |hs| - 1;
      ContributionsKeys(hs[..n], changes);
      assert Valuation.Symbols(hs) == Valuation.Symbols(hs[..n]) + [hs[n].symbol];
    }
  }

  /** A symbol's entry is the contribution of its last holding. */
  lemma {:induction false} ContributionsLast(hs: seq<Holding>, changes: map<string, real>, i: int)
    requires 0 <= i < |hs|
    requires forall j :: i < j < |hs| ==> hs[j].symbol != hs[i].symbol
    ensures hs[i].symbol in Contributions(hs, changes)
    ensures Contributions(hs, changes)[hs[i].symbol] == Contribution(hs[i], changes)
  {
    var n := |hs| - 1;
    if i < n {
      var init := hs[..n];
      assert init[i] == hs[i];
      forall j | i < j < n ensures init[j].symbol != init[i].symbol {
        assert init[j] == hs[j];
      }
      ContributionsLast(init, changes, i);
    }
  }

  /** The same holdings and changes give the service's estimate: a change the map
      lacks is the service's missing quote, and `weight / 100 * change` equals the
      service's `weight * change / 100` over the reals. */
  lemma {:induction false} AgreesWithService(hs: seq<Holding>, changes: map<string, real>)
    ensures EstimatedChange(hs, changes) == Valuation.Total(Valuation.Details(hs, QuotesOf(hs, changes)))
  {
    if hs != [] {
      var n := |hs| - 1;
      var h := hs[n];
      var qs := QuotesOf(hs, changes);
      AgreesWithService(hs[..n], changes);
      assert hs == hs[..n] + [h];
      assert qs == QuotesOf(hs[..n], changes) + [qs[n]];
      var d := Valuation.DetailOf(h, qs[n]);
      assert d.contribution == Contribution(h, changes) by {
        var c := ChangeOf(changes, h.symbol);
        assert d.change == c;
        assert h.weight * c / 100.0 == h.weight / 100.0 * c;
      }
      Valuation.DetailsSnoc(hs[..n], QuotesOf(hs[..n], changes), h, qs[n]);
      Valuation.TotalSnoc(Valuation.Details(hs[..n], QuotesOf(hs[..n], changes)), d);
    }
  }

  /** The change map read as the service's quotes: present or missing. */
  function QuotesOf(hs: seq<Holding>, changes: map<string, real>): (qs: seq<Option<real>>)
    ensures |qs| == |hs|
    ensures forall i :: 0 <= i < |hs| ==> (qs[i].Some? <==> hs[i].symbol in changes)
    ensures forall i :: 0 <= i < |hs| && hs[i].symbol in changes ==> qs[i].value == changes[hs[i].symbol]
  {
    seq(|hs|, i requires 0 <= i < |hs| => if hs[i].symbol in changes then Some(changes[hs[i].symbol]) else None)
  }

  /** Without any change the estimate is flat. */
  lemma {:induction false} NoChangesFlat(hs: seq<Holding>)
    ensures EstimatedChange(hs, map[]) == 0.0
    ensures Direction(EstimatedChange(hs, map[])) == "持平"
  {
    if hs != [] {
      NoChangesFlat(hs[..|hs| - 1]);
    }
  }

  /** Two holdings of one symbol: the map shows only the second contribution while
      the estimate counts both. */
  lemma DuplicateSymbol(a: Holding, b: Holding, changes: map<string, real>)
    requires a.symbol == b.symbol
    ensures Contributions([a, b], changes) == map[a.symbol := Contribution(b, changes)]
    ensures EstimatedChange([a, b], changes) == Contribution(a, changes) + Contribution(b, changes)
  {
    assert [a, b][..1] == [a];
    assert [a][..0] == [];
    assert Contributions([a], changes) == map[a.symbol := Contribution(a, changes)];
    assert EstimatedChange([a], changes) == Contribution(a, changes);
    assert map[a.symbol := Contribution(a, changes)][b.symbol := Contribution(b, changes)] ==
      map[a.symbol := Contribution(b, changes)];
  }
}
