/** The three holdings providers behind one interface: which one answers is a tag. */
module Providers {
  import opened Common
  import opened Oracles
  import Mock
  import Eastmoney
  import Akshare

  /** `MockHoldingsProvider`, `EastmoneyHoldingsProvider`, `AkshareHoldingsProvider`. */
  datatype HoldingsSource = MockHoldings | EastmoneyHoldings | AkshareHoldings {
    /** The tag a successful `get_latest_holdings` reports. */
    function Tag(): string {
      match this
      case MockHoldings => "mock"
      case EastmoneyHoldings => "eastmoney"
      case AkshareHoldings => "akshare"
    }
  }

  /** Whether the chosen provider's `get_fund_name` reads the Eastmoney fund script:
      the Eastmoney provider always, the akshare one once the library is installed. */
  predicate ReadsEastmoneyName(source: HoldingsSource, w: World) {
    source == EastmoneyHoldings || (source == AkshareHoldings && Akshare.IsAvailable(w))
  }

  /** `get_fund_name` of the chosen provider. The mock one never fails; the
      others return the `fS_name` match, the code when there is none, or the
      network error. */
  function FundName(source: HoldingsSource, code: string, w: World): (r: Result<string, Error>)
    ensures source == MockHoldings ==> r == Success(Mock.MockFundName(code))
    ensures source == AkshareHoldings && !Akshare.IsAvailable(w) ==> r == Failure(ProviderError(Akshare.Unavailable))
    ensures ReadsEastmoneyName(source, w) && w.fundNamePage(code) == Got(None) ==> r == Success(code)
    ensures ReadsEastmoneyName(source, w) && w.fundNamePage(code).Got? && w.fundNamePage(code).value.Some? ==>
      r == Success(w.fundNamePage(code).value.value)
    ensures ReadsEastmoneyName(source, w) && w.fundNamePage(code).NetError? ==>
      r == Failure(OtherError(w.fundNamePage(code).message))
  {
    match source
    case MockHoldings => Success(Mock.MockFundName(code))
    case EastmoneyHoldings => Eastmoney.FundName(code, w)
    case AkshareHoldings => Akshare.FundName(code, w)
  }

  /** `get_latest_holdings` of the chosen provider: a success carries the
      provider's own tag, and the mock provider never fails. */
  function LatestHoldings(source: HoldingsSource, code: string, w: World): (r: Result<Snapshot, Error>)
    ensures r.Success? ==> r.value.source == source.Tag()
    ensures source == MockHoldings ==> r == Success(Mock.MockLatestHoldings(code))
  {
    match source
    case MockHoldings => Success(Mock.MockLatestHoldings(code))
    case EastmoneyHoldings => Eastmoney.LatestHoldings(code, w)
    case AkshareHoldings => Akshare.LatestHoldings(code, w)
  }
}
