/**
 * How the parts of the system read each other: the front end's status
 * views against the contract's status code, the two network selections,
 * the address checks, and the two remaining-time computations.
 */
module Agreement {
  import opened Common
  import opened Text
  import StellarConfig
  import Env
  import AuctionContract
  import AuctionStatus
  import Countdown
  import BidHelpers
  import BidOrchestrator
  import ContractTypes
  import ContractClient

  /**
   * Mapping the contract's `get_auction_status` code gives the status the
   * front end computes from `is_initialized` and the stored end time.
   */
  lemma StatusViewsAgree(s: AuctionContract.Storage, now: AuctionContract.U64)
    ensures AuctionStatus.MapAuctionStatus(AuctionContract.GetAuctionStatus(s, now))
         == AuctionStatus.GetAuctionStatus(AuctionContract.IsInitialized(s), s.endTime, now)
    ensures AuctionStatus.GetStatusInfo(AuctionStatus.MapAuctionStatus(AuctionContract.GetAuctionStatus(s, now))).canBid
            <==> AuctionContract.IsLive(s, now)
  {
  }

  /** The orchestrator's "live" code is the one the contract reports for a live auction. */
  lemma LiveCodeIsContractLive(s: AuctionContract.Storage, now: AuctionContract.U64)
    ensures AuctionContract.GetAuctionStatus(s, now) == BidOrchestrator.LiveStatusCode <==> AuctionContract.IsLive(s, now)
    ensures AuctionStatus.MapAuctionStatus(BidOrchestrator.LiveStatusCode) == AuctionStatus.Live
  {
  }

  /**
   * The two network selections disagree: a `VITE_STELLAR_NETWORK` that
   * trims and upper-cases to `PUBNET` makes `getEnv` choose PUBLIC, while
   * the explorer configuration stays on TESTNET.
   */
  lemma NetworkNamesDisagree(s: string)
    requires ToUpper(Trim(s)) == "PUBNET"
    ensures Env.NormaliseNetwork(s) == StellarConfig.Public
    ensures StellarConfig.CurrentNetwork(Some(s)) == StellarConfig.Testnet
  {
  }

  /** A valid Stellar address passes `placeBid`'s bidder check. */
  lemma ValidAddressPassesBidderCheck(contractId: string, bidder: string, amount: real)
    requires contractId != [] && amount > 0.0
    requires ContractTypes.IsValidStellarAddress(bidder)
    ensures ContractClient.Preamble(contractId, bidder, amount, true).None?
  {
  }

  /** The countdown and the status helpers measure the same remaining time. */
  lemma CountdownMeasuresTimeRemaining(endTime: int, nowSeconds: int)
    ensures Countdown.TotalSeconds(Countdown.CalcTimeLeft(endTime, nowSeconds))
         == AuctionStatus.GetTimeRemaining(endTime, nowSeconds)
  {
  }

  /**
   * The countdown shows all zeros exactly when the bid helpers call the
   * auction inactive, and exactly when an initialised auction's status is
   * ended.
   */
  lemma CountdownExpiresWithAuction(endTime: int, nowSeconds: int)
    ensures Countdown.AllZero(Countdown.CalcTimeLeft(endTime, nowSeconds))
            <==> !BidHelpers.IsAuctionActive(endTime, nowSeconds)
    ensures Countdown.AllZero(Countdown.CalcTimeLeft(endTime, nowSeconds))
            <==> AuctionStatus.GetAuctionStatus(true, Some(endTime), nowSeconds) == AuctionStatus.Ended
  {
  }
}
