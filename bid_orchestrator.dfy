/**
 * The bid workflow of frontend/src/utils/bidOrchestrator.ts: make sure the
 * auction is initialised, make sure it is live, then bid.
 *
 * The four injected capabilities (`BidDeps`) are represented by their
 * answers, and the model reports which of them were called, in order.
 * Amounts are integer stroops, so the 0.01 XLM seed offset is 100 000.
 */
module BidOrchestrator {
  import opened Common

  /** `{ success, txHash, error? }`. */
  datatype BidResult = BidResult(success: bool, txHash: string, error: Option<string>)

  /** A call of one of the injected capabilities. */
  datatype DepCall =
    | IsInitializedCall
    | InitializeCall(owner: string, startPriceStroops: int, durationMins: int)
    | GetStatusCall
    | BidCall(amountStroops: int)

  /** What each capability answers when it is called. */
  datatype DepAnswers = DepAnswers(
    initialized: bool,
    statusCode: int,
    initResult: BidResult,
    bidResult: BidResult)

  datatype Orchestration = Orchestration(result: BidResult, calls: seq<DepCall>)

  /** 0.01 XLM in stroops. */
  const SeedOffsetStroops: int := 100_000

  /** The status code the contract reports for a live auction. */
  const LiveStatusCode: int := 1

  /** `Math.max(0, amountXlm - 0.01)`: the start price used to seed an uninitialised auction. */
  function SeedStartPrice(amountStroops: int): (p: int)
    ensures p >= 0
    ensures p <= amountStroops || amountStroops < 0
    ensures amountStroops >= SeedOffsetStroops ==> p == amountStroops - SeedOffsetStroops
    ensures amountStroops < SeedOffsetStroops ==> p == 0
  {
    Max(0, amountStroops - SeedOffsetStroops)
  }

  /** `res.error || 'Initialization failed'`: an absent or empty error falls back to the default. */
  function InitFailureMessage(error: Option<string>): (m: string)
    ensures m != []
    ensures error.Some? && error.value != [] ==> m == error.value
    ensures error.None? || error.value == [] ==> m == "Initialization failed"
  {
    if error.Some? && error.value != [] then error.value else "Initialization failed"
  }

  /** `orchestrateBid(bidder, amountXlm, durationMins, deps)`. */
  function OrchestrateBid(bidder: string, amountStroops: int, durationMins: int, deps: DepAnswers): (o: Orchestration)
    // the first call is always the initialisation query
    ensures |o.calls| >= 1 && o.calls[0] == IsInitializedCall
    // initialize is called, once and with the seeded price, exactly when the auction was not initialised
    ensures (exists j :: 0 <= j < |o.calls| && o.calls[j].InitializeCall?) <==> !deps.initialized
    ensures !deps.initialized ==> o.calls[1] == InitializeCall(bidder, SeedStartPrice(amountStroops), durationMins)
    // a failed initialisation ends the workflow with its own error
    ensures !deps.initialized && !deps.initResult.success ==>
              o.result == BidResult(false, "", Some(InitFailureMessage(deps.initResult.error)))
              && |o.calls| == 2
    // bid is called, with the original amount, exactly when the status query reported live
    ensures (exists j :: 0 <= j < |o.calls| && o.calls[j].BidCall?)
            <==> (deps.initialized || deps.initResult.success) && deps.statusCode == LiveStatusCode
    ensures o.calls[|o.calls| - 1].BidCall? ==> o.calls[|o.calls| - 1] == BidCall(amountStroops) && o.result == deps.bidResult
    // on a live auction the status query is followed by the bid, whose result is returned unchanged
    ensures (deps.initialized || deps.initResult.success) && deps.statusCode == LiveStatusCode ==>
              |o.calls| >= 3 && o.calls[|o.calls| - 2..] == [GetStatusCall, BidCall(amountStroops)] && o.result == deps.bidResult
    // the status is queried, as the last call, when the auction is initialised but not live
    ensures (deps.initialized || deps.initResult.success) && deps.statusCode != LiveStatusCode ==>
              o.calls[|o.calls| - 1] == GetStatusCall
    ensures (deps.initialized || deps.initResult.success) && deps.statusCode != LiveStatusCode ==>
              o.result == BidResult(false, "", Some("Auction not live"))
    // every result the orchestrator builds itself is a failure with a non-empty message and no hash
    ensures o.result != deps.bidResult ==> !o.result.success && o.result.txHash == [] && o.result.error.Some? && o.result.error.value != []
    ensures o.result.success ==> o.result == deps.bidResult
  {
    var prefix := if deps.initialized then [IsInitializedCall]
                  else [IsInitializedCall, InitializeCall(bidder, SeedStartPrice(amountStroops), durationMins)];
    assert !deps.initialized ==> prefix[1].InitializeCall?;
    if !deps.initialized && !deps.initResult.success then
      Orchestration(BidResult(false, "", Some(InitFailureMessage(deps.initResult.error))), prefix)
    else if deps.statusCode != LiveStatusCode then
      var calls := prefix + [GetStatusCall];
      assert !deps.initialized ==> calls[1].InitializeCall?;
      Orchestration(BidResult(false, "", Some("Auction not live")), calls)
    else
      var calls := prefix + [GetStatusCall, BidCall(amountStroops)];
      assert calls[|calls| - 1].BidCall?;
      assert !deps.initialized ==> calls[1].InitializeCall?;
      Orchestration(deps.bidResult, calls)
  }

  /**
   * The three scenarios of the orchestrator's tests: initialise then bid,
   * a failing initialisation, and a contract that is not live.
   */
  lemma OrchestratorScenarios()
    ensures var deps := DepAnswers(false, 1, BidResult(true, "init-hash", None), BidResult(true, "bid-hash", None));
            OrchestrateBid("GABC", 10 * StroopsPerXlm, 120, deps).result == BidResult(true, "bid-hash", None)
    ensures var deps := DepAnswers(false, 1, BidResult(false, "", Some("init error")), BidResult(true, "bid-hash", None));
            OrchestrateBid("GABC", 10 * StroopsPerXlm, 120, deps).result == BidResult(false, "", Some("init error"))
    ensures var deps := DepAnswers(true, 2, BidResult(true, "init-hash", None), BidResult(true, "bid-hash", None));
            OrchestrateBid("GABC", 10 * StroopsPerXlm, 120, deps).result == BidResult(false, "", Some("Auction not live"))
  {
  }
}
