/**
 * The client operations of frontend/src/contract.ts that decide something
 * without the network: the checks `placeBid` makes before any request, how
 * it turns the poll result into a `PlaceBidResult`, how its `catch` block
 * classifies errors, the `placeBidEnsuringInit` workflow, and the demo
 * catalogue reads.
 *
 * Everything `placeBid` sends to the RPC server between the checks and the
 * poll (account load, simulation, signing, submission) is an oracle: it
 * either throws a message or yields the hash of a submitted transaction and
 * the server's answers to the status queries of the poll budget.
 */
module ContractClient {
  import opened Common
  import opened Text
  import StellarConfig
  import TxControl
  import Env
  import BidOrchestrator

  type PlaceBidResult = BidOrchestrator.BidResult

  /** A failure built by `placeBid` itself: no hash, `success: false`. */
  function Failure(message: string): PlaceBidResult {
    BidOrchestrator.BidResult(false, "", Some(message))
  }

  // ------------------------------------------------------------ checks before the network

  const MissingContractIdMessage: string := "Missing VITE_CONTRACT_ID. Set it in .env and restart the dev server."

  /**
   * The checks at the top of `placeBid`, in order: a configured contract id,
   * a non-empty bidder starting with 'G', a positive amount (XLM), and a
   * signing function. `None` means all passed and the network part runs.
   */
  function Preamble(contractId: string, bidder: string, amount: real, hasSignFn: bool): (r: Option<PlaceBidResult>)
    ensures r.None? <==> contractId != [] && StartsWith(bidder, "G") && amount > 0.0 && hasSignFn
    ensures r.Some? ==> !r.value.success && r.value.txHash == [] && r.value.error.Some?
    ensures contractId == [] ==> r == Some(Failure(MissingContractIdMessage))
    ensures contractId != [] && !StartsWith(bidder, "G") ==> r == Some(Failure("Invalid bidder address"))
    ensures contractId != [] && StartsWith(bidder, "G") && amount <= 0.0 ==>
              r == Some(Failure("Bid amount must be greater than 0"))
    ensures contractId != [] && StartsWith(bidder, "G") && amount > 0.0 && !hasSignFn ==>
              r == Some(Failure("Signing function not provided"))
  {
    if contractId == [] then Some(Failure(MissingContractIdMessage))
    else if bidder == [] || bidder[0] != 'G' then Some(Failure("Invalid bidder address"))
    else if amount <= 0.0 then Some(Failure("Bid amount must be greater than 0"))
    else if !hasSignFn then Some(Failure("Signing function not provided"))
    else None
  }

  // ------------------------------------------------------------ the catch block

  /** The eight rows of the `catch` block, tested in this order on the lower-cased message. */
  const BidErrorRules: seq<Rule> := [
    Rule(["error(contract, #1)", "not initialized"], "Auction not initialized. Please initialize the auction first."),
    Rule(["error(contract, #2)", "ended"], "Auction has ended."),
    Rule(["error(contract, #3)", "bid too low"], "Bid too low. Enter a higher amount."),
    Rule(["tx_bad_seq", "bad seq", "sequence"], "Out-of-date account sequence. Refresh account and retry."),
    Rule(["tx_insufficient_fee", "insufficient fee", "fee"], "Insufficient fee. Increase fee and retry."),
    Rule(["tx_insufficient_balance", "op_underfunded", "balance"], "Wallet account not found or not funded on Testnet."),
    Rule(["invalid signature", "bad auth"], "Invalid signature. Ensure the wallet signs on Testnet."),
    Rule(["no such contract", "contract not found"], "Contract not found. Verify CONTRACT_ID and network.")
  ]

  /** Every row of the `catch` block has a sentence to show. */
  lemma BidErrorSentencesNonEmpty()
    ensures forall k :: 0 <= k < |BidErrorRules| ==> BidErrorRules[k].message != []
  {
  }

  /** `err.message || 'Unknown error occurred'`. */
  function ErrorText(message: string): (t: string)
    ensures t != []
    ensures message != [] ==> t == message
  {
    if message == [] then "Unknown error occurred" else message
  }

  /**
   * The `catch` block of `placeBid`: the first row matching the lower-cased
   * message gives its sentence; with no match the message is kept as it
   * was, not lower-cased. Every result is a failure without a hash.
   */
  function ClassifyBidError(message: string): (r: PlaceBidResult)
    ensures !r.success && r.txHash == [] && r.error.Some? && r.error.value != []
    ensures var k := FirstMatch(BidErrorRules, ToLower(ErrorText(message)));
      && (k.None? ==> r.error.value == ErrorText(message))
      && (k.Some? ==> r.error.value == BidErrorRules[k.value].message)
  {
    BidErrorSentencesNonEmpty();
    var text := ErrorText(message);
    match FirstMatch(BidErrorRules, ToLower(text))
    case None => Failure(text)
    case Some(k) => Failure(BidErrorRules[k].message)
  }

  /**
   * The classification ignores letter case: two messages that lower-case
   * alike and match some row get the same sentence.
   */
  lemma ClassificationIgnoresCase(m1: string, m2: string)
    requires m1 != [] && m2 != [] && ToLower(m1) == ToLower(m2)
    requires FirstMatch(BidErrorRules, ToLower(m1)).Some?
    ensures ClassifyBidError(m1) == ClassifyBidError(m2)
  {
  }

  /**
   * Rows are tried in order: a message matching row `k` gets row `k`'s
   * sentence exactly when it matches no earlier row.
   */
  lemma EarlierRowsWin(message: string, k: nat)
    requires k < |BidErrorRules| && Matches(BidErrorRules[k], ToLower(ErrorText(message)))
    ensures FirstMatch(BidErrorRules, ToLower(ErrorText(message))).Some?
    ensures FirstMatch(BidErrorRules, ToLower(ErrorText(message))).value <= k
    ensures (forall j :: 0 <= j < k ==> !Matches(BidErrorRules[j], ToLower(ErrorText(message))))
            ==> ClassifyBidError(message).error == Some(BidErrorRules[k].message)
  {
  }

  /** The pattern by which the RPC reports the contract's error code `code`, lower-cased. */
  function ContractErrorPattern(code: nat): string
    requires 1 <= code <= 9
  {
    "error(contract, #" + [DigitChar(code)] + ")"
  }

  /**
   * The contract's error codes 1 to 3, as the RPC reports them
   * (`Error(Contract, #c)`, in any letter case), are classified by row `c`
   * or an earlier one; code 1 always by its own row.
   */
  lemma ContractCodesSelectTheirRow(message: string, code: nat)
    requires 1 <= code <= 3
    requires Contains(ToLower(message), ContractErrorPattern(code))
    ensures FirstMatch(BidErrorRules, ToLower(ErrorText(message))).Some?
    ensures FirstMatch(BidErrorRules, ToLower(ErrorText(message))).value < code
    ensures code == 1 ==> ClassifyBidError(message) == Failure(BidErrorRules[0].message)
  {
    assert message != [];
    var s := ToLower(message);
    var p := ContractErrorPattern(code);
    if code == 1 {
      assert p == "error(contract, #1)";
    } else if code == 2 {
      assert p == "error(contract, #2)";
    } else {
      assert p == "error(contract, #3)";
    }
    assert p in BidErrorRules[code - 1].patterns;
    EarlierRowsWin(message, code - 1);
  }

  // ------------------------------------------------------------ after submission

  const LedgerFailureMessage: string := "Transaction failed on ledger. Check Stellar Expert for details."

  /** What the network part of `placeBid` did, as seen from the client. */
  datatype Submission =
    | ThrewBeforePoll(message: string)              // account load, simulation, signing or submission threw
    | Submitted(txHash: string, replies: seq<TxControl.Reply>)  // the answers the status queries would get, in order

  /** A branch of `placeBid` either returns a result or throws a message into the `catch` block. */
  datatype Step = Done(result: PlaceBidResult) | Throws(message: string)

  /**
   * The mapping after `ctl.poll(hash)`: committed is a success with the
   * hash, failed throws the ledger message, anything else (a timeout) is a
   * pending failure that keeps the hash and links to the explorer.
   */
  function AfterPoll(net: StellarConfig.Network, txHash: string, entry: TxControl.TxAuditLogEntry): (s: Step)
    ensures s.Done? && s.result.success <==> entry.state == TxControl.Committed
    ensures s.Throws? <==> entry.state == TxControl.Failed
    ensures s.Throws? ==> s.message == LedgerFailureMessage
    ensures s.Done? ==> s.result.txHash == txHash
    ensures s.Done? && !s.result.success ==> s.result.error == Some("Pending: " + StellarConfig.TxUrl(net, txHash))
  {
    if entry.state == TxControl.Committed then Done(BidOrchestrator.BidResult(true, txHash, None))
    else if entry.state == TxControl.Failed then Throws(LedgerFailureMessage)
    else Done(BidOrchestrator.BidResult(false, txHash, Some("Pending: " + StellarConfig.TxUrl(net, txHash))))
  }

  /** The poll interval `placeBid` gives its transaction controller. */
  const BidPollIntervalMs: int := 2000

  /**
   * How many status queries the controller `placeBid` builds may make:
   * `ceil(TX_TIMEOUT_SECS * 1000 / 2000)`, since an explicit `timeoutSecs`
   * is clamped below only. For a configured timeout in [30, 300] that is
   * half the seconds, rounded up: 15 to 150 queries.
   */
  function PollBudget(txTimeoutSecs: int): (n: int)
    ensures n >= 1
    ensures txTimeoutSecs >= 1 ==> (n - 1) * 2 < txTimeoutSecs <= n * 2
    ensures Env.MinTimeoutSecs <= txTimeoutSecs <= Env.MaxTimeoutSecs ==> 15 <= n <= 150
  {
    TxControl.MaxAttempts(TxControl.BoundedTimeoutMs(Some(txTimeoutSecs * 1000), txTimeoutSecs),
                          TxControl.BoundedPollIntervalMs(Some(BidPollIntervalMs)))
  }

  /**
   * `placeBid(auctionId, bidder, amount, signFn)`. `contractId` is the
   * configured `CONTRACT_ID`, `txTimeoutSecs` the configured
   * `TX_TIMEOUT_SECS`, `net` the build-time network of the explorer links
   * and `now` the clock the poll reads. The server is asked at most
   * `PollBudget(txTimeoutSecs)` times, so it must have that many answers.
   */
  function PlaceBid(contractId: string, txTimeoutSecs: int, net: StellarConfig.Network, bidder: string, amount: real,
                    hasSignFn: bool, submission: Submission, now: int): (r: PlaceBidResult)
    requires submission.Submitted? ==> |submission.replies| >= PollBudget(txTimeoutSecs)
    // a failed check answers before any network work
    ensures Preamble(contractId, bidder, amount, hasSignFn).Some? ==> r == Preamble(contractId, bidder, amount, hasSignFn).value
    // only a committed transaction is a success, and it carries its hash
    ensures r.success ==> Preamble(contractId, bidder, amount, hasSignFn).None? && submission.Submitted?
                          && r == BidOrchestrator.BidResult(true, submission.txHash, None)
    // a result with a hash belongs to the submitted transaction
    ensures r.txHash != [] ==> submission.Submitted? && r.txHash == submission.txHash
    // everything thrown is classified
    ensures Preamble(contractId, bidder, amount, hasSignFn).None? && submission.ThrewBeforePoll? ==>
              r == ClassifyBidError(submission.message)
  {
    match Preamble(contractId, bidder, amount, hasSignFn)
    case Some(failure) => failure
    case None =>
      match submission
      case ThrewBeforePoll(message) => ClassifyBidError(message)
      case Submitted(txHash, replies) =>
        match TxControl.Run(net, txHash, replies[..PollBudget(txTimeoutSecs)], 0, now).outcome
        case Threw(error) => ClassifyBidError(error)
        case Returned(entry) =>
          match AfterPoll(net, txHash, entry)
          case Done(result) => result
          case Throws(message) => ClassifyBidError(message)
  }

  /** Answers the server would give after the poll budget is spent change nothing. */
  lemma BidReadsOnlyTheBudget(contractId: string, txTimeoutSecs: int, net: StellarConfig.Network, bidder: string,
                              amount: real, txHash: string, replies: seq<TxControl.Reply>, later: seq<TxControl.Reply>, now: int)
    requires |replies| >= PollBudget(txTimeoutSecs)
    ensures PlaceBid(contractId, txTimeoutSecs, net, bidder, amount, true, Submitted(txHash, replies + later), now)
         == PlaceBid(contractId, txTimeoutSecs, net, bidder, amount, true, Submitted(txHash, replies), now)
  {
    var n := PollBudget(txTimeoutSecs);
    assert (replies + later)[..n] == replies[..n];
  }

  /**
   * A submitted bid whose status turns SUCCESS after `k` non-terminal
   * answers, within the poll budget, succeeds with its hash.
   */
  lemma BidCommitsOnSuccess(contractId: string, txTimeoutSecs: int, net: StellarConfig.Network, bidder: string,
                            amount: real, txHash: string, replies: seq<TxControl.Reply>, now: int, k: nat)
    requires Preamble(contractId, bidder, amount, true).None?
    requires |replies| >= PollBudget(txTimeoutSecs)
    requires k < PollBudget(txTimeoutSecs) && replies[k] == TxControl.Answer(TxControl.Success)
    requires forall j :: 0 <= j < k ==> TxControl.IsPending(replies[j])
    ensures PlaceBid(contractId, txTimeoutSecs, net, bidder, amount, true, Submitted(txHash, replies), now)
         == BidOrchestrator.BidResult(true, txHash, None)
  {
    var budget := replies[..PollBudget(txTimeoutSecs)];
    assert budget[k] == replies[k];
    assert forall j :: 0 <= j < k ==> budget[j] == replies[j];
    TxControl.FirstSuccessCommits(net, txHash, budget, 0, now, k);
  }

  /**
   * A submitted bid whose status stays non-terminal for the whole poll
   * budget is reported pending, keeping its hash and linking to the
   * explorer, whatever the server would have answered afterwards.
   */
  lemma BidPendingOnTimeout(contractId: string, txTimeoutSecs: int, net: StellarConfig.Network, bidder: string,
                            amount: real, txHash: string, replies: seq<TxControl.Reply>, now: int)
    requires Preamble(contractId, bidder, amount, true).None?
    requires |replies| >= PollBudget(txTimeoutSecs)
    requires forall j :: 0 <= j < PollBudget(txTimeoutSecs) ==> TxControl.IsPending(replies[j])
    ensures PlaceBid(contractId, txTimeoutSecs, net, bidder, amount, true, Submitted(txHash, replies), now)
         == BidOrchestrator.BidResult(false, txHash, Some("Pending: " + StellarConfig.TxUrl(net, txHash)))
  {
    var budget := replies[..PollBudget(txTimeoutSecs)];
    assert forall j :: 0 <= j < |budget| ==> budget[j] == replies[j];
    TxControl.AllPendingTimesOut(net, txHash, budget, 0, now);
  }

  /**
   * A transaction that fails on the ledger within the poll budget is
   * reported as the classified ledger message, without its hash.
   */
  lemma BidFailsOnLedgerFailure(contractId: string, txTimeoutSecs: int, net: StellarConfig.Network, bidder: string,
                                amount: real, txHash: string, replies: seq<TxControl.Reply>, now: int, k: nat,
                                xdr: Option<string>)
    requires Preamble(contractId, bidder, amount, true).None?
    requires |replies| >= PollBudget(txTimeoutSecs)
    requires k < PollBudget(txTimeoutSecs) && replies[k] == TxControl.Answer(TxControl.FailedStatus(xdr))
    requires forall j :: 0 <= j < k ==> TxControl.IsPending(replies[j])
    ensures PlaceBid(contractId, txTimeoutSecs, net, bidder, amount, true, Submitted(txHash, replies), now)
         == ClassifyBidError(LedgerFailureMessage)
  {
    var budget := replies[..PollBudget(txTimeoutSecs)];
    assert budget[k] == replies[k];
    assert forall j :: 0 <= j < k ==> budget[j] == replies[j];
    TxControl.FirstFailureFails(net, txHash, budget, 0, now, k, xdr);
  }

  /** An error thrown by a status query within the poll budget is classified like any other. */
  lemma BidClassifiesPollError(contractId: string, txTimeoutSecs: int, net: StellarConfig.Network, bidder: string,
                               amount: real, txHash: string, replies: seq<TxControl.Reply>, now: int, k: nat)
    requires Preamble(contractId, bidder, amount, true).None?
    requires |replies| >= PollBudget(txTimeoutSecs)
    requires k < PollBudget(txTimeoutSecs) && replies[k].Raised?
    requires forall j :: 0 <= j < k ==> TxControl.IsPending(replies[j])
    ensures PlaceBid(contractId, txTimeoutSecs, net, bidder, amount, true, Submitted(txHash, replies), now)
         == ClassifyBidError(replies[k].error)
  {
    var budget := replies[..PollBudget(txTimeoutSecs)];
    assert budget[k] == replies[k];
    assert forall j :: 0 <= j < k ==> budget[j] == replies[j];
    TxControl.RaisedPropagates(net, txHash, budget, 0, now, k);
  }

  // ------------------------------------------------------------ placeBidEnsuringInit

  /** The steps of `placeBidEnsuringInit` and the capability calls it made. */
  datatype Ensured = Ensured(step: Step, calls: seq<BidOrchestrator.DepCall>)

  /**
   * `placeBidEnsuringInit(auctionId, bidder, amount, durationMinutes, signFn)`:
   * seed an uninitialised auction at `max(0, amount - 0.01)` XLM, throw when
   * that fails or when the status is not live, else return `placeBid`'s
   * result (`deps.bidResult`). Amounts are stroops.
   */
  function PlaceBidEnsuringInit(bidder: string, amountStroops: int, durationMins: int,
                                deps: BidOrchestrator.DepAnswers): (e: Ensured)
    ensures e.step.Done? ==> e.step.result == deps.bidResult
    ensures e.step.Done? <==> (deps.initialized || deps.initResult.success) && deps.statusCode == BidOrchestrator.LiveStatusCode
    ensures !deps.initialized && !deps.initResult.success ==>
              e.step == Throws(BidOrchestrator.InitFailureMessage(deps.initResult.error))
    ensures (deps.initialized || deps.initResult.success) && deps.statusCode != BidOrchestrator.LiveStatusCode ==>
              e.step == Throws("Auction not live")
  {
    var seeded := if deps.initialized then []
                  else [BidOrchestrator.InitializeCall(bidder, BidOrchestrator.SeedStartPrice(amountStroops), durationMins)];
    var prefix := [BidOrchestrator.IsInitializedCall] + seeded;
    if !deps.initialized && !deps.initResult.success then
      Ensured(Throws(BidOrchestrator.InitFailureMessage(deps.initResult.error)), prefix)
    else if deps.statusCode != 1 then
      Ensured(Throws("Auction not live"), prefix + [BidOrchestrator.GetStatusCall])
    else
      Ensured(Done(deps.bidResult), prefix + [BidOrchestrator.GetStatusCall, BidOrchestrator.BidCall(amountStroops)])
  }

  /**
   * The inline workflow and the orchestrator agree: the same calls in the
   * same order, the same result when a bid is placed, and where the
   * orchestrator returns a failure the inline version throws its message.
   */
  lemma EnsuringInitMatchesOrchestrator(bidder: string, amountStroops: int, durationMins: int,
                                        deps: BidOrchestrator.DepAnswers)
    ensures var e := PlaceBidEnsuringInit(bidder, amountStroops, durationMins, deps);
            var o := BidOrchestrator.OrchestrateBid(bidder, amountStroops, durationMins, deps);
      && e.calls == o.calls
      && (e.step.Done? ==> o.result == e.step.result)
      && (e.step.Throws? ==> o.result == Failure(e.step.message))
  {
  }

  // ------------------------------------------------------------ the demo catalogue

  /** `Auction` of frontend/src/types.ts; amounts in XLM, times in seconds. */
  datatype Auction = Auction(
    id: int,
    title: string,
    description: string,
    imageUrl: string,
    category: string,
    seller: string,
    startTime: int,
    endTime: int,
    minBid: real,
    highestBid: real,
    highestBidder: Option<string>,
    isEnded: bool)

  datatype BidRecord = BidRecord(auctionId: int, bidder: string, amount: real, timestamp: int)

  /** One element of `getUserBids`' result. */
  datatype UserBid = UserBid(auction: Auction, bid: BidRecord)

  /** `_auctions.find(a => a.id === id) ?? null`: the first auction with that id. */
  function FindAuction(auctions: seq<Auction>, id: int): (r: Option<Auction>)
    ensures r.None? <==> forall k :: 0 <= k < |auctions| ==> auctions[k].id != id
    ensures forall k :: 0 <= k < |auctions| && auctions[k].id == id && (forall j :: 0 <= j < k ==> auctions[j].id != id)
              ==> r == Some(auctions[k])
  {
    if auctions == [] then None
    else if auctions[0].id == id then Some(auctions[0])
    else
      var r := FindAuction(auctions[1..], id);
      assert forall k :: 1 <= k < |auctions| ==> auctions[k] == auctions[1..][k - 1];
      r
  }

  /** `_bids[auctionId] ?? []`. */
  function BidsOf(bids: map<int, seq<BidRecord>>, auctionId: int): (history: seq<BidRecord>)
    ensures auctionId in bids ==> history == bids[auctionId]
    ensures auctionId !in bids ==> history == []
  {
    if auctionId in bids then bids[auctionId] else []
  }

  /** The position of the last bid by an address, searching from the end. */
  function LastIndexBy(bids: seq<BidRecord>, address: string): (r: Option<nat>)
    ensures r.None? <==> forall j :: 0 <= j < |bids| ==> bids[j].bidder != address
    ensures r.Some? ==> r.value < |bids| && bids[r.value].bidder == address
    ensures r.Some? ==> forall k :: r.value < k < |bids| ==> bids[k].bidder != address
  {
    if bids == [] then None
    else if bids[|bids| - 1].bidder == address then Some(|bids| - 1)
    else LastIndexBy(bids[..|bids| - 1], address)
  }

  /** `[...bids].reverse().find(b => b.bidder === address)`: the last bid by that address. */
  function LatestBidBy(bids: seq<BidRecord>, address: string): (r: Option<BidRecord>)
    ensures r.None? <==> forall j :: 0 <= j < |bids| ==> bids[j].bidder != address
    ensures r.Some? ==> r.value in bids && r.value.bidder == address
    ensures forall j :: 0 <= j < |bids| && bids[j].bidder == address && (forall k :: j < k < |bids| ==> bids[k].bidder != address)
              ==> r == Some(bids[j])
  {
    match LastIndexBy(bids, address)
    case None => None
    case Some(i) => Some(bids[i])
  }

  /** The entry `getUserBids` makes for one catalogue auction, if the address bid on it. */
  function UserBidFor(auction: Auction, bids: map<int, seq<BidRecord>>, address: string): Option<UserBid> {
    match LatestBidBy(BidsOf(bids, auction.id), address)
    case None => None
    case Some(bid) => Some(UserBid(auction, bid))
  }

  /** The specification of `getUserBids`, over a prefix of the catalogue. */
  function UserBids(auctions: seq<Auction>, bids: map<int, seq<BidRecord>>, address: string): (r: seq<UserBid>)
    ensures |r| <= |auctions|
  {
    if auctions == [] then []
    else
      var earlier := UserBids(auctions[..|auctions| - 1], bids, address);
      match UserBidFor(auctions[|auctions| - 1], bids, address)
      case None => earlier
      case Some(entry) => earlier + [entry]
  }

  /** The catalogue positions the address has bid on, in order. */
  function BidPositions(auctions: seq<Auction>, bids: map<int, seq<BidRecord>>, address: string): (ps: seq<nat>)
    ensures forall k :: 0 <= k < |ps| ==> ps[k] < |auctions|
    ensures forall k, l :: 0 <= k < l < |ps| ==> ps[k] < ps[l]
  {
    if auctions == [] then []
    else
      var n := |auctions| - 1;
      var earlier := BidPositions(auctions[..n], bids, address);
      if UserBidFor(auctions[n], bids, address).Some? then earlier + [n] else earlier
  }

  /** The positions are exactly those of the auctions the address bid on. */
  lemma {:induction false} BidPositionsComplete(auctions: seq<Auction>, bids: map<int, seq<BidRecord>>, address: string, i: nat)
    requires i < |auctions|
    ensures i in BidPositions(auctions, bids, address) <==> UserBidFor(auctions[i], bids, address).Some?
  {
    var n := |auctions| - 1;
    var prefix := auctions[..n];
    var earlier := BidPositions(prefix, bids, address);
    var flag := UserBidFor(auctions[n], bids, address).Some?;
    assert |prefix| == n;
    SnocMembership(earlier, n, BidPositions(auctions, bids, address), i, flag);
    if i < n {
      BidPositionsComplete(prefix, bids, address, i);
      assert prefix[i] == auctions[i];
    }
  }

  /** Appending a position beyond all earlier ones adds exactly that position. */
  lemma SnocMembership(earlier: seq<nat>, n: nat, ps: seq<nat>, i: nat, flag: bool)
    requires forall k :: 0 <= k < |earlier| ==> earlier[k] < n
    requires ps == (if flag then earlier + [n] else earlier)
    ensures i < n ==> (i in ps <==> i in earlier)
    ensures i == n ==> (i in ps <==> flag)
  {
    if flag {
      assert ps[|ps| - 1] == n;
    }
  }

  /**
   * `getUserBids(address)` has one entry per catalogue auction the address
   * bid on, in catalogue order, each carrying that auction and the latest
   * bid the address placed on it.
   */
  lemma {:induction false} UserBidsInCatalogueOrder(auctions: seq<Auction>, bids: map<int, seq<BidRecord>>, address: string)
    ensures var r := UserBids(auctions, bids, address);
            var ps := BidPositions(auctions, bids, address);
      && |r| == |ps|
      && forall k :: 0 <= k < |r| ==>
           r[k].auction == auctions[ps[k]]
           && Some(r[k].bid) == LatestBidBy(BidsOf(bids, auctions[ps[k]].id), address)
  {
    if auctions != [] {
      var n := |auctions| - 1;
      UserBidsInCatalogueOrder(auctions[..n], bids, address);
      assert forall i :: 0 <= i < n ==> auctions[..n][i] == auctions[i];
    }
  }

  /** Every entry of `getUserBids` is a bid by the address on the auction it comes with. */
  lemma UserBidsBelongToAddress(auctions: seq<Auction>, bids: map<int, seq<BidRecord>>, address: string)
    ensures forall e :: e in UserBids(auctions, bids, address) ==>
              e.auction in auctions && e.bid.bidder == address && e.bid in BidsOf(bids, e.auction.id)
  {
    UserBidsInCatalogueOrder(auctions, bids, address);
    var r := UserBids(auctions, bids, address);
    var ps := BidPositions(auctions, bids, address);
    forall e | e in r
      ensures e.auction in auctions && e.bid.bidder == address && e.bid in BidsOf(bids, e.auction.id)
    {
      var k :| 0 <= k < |r| && r[k] == e;
    }
  }

  /** The in-memory catalogue: the module-level `_auctions` and `_bids`. */
  class Catalogue {
    var auctions: seq<Auction>
    var bids: map<int, seq<BidRecord>>

    /** A catalogue holding the given auctions and bid lists. */
    constructor (auctions: seq<Auction>, bids: map<int, seq<BidRecord>>)
      ensures this.auctions == auctions && this.bids == bids
    {
      this.auctions := auctions;
      this.bids := bids;
    }

    /** `getAllAuctions()`: the catalogue in order; a sequence value cannot alias the field. */
    method GetAllAuctions() returns (all: seq<Auction>)
      ensures all == auctions
    {
      all := auctions;
    }

    /** `getAuction(id)`. */
    method GetAuction(id: int) returns (a: Option<Auction>)
      ensures a.None? <==> forall k :: 0 <= k < |auctions| ==> auctions[k].id != id
      ensures a.Some? ==> a.value.id == id && a.value in auctions
      ensures a == FindAuction(auctions, id)
    {
      a := FindAuction(auctions, id);
      if a.Some? {
        FoundAuctionHasId(auctions, id);
      }
    }

    /** `getBidHistory(auctionId)`: the auction's bids in order, or none. */
    method GetBidHistory(auctionId: int) returns (history: seq<BidRecord>)
      ensures history == BidsOf(bids, auctionId)
    {
      history := if auctionId in bids then bids[auctionId] else [];
    }

    /** `getUserBids(address)`: the loop over the catalogue. */
    method GetUserBids(address: string) returns (result: seq<UserBid>)
      ensures result == UserBids(auctions, bids, address)
    {
      result := [];
      var i := 0;
      while i < |auctions|
        invariant 0 <= i <= |auctions|
        invariant result == UserBids(auctions[..i], bids, address)
      {
        var auction := auctions[i];
        var history := if auction.id in bids then bids[auction.id] else [];
        var userBid := LatestBidBy(history, address);
        assert auctions[..i + 1][..i] == auctions[..i];
        if userBid.Some? {
          result := result + [UserBid(auction, userBid.value)];
        }
        i := i + 1;
      }
      assert auctions[..i] == auctions;
    }
  }

  /** The module's load: `_auctions` and `_bids` start as copies of the demo data, with times relative to `now`. */
  method LoadCatalogue(now: int) returns (c: Catalogue)
    ensures fresh(c)
    ensures c.auctions == DemoAuctions(now) && c.bids == DemoBids(now)
  {
    c := new Catalogue(DemoAuctions(now), DemoBids(now));
  }

  /** A found auction has the id asked for and comes from the catalogue. */
  lemma {:induction false} FoundAuctionHasId(auctions: seq<Auction>, id: int)
    ensures FindAuction(auctions, id).Some? ==>
              FindAuction(auctions, id).value.id == id && FindAuction(auctions, id).value in auctions
  {
    if auctions != [] && auctions[0].id != id {
      FoundAuctionHasId(auctions[1..], id);
    }
  }

  // ------------------------------------------------------------ demo data

  const AddrA: string := "GCEZWKCA5VLDNRLN3RPRJMRZOX3Z6G5CHCGEWDHDAEYAR3C5R2ZOL3E"
  const AddrB: string := "GD6WNNTW664WH7FXC5BHPC2ZUEFQ5XUJZRPQ7BIUAGBZXUHTFQZLMKH"
  const AddrC: string := "GBVUEY84QBJHQQQOHTBGHTBBOCOOHHBMBDAGJQHW72KIWVDKPQOQCQIZ"
  const AddrD: string := "GDQP2KPQGKIHYJGXNUIYOMHARUARCA7DJT5FO2FFOOKY3B2WSQHG4W37"

  /** `DEMO_AUCTIONS`. */
  function DemoAuctions(now: int): seq<Auction>
  {
    [ Auction(1, "Apple MacBook Pro M3 Max",
              "Factory sealed Apple MacBook Pro 16-inch with M3 Max chip, 64GB RAM, 2TB SSD.",
              "https://images.unsplash.com/photo-1517336714731-489689fd1ca8?w=600&q=80",
              "Electronics", AddrA, now - 3600, now + 86400, 500.0, 2750.0, Some(AddrB), false),
      Auction(2, "Bored Ape #4821 — NFT Print",
              "Limited edition high-resolution fine art print of Bored Ape Yacht Club #4821.",
              "https://images.unsplash.com/photo-1639762681485-074b7f938ba0?w=600&q=80",
              "Digital Art", AddrC, now - 7200, now + 43200, 1000.0, 4500.0, Some(AddrA), false),
      Auction(3, "PS5 Console — Bundle",
              "PlayStation 5 Digital Edition with two DualSense controllers.",
              "https://images.unsplash.com/photo-1606813907291-d86efa9b94db?w=600&q=80",
              "Luxury Goods", AddrD, now - 10800, now + 21600, 300.0, 870.0, Some(AddrB), false) ]
  }

  /** `DEMO_BIDS`. */
  function DemoBids(now: int): (b: map<int, seq<BidRecord>>)
    ensures b.Keys == {1, 2, 3}
    ensures forall id :: id in b ==> forall k :: 0 <= k < |b[id]| ==> b[id][k].auctionId == id
  {
    map[1 := [BidRecord(1, AddrD, 500.0, now - 3400), BidRecord(1, AddrB, 2750.0, now - 900)],
        2 := [BidRecord(2, AddrA, 4500.0, now - 2000)],
        3 := [BidRecord(3, AddrB, 870.0, now - 1200)]]
  }

}
