/**
 * Bid helpers of frontend/src/utils/bidHelpers.ts: amount validation,
 * address shortening, Soroban error messages, explorer links, the
 * suggested next bid and the remaining-time text.
 */
module BidHelpers {
  import opened Common
  import opened Text
  import StellarConfig
  import AuctionStatus
  import Countdown

  // ------------------------------------------------------------ validateBidAmount

  /**
   * The user's balance as `validateBidAmount` sees it: absent (null or the
   * empty string), a string `parseFloat` reads as NaN or +Infinity, one it
   * reads as -Infinity, or a finite number of XLM.
   */
  datatype Balance = NoBalance | NaNOrInfinity | MinusInfinity | Amount(xlm: real)

  datatype BidError =
    | NotANumber                          // 'Please enter a valid number'
    | NotPositive                         // 'Bid amount must be greater than 0'
    | BelowMinimum(minBid: real)          // 'Bid must be at least … XLM'
    | NotAboveHighest(highest: real)      // 'Bid must be higher than … XLM'
    | InsufficientBalance(shown: Balance) // 'Insufficient balance. You have … XLM'
    | NoFeeReserve                        // 'Please leave at least 1 XLM for transaction fees'

  datatype BidCheck = Valid | Invalid(error: BidError)

  /** The amount passes the checks that come before the balance checks. */
  predicate PassesAmountChecks(amount: JsNumber, minBid: real, currentHighestBid: real) {
    amount.Finite? && amount.value > 0.0 && amount.value >= minBid && amount.value > currentHighestBid
  }

  /**
   * `validateBidAmount(amount, minBid, currentHighestBid, userBalance)`:
   * the checks run in order and the first failing one is reported. Every
   * finite amount exceeds a balance of -Infinity; NaN and +Infinity fail
   * neither balance check, since every comparison with NaN is false and
   * `Infinity - amount < 1` is false.
   */
  function ValidateBidAmount(amount: JsNumber, minBid: real, currentHighestBid: real, balance: Balance): (r: BidCheck)
    ensures r == Valid <==>
              && PassesAmountChecks(amount, minBid, currentHighestBid)
              && !balance.MinusInfinity?
              && (balance.Amount? ==> amount.value <= balance.xlm - 1.0)
    ensures amount.NonFinite? ==> r == Invalid(NotANumber)
    ensures amount.Finite? && amount.value <= 0.0 ==> r == Invalid(NotPositive)
    ensures amount.Finite? && 0.0 < amount.value < minBid ==> r == Invalid(BelowMinimum(minBid))
    ensures (amount.Finite? && 0.0 < amount.value && minBid <= amount.value <= currentHighestBid)
            ==> r == Invalid(NotAboveHighest(currentHighestBid))
    ensures PassesAmountChecks(amount, minBid, currentHighestBid) && balance.MinusInfinity? ==>
              r == Invalid(InsufficientBalance(MinusInfinity))
    ensures PassesAmountChecks(amount, minBid, currentHighestBid) && balance.Amount? && amount.value > balance.xlm ==>
              r == Invalid(InsufficientBalance(balance))
    ensures PassesAmountChecks(amount, minBid, currentHighestBid) && balance.Amount?
            && amount.value <= balance.xlm && balance.xlm - amount.value < 1.0 ==>
              r == Invalid(NoFeeReserve)
    ensures r.Invalid? && (r.error.InsufficientBalance? || r.error == NoFeeReserve) ==>
              PassesAmountChecks(amount, minBid, currentHighestBid) && (balance.Amount? || balance.MinusInfinity?)
  {
    if amount.NonFinite? then Invalid(NotANumber)
    else if amount.value <= 0.0 then Invalid(NotPositive)
    else if amount.value < minBid then Invalid(BelowMinimum(minBid))
    else if amount.value <= currentHighestBid then Invalid(NotAboveHighest(currentHighestBid))
    else match balance
      case Amount(b) =>
        if amount.value > b then Invalid(InsufficientBalance(balance))
        else if b - amount.value < 1.0 then Invalid(NoFeeReserve)
        else Valid
      case MinusInfinity => Invalid(InsufficientBalance(MinusInfinity))
      case _ => Valid
  }

  // ------------------------------------------------------------ shortenAddress

  /**
   * `shortenAddress(address, startChars, endChars)`. A short address is
   * returned as is. `slice(-0)` is the whole string, so `endChars = 0`
   * appends the entire address after the ellipsis.
   */
  function ShortenAddress(address: string, startChars: nat, endChars: nat): (r: string)
    ensures address == [] || |address| <= startChars + endChars ==> r == address
    ensures |address| > startChars + endChars ==> StartsWith(r, address[..startChars] + "...")
    ensures |address| > startChars + endChars && endChars > 0 ==>
              |r| == startChars + 3 + endChars && r[startChars + 3..] == address[|address| - endChars..]
    ensures |address| > startChars + endChars && endChars == 0 ==> r == address[..startChars] + "..." + address
  {
    if address == [] || |address| <= startChars + endChars then address
    else
      var tail := if endChars == 0 then address else address[|address| - endChars..];
      var r := address[..startChars] + "..." + tail;
      assert r[..startChars + 3] == address[..startChars] + "...";
      r
  }

  /** The default form `shortenAddress(a)` keeps four characters at each end of a 56-character key. */
  lemma ShortenStellarAddress(address: string)
    requires |address| == 56
    ensures |ShortenAddress(address, 4, 4)| == 11
    ensures ShortenAddress(address, 4, 4) == address[..4] + "..." + address[52..]
  {
  }

  // ------------------------------------------------------------ parseSorobanError

  /** The seven case-sensitive patterns of `parseSorobanError`, in the order they are tested. */
  const SorobanErrorRules: seq<Rule> := [
    Rule(["MismatchingParameterLen"], "Contract parameter mismatch. Please contact support."),
    Rule(["UnexpectedSize"], "Invalid transaction size. Please try again."),
    Rule(["InsufficientBalance"], "Insufficient XLM balance for this transaction."),
    Rule(["AuctionEnded"], "This auction has already ended."),
    Rule(["BidTooLow"], "Your bid is too low. Please bid higher."),
    Rule(["User rejected"], "Transaction was rejected in wallet."),
    Rule(["timeout"], "Transaction timed out. It may still succeed. Check Stellar Expert.")
  ]

  /**
   * `parseSorobanError(error)`: the message of the first pattern the error
   * contains (case-sensitive), or the error unchanged.
   */
  function ParseSorobanError(error: string): (r: string)
    ensures (forall j :: 0 <= j < |SorobanErrorRules| ==> !Matches(SorobanErrorRules[j], error)) ==> r == error
    ensures forall k :: 0 <= k < |SorobanErrorRules| && Matches(SorobanErrorRules[k], error)
              && (forall j :: 0 <= j < k ==> !Matches(SorobanErrorRules[j], error))
              ==> r == SorobanErrorRules[k].message
    ensures r == error || exists k :: 0 <= k < |SorobanErrorRules| && r == SorobanErrorRules[k].message
  {
    Classify(SorobanErrorRules, error)
  }

  // ------------------------------------------------------------ explorer links

  datatype ExpertNetwork = ExpertTestnet | ExpertPublic

  function ExpertNetworkName(n: ExpertNetwork): string {
    match n
    case ExpertTestnet => "testnet"
    case ExpertPublic => "public"
  }

  /** The configured network whose explorer base names the same segment. */
  function AsNetwork(n: ExpertNetwork): StellarConfig.Network {
    match n
    case ExpertTestnet => StellarConfig.Testnet
    case ExpertPublic => StellarConfig.Public
  }

  const ExpertRoot: string := "https://stellar.expert/explorer/"

  lemma ExpertRootIsExplorerBase(n: ExpertNetwork)
    ensures ExpertRoot + ExpertNetworkName(n) == StellarConfig.ExplorerBase(AsNetwork(n))
  {
  }

  /** `getStellarExpertTxUrl(txHash, network = 'testnet')`: the same link `getTxUrl` builds. */
  function StellarExpertTxUrl(txHash: string, network: Option<ExpertNetwork>): (url: string)
    ensures url == StellarConfig.TxUrl(AsNetwork(network.GetOr(ExpertTestnet)), txHash)
  {
    ExpertRootIsExplorerBase(network.GetOr(ExpertTestnet));
    ExpertRoot + ExpertNetworkName(network.GetOr(ExpertTestnet)) + "/tx/" + txHash
  }

  /** `getStellarExpertAccountUrl(address, network = 'testnet')`. */
  function StellarExpertAccountUrl(address: string, network: Option<ExpertNetwork>): (url: string)
    ensures url == StellarConfig.AccountUrl(AsNetwork(network.GetOr(ExpertTestnet)), address)
  {
    ExpertRootIsExplorerBase(network.GetOr(ExpertTestnet));
    ExpertRoot + ExpertNetworkName(network.GetOr(ExpertTestnet)) + "/account/" + address
  }

  /** `getStellarExpertContractUrl(contractId, network = 'testnet')`. */
  function StellarExpertContractUrl(contractId: string, network: Option<ExpertNetwork>): (url: string)
    ensures url == StellarConfig.ContractUrl(AsNetwork(network.GetOr(ExpertTestnet)), contractId)
  {
    ExpertRootIsExplorerBase(network.GetOr(ExpertTestnet));
    ExpertRoot + ExpertNetworkName(network.GetOr(ExpertTestnet)) + "/contract/" + contractId
  }

  // ------------------------------------------------------------ suggested bid and time

  /**
   * `calculateSuggestedBid(currentHighestBid, minIncrement = 1)`: the larger
   * of ten percent more and one increment more.
   */
  function CalculateSuggestedBid(currentHighestBid: real, minIncrement: Option<real>): (r: real)
    ensures r >= currentHighestBid + minIncrement.GetOr(1.0)
    ensures r >= currentHighestBid * 1.1
    ensures r == currentHighestBid + minIncrement.GetOr(1.0) || r == currentHighestBid * 1.1
  {
    MaxReal(currentHighestBid * 1.1, currentHighestBid + minIncrement.GetOr(1.0))
  }

  /** `getTimeRemaining(endTime)` with the clock as a parameter: the same as the status helper's. */
  function GetTimeRemaining(endTime: int, nowSeconds: int): (r: int)
    ensures r >= 0
    ensures r == AuctionStatus.GetTimeRemaining(endTime, nowSeconds)
  {
    Max(0, endTime - nowSeconds)
  }

  /** `isAuctionActive(endTime)`: some time remains. */
  function IsAuctionActive(endTime: int, nowSeconds: int): (active: bool)
    ensures active <==> GetTimeRemaining(endTime, nowSeconds) > 0
  {
    endTime > nowSeconds
  }

  /**
   * The parts `formatTimeRemaining` prints for a positive number of seconds:
   * from the largest non-zero unit down, without seconds once there are days.
   */
  function ShownParts(seconds: nat): (parts: seq<AuctionStatus.Shown>)
    requires seconds > 0
    ensures 1 <= |parts| <= 3
    ensures parts[0].value > 0
    ensures parts[|parts| - 1].unit == (if Countdown.CalcTimeLeft(seconds, 0).days > 0 then 'm' else 's')
    ensures forall i :: 0 <= i < |parts| ==> parts[i].value == UnitField(Countdown.CalcTimeLeft(seconds, 0), parts[i].unit)
    ensures (exists i :: 0 <= i < |parts| && parts[i].unit == 'd') <==> seconds >= 86400
    ensures (exists i :: 0 <= i < |parts| && parts[i].unit == 'h') <==> seconds >= 3600
    ensures (exists i :: 0 <= i < |parts| && parts[i].unit == 'm') <==> seconds >= 60
    ensures (exists i :: 0 <= i < |parts| && parts[i].unit == 's') <==> seconds < 86400
  {
    var t := Countdown.CalcTimeLeft(seconds, 0);
    assert seconds == Countdown.TotalSeconds(t);
    PartsOf(t)
  }

  /** The field of a split remaining time that a unit letter names. */
  function UnitField(t: Countdown.TimeLeft, unit: char): nat {
    if unit == 'd' then t.days else if unit == 'h' then t.hours else if unit == 'm' then t.minutes else t.seconds
  }

  /** The parts shown for a split remaining time that is not all zero. */
  function PartsOf(t: Countdown.TimeLeft): (parts: seq<AuctionStatus.Shown>)
    requires !Countdown.AllZero(t)
    ensures 1 <= |parts| <= 3
    ensures parts[0].value > 0
    ensures parts[|parts| - 1].unit == (if t.days > 0 then 'm' else 's')
    ensures forall i :: 0 <= i < |parts| ==> parts[i].value == UnitField(t, parts[i].unit)
    ensures forall i, j :: 0 <= i < j < |parts| ==>
              AuctionStatus.UnitSeconds(parts[i].unit) > AuctionStatus.UnitSeconds(parts[j].unit)
    ensures (exists i :: 0 <= i < |parts| && parts[i].unit == 'd') <==> t.days > 0
    ensures (exists i :: 0 <= i < |parts| && parts[i].unit == 'h') <==> t.days > 0 || t.hours > 0
    ensures (exists i :: 0 <= i < |parts| && parts[i].unit == 'm') <==> t.days > 0 || t.hours > 0 || t.minutes > 0
    ensures (exists i :: 0 <= i < |parts| && parts[i].unit == 's') <==> t.days == 0
  {
    var d, h, m, s := AuctionStatus.Shown(t.days, 'd'), AuctionStatus.Shown(t.hours, 'h'),
                      AuctionStatus.Shown(t.minutes, 'm'), AuctionStatus.Shown(t.seconds, 's');
    if t.days > 0 then
      var p := [d, h, m];
      assert p[1].unit == 'h' && p[2].unit == 'm';
      p
    else if t.hours > 0 then
      var p := [h, m, s];
      assert p[1].unit == 'm';
      p
    else if t.minutes > 0 then [m, s]
    else [s]
  }

  /**
   * What the shown parts add up to: the exact time below one day, and the
   * time truncated to the minute from one day on.
   */
  lemma ShownPartsValue(seconds: nat)
    requires seconds > 0
    ensures seconds < 86400 ==> AuctionStatus.ShownSeconds(ShownParts(seconds)) == seconds
    ensures seconds >= 86400 ==> AuctionStatus.ShownSeconds(ShownParts(seconds)) == seconds - seconds % 60
  {
    var t := Countdown.CalcTimeLeft(seconds, 0);
    PartsOfValue(t);
    assert seconds == Countdown.TotalSeconds(t);
    assert seconds >= 86400 <==> t.days > 0;
    if t.days > 0 {
      Countdown.MinuteRemainder(seconds, t.days * 1440 + t.hours * 60 + t.minutes, t.seconds);
    }
  }

  /** The parts of a split time add up to it, less the seconds when there are days. */
  lemma PartsOfValue(t: Countdown.TimeLeft)
    requires !Countdown.AllZero(t)
    ensures AuctionStatus.ShownSeconds(PartsOf(t)) == Countdown.TotalSeconds(t) - (if t.days > 0 then t.seconds else 0)
  {
    var d, h, m, sec := AuctionStatus.Shown(t.days, 'd'), AuctionStatus.Shown(t.hours, 'h'),
                        AuctionStatus.Shown(t.minutes, 'm'), AuctionStatus.Shown(t.seconds, 's');
    if t.days > 0 {
      AuctionStatus.ShownSecondsOf3(d, h, m);
    } else if t.hours > 0 {
      AuctionStatus.ShownSecondsOf3(h, m, sec);
    } else if t.minutes > 0 {
      assert [m, sec][1..] == [sec] && [sec][1..] == [];
      assert AuctionStatus.ShownSeconds([sec]) == t.seconds;
      assert PartsOf(t) == [m, sec];
    } else {
      assert [sec][1..] == [];
    }
  }

  /**
   * `formatTimeRemaining(seconds)`: `'Ended'` exactly when nothing remains;
   * otherwise the shown parts separated by spaces, starting with a digit and
   * ending in `m` with days, in `s` without.
   */
  function FormatTimeRemaining(seconds: int): (r: string)
    ensures r == "Ended" <==> seconds <= 0
    ensures seconds > 0 ==> r == Join(AuctionStatus.ShowAll(ShownParts(seconds)), " ")
    ensures seconds > 0 ==> r != [] && IsDigit(r[0])
    ensures seconds > 0 ==> r[|r| - 1] == (if seconds >= 86400 then 'm' else 's')
  {
    if seconds <= 0 then "Ended"
    else
      var parts := ShownParts(seconds);
      var shown := AuctionStatus.ShowAll(parts);
      var r := Join(shown, " ");
      assert r[0] == shown[0][0];
      assert r[|r| - 1] == shown[|shown| - 1][|shown[|shown| - 1]| - 1];
      assert r[0] != 'E';
      ShownPartsValue(seconds);
      r
  }
}
