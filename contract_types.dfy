/**
 * Validators and error formatting of frontend/src/types/contract.ts:
 * StrKey shape checks, `place_bid` parameter bounds, the XLM-to-stroops
 * guard and `formatContractError` with its error-code table.
 */
module ContractTypes {
  import opened Common
  import opened Text
  import AuctionContract

  // ------------------------------------------------------------ StrKey shape

  /** A character of the class `[A-Z0-9]`. */
  predicate IsKeyChar(c: char) {
    IsAsciiUpper(c) || IsDigit(c)
  }

  const StrKeyLength: nat := 56

  /** Matches `[A-Z0-9]*`, one character at a time. */
  function AllKeyChars(s: string): (ok: bool)
    ensures ok <==> forall i :: 0 <= i < |s| ==> IsKeyChar(s[i])
  {
    if s == [] then true else IsKeyChar(s[0]) && AllKeyChars(s[1..])
  }

  /** Matches `^P[A-Z0-9]{55}$` for the version letter `P`. */
  function MatchesStrKeyShape(s: string, prefix: char): (ok: bool)
    ensures ok <==> |s| == StrKeyLength && s[0] == prefix && forall i :: 1 <= i < |s| ==> IsKeyChar(s[i])
  {
    |s| == StrKeyLength && s[0] == prefix && AllKeyChars(s[1..])
  }

  /** `isValidStellarAddress(address)`: `^G[A-Z0-9]{55}$`. */
  function IsValidStellarAddress(address: string): (ok: bool)
    ensures ok <==> |address| == 56 && address[0] == 'G' && forall i :: 1 <= i < 56 ==> IsKeyChar(address[i])
  {
    MatchesStrKeyShape(address, 'G')
  }

  /** `isValidContractId(contractId)`: `^C[A-Z0-9]{55}$`. */
  function IsValidContractId(contractId: string): (ok: bool)
    ensures ok <==> |contractId| == 56 && contractId[0] == 'C' && forall i :: 1 <= i < 56 ==> IsKeyChar(contractId[i])
  {
    MatchesStrKeyShape(contractId, 'C')
  }

  /** No string is both an account address and a contract id, and neither contains lower case or white space. */
  lemma AddressAndContractIdDisjoint(s: string)
    ensures !(IsValidStellarAddress(s) && IsValidContractId(s))
    ensures IsValidStellarAddress(s) || IsValidContractId(s) ==>
              forall i :: 0 <= i < |s| ==> !IsAsciiLower(s[i]) && !IsJsWhitespace(s[i])
  {
  }

  // ------------------------------------------------------------ amounts

  /** 10^12 XLM in stroops, the largest amount `validatePlaceBidParams` accepts. */
  const MaxStroops: int := 1_000_000_000_000 * StroopsPerXlm

  datatype Validation = Valid | Invalid(error: string)

  /** `validatePlaceBidParams({bidder, amount})` with `amount` in stroops. */
  function ValidatePlaceBidParams(bidder: string, amountStroops: int): (r: Validation)
    ensures r == Valid <==> IsValidStellarAddress(bidder) && 0 < amountStroops <= MaxStroops
    ensures !IsValidStellarAddress(bidder) ==> r == Invalid("Invalid bidder address")
    ensures IsValidStellarAddress(bidder) && amountStroops <= 0 ==> r == Invalid("Bid amount must be greater than 0")
    ensures IsValidStellarAddress(bidder) && amountStroops > MaxStroops ==> r == Invalid("Bid amount exceeds maximum allowed")
  {
    if bidder == [] || !IsValidStellarAddress(bidder) then Invalid("Invalid bidder address")
    else if amountStroops <= 0 then Invalid("Bid amount must be greater than 0")
    else if amountStroops > MaxStroops then Invalid("Bid amount exceeds maximum allowed")
    else Valid
  }

  /** The largest accepted amount is 10^19 stroops, which fits the contract's `i128`. */
  lemma MaxStroopsFitsI128()
    ensures MaxStroops == 10_000_000_000_000_000_000
    ensures MaxStroops < AuctionContract.I128Bound
  {
  }

  /**
   * `xlmToStroops(xlm)`: negative and non-finite amounts are rejected
   * (`None`, where the source throws 'Invalid XLM amount'); otherwise the
   * amount in stroops rounded down.
   */
  function XlmToStroops(xlm: JsNumber): (r: Option<int>)
    ensures r.None? <==> xlm.NonFinite? || xlm.value < 0.0
    ensures r.Some? ==> r.value >= 0
    ensures r.Some? ==> r.value as real <= xlm.value * StroopsPerXlm as real < r.value as real + 1.0
  {
    if xlm.NonFinite? || xlm.value < 0.0 then None
    else Some((xlm.value * StroopsPerXlm as real).Floor)
  }

  /** Whole stroop amounts convert exactly. */
  lemma XlmToStroopsExact(stroops: nat)
    ensures XlmToStroops(Finite(stroops as real / StroopsPerXlm as real)) == Some(stroops)
  {
  }

  // ------------------------------------------------------------ formatContractError

  /**
   * The argument of `formatContractError`: a string, or an object described by
   * its `code` property when that is a number, its `message` property when
   * that is a string, and whether it is an `Error` instance.
   */
  datatype ErrorValue =
    | Text(text: string)
    | Obj(code: Option<JsNumber>, message: Option<string>, isErrorInstance: bool)

  /** `isContractError(error)`: an object with a numeric `code` and a string `message`. */
  predicate IsContractError(e: ErrorValue) {
    e.Obj? && e.code.Some? && e.message.Some?
  }

  /** The sentence `formatContractError` shows for each code of the client's table. */
  function CodeSentence(code: int): (m: Option<string>)
    ensures m.Some? <==> 1 <= code <= 6
  {
    if code == 1 then Some("Auction not found")
    else if code == 2 then Some("This auction has already ended")
    else if code == 3 then Some("Your bid is too low. Please bid higher.")
    else if code == 4 then Some("Insufficient XLM balance")
    else if code == 5 then Some("You are not authorized to perform this action")
    else if code == 6 then Some("Invalid parameters provided")
    else None
  }

  /** The table's entry for a JavaScript number: only the integers 1 to 6 are listed. */
  function TableSentence(code: JsNumber): Option<string> {
    if code.Finite? && code.value.Floor as real == code.value then CodeSentence(code.value.Floor) else None
  }

  /**
   * `formatContractError(error)`: strings unchanged; the contract-error
   * shape is tested before `Error` instances, a listed code gives its
   * sentence and any other code the object's message; an `Error` gives its
   * message; anything else a fixed fallback.
   */
  function FormatContractError(e: ErrorValue): (r: string)
    ensures e.Text? ==> r == e.text
    ensures IsContractError(e) && TableSentence(e.code.value).Some? ==> r == TableSentence(e.code.value).value
    ensures IsContractError(e) && TableSentence(e.code.value).None? ==> r == e.message.value
    ensures e.Obj? && !IsContractError(e) && e.isErrorInstance ==> r == e.message.GetOr("")
    ensures e.Obj? && !IsContractError(e) && !e.isErrorInstance ==> r == "Unknown error occurred"
  {
    match e
    case Text(s) => s
    case Obj(code, message, isErrorInstance) =>
      if IsContractError(e) then
        match TableSentence(code.value)
        case Some(sentence) => sentence
        case None => message.value
      else if isErrorInstance then message.GetOr("")
      else "Unknown error occurred"
  }

  /** What the client shows for an error raised by the contract, given its `#[repr(u32)]` code. */
  function ShownForContractError(e: AuctionContract.AuctionError): string {
    FormatContractError(Obj(Some(Finite(AuctionContract.ErrorCode(e) as real)), Some(""), true))
  }

  /**
   * The client's code table does not describe the contract: codes 2 and 3
   * agree, but an uninitialised auction is shown as "not found", a missing
   * authorisation as a balance problem, a second initialisation as an
   * authorisation problem and a bad end time as bad parameters.
   */
  lemma ErrorTableMismatch()
    ensures ShownForContractError(AuctionContract.AuctionEnded) == "This auction has already ended"
    ensures ShownForContractError(AuctionContract.BidTooLow) == "Your bid is too low. Please bid higher."
    ensures ShownForContractError(AuctionContract.AuctionNotInitialized) == "Auction not found"
    ensures ShownForContractError(AuctionContract.Unauthorized) == "Insufficient XLM balance"
    ensures ShownForContractError(AuctionContract.AlreadyInitialized) == "You are not authorized to perform this action"
    ensures ShownForContractError(AuctionContract.InvalidEndTime) == "Invalid parameters provided"
  {
    assert (1 as real).Floor == 1 && (2 as real).Floor == 2 && (3 as real).Floor == 3;
    assert (4 as real).Floor == 4 && (5 as real).Floor == 5 && (6 as real).Floor == 6;
  }

  /** The sentence each error of the contract calls for, keyed by the contract's own codes. */
  function AuctionErrorSentence(e: AuctionContract.AuctionError): (m: string)
    ensures e == AuctionContract.AuctionEnded ==> m == CodeSentence(2).value
    ensures e == AuctionContract.BidTooLow ==> m == CodeSentence(3).value
  {
    match e
    case AuctionNotInitialized => "Auction not initialized"
    case AuctionEnded => "This auction has already ended"
    case BidTooLow => "Your bid is too low. Please bid higher."
    case Unauthorized => "You are not authorized to perform this action"
    case AlreadyInitialized => "Auction is already initialized"
    case InvalidEndTime => "Invalid auction end time"
  }

  /** Different contract errors are shown differently. */
  lemma AuctionErrorSentencesDistinct(a: AuctionContract.AuctionError, b: AuctionContract.AuctionError)
    ensures a != b ==> AuctionErrorSentence(a) != AuctionErrorSentence(b)
  {
  }

  /**
   * `formatContractError` with its table keyed by the contract's
   * `AuctionError` codes: codes 1 to 6 show the sentence of the error the
   * contract means by them; everything else is formatted as before.
   */
  function FormatAuctionContractError(e: ErrorValue): (r: string)
    ensures forall err: AuctionContract.AuctionError ::
              (IsContractError(e) && e.code.value == Finite(AuctionContract.ErrorCode(err) as real))
              ==> r == AuctionErrorSentence(err)
    ensures !(IsContractError(e) && TableSentence(e.code.value).Some?) ==> r == FormatContractError(e)
  {
    if IsContractError(e) && TableSentence(e.code.value).Some? then
      var code := e.code.value.value.Floor;
      AuctionErrorSentence(
        if code == 1 then AuctionContract.AuctionNotInitialized
        else if code == 2 then AuctionContract.AuctionEnded
        else if code == 3 then AuctionContract.BidTooLow
        else if code == 4 then AuctionContract.Unauthorized
        else if code == 5 then AuctionContract.AlreadyInitialized
        else AuctionContract.InvalidEndTime)
    else FormatContractError(e)
  }
}
