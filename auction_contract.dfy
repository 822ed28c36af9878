/**
 * The single-auction Soroban contract of contract/src/lib.rs.
 *
 * Instance storage is a record of six optional entries, one per `DataKey`,
 * that the state-changing entry points reassign; the published events are
 * an append-only sequence. Ledger time is the parameter `now`, and every
 * `require_auth` is taken to succeed (a failed one aborts the whole
 * invocation, which leaves storage untouched).
 */
module AuctionContract {
  import opened Common

  /** Soroban `Address`, held as its StrKey text. */
  type Address = string

  const I128Bound: int := 0x8000_0000_0000_0000_0000_0000_0000_0000
  const U64Bound: int := 0x1_0000_0000_0000_0000

  type I128 = x: int | -I128Bound <= x < I128Bound
  type U64 = x: int | 0 <= x < U64Bound

  datatype AuctionError =
    | AuctionNotInitialized
    | AuctionEnded
    | BidTooLow
    | Unauthorized
    | AlreadyInitialized
    | InvalidEndTime

  /** The `#[repr(u32)]` discriminant the host reports as `Error(Contract, #n)`. */
  function ErrorCode(e: AuctionError): (code: int)
    ensures 1 <= code <= 6
    ensures e == AuctionNotInitialized <==> code == 1
    ensures e == AuctionEnded <==> code == 2
    ensures e == BidTooLow <==> code == 3
    ensures e == Unauthorized <==> code == 4
    ensures e == AlreadyInitialized <==> code == 5
    ensures e == InvalidEndTime <==> code == 6
  {
    match e
    case AuctionNotInitialized => 1
    case AuctionEnded => 2
    case BidTooLow => 3
    case Unauthorized => 4
    case AlreadyInitialized => 5
    case InvalidEndTime => 6
  }

  /** `Result<T, AuctionError>`. */
  datatype Outcome<T> = Ok(value: T) | Err(error: AuctionError)

  datatype Event =
    | BidPlaced(bidder: Address, amount: I128)
    | AuctionInitialized(owner: Address, endTime: U64)
    | EndTimeUpdated(owner: Address, newEndTime: U64)

  /** The `Auction` view returned by `get_auction`. */
  datatype Auction = Auction(
    owner: Address,
    startingPrice: I128,
    reservePrice: I128,
    endTime: U64,
    highestBid: I128,
    highestBidder: Option<Address>)

  /** Instance storage: `None` is a key that was never set. */
  datatype Storage = Storage(
    initialized: Option<bool>,
    owner: Option<Address>,
    highestBid: Option<I128>,
    highestBidder: Option<Option<Address>>,
    endTime: Option<U64>,
    reservePrice: Option<I128>)

  const EmptyStorage: Storage := Storage(None, None, None, None, None, None)

  /** Every entry `initialize` writes is present once the flag is set. */
  predicate WellFormed(s: Storage) {
    IsInitialized(s) ==>
      s.owner.Some? && s.highestBid.Some? && s.highestBidder.Some? && s.endTime.Some? && s.reservePrice.Some?
  }

  // ------------------------------------------------------------ views

  /** `is_initialized`: the stored flag, false when absent. */
  function IsInitialized(s: Storage): (b: bool)
    ensures b <==> s.initialized == Some(true)
  {
    s.initialized.GetOr(false)
  }

  /** `get_auction_status`: 0 not initialised (or no end time), 2 ended, 1 live. */
  function GetAuctionStatus(s: Storage, now: U64): (code: int)
    ensures code in {0, 1, 2}
    ensures code == 0 <==> !IsInitialized(s) || s.endTime.None?
    ensures code == 2 <==> IsInitialized(s) && s.endTime.Some? && now >= s.endTime.value
    ensures code == 1 <==> IsInitialized(s) && s.endTime.Some? && now < s.endTime.value
  {
    if !IsInitialized(s) then 0
    else match s.endTime
      case None => 0
      case Some(endTime) => if now >= endTime then 2 else 1
  }

  /** `is_live`: true exactly when the status code is 1. */
  function IsLive(s: Storage, now: U64): (live: bool)
    ensures live <==> GetAuctionStatus(s, now) == 1
  {
    if !IsInitialized(s) then false
    else match s.endTime
      case None => false
      case Some(endTime) => now < endTime
  }

  /**
   * `get_auction`. The reserve price falls back to the highest bid and then
   * to 0, and the starting price reported is always the current highest bid.
   */
  function GetAuction(s: Storage): (r: Outcome<Auction>)
    ensures r.Err? <==> !IsInitialized(s) || s.owner.None? || s.endTime.None? || s.highestBid.None?
    ensures r.Err? ==> r.error == AuctionNotInitialized
    ensures r.Ok? ==> r.value.startingPrice == r.value.highestBid == s.highestBid.value
    ensures r.Ok? ==> r.value.owner == s.owner.value && r.value.endTime == s.endTime.value
    ensures r.Ok? ==> r.value.reservePrice == s.reservePrice.GetOr(s.highestBid.value)
    ensures r.Ok? ==> r.value.highestBidder == s.highestBidder.GetOr(None)
  {
    if !IsInitialized(s) then Err(AuctionNotInitialized)
    else if s.owner.None? then Err(AuctionNotInitialized)
    else if s.endTime.None? then Err(AuctionNotInitialized)
    else
      var reservePrice: I128 :=
        match s.reservePrice
        case Some(rp) => rp
        case None => (match s.highestBid case Some(sp) => sp case None => 0);
      match s.highestBid
      case None => Err(AuctionNotInitialized)
      case Some(highestBid) =>
        var highestBidder := s.highestBidder.GetOr(None);
        Ok(Auction(s.owner.value, highestBid, reservePrice, s.endTime.value, highestBid, highestBidder))
  }

  /** On well-formed storage `get_auction` fails exactly when the contract is not initialised. */
  lemma GetAuctionTotalWhenInitialized(s: Storage)
    requires WellFormed(s)
    ensures GetAuction(s).Ok? <==> IsInitialized(s)
    ensures IsInitialized(s) ==> GetAuction(s).value.reservePrice == s.reservePrice.value
  {
  }

  // ------------------------------------------------------------ storage updates

  /** The storage a successful `initialize` leaves: every key written afresh. */
  function InitializedStorage(owner: Address, startingPrice: I128, endTime: U64): (s: Storage)
    ensures IsInitialized(s) && WellFormed(s)
    ensures GetAuction(s) == Ok(Auction(owner, startingPrice, startingPrice, endTime, startingPrice, None))
  {
    Storage(Some(true), Some(owner), Some(startingPrice), Some(None), Some(endTime), Some(startingPrice))
  }

  /** An auction is live from a successful `initialize` until its end time. */
  lemma FreshAuctionIsLive(owner: Address, startingPrice: I128, endTime: U64, now: U64)
    requires now < endTime
    ensures GetAuctionStatus(InitializedStorage(owner, startingPrice, endTime), now) == 1
  {
  }

  /** What `place_bid` writes, as the contract is written: the bid and its bidder, unconditionally. */
  function PlacedBid(s: Storage, bidder: Address, amount: I128): (t: Storage)
    ensures t.highestBid == Some(amount) && t.highestBidder == Some(Some(bidder))
    ensures t.initialized == s.initialized && t.owner == s.owner && t.endTime == s.endTime && t.reservePrice == s.reservePrice
    ensures WellFormed(s) ==> WellFormed(t)
  {
    s.(highestBid := Some(amount), highestBidder := Some(Some(bidder)))
  }

  /**
   * `place_bid` as written accepts any amount at any time: on an auction
   * that ended at time 50 and stands at 100, a bid of 1 at time 60 succeeds
   * and lowers the highest bid.
   */
  lemma PlaceBidAsWrittenLowersBid()
    ensures var s := InitializedStorage("GOWNER", 100, 50);
      var t := PlacedBid(s, "GBIDDER", 1);
      && GetAuctionStatus(s, 60) == 2
      && GetAuction(t).Ok? && GetAuction(t).value.highestBid < GetAuction(s).value.highestBid
      && GetAuction(t).value.highestBidder == Some("GBIDDER")
  {
  }

  /**
   * `place_bid` with the validation the contract's documentation promises:
   * the auction must be initialised and live, and the amount must exceed the
   * current highest bid. Rejections use the contract's own error codes 1-3.
   */
  function ValidatedBid(s: Storage, bidder: Address, amount: I128, now: U64): (r: Outcome<Storage>)
    ensures r.Ok? <==> IsLive(s, now) && s.highestBid.Some? && amount > s.highestBid.value
    ensures r.Ok? ==> r.value == PlacedBid(s, bidder, amount)
    ensures r.Err? && !IsInitialized(s) ==> r.error == AuctionNotInitialized
    ensures r.Err? && GetAuctionStatus(s, now) == 2 ==> r.error == AuctionEnded
    ensures r.Err? && IsLive(s, now) ==> r.error in {AuctionNotInitialized, BidTooLow}
    ensures r.Err? ==> ErrorCode(r.error) in {1, 2, 3}
  {
    if !IsInitialized(s) || s.endTime.None? then Err(AuctionNotInitialized)
    else if now >= s.endTime.value then Err(AuctionEnded)
    else if s.highestBid.None? then Err(AuctionNotInitialized)
    else if amount <= s.highestBid.value then Err(BidTooLow)
    else Ok(PlacedBid(s, bidder, amount))
  }

  /** A series of bids offered to the validated entry point; rejected ones change nothing. */
  function ApplyValidatedBids(s: Storage, bids: seq<(Address, I128)>, now: U64): (t: Storage)
    ensures s.highestBid.Some? ==> t.highestBid.Some? && t.highestBid.value >= s.highestBid.value
    ensures t.initialized == s.initialized && t.endTime == s.endTime && t.owner == s.owner
    ensures WellFormed(s) ==> WellFormed(t)
    decreases |bids|
  {
    if bids == [] then s
    else
      var r := ValidatedBid(s, bids[0].0, bids[0].1, now);
      ApplyValidatedBids(if r.Ok? then r.value else s, bids[1..], now)
  }

  /**
   * With validation, the highest bid only rises and every accepted bid
   * raises it; as written, the last bid offered always wins.
   */
  lemma {:induction false} ValidatedBidsNeverLower(s: Storage, bids: seq<(Address, I128)>, now: U64)
    requires s.highestBid.Some?
    requires exists j :: 0 <= j < |bids| && ValidatedBid(s, bids[j].0, bids[j].1, now).Ok?
              && forall k :: 0 <= k < j ==> ValidatedBid(s, bids[k].0, bids[k].1, now).Err?
    ensures ApplyValidatedBids(s, bids, now).highestBid.value > s.highestBid.value
  {
    var j :| 0 <= j < |bids| && ValidatedBid(s, bids[j].0, bids[j].1, now).Ok?
              && forall k :: 0 <= k < j ==> ValidatedBid(s, bids[k].0, bids[k].1, now).Err?;
    if j == 0 {
      var r := ValidatedBid(s, bids[0].0, bids[0].1, now);
      assert r.value.highestBid.value > s.highestBid.value;
    } else {
      assert ValidatedBid(s, bids[0].0, bids[0].1, now).Err?;
      var rest := bids[1..];
      assert rest[j - 1] == bids[j];
      assert forall k :: 0 <= k < j - 1 ==> rest[k] == bids[k + 1];
      ValidatedBidsNeverLower(s, rest, now);
    }
  }

  // ------------------------------------------------------------ the contract

  class AuctionContract {
    var storage: Storage
    var events: seq<Event>

    ghost predicate Valid()
      reads this
    {
      WellFormed(storage)
    }

    /** A freshly deployed instance: empty storage, no events. */
    constructor ()
      ensures Valid() && storage == EmptyStorage && events == []
    {
      storage := EmptyStorage;
      events := [];
    }

    /**
     * `initialize(owner, starting_price, end_time)`: rejects a second call,
     * then an end time not in the future, then a negative price; on success
     * writes every key and publishes one event.
     */
    method Initialize(owner: Address, startingPrice: I128, endTime: U64, now: U64) returns (r: Outcome<()>)
      requires Valid()
      modifies this
      ensures Valid()
      ensures IsInitialized(old(storage)) ==> r == Err(AlreadyInitialized)
      ensures !IsInitialized(old(storage)) && endTime <= now ==> r == Err(InvalidEndTime)
      ensures !IsInitialized(old(storage)) && endTime > now && startingPrice < 0 ==> r == Err(BidTooLow)
      ensures r.Ok? <==> !IsInitialized(old(storage)) && endTime > now && startingPrice >= 0
      ensures r.Err? ==> storage == old(storage) && events == old(events)
      ensures r.Ok? ==> (storage == InitializedStorage(owner, startingPrice, endTime)
                         && events == old(events) + [AuctionInitialized(owner, endTime)])
    {
      if IsInitialized(storage) {
        return Err(AlreadyInitialized);
      }
      if endTime <= now {
        return Err(InvalidEndTime);
      }
      if startingPrice < 0 {
        return Err(BidTooLow);
      }
      storage := InitializedStorage(owner, startingPrice, endTime);
      events := events + [AuctionInitialized(owner, endTime)];
      return Ok(());
    }

    /**
     * `set_end_time(caller, new_end_time)`. Checks, in order: initialised,
     * owner present, caller is the owner, new end time in the future, no bid
     * yet. On success only the end time changes.
     */
    method SetEndTime(caller: Address, newEndTime: U64, now: U64) returns (r: Outcome<()>)
      requires Valid()
      modifies this
      ensures Valid()
      ensures !IsInitialized(old(storage)) ==> r == Err(AuctionNotInitialized)
      ensures IsInitialized(old(storage)) && caller != old(storage).owner.value ==> r == Err(Unauthorized)
      ensures IsInitialized(old(storage)) && caller == old(storage).owner.value && newEndTime <= now
              ==> r == Err(InvalidEndTime)
      ensures (IsInitialized(old(storage)) && caller == old(storage).owner.value && newEndTime > now
               && old(storage).highestBidder.value.Some?) ==> r == Err(Unauthorized)
      ensures r.Ok? <==> IsInitialized(old(storage)) && caller == old(storage).owner.value
                         && newEndTime > now && old(storage).highestBidder.value.None?
      ensures r.Err? ==> storage == old(storage) && events == old(events)
      ensures r.Ok? ==> (storage == old(storage).(endTime := Some(newEndTime))
                         && events == old(events) + [EndTimeUpdated(caller, newEndTime)])
    {
      if !IsInitialized(storage) {
        return Err(AuctionNotInitialized);
      }
      if storage.owner.None? {
        return Err(AuctionNotInitialized);
      }
      var owner := storage.owner.value;
      if caller != owner {
        return Err(Unauthorized);
      }
      if newEndTime <= now {
        return Err(InvalidEndTime);
      }
      var highestBidder := storage.highestBidder.GetOr(None);
      if highestBidder.Some? {
        return Err(Unauthorized);
      }
      storage := storage.(endTime := Some(newEndTime));
      events := events + [EndTimeUpdated(owner, newEndTime)];
      return Ok(());
    }

    /** `place_bid(bidder, amount)` as written: no check at all, always `Ok`. */
    method PlaceBid(bidder: Address, amount: I128) returns (r: Outcome<()>)
      requires Valid()
      modifies this
      ensures Valid()
      ensures r == Ok(())
      ensures storage == PlacedBid(old(storage), bidder, amount)
      ensures events == old(events) + [BidPlaced(bidder, amount)]
    {
      storage := PlacedBid(storage, bidder, amount);
      events := events + [BidPlaced(bidder, amount)];
      return Ok(());
    }

    /** `place_bid` with the promised validation; a rejection leaves storage and events alone. */
    method PlaceBidValidated(bidder: Address, amount: I128, now: U64) returns (r: Outcome<()>)
      requires Valid()
      modifies this
      ensures Valid()
      ensures r.Ok? <==> ValidatedBid(old(storage), bidder, amount, now).Ok?
      ensures r.Err? ==> (r.error == ValidatedBid(old(storage), bidder, amount, now).error
                          && storage == old(storage) && events == old(events))
      ensures r.Ok? ==> (storage == PlacedBid(old(storage), bidder, amount)
                         && storage.highestBid.value > old(storage).highestBid.value
                         && events == old(events) + [BidPlaced(bidder, amount)])
    {
      var v := ValidatedBid(storage, bidder, amount, now);
      if v.Err? {
        return Err(v.error);
      }
      storage := v.value;
      events := events + [BidPlaced(bidder, amount)];
      return Ok(());
    }
  }
}
