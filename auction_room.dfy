/**
 * The bidder's auction room page: the auction and its price, loaded and
 * polled; the bid feed, loaded from the history and prepended by socket
 * pushes; placing a bid; and which panel the page shows for the auction's
 * status. Server replies are parameters (`None` for a call that threw).
 */
module AuctionRoom {
  import opened Js

  const PlaceBidFailed: string := "Failed to place bid"
  const LoginAlert: string := "Please login to place bids"

  /**
   * The auction fields the page reads. The page reads `auctionDate`, which the
   * server's auction (with `auction_date`) does not carry, so it is usually
   * absent.
   */
  datatype RoomAuction = RoomAuction(
    status: Option<string>,
    current_price: Option<int>,
    starting_price: Option<int>,
    auctionDate: Option<int>)

  /** The row a push builds; `bid_type` and `created_at` are the names it writes. */
  datatype RoomBid = RoomBid(
    id: Json,
    auction_id: Option<Json>,
    bidder_name: string,
    amount: Option<int>,
    bid_type: string,
    created_at: string)

  /** A row of the feed: built from a push, or a history row as the server sent it. */
  datatype FeedRow = Pushed(bid: RoomBid) | Fetched(row: Json)

  /** The body of the place-bid request: `Number(id)` and `Number(amount)`. */
  datatype PlaceBidRequest = PlaceBidRequest(auction_id: Number, amount: Number)

  /** Which panel the right column shows. */
  datatype Panel = BidPanelShown | NotStartedPanel | CompletedPanel

  /** `current_price || starting_price || 0`, the price a load or a poll shows. */
  function LoadedPrice(a: RoomAuction): (r: int)
    ensures TruthyInt(a.current_price) ==> r == a.current_price.value
    ensures !TruthyInt(a.current_price) && TruthyInt(a.starting_price) ==> r == a.starting_price.value
    ensures !TruthyInt(a.current_price) && !TruthyInt(a.starting_price) ==> r == 0
  {
    IntOr(OrInt(a.current_price, a.starting_price), 0)
  }

  /** The feed row a push builds; the clock supplies a missing id and creation time. */
  function NewRoomBid(data: Json, now: int, nowIso: string): RoomBid {
    var id := if Field(data, "id").Some? && Truthy(Field(data, "id").value) then Field(data, "id").value else JNum(now);
    RoomBid(
      id,
      Field(data, "auction_id"),
      StrOr(OrStr(StrField(data, "bidder_name"), StrField(data, "user_name")), "Anonymous"),
      NumField(data, "amount"),
      StrOr(StrField(data, "bid_type"), "online"),
      StrOr(StrField(data, "created_at"), nowIso))
  }

  /** `res.data || []` for the history call. */
  function HistoryRows(data: Option<seq<Json>>): (r: seq<FeedRow>)
    ensures data.None? ==> r == []
    ensures data.Some? ==> |r| == |data.value| && forall k :: 0 <= k < |r| ==> r[k] == Fetched(data.value[k])
  {
    if data.None? then [] else seq(|data.value|, k requires 0 <= k < |data.value| => Fetched(data.value[k]))
  }

  /** `auction.status || 'scheduled'`. */
  function Status(a: RoomAuction): (r: string)
    ensures r != ""
    ensures TruthyStr(a.status) ==> r == a.status.value
    ensures !TruthyStr(a.status) ==> r == "scheduled"
  {
    StrOr(a.status, "scheduled")
  }

  /**
   * The right column: the bid panel exactly when the status is 'live', the
   * not-started panel when it is 'scheduled' (a missing status counts as
   * scheduled), and the completed panel for every other status.
   */
  function RightPanel(a: RoomAuction): (r: Panel)
    ensures r.BidPanelShown? <==> Status(a) == "live"
    ensures r.NotStartedPanel? <==> Status(a) == "scheduled"
    ensures !TruthyStr(a.status) ==> r.NotStartedPanel?
  {
    if Status(a) == "live" then BidPanelShown
    else if Status(a) == "scheduled" then NotStartedPanel
    else CompletedPanel
  }

  /** The registration widget is offered only while the auction is scheduled. */
  predicate ShowsRegistration(a: RoomAuction) {
    Status(a) == "scheduled"
  }

  /** Registration and bidding are never offered together. */
  lemma RegistrationAndBiddingExclusive(a: RoomAuction)
    ensures !(ShowsRegistration(a) && RightPanel(a).BidPanelShown?)
    ensures ShowsRegistration(a) <==> RightPanel(a).NotStartedPanel?
  {
  }

  class Room {
    /** The `:id` route parameter. */
    const id: string
    var auction: Option<RoomAuction>
    var currentBids: seq<FeedRow>
    /** The price shown; absent once a push without `amount` has set it to undefined. */
    var currentPrice: Option<int>
    var loading: bool
    var bidError: string
    /** Every place-bid request sent, in order. */
    var requests: seq<PlaceBidRequest>
    /** Every alert raised, in order. */
    var alerts: seq<string>

    constructor (id: string)
      ensures this.id == id && auction == None && currentBids == [] && currentPrice == Some(0)
      ensures loading && bidError == "" && requests == [] && alerts == []
    {
      this.id := id;
      auction := None;
      currentBids := [];
      currentPrice := Some(0);
      loading := true;
      bidError := "";
      requests := [];
      alerts := [];
    }

    /** `loadAuction`: a loaded auction sets the price to `current_price || starting_price || 0`; loading ends either way. */
    method LoadAuction(reply: Option<RoomAuction>)
      modifies this`auction, this`currentPrice, this`loading
      ensures !loading
      ensures reply.Some? ==> auction == reply && currentPrice == Some(LoadedPrice(reply.value))
      ensures reply.None? ==> auction == old(auction) && currentPrice == old(currentPrice)
    {
      if reply.Some? {
        auction, currentPrice := reply, Some(LoadedPrice(reply.value));
      }
      loading := false;
    }

    /** The periodic refresh: it runs only once an auction is loaded, and a failed poll changes nothing. */
    method Poll(reply: Option<RoomAuction>)
      modifies this`auction, this`currentPrice
      ensures old(auction).Some? && reply.Some? ==> auction == reply && currentPrice == Some(LoadedPrice(reply.value))
      ensures old(auction).None? || reply.None? ==> auction == old(auction) && currentPrice == old(currentPrice)
    {
      if auction.Some? && reply.Some? {
        auction, currentPrice := reply, Some(LoadedPrice(reply.value));
      }
    }

    /** `loadBids`: a successful load replaces the feed with the history; a failed one changes nothing. */
    method LoadBids(reply: Option<Option<seq<Json>>>)
      modifies this`currentBids
      ensures reply.Some? ==> currentBids == HistoryRows(reply.value)
      ensures reply.None? ==> currentBids == old(currentBids)
    {
      if reply.Some? {
        currentBids := HistoryRows(reply.value);
      }
    }

    /**
     * A pushed bid: one row goes in front of the feed (no cap, no merge by id)
     * and the price becomes the payload's `amount` as it is, higher or lower,
     * or undefined when the payload has none.
     */
    method HandleBidUpdate(data: Json, now: int, nowIso: string)
      modifies this`currentBids, this`currentPrice
      ensures currentBids == [Pushed(NewRoomBid(data, now, nowIso))] + old(currentBids)
      ensures |currentBids| == |old(currentBids)| + 1 && currentBids[1..] == old(currentBids)
      ensures currentPrice == NumField(data, "amount")
    {
      currentBids, currentPrice := [Pushed(NewRoomBid(data, now, nowIso))] + currentBids, NumField(data, "amount");
    }

    /**
     * `handlePlaceBid`: when not signed in only the login alert is raised and
     * nothing is sent; otherwise the error is cleared, one request with
     * `Number(id)` and the amount is sent, and then either the history is
     * fetched again (replacing the feed) or the error shows the server's
     * detail or 'Failed to place bid'.
     */
    method HandlePlaceBid(amount: Number, authenticated: bool, reply: ApiReply, refetched: Option<Option<seq<Json>>>)
      modifies this`alerts, this`bidError, this`requests, this`currentBids
      ensures !authenticated ==> && alerts == old(alerts) + [LoginAlert] && requests == old(requests)
                                 && bidError == old(bidError) && currentBids == old(currentBids)
      ensures authenticated ==> && alerts == old(alerts)
                                && requests == old(requests) + [PlaceBidRequest(ToNumber(id), amount)]
      ensures authenticated && reply.Succeeded? ==>
                bidError == "" && currentBids == (if refetched.Some? then HistoryRows(refetched.value) else old(currentBids))
      ensures authenticated && reply.Failed? ==>
                bidError == FailureText(reply, PlaceBidFailed) && currentBids == old(currentBids)
    {
      if !authenticated {
        alerts := alerts + [LoginAlert];
        return;
      }
      bidError, requests := "", requests + [PlaceBidRequest(ToNumber(id), amount)];
      if reply.Succeeded? {
        LoadBids(refetched);
      } else {
        bidError := FailureText(reply, PlaceBidFailed);
      }
    }
  }
}
