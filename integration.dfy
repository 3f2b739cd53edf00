/**
 * What the two halves say to each other: the frames the server's connection
 * manager sends, as the browser's socket service routes them to the pages'
 * handlers, and the request body the auction room posts. Each lemma follows a
 * server payload through the client code that reads it.
 */
module Integration {
  import opened Js
  import opened Models
  import WebsocketManager
  import Bids
  import Socket
  import AuctionRoom
  import LiveControlCenter
  import Countdown

  /** The payload the socket service hands to the handlers of `event` for one server frame. */
  function Routed(frame: Json): Option<(string, Json)> {
    Socket.Route(Socket.Parsed(frame))
  }

  /** A bid frame reaches the `bidUpdated` handlers with the bid payload itself as their argument. */
  lemma BidFrameRouted(b: BidRow, iso: string)
    ensures Routed(WebsocketManager.Envelope(WebsocketManager.BidUpdated, Bids.BidPayload(b, iso)))
            == Some((WebsocketManager.BidUpdated, Bids.BidPayload(b, iso)))
  {
    var data := Bids.BidPayload(b, iso);
    var frame := WebsocketManager.Envelope(WebsocketManager.BidUpdated, data);
    assert Field(frame, "data") == Some(data);
    assert StrField(frame, "type") == Some(WebsocketManager.BidUpdated);
  }

  /**
   * The bid payload names the amount `newPrice`. The auction room reads
   * `amount`, so a pushed bid leaves its row without an amount and its price
   * undefined; the control center reads `newPrice` first and gets the amount
   * (unless it is 0, which is falsy).
   */
  lemma BidPayloadReadByPages(b: BidRow, iso: string, now: int, nowIso: string)
    ensures var data := Bids.BidPayload(b, iso);
            && NumField(data, "amount") == None
            && AuctionRoom.NewRoomBid(data, now, nowIso).amount == None
            && LiveControlCenter.NewLiveBid(data, now, nowIso).amount == (if b.amount != 0 then Some(b.amount) else None)
            && LiveControlCenter.NewLiveBid(data, now, nowIso).bidder_name == (if b.bidder_name != "" then b.bidder_name else "Anonymous")
  {
    var data := Bids.BidPayload(b, iso);
    assert Field(data, "newPrice") == Some(JNum(b.amount));
    assert Field(data, "amount") == None;
    assert Field(data, "bidderName") == Some(JStr(b.bidder_name));
    assert Field(data, "bidder_name") == None;
  }

  /**
   * Delivering one accepted bid to an open auction room and an open control
   * center: the room's price becomes undefined while the control center's
   * auction takes the bid's amount.
   */
  method DeliverBid(room: AuctionRoom.Room, center: LiveControlCenter.ControlCenter, b: BidRow, iso: string, now: int, nowIso: string)
    requires b.amount != 0 && center.Valid()
    modifies room, center
    ensures room.currentPrice == None
    ensures center.Valid() && center.auction == LiveControlCenter.WithPrice(old(center.auction), Some(b.amount))
  {
    BidFrameRouted(b, iso);
    BidPayloadReadByPages(b, iso, now, nowIso);
    var data := Bids.BidPayload(b, iso);
    room.HandleBidUpdate(data, now, nowIso);
    center.HandleBidUpdate(data, now, nowIso);
  }

  /**
   * A join or leave frame reaches the `participantUpdate` handlers with
   * `{type, count}`, which has no `participants`, so the control center's
   * roster is emptied on every join and every leave.
   */
  lemma CountFrameEmptiesRoster(kind: string, n: nat)
    ensures var data := WebsocketManager.CountData(kind, n);
            && Routed(WebsocketManager.Envelope(WebsocketManager.ParticipantUpdate, data)) == Some((WebsocketManager.ParticipantUpdate, data))
            && LiveControlCenter.Roster(data) == JArr([])
  {
    var data := WebsocketManager.CountData(kind, n);
    var frame := WebsocketManager.Envelope(WebsocketManager.ParticipantUpdate, data);
    assert Field(frame, "data") == Some(data);
    assert StrField(frame, "type") == Some(WebsocketManager.ParticipantUpdate);
    assert Field(data, "participants") == None;
  }

  /** The room renders the countdown with `auctionDate` and `status` props; it reads `endTime`, which is absent, so it always shows the ended badge. */
  lemma RoomCountdownEnded(now: int)
    ensures Countdown.Display(Countdown.CalculateTimeLeft(None, now)) == Countdown.EndedText
  {
  }

  /**
   * The auction room posts `Number(id)` as the auction id; for a UUID route
   * parameter that is NaN, which the request body carries as `null`, never
   * the id the server expects.
   */
  lemma UuidBidRequestCarriesNull(uuid: string, amount: Number)
    requires exists k :: 1 <= k < |uuid| && uuid[k] == '-'
    ensures AuctionRoom.PlaceBidRequest(ToNumber(uuid), amount).auction_id == NaN
    ensures NumberJson(AuctionRoom.PlaceBidRequest(ToNumber(uuid), amount).auction_id) == JNull
  {
    InnerHyphenIsNaN(uuid);
  }
}
