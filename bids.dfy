/**
 * The bids router: an online bid and a floor bid pass the same three guards
 * (the auction exists, it is live, the amount beats its current price), are
 * stored, and are broadcast to the auction's room; the history lists an
 * auction's bids newest first.
 *
 * The auction's current price is raised by a database trigger that is not
 * part of this model. `Accepted` states the one assumption made about it:
 * after a bid is stored, the auction's current price is that bid's amount.
 */
module Bids {
  import opened Js
  import opened Lists
  import opened Models
  import opened WebsocketManager
  import Auctions

  const NotLive: string := "Auction is not live"
  const Online: string := "online"
  const Floor: string := "floor"

  /** `f"Bid must be higher than current price: ${auction.current_price}"`. */
  function TooLowText(price: int): string { "Bid must be higher than current price: $" + IntText(price) }

  /** The body of an online bid. */
  datatype BidCreate = BidCreate(auction_id: Id, amount: int)

  /** The body of a floor bid. */
  datatype FloorBidCreate = FloorBidCreate(auction_id: Id, amount: int, bidder_name: string, bidder_number: Option<string>)

  /**
   * The guards both endpoints run, in order: 404 when the auction is missing,
   * 400 when it is not live, 400 when the amount does not beat its current
   * price. On success, the auction's position.
   */
  function Check(t: Tables, auctionId: Id, amount: int): (r: Reply<nat>)
    ensures r.Ok? ==> && r.value < |t.auctions| && t.auctions[r.value].id == auctionId
                      && t.auctions[r.value].status == Live && amount > t.auctions[r.value].current_price
    ensures Find(t.auctions, AuctionKey, auctionId).None? <==> r == HttpError(404, Auctions.AuctionNotFound)
    ensures var i := Find(t.auctions, AuctionKey, auctionId);
            i.Some? ==> && (t.auctions[i.value].status != Live <==> r == HttpError(400, NotLive))
                        && ((t.auctions[i.value].status == Live && amount <= t.auctions[i.value].current_price)
                              <==> r == HttpError(400, TooLowText(t.auctions[i.value].current_price)))
  {
    var i := Find(t.auctions, AuctionKey, auctionId);
    if i.None? then HttpError(404, Auctions.AuctionNotFound)
    else if t.auctions[i.value].status != Live then HttpError(400, NotLive)
    else if amount <= t.auctions[i.value].current_price then HttpError(400, TooLowText(t.auctions[i.value].current_price))
    else Ok(i.value)
  }

  /** A live auction accepts exactly the amounts above its current price. */
  lemma CheckAcceptsAboveCurrent(t: Tables, i: nat, amount: int)
    requires Valid(t) && i < |t.auctions| && t.auctions[i].status == Live
    ensures Check(t, t.auctions[i].id, amount).Ok? <==> amount > t.auctions[i].current_price
    ensures Check(t, t.auctions[i].id, amount).Ok? ==> Check(t, t.auctions[i].id, amount).value == i
  {
    var j := Find(t.auctions, AuctionKey, t.auctions[i].id);
    assert j.Some? && j.value <= i;
    assert AuctionKey(t.auctions[j.value]) == AuctionKey(t.auctions[i]);
  }

  /** The row `place_bid` stores: an online bid by the caller, under the caller's name. */
  function OnlineBid(req: BidCreate, caller: UserRow, id: Id, now: int): (b: BidRow)
    ensures b.kind == Online && b.user_id == Some(caller.id) && b.bidder_name == caller.name
    ensures b.auction_id == req.auction_id && b.amount == req.amount && !b.is_winning
  {
    NewBid(id, req.auction_id, Some(caller.id), req.amount, Online, caller.name, None, now)
  }

  /** The row `place_floor_bid` stores: a floor bid with no user, under the name and number given. */
  function FloorBid(req: FloorBidCreate, id: Id, now: int): (b: BidRow)
    ensures b.kind == Floor && b.user_id.None? && b.bidder_name == req.bidder_name && b.bidder_number == req.bidder_number
    ensures b.auction_id == req.auction_id && b.amount == req.amount && !b.is_winning
  {
    NewBid(id, req.auction_id, None, req.amount, Floor, req.bidder_name, req.bidder_number, now)
  }

  /**
   * The tables once a bid on the auction at position `i` is stored. ASSUMED:
   * the trigger that is not part of this model sets that auction's current
   * price to the bid's amount and changes nothing else.
   */
  function Accepted(t: Tables, i: nat, b: BidRow): (r: Tables)
    requires i < |t.auctions|
    ensures r.bids == t.bids + [b] && r.users == t.users && r.registrations == t.registrations && r.messages == t.messages
    ensures |r.auctions| == |t.auctions| && r.auctions[i] == t.auctions[i].(current_price := b.amount)
    ensures forall k :: 0 <= k < |t.auctions| && k != i ==> r.auctions[k] == t.auctions[k]
  {
    t.(bids := t.bids + [b], auctions := t.auctions[i := t.auctions[i].(current_price := b.amount)])
  }

  /** Storing a bid on an existing auction, by an existing user or none, under a new id keeps every constraint. */
  lemma AcceptedValid(t: Tables, i: nat, b: BidRow)
    requires Valid(t) && i < |t.auctions| && b.auction_id == t.auctions[i].id
    requires OptionalRef(b.user_id, UserIds(t.users)) && b.id !in BidIds(t.bids)
    ensures Valid(Accepted(t, i, b))
  {
    var a := t.auctions[i].(current_price := b.amount);
    Auctions.ReplaceAuctionValid(t, i, a);
    var t' := t.(auctions := t.auctions[i := a]);
    AuctionIdsUpdate(t.auctions, i, a);
    assert t.auctions[i] in t.auctions;
    forall k | 0 <= k < |t.bids|
      ensures BidKey(t.bids[k]) != BidKey(b)
    {
      assert t.bids[k] in t.bids;
    }
    AppendDistinct(t.bids, b, BidKey);
    assert Accepted(t, i, b) == t'.(bids := t.bids + [b]);
  }

  /** Every bid on an auction is at most that auction's current price. */
  ghost predicate PriceOnTop(t: Tables) {
    forall b, k :: b in t.bids && 0 <= k < |t.auctions| && t.auctions[k].id == b.auction_id ==>
      b.amount <= t.auctions[k].current_price
  }

  /**
   * Under the trigger assumption, an accepted bid keeps every auction's
   * current price at or above all of its bids, and the new bid is strictly
   * above every earlier bid on that auction.
   */
  lemma AcceptedKeepsPriceOnTop(t: Tables, i: nat, b: BidRow)
    requires Valid(t) && PriceOnTop(t)
    requires i < |t.auctions| && b.auction_id == t.auctions[i].id && b.amount > t.auctions[i].current_price
    ensures PriceOnTop(Accepted(t, i, b))
    ensures forall c :: c in t.bids && c.auction_id == b.auction_id ==> c.amount < b.amount
  {
    var r := Accepted(t, i, b);
    forall c, k | c in r.bids && 0 <= k < |r.auctions| && r.auctions[k].id == c.auction_id
      ensures c.amount <= r.auctions[k].current_price
    {
      if k != i {
        assert r.auctions[k] == t.auctions[k];
        assert AuctionKey(t.auctions[k]) != AuctionKey(t.auctions[i]) by {
          if k < i {
            assert AuctionKey(t.auctions[k]).Some?;
          } else {
            assert AuctionKey(t.auctions[i]).Some?;
          }
        }
        assert c != b;
        assert c in t.bids;
      } else if c != b {
        assert c in t.bids;
      }
    }
  }

  /** `"id", "auctionId", "newPrice", "bidderName", "type", "timestamp"`: the bid's fields as broadcast. */
  function BidPayload(b: BidRow, isoTimestamp: string): (r: Json)
    ensures r.JObj? && r.fields.Keys == {"id", "auctionId", "newPrice", "bidderName", "type", "timestamp"}
    ensures r.fields["newPrice"] == JNum(b.amount) && r.fields["auctionId"] == JStr(b.auction_id)
    ensures r.fields["bidderName"] == JStr(b.bidder_name) && r.fields["type"] == JStr(b.kind)
    ensures "amount" !in r.fields
  {
    JObj(map["id" := JStr(b.id), "auctionId" := JStr(b.auction_id), "newPrice" := JNum(b.amount),
             "bidderName" := JStr(b.bidder_name), "type" := JStr(b.kind), "timestamp" := JStr(isoTimestamp)])
  }

  /**
   * The room key both endpoints broadcast to, as written: `bid.auction_id` is
   * the `UUID` the request body was parsed into, while every room is keyed by
   * the id's text.
   */
  function BroadcastRoom(auctionId: Id): (k: RoomKey)
    ensures !k.StrKey?
  {
    UuidKey(auctionId)
  }

  /** The room key the websocket endpoint opens for an auction: its id's text. */
  function IntendedRoom(auctionId: Id): (k: RoomKey)
    ensures k.StrKey? && k.text == auctionId
  {
    StrKey(auctionId)
  }

  /** What one broadcast of `message` to `room` appends to what was sent. */
  function Delivered(active: map<RoomKey, seq<Conn>>, room: RoomKey, message: Json, failing: set<Conn>): (r: seq<(Conn, Json)>)
    ensures room !in active ==> r == []
    ensures room in active ==> |r| == |Filter(active[room], Succeeds(failing))|
  {
    if room in active then Sends(Filter(active[room], Succeeds(failing)), message) else []
  }

  /**
   * While every room is one the websocket endpoint opened (keyed by the id's
   * text), a broadcast to `BroadcastRoom` reaches no connection, and one to
   * `IntendedRoom` reaches every connection of the auction's room whose send
   * succeeds.
   */
  lemma BroadcastRoomReachesNoOne(active: map<RoomKey, seq<Conn>>, auctionId: Id, message: Json, failing: set<Conn>)
    requires forall k :: k in active ==> k.StrKey?
    ensures Delivered(active, BroadcastRoom(auctionId), message, failing) == []
    ensures StrKey(auctionId) in active ==>
              forall c :: c in active[StrKey(auctionId)] && c !in failing ==>
                (c, message) in Delivered(active, IntendedRoom(auctionId), message, failing)
  {
    if StrKey(auctionId) in active {
      var members := active[StrKey(auctionId)];
      var r := Delivered(active, IntendedRoom(auctionId), message, failing);
      forall c | c in members && c !in failing
        ensures (c, message) in r
      {
        var kept := Filter(members, Succeeds(failing));
        assert Succeeds(failing)(c);
        assert c in kept;
        var k :| 0 <= k < |kept| && kept[k] == c;
        assert r[k] == (c, message);
      }
    }
  }

  /** The three guards, then the bid stored; the state changes only when the guards pass. */
  method Store(db: Db, auctionId: Id, b: BidRow) returns (r: Reply<BidRow>)
    requires Valid(db.tables) && OptionalRef(b.user_id, UserIds(db.tables.users)) && b.id !in BidIds(db.tables.bids)
    requires b.auction_id == auctionId
    modifies db
    ensures Valid(db.tables)
    ensures var g := Check(old(db.tables), auctionId, b.amount);
            && (g.HttpError? ==> r == HttpError(g.code, g.detail) && db.tables == old(db.tables))
            && (g.Ok? ==> r == Ok(b) && db.tables == Accepted(old(db.tables), g.value, b))
  {
    var g := Check(db.tables, auctionId, b.amount);
    if g.HttpError? {
      return HttpError(g.code, g.detail);
    }
    AcceptedValid(db.tables, g.value, b);
    db.tables := Accepted(db.tables, g.value, b);
    r := Ok(b);
  }

  /**
   * `place_bid`: a rejected bid stores and sends nothing; an accepted one is
   * stored as the caller's online bid and broadcast to `BroadcastRoom`, which
   * no room opened by the websocket endpoint has.
   */
  method PlaceBid(db: Db, manager: ConnectionManager, req: BidCreate, caller: UserRow, newId: Id,
                  now: int, isoTimestamp: string, failing: set<Conn>) returns (r: Reply<BidRow>)
    requires Valid(db.tables) && caller in db.tables.users && newId !in BidIds(db.tables.bids)
    modifies db, manager`sent
    ensures Valid(db.tables) && manager.active == old(manager.active)
    ensures var g := Check(old(db.tables), req.auction_id, req.amount);
            && (g.HttpError? ==> r == HttpError(g.code, g.detail) && db.tables == old(db.tables) && manager.sent == old(manager.sent))
            && (g.Ok? ==> && r == Ok(OnlineBid(req, caller, newId, now))
                          && db.tables == Accepted(old(db.tables), g.value, r.value)
                          && manager.sent == old(manager.sent) + Delivered(manager.active, BroadcastRoom(req.auction_id),
                                                                           Envelope(BidUpdated, BidPayload(r.value, isoTimestamp)), failing))
  {
    var b := OnlineBid(req, caller, newId, now);
    assert OptionalRef(b.user_id, UserIds(db.tables.users)) by {
      assert caller.id in UserIds(db.tables.users);
    }
    r := Store(db, req.auction_id, b);
    if r.Ok? {
      manager.BroadcastBidUpdate(BroadcastRoom(req.auction_id), BidPayload(b, isoTimestamp), failing);
    }
  }

  /** `place_floor_bid`: the same guards, a floor bid with no user, the same broadcast. */
  method PlaceFloorBid(db: Db, manager: ConnectionManager, req: FloorBidCreate, newId: Id,
                       now: int, isoTimestamp: string, failing: set<Conn>) returns (r: Reply<BidRow>)
    requires Valid(db.tables) && newId !in BidIds(db.tables.bids)
    modifies db, manager`sent
    ensures Valid(db.tables) && manager.active == old(manager.active)
    ensures var g := Check(old(db.tables), req.auction_id, req.amount);
            && (g.HttpError? ==> r == HttpError(g.code, g.detail) && db.tables == old(db.tables) && manager.sent == old(manager.sent))
            && (g.Ok? ==> && r == Ok(FloorBid(req, newId, now))
                          && db.tables == Accepted(old(db.tables), g.value, r.value)
                          && manager.sent == old(manager.sent) + Delivered(manager.active, BroadcastRoom(req.auction_id),
                                                                           Envelope(BidUpdated, BidPayload(r.value, isoTimestamp)), failing))
  {
    var b := FloorBid(req, newId, now);
    r := Store(db, req.auction_id, b);
    if r.Ok? {
      manager.BroadcastBidUpdate(BroadcastRoom(req.auction_id), BidPayload(b, isoTimestamp), failing);
    }
  }

  /**
   * `place_bid` with the broadcast sent to the room the websocket endpoint
   * opened for the auction: every connection of that room whose send
   * succeeds receives the update.
   */
  method PlaceBidToRoom(db: Db, manager: ConnectionManager, req: BidCreate, caller: UserRow, newId: Id,
                        now: int, isoTimestamp: string, failing: set<Conn>) returns (r: Reply<BidRow>)
    requires Valid(db.tables) && caller in db.tables.users && newId !in BidIds(db.tables.bids)
    modifies db, manager`sent
    ensures Valid(db.tables) && manager.active == old(manager.active)
    ensures var g := Check(old(db.tables), req.auction_id, req.amount);
            && (g.HttpError? ==> r == HttpError(g.code, g.detail) && db.tables == old(db.tables) && manager.sent == old(manager.sent))
            && (g.Ok? ==> && r == Ok(OnlineBid(req, caller, newId, now))
                          && db.tables == Accepted(old(db.tables), g.value, r.value)
                          && manager.sent == old(manager.sent) + Delivered(manager.active, IntendedRoom(req.auction_id),
                                                                           Envelope(BidUpdated, BidPayload(r.value, isoTimestamp)), failing))
  {
    var b := OnlineBid(req, caller, newId, now);
    assert OptionalRef(b.user_id, UserIds(db.tables.users)) by {
      assert caller.id in UserIds(db.tables.users);
    }
    r := Store(db, req.auction_id, b);
    if r.Ok? {
      manager.BroadcastBidUpdate(IntendedRoom(req.auction_id), BidPayload(b, isoTimestamp), failing);
    }
  }

  /** The sort key of the history. */
  function Timestamp(b: BidRow): int { b.timestamp }

  function BidOf(auctionId: Id): BidRow -> bool {
    (b: BidRow) => b.auction_id == auctionId
  }

  /** The auction's bids, in table order. */
  function AuctionBids(t: Tables, auctionId: Id): (r: seq<BidRow>)
    ensures forall b :: b in r <==> b in t.bids && b.auction_id == auctionId
  {
    Filter(t.bids, BidOf(auctionId))
  }

  /** `get_auction_bids`: that auction's bids, newest first, then `OFFSET skip LIMIT limit` (0 and 100 by default). */
  function GetAuctionBids(t: Tables, auctionId: Id, skip: nat, limit: nat): (r: seq<BidRow>)
    ensures |r| <= limit
    ensures |r| == PageLength(|AuctionBids(t, auctionId)|, skip, limit)
    ensures skip < |AuctionBids(t, auctionId)| ==>
              SliceAt(r, SortDesc(AuctionBids(t, auctionId), Timestamp), skip)
    ensures Descending(r, Timestamp)
    ensures forall b :: b in r ==> b in t.bids && b.auction_id == auctionId
  {
    TopPage(AuctionBids(t, auctionId), Timestamp, skip, limit)
  }

  /** The first page holds the newest bids: a bid on the auction left off it is no newer than any bid on it. */
  lemma FirstPageHoldsNewestBids(t: Tables, auctionId: Id, limit: nat)
    ensures var r := GetAuctionBids(t, auctionId, 0, limit);
            forall a, b :: a in t.bids && a.auction_id == auctionId && a !in r && b in r ==> a.timestamp <= b.timestamp
  {
    var r := GetAuctionBids(t, auctionId, 0, limit);
    var s := AuctionBids(t, auctionId);
    TopPageLargest(s, Timestamp, limit);
    forall a, b | a in t.bids && a.auction_id == auctionId && a !in r && b in r
      ensures a.timestamp <= b.timestamp
    {
      assert a in s;
      assert Timestamp(a) <= Timestamp(b);
    }
  }

  /** The first page, when it is large enough, holds every bid on the auction. */
  lemma FirstPageHoldsAllBids(t: Tables, auctionId: Id, limit: nat)
    requires limit >= |t.bids|
    ensures forall b :: b in t.bids && b.auction_id == auctionId ==> b in GetAuctionBids(t, auctionId, 0, limit)
  {
    TopPageHoldsAll(AuctionBids(t, auctionId), Timestamp, limit);
  }
}
