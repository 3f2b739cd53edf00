/**
 * The server's room table (`ConnectionManager`): for each auction key, the
 * connections in that room, in the order they joined; and the broadcasts that
 * send one JSON envelope to every connection of a room. Sockets are plain
 * numbers, and which sends fail is a parameter. Every text sent is recorded
 * in `sent`. A room is looked up by its key as Python compares dictionary
 * keys: the text of an id and the `UUID` object for the same id are
 * different keys.
 */
module WebsocketManager {
  import opened Js
  import opened Lists

  /** A connected socket. */
  type Conn = nat

  /** A room key: the id's text, or a `UUID` object. */
  datatype RoomKey = StrKey(text: string) | UuidKey(uuid: string)

  const BidUpdated: string := "bidUpdated"
  const ParticipantUpdate: string := "participantUpdate"
  const AuctionStatus: string := "auctionStatus"
  const ParticipantJoined: string := "participant_joined"
  const ParticipantLeft: string := "participant_left"

  /** `{"type": kind, "data": data}`. */
  function Envelope(kind: string, data: Json): (r: Json)
    ensures r.JObj? && r.fields.Keys == {"type", "data"}
    ensures r.fields["type"] == JStr(kind) && r.fields["data"] == data
  {
    JObj(map["type" := JStr(kind), "data" := data])
  }

  /** `{"type": kind, "count": n}`. */
  function CountData(kind: string, n: nat): Json {
    JObj(map["type" := JStr(kind), "count" := JNum(n)])
  }

  /** The sends that succeed. */
  function Succeeds(failing: set<Conn>): Conn -> bool { (c: Conn) => c !in failing }

  /** The sends that raise. */
  function Fails(failing: set<Conn>): Conn -> bool { (c: Conn) => c in failing }

  /** One text to each of the connections, in order. */
  function Sends(conns: seq<Conn>, message: Json): (r: seq<(Conn, Json)>)
    ensures |r| == |conns| && forall k :: 0 <= k < |conns| ==> r[k] == (conns[k], message)
  {
    Map(conns, (c: Conn) => (c, message))
  }

  /** The place of the first occurrence of `x`. */
  function FirstIndex(s: seq<Conn>, x: Conn): (i: nat)
    requires x in s
    ensures i < |s| && s[i] == x && x !in s[..i]
  {
    if s[0] == x then 0 else 1 + FirstIndex(s[1..], x)
  }

  /** Dropping the element at `j + 1` of `s` is keeping its head and dropping the element at `j` of its tail. */
  lemma ConsDrop(s: seq<Conn>, j: nat)
    requires j + 1 < |s|
    ensures [s[0]] + (s[1..][..j] + s[1..][j + 1..]) == s[..j + 1] + s[j + 2..]
  {
    assert s[..j + 1] == [s[0]] + s[1..][..j];
    assert s[j + 2..] == s[1..][j + 1..];
  }

  /** `list.remove(x)` when `x` is in the list: the first occurrence goes, and the rest keep their order. */
  function RemoveFirst(s: seq<Conn>, x: Conn): (r: seq<Conn>)
    requires x in s
    ensures |r| == |s| - 1
    ensures multiset(r) == multiset(s) - multiset{x}
    ensures r == s[..FirstIndex(s, x)] + s[FirstIndex(s, x) + 1..]
  {
    assert s == [s[0]] + s[1..];
    if s[0] == x then
      assert s[..0] + s[1..] == s[1..];
      s[1..]
    else
      ConsDrop(s, FirstIndex(s[1..], x));
      [s[0]] + RemoveFirst(s[1..], x)
  }

  /** The room's list after `disconnect` has removed the socket, if it was there. */
  function Remaining(members: seq<Conn>, ws: Conn): (r: seq<Conn>)
    ensures ws in members ==> |r| == |members| - 1
    ensures ws !in members ==> r == members
  {
    if ws in members then RemoveFirst(members, ws) else members
  }

  class ConnectionManager {
    var active: map<RoomKey, seq<Conn>>
    /** Every text sent, with the socket it went to, in order. */
    var sent: seq<(Conn, Json)>

    /** No room key maps to an empty list. */
    ghost predicate Valid()
      reads this`active
    {
      forall k :: k in active ==> |active[k]| > 0
    }

    constructor ()
      ensures active == map[] && sent == [] && Valid()
    {
      active := map[];
      sent := [];
    }

    /**
     * The loop both broadcasts share: every connection of the room gets the
     * envelope, except those whose send raises, which are collected. A room
     * with no entry gets nothing.
     */
    method Broadcast(room: RoomKey, message: Json, failing: set<Conn>) returns (disconnected: seq<Conn>)
      modifies this`sent
      ensures room !in active ==> sent == old(sent) && disconnected == []
      ensures room in active ==> && sent == old(sent) + Sends(Filter(active[room], Succeeds(failing)), message)
                                 && disconnected == Filter(active[room], Fails(failing))
    {
      if room !in active {
        return [];
      }
      var conns := active[room];
      var delivered: seq<Conn> := [];
      disconnected := [];
      var i := 0;
      while i < |conns|
        invariant 0 <= i <= |conns|
        invariant delivered == Filter(conns[..i], Succeeds(failing))
        invariant disconnected == Filter(conns[..i], Fails(failing))
        invariant sent == old(sent)
      {
        var c := conns[i];
        assert conns[..i + 1] == conns[..i] + [c];
        FilterAppend(conns[..i], c, Succeeds(failing));
        FilterAppend(conns[..i], c, Fails(failing));
        if c in failing {
          disconnected := disconnected + [c];
        } else {
          delivered := delivered + [c];
        }
        i := i + 1;
      }
      assert conns[..i] == conns;
      sent := sent + Sends(delivered, message);
    }

    /**
     * `broadcast_bid_update`: a 'bidUpdated' envelope to the room. The
     * connections whose send failed are handed to `disconnect` without
     * `await`, so that coroutine never runs and they stay in the room.
     */
    method BroadcastBidUpdate(room: RoomKey, data: Json, failing: set<Conn>)
      modifies this`sent
      ensures active == old(active)
      ensures room !in active ==> sent == old(sent)
      ensures room in active ==> sent == old(sent) + Sends(Filter(active[room], Succeeds(failing)), Envelope(BidUpdated, data))
    {
      var _ := Broadcast(room, Envelope(BidUpdated, data), failing);
    }

    /** `broadcast_participant_update`: a 'participantUpdate' envelope to the room, the same way. */
    method BroadcastParticipantUpdate(room: RoomKey, data: Json, failing: set<Conn>)
      modifies this`sent
      ensures active == old(active)
      ensures room !in active ==> sent == old(sent)
      ensures room in active ==> sent == old(sent) + Sends(Filter(active[room], Succeeds(failing)), Envelope(ParticipantUpdate, data))
    {
      var _ := Broadcast(room, Envelope(ParticipantUpdate, data), failing);
    }

    /**
     * `broadcast_auction_status`: builds an 'auctionStatus' message but sends
     * only its data, through the bid broadcast, so it arrives as 'bidUpdated'.
     */
    method BroadcastAuctionStatus(room: RoomKey, auctionId: Json, status: string, failing: set<Conn>)
      modifies this`sent
      ensures active == old(active)
      ensures room !in active ==> sent == old(sent)
      ensures room in active ==>
                sent == old(sent) + Sends(Filter(active[room], Succeeds(failing)),
                                          Envelope(BidUpdated, JObj(map["auctionId" := auctionId, "status" := JStr(status)])))
    {
      BroadcastBidUpdate(room, JObj(map["auctionId" := auctionId, "status" := JStr(status)]), failing);
    }

    /** `send_personal_message`. */
    method SendPersonalMessage(message: Json, ws: Conn)
      modifies this`sent
      ensures sent == old(sent) + [(ws, message)]
    {
      sent := sent + [(ws, message)];
    }

    /**
     * `connect`: the socket joins the end of its room (created if absent), and
     * the room, the newcomer included, is told the new size.
     */
    method Connect(ws: Conn, auctionId: string, failing: set<Conn>)
      requires Valid()
      modifies this`active, this`sent
      ensures Valid()
      ensures var room := StrKey(auctionId);
              && active == old(active)[room := (if room in old(active) then old(active)[room] else []) + [ws]]
              && sent == old(sent) + Sends(Filter(active[room], Succeeds(failing)),
                                           Envelope(ParticipantUpdate, CountData(ParticipantJoined, |active[room]|)))
    {
      var room := StrKey(auctionId);
      var members := (if room in active then active[room] else []) + [ws];
      active := active[room := members];
      BroadcastParticipantUpdate(room, CountData(ParticipantJoined, |members|), failing);
    }

    /**
     * `disconnect`: one occurrence of the socket leaves its room if it is
     * there; a room left empty is deleted without a broadcast, otherwise the
     * rest are told the new size. An unknown room changes nothing.
     */
    method Disconnect(ws: Conn, auctionId: string, failing: set<Conn>)
      requires Valid()
      modifies this`active, this`sent
      ensures Valid()
      ensures StrKey(auctionId) !in old(active) ==> active == old(active) && sent == old(sent)
      ensures StrKey(auctionId) in old(active) && Remaining(old(active)[StrKey(auctionId)], ws) == [] ==>
                active == old(active) - {StrKey(auctionId)} && sent == old(sent)
      ensures StrKey(auctionId) in old(active) && Remaining(old(active)[StrKey(auctionId)], ws) != [] ==>
                var rest := Remaining(old(active)[StrKey(auctionId)], ws);
                && active == old(active)[StrKey(auctionId) := rest]
                && sent == old(sent) + Sends(Filter(rest, Succeeds(failing)),
                                             Envelope(ParticipantUpdate, CountData(ParticipantLeft, |rest|)))
    {
      var room := StrKey(auctionId);
      if room !in active {
        return;
      }
      var rest := Remaining(active[room], ws);
      if rest == [] {
        active := active - {room};
      } else {
        active := active[room := rest];
        BroadcastParticipantUpdate(room, CountData(ParticipantLeft, |rest|), failing);
      }
    }
  }

  /** A socket that joins and then leaves an otherwise empty room leaves no trace in the table. */
  method JoinThenLeave(ws: Conn, auctionId: string) returns (m: ConnectionManager)
    ensures m.active == map[] && m.Valid()
  {
    m := new ConnectionManager();
    m.Connect(ws, auctionId, {});
    assert m.active[StrKey(auctionId)] == [ws];
    m.Disconnect(ws, auctionId, {});
  }
}
