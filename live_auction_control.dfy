/**
 * The floor-control widget: an amount field and a button that pushes a floor
 * bid to the room over the socket. The field holds a number after mount and
 * after each button, and the raw text after typing; each read goes through
 * `Number`.
 */
module LiveAuctionControl {
  import opened Js
  import Socket

  /** The quick-increment buttons. */
  const ControlIncrements: seq<int> := [500, 1000, 5000]

  /** What the widget adds to the current price at mount, and to the amount after each broadcast. */
  const Step: int := 1000

  const BroadcastEvent: string := "broadcastFloorBid"

  /** The field's state: a number, or the text last typed. */
  datatype Amount = Num(n: Number) | Typed(text: string)

  /** `Number(prev)`. */
  function AsNumber(a: Amount): (r: Number)
    ensures a.Num? ==> r == a.n
    ensures a.Typed? ==> r == ToNumber(a.text)
  {
    match a
    case Num(n) => n
    case Typed(t) => ToNumber(t)
  }

  /** The data of the emitted event: the auction id and `Number(bidAmount)` (NaN is sent as null). */
  function BroadcastData(auctionId: Json, a: Amount): (r: map<string, Json>)
    ensures r.Keys == {"auctionId", "amount"}
    ensures r["auctionId"] == auctionId && r["amount"] == NumberJson(AsNumber(a))
  {
    map["auctionId" := auctionId, "amount" := NumberJson(AsNumber(a))]
  }

  class FloorControl {
    /** `auction.id`. */
    const auctionId: Json
    var bidAmount: Amount

    /** Mounting: the amount is the auction's `currentPrice` + 1000 (NaN when the auction has none). */
    constructor (auctionId: Json, currentPrice: Option<int>)
      ensures this.auctionId == auctionId
      ensures bidAmount == Num(Plus(NumberOf(currentPrice), Step))
    {
      this.auctionId := auctionId;
      bidAmount := Num(Plus(NumberOf(currentPrice), Step));
    }

    /** Typing stores the text as it is. */
    method Edit(text: string)
      modifies this`bidAmount
      ensures bidAmount == Typed(text)
    {
      bidAmount := Typed(text);
    }

    /** A quick-increment button: `Number(prev) + inc`, so presses add up. */
    method Increment(inc: int)
      requires inc in ControlIncrements
      modifies this`bidAmount
      ensures bidAmount == Num(Plus(AsNumber(old(bidAmount)), inc))
    {
      bidAmount := Num(Plus(AsNumber(bidAmount), inc));
    }

    /**
     * "Broadcast floor bid": the event goes out through the socket service
     * (which drops it unless the connection is open), with no comparison to
     * any price, and the amount then rises by 1000.
     */
    method HandleBroadcast(socket: Socket.SocketService)
      requires socket.Valid()
      modifies this`bidAmount, socket
      ensures socket.Valid()
      ensures socket.socket.Some? && socket.socket.value.isOpen ==>
                socket.sent == old(socket.sent) + [Socket.Frame(BroadcastEvent, BroadcastData(auctionId, old(bidAmount)))]
      ensures !(socket.socket.Some? && socket.socket.value.isOpen) ==> socket.sent == old(socket.sent)
      ensures socket.socket == old(socket.socket) && socket.listeners == old(socket.listeners)
      ensures bidAmount == Num(Plus(AsNumber(old(bidAmount)), Step))
    {
      socket.Emit(BroadcastEvent, BroadcastData(auctionId, bidAmount));
      bidAmount := Num(Plus(AsNumber(bidAmount), Step));
    }
  }
}
