/**
 * The browser's per-room WebSocket wrapper (`SocketService`, one shared
 * instance). It holds at most one connection, the id of the room it is in,
 * one remembered reconnect timer and a registry of event handlers. The
 * transport is abstract: the connection is a value, and the browser's events
 * (open, message, unexpected close, a timer firing) are methods the
 * environment calls.
 */
module Socket {
  import opened Js

  /** Delay, in milliseconds, of the reconnect scheduled after an unexpected close. */
  const ReconnectDelayMs: nat := 3000

  /** A subscribed callback, identified as the function object it is. */
  type Handler = nat

  /** The connection held by the service: the room segment of its URL, and whether `onopen` has fired. */
  datatype Connection = Connection(room: string, isOpen: bool)

  /** An inbound frame: text that JSON.parse rejects, or the value it parses to. */
  datatype Inbound = Unparseable | Parsed(message: Json)

  /** One call `cb(data)` made while dispatching an event. */
  datatype Delivery = Delivery(handler: Handler, data: Json)

  /** The handlers registered for `event`, in registration order (none for an unknown event). */
  function HandlersOf(listeners: map<string, seq<Handler>>, event: string): seq<Handler> {
    if event in listeners then listeners[event] else []
  }

  /** `list.filter(cb => cb !== h)`. */
  function Without(hs: seq<Handler>, h: Handler): (r: seq<Handler>)
    ensures h !in r
    ensures |r| <= |hs|
    ensures forall x :: x in r ==> x in hs
  {
    if hs == [] then []
    else if hs[0] == h then Without(hs[1..], h)
    else [hs[0]] + Without(hs[1..], h)
  }

  /** Filtering distributes over concatenation, so `off` keeps the relative order of the handlers it keeps. */
  lemma {:induction false} WithoutConcat(a: seq<Handler>, b: seq<Handler>, h: Handler)
    ensures Without(a + b, h) == Without(a, h) + Without(b, h)
  {
    if a == [] {
      assert a + b == b;
    } else {
      assert (a + b)[1..] == a[1..] + b;
      WithoutConcat(a[1..], b, h);
    }
  }

  /** `off` drops every occurrence of `h` and keeps every other handler as often as it was registered. */
  lemma {:induction false} WithoutCounts(hs: seq<Handler>, h: Handler, x: Handler)
    ensures multiset(Without(hs, h))[h] == 0
    ensures x != h ==> multiset(Without(hs, h))[x] == multiset(hs)[x]
  {
    if hs != [] {
      WithoutCounts(hs[1..], h, x);
      assert hs == [hs[0]] + hs[1..];
    }
  }

  /** Removing a handler that is not registered changes nothing. */
  lemma {:induction false} WithoutAbsent(hs: seq<Handler>, h: Handler)
    requires h !in hs
    ensures Without(hs, h) == hs
  {
    if hs != [] {
      WithoutAbsent(hs[1..], h);
    }
  }

  /** The calls `handlers.forEach(cb => cb(data))` makes, in order. */
  function Deliveries(hs: seq<Handler>, data: Json): (r: seq<Delivery>)
    ensures |r| == |hs|
    ensures forall k :: 0 <= k < |hs| ==> r[k] == Delivery(hs[k], data)
  {
    seq(|hs|, k requires 0 <= k < |hs| => Delivery(hs[k], data))
  }

  /** `message.data` is present and truthy. */
  predicate DataTruthy(message: Json) {
    Field(message, "data").Some? && Truthy(Field(message, "data").value)
  }

  /**
   * How an inbound frame is dispatched: to the handlers of `message.type`, with
   * `message.data || message` as payload. A frame that does not parse, or that
   * parses to null (reading `.type` of null throws inside the same try), is
   * dropped; a `type` that is not a string matches no registered event name.
   */
  function Route(m: Inbound): (r: Option<(string, Json)>)
    ensures m.Unparseable? || m.message.JNull? ==> r.None?
    ensures r.Some? <==> m.Parsed? && !m.message.JNull? && StrField(m.message, "type").Some?
    ensures r.Some? ==> r.value.0 == StrField(m.message, "type").value
    ensures r.Some? && DataTruthy(m.message) ==> r.value.1 == Field(m.message, "data").value
    ensures r.Some? && !DataTruthy(m.message) ==> r.value.1 == m.message
  {
    match m
    case Unparseable => None
    case Parsed(msg) =>
      if msg.JNull? then None
      else
        var payload := if DataTruthy(msg) then Field(msg, "data").value else msg;
        match StrField(msg, "type")
        case Some(t) => Some((t, payload))
        case None => None
  }

  /** The text `JSON.stringify({ event, ...data })` encodes: the keys of `data` win over `event`. */
  function Frame(event: string, data: map<string, Json>): (r: Json)
    ensures r.JObj? && "event" in r.fields
    ensures "event" !in data ==> r.fields["event"] == JStr(event)
    ensures forall k :: k in data ==> k in r.fields && r.fields[k] == data[k]
    ensures r.fields.Keys == data.Keys + {"event"}
  {
    JObj(map["event" := JStr(event)] + data)
  }

  /** The room segment of the URL a reconnect opens: `${currentAuctionId}`, which is "null" once the room was left. */
  function RoomText(current: Option<string>): string {
    if current.Some? then current.value else "null"
  }

  /** The timer ids a `clearTimeout(reconnectTimer)` cancels. */
  function TimerSet(t: Option<nat>): set<nat> {
    if t.Some? then {t.value} else {}
  }

  class SocketService {
    var socket: Option<Connection>
    var currentAuctionId: Option<string>
    var listeners: map<string, seq<Handler>>
    /** The timer id last stored by `onclose`; it is not reset when that timer fires. */
    var reconnectTimer: Option<nat>
    /** Reconnect timers scheduled (each for ReconnectDelayMs) that have neither fired nor been cleared. */
    var pendingTimers: set<nat>
    /** The id the next setTimeout returns (browsers hand out increasing ids). */
    var nextTimerId: nat
    /** The room of every WebSocket the service constructed, in order. */
    var constructed: seq<string>
    /** Every frame handed to `socket.send`, in order. */
    var sent: seq<Json>
    /** Every handler call made by dispatch, in order. */
    var delivered: seq<Delivery>

    ghost predicate Valid()
      reads this
    {
      && (forall t :: t in pendingTimers ==> t < nextTimerId)
      && (reconnectTimer.Some? ==> reconnectTimer.value < nextTimerId)
      && (socket.Some? ==> |constructed| > 0 && constructed[|constructed| - 1] == socket.value.room)
    }

    constructor ()
      ensures Valid()
      ensures socket == None && currentAuctionId == None && listeners == map[]
      ensures reconnectTimer == None && pendingTimers == {}
      ensures constructed == [] && sent == [] && delivered == []
    {
      socket := None;
      currentAuctionId := None;
      listeners := map[];
      reconnectTimer := None;
      pendingTimers := {};
      nextTimerId := 1;
      constructed := [];
      sent := [];
      delivered := [];
    }

    /** `_openSocket`: does nothing while a connection exists, otherwise constructs one for `room`. */
    method OpenSocket(room: string)
      requires Valid()
      modifies this
      ensures Valid()
      ensures old(socket).Some? ==> socket == old(socket) && constructed == old(constructed)
      ensures old(socket).None? ==> socket == Some(Connection(room, false)) && constructed == old(constructed) + [room]
      ensures currentAuctionId == old(currentAuctionId) && listeners == old(listeners)
      ensures reconnectTimer == old(reconnectTimer) && pendingTimers == old(pendingTimers)
      ensures nextTimerId == old(nextTimerId)
      ensures sent == old(sent) && delivered == old(delivered)
    {
      if socket.Some? {
        return;
      }
      socket := Some(Connection(room, false));
      constructed := constructed + [room];
    }

    /**
     * `_closeSocket`: cancels the remembered reconnect timer and drops the
     * connection; `onclose` is detached first, so this close never schedules a
     * reconnect.
     */
    method CloseSocket()
      requires Valid()
      modifies this
      ensures Valid()
      ensures socket == None && reconnectTimer == None
      ensures pendingTimers == old(pendingTimers) - TimerSet(old(reconnectTimer))
      ensures currentAuctionId == old(currentAuctionId) && listeners == old(listeners)
      ensures nextTimerId == old(nextTimerId)
      ensures constructed == old(constructed) && sent == old(sent) && delivered == old(delivered)
    {
      if reconnectTimer.Some? {
        pendingTimers := pendingTimers - {reconnectTimer.value};
        reconnectTimer := None;
      }
      if socket.Some? {
        socket := None;
      }
    }

    /** `disconnect`: the same as `_closeSocket`; the room stays current. */
    method Disconnect()
      requires Valid()
      modifies this
      ensures Valid()
      ensures socket == None && reconnectTimer == None
      ensures pendingTimers == old(pendingTimers) - TimerSet(old(reconnectTimer))
      ensures currentAuctionId == old(currentAuctionId) && listeners == old(listeners)
      ensures constructed == old(constructed) && sent == old(sent) && delivered == old(delivered)
    {
      CloseSocket();
    }

    /**
     * `joinAuction`: when another (truthy) room is current, its connection is
     * closed and its reconnect timer cancelled before the new room's connection
     * is constructed; otherwise an existing connection is kept and none is added.
     */
    method JoinAuction(auctionId: string)
      requires Valid()
      modifies this
      ensures Valid()
      ensures currentAuctionId == Some(auctionId)
      ensures var switching := TruthyStr(old(currentAuctionId)) && old(currentAuctionId).value != auctionId;
              && (switching ==> && socket == Some(Connection(auctionId, false))
                                && constructed == old(constructed) + [auctionId]
                                && reconnectTimer == None
                                && pendingTimers == old(pendingTimers) - TimerSet(old(reconnectTimer)))
              && (!switching ==> && reconnectTimer == old(reconnectTimer)
                                 && pendingTimers == old(pendingTimers)
                                 && (old(socket).Some? ==> socket == old(socket) && constructed == old(constructed))
                                 && (old(socket).None? ==> socket == Some(Connection(auctionId, false))
                                                           && constructed == old(constructed) + [auctionId]))
      ensures listeners == old(listeners) && sent == old(sent) && delivered == old(delivered)
    {
      if TruthyStr(currentAuctionId) && currentAuctionId.value != auctionId {
        CloseSocket();
      }
      currentAuctionId := Some(auctionId);
      OpenSocket(auctionId);
    }

    /** `leaveAuction`: only when `auctionId` is the current room, close and forget it; otherwise nothing changes. */
    method LeaveAuction(auctionId: string)
      requires Valid()
      modifies this
      ensures Valid()
      ensures old(currentAuctionId) == Some(auctionId) ==>
                && socket == None && currentAuctionId == None && reconnectTimer == None
                && pendingTimers == old(pendingTimers) - TimerSet(old(reconnectTimer))
      ensures old(currentAuctionId) != Some(auctionId) ==>
                && socket == old(socket) && currentAuctionId == old(currentAuctionId)
                && reconnectTimer == old(reconnectTimer) && pendingTimers == old(pendingTimers)
      ensures listeners == old(listeners) && constructed == old(constructed)
      ensures sent == old(sent) && delivered == old(delivered)
    {
      if currentAuctionId == Some(auctionId) {
        CloseSocket();
        currentAuctionId := None;
      }
    }

    /** `on`: appends `h` at the end of `event`'s handler list, creating the list if needed. */
    method On(event: string, h: Handler)
      requires Valid()
      modifies this
      ensures Valid()
      ensures listeners == old(listeners)[event := HandlersOf(old(listeners), event) + [h]]
      ensures socket == old(socket) && currentAuctionId == old(currentAuctionId)
      ensures reconnectTimer == old(reconnectTimer) && pendingTimers == old(pendingTimers)
      ensures constructed == old(constructed) && sent == old(sent) && delivered == old(delivered)
    {
      if event !in listeners {
        listeners := listeners[event := []];
      }
      listeners := listeners[event := listeners[event] + [h]];
    }

    /** `off`: removes every occurrence of `h` from a known event's list; an unknown event is left alone. */
    method Off(event: string, h: Handler)
      requires Valid()
      modifies this
      ensures Valid()
      ensures event in old(listeners) ==> listeners == old(listeners)[event := Without(old(listeners)[event], h)]
      ensures event !in old(listeners) ==> listeners == old(listeners)
      ensures socket == old(socket) && currentAuctionId == old(currentAuctionId)
      ensures reconnectTimer == old(reconnectTimer) && pendingTimers == old(pendingTimers)
      ensures constructed == old(constructed) && sent == old(sent) && delivered == old(delivered)
    {
      if event in listeners {
        var updated := Without(listeners[event], h);
        listeners := listeners[event := updated];
      }
    }

    /** `emit`: sends one frame when the connection is open; otherwise the message is dropped (no queue). */
    method Emit(event: string, data: map<string, Json>)
      requires Valid()
      modifies this
      ensures Valid()
      ensures socket.Some? && socket.value.isOpen ==> sent == old(sent) + [Frame(event, data)]
      ensures !(socket.Some? && socket.value.isOpen) ==> sent == old(sent)
      ensures socket == old(socket) && currentAuctionId == old(currentAuctionId) && listeners == old(listeners)
      ensures reconnectTimer == old(reconnectTimer) && pendingTimers == old(pendingTimers)
      ensures nextTimerId == old(nextTimerId)
      ensures constructed == old(constructed) && delivered == old(delivered)
    {
      if socket.Some? && socket.value.isOpen {
        sent := sent + [Frame(event, data)];
      }
    }

    /** The connection's `onopen`: it is open now, and a remembered reconnect timer is cleared. */
    method OnOpen()
      requires Valid() && socket.Some?
      modifies this
      ensures Valid()
      ensures socket == Some(Connection(old(socket).value.room, true))
      ensures reconnectTimer == None
      ensures pendingTimers == old(pendingTimers) - TimerSet(old(reconnectTimer))
      ensures currentAuctionId == old(currentAuctionId) && listeners == old(listeners)
      ensures constructed == old(constructed) && sent == old(sent) && delivered == old(delivered)
    {
      socket := Some(socket.value.(isOpen := true));
      if reconnectTimer.Some? {
        pendingTimers := pendingTimers - {reconnectTimer.value};
        reconnectTimer := None;
      }
    }

    /** `_trigger`: calls the event's handlers with `data`, in registration order; no handlers, no calls. */
    method Trigger(event: string, data: Json)
      requires Valid()
      modifies this
      ensures Valid()
      ensures delivered == old(delivered) + Deliveries(HandlersOf(listeners, event), data)
      ensures socket == old(socket) && currentAuctionId == old(currentAuctionId) && listeners == old(listeners)
      ensures reconnectTimer == old(reconnectTimer) && pendingTimers == old(pendingTimers)
      ensures nextTimerId == old(nextTimerId)
      ensures constructed == old(constructed) && sent == old(sent)
    {
      var callbacks := HandlersOf(listeners, event);
      var i := 0;
      while i < |callbacks|
        invariant 0 <= i <= |callbacks|
        invariant delivered == old(delivered) + Deliveries(callbacks[..i], data)
        invariant socket == old(socket) && currentAuctionId == old(currentAuctionId) && listeners == old(listeners)
        invariant reconnectTimer == old(reconnectTimer) && pendingTimers == old(pendingTimers)
        invariant nextTimerId == old(nextTimerId)
        invariant constructed == old(constructed) && sent == old(sent)
      {
        assert Deliveries(callbacks[..i + 1], data) == Deliveries(callbacks[..i], data) + [Delivery(callbacks[i], data)];
        delivered := delivered + [Delivery(callbacks[i], data)];
        i := i + 1;
      }
      assert callbacks[..i] == callbacks;
    }

    /** The connection's `onmessage`: dispatches the frame as `Route` says, or drops it. */
    method OnMessage(m: Inbound)
      requires Valid() && socket.Some? && socket.value.isOpen
      modifies this
      ensures Valid()
      ensures Route(m).None? ==> delivered == old(delivered)
      ensures Route(m).Some? ==>
                delivered == old(delivered) + Deliveries(HandlersOf(listeners, Route(m).value.0), Route(m).value.1)
      ensures socket == old(socket) && currentAuctionId == old(currentAuctionId) && listeners == old(listeners)
      ensures reconnectTimer == old(reconnectTimer) && pendingTimers == old(pendingTimers)
      ensures constructed == old(constructed) && sent == old(sent)
    {
      var route := Route(m);
      if route.Some? {
        Trigger(route.value.0, route.value.1);
      }
    }

    /**
     * The connection's `onclose` (only a close the service did not start
     * reaches it): the connection is dropped, and exactly when a room is still
     * current one reconnect timer is scheduled and remembered.
     */
    method OnClose()
      requires Valid() && socket.Some?
      modifies this
      ensures Valid()
      ensures socket == None
      ensures TruthyStr(currentAuctionId) ==>
                && reconnectTimer == Some(old(nextTimerId))
                && old(nextTimerId) !in old(pendingTimers)
                && pendingTimers == old(pendingTimers) + {old(nextTimerId)}
      ensures !TruthyStr(currentAuctionId) ==>
                reconnectTimer == old(reconnectTimer) && pendingTimers == old(pendingTimers)
      ensures currentAuctionId == old(currentAuctionId) && listeners == old(listeners)
      ensures constructed == old(constructed) && sent == old(sent) && delivered == old(delivered)
    {
      socket := None;
      if TruthyStr(currentAuctionId) {
        var t := nextTimerId;
        nextTimerId := nextTimerId + 1;
        reconnectTimer := Some(t);
        pendingTimers := pendingTimers + {t};
      }
    }

    /**
     * A pending reconnect timer fires: `_openSocket(this.currentAuctionId)`,
     * read at firing time. The remembered timer id is left as it was.
     */
    method FireTimer(t: nat)
      requires Valid() && t in pendingTimers
      modifies this
      ensures Valid()
      ensures pendingTimers == old(pendingTimers) - {t}
      ensures reconnectTimer == old(reconnectTimer)
      ensures old(socket).Some? ==> socket == old(socket) && constructed == old(constructed)
      ensures old(socket).None? ==>
                && socket == Some(Connection(RoomText(currentAuctionId), false))
                && constructed == old(constructed) + [RoomText(currentAuctionId)]
      ensures currentAuctionId == old(currentAuctionId) && listeners == old(listeners)
      ensures sent == old(sent) && delivered == old(delivered)
    {
      pendingTimers := pendingTimers - {t};
      OpenSocket(RoomText(currentAuctionId));
    }
  }
}
