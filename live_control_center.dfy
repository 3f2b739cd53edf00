/**
 * The auctioneer's live control page: the bid feed fed by socket pushes, the
 * rolling 60-second bid velocity, the floor-bid relay with its guard, the
 * closing sequence ("Going once", "Going twice", "Fair warning") and the
 * suggested next amount. Component state is a class; the clock, the ISO text
 * of the clock and the outcome of each API call are parameters.
 */
module LiveControlCenter {
  import opened Js

  /** The feed keeps the newest 100 bids. */
  const BidListCap: nat := 100
  /** Bids that arrived less than this many milliseconds ago count towards the velocity. */
  const VelocityWindowMs: int := 60000
  /** Increment used when the auction carries none. */
  const DefaultIncrement: int := 1000
  /** What a bid update adds to the new price to suggest the next amount. */
  const SuggestionStep: int := 1000

  const FloorGuardError: string := "Amount must be higher than the current bid."
  const FloorSyncFailed: string := "Failed to sync floor bid."
  const LoadFailed: string := "Failed to load auction data. Check your connection."
  const EndFailed: string := "Failed to end auction."
  const Auctioneer: string := "Auctioneer"
  const HostNumber: string := "HOST"

  /** The quick-add buttons of the floor relay. */
  const FloorIncrements: seq<int> := [1000, 5000, 10000, 25000]

  /** The auction fields the page reads (the server's auction has no `bid_increment`, so it reads as undefined). */
  datatype AuctionInfo = AuctionInfo(
    status: Option<string>,
    current_price: Option<int>,
    starting_price: Option<int>,
    bid_increment: Option<int>)

  /** One row of the feed; `kind` is the `type` field. */
  datatype LiveBid = LiveBid(
    id: Json,
    bidder_name: string,
    bidder_number: string,
    amount: Option<int>,
    kind: string,
    timestamp: string)

  /** The result of the two parallel loads: the auction and the history (`data` may be absent). */
  datatype LoadReply = LoadReply(auction: AuctionInfo, history: Option<seq<LiveBid>>)

  /** A call the page makes to the server, with the body it posts. */
  datatype Request =
    | FloorBid(auction_id: string, amount: int, bidder_name: string, bidder_number: string)
    | ChatPost(auction_id: string, message: string, is_admin_message: bool)
    | EndAuction(auction_id: string)

  /** The announcement of each step of the closing sequence. */
  function WarningLabel(step: int): string
    requires 1 <= step <= 3
  {
    if step == 1 then "Going Once…"
    else if step == 2 then "Going Twice…"
    else "Fair Warning — Final Call!"
  }

  /** The feed row built from a pushed payload; the clock supplies a missing id and timestamp. */
  function NewLiveBid(data: Json, now: int, nowIso: string): LiveBid {
    var id := if Field(data, "id").Some? && Truthy(Field(data, "id").value) then Field(data, "id").value else JNum(now);
    LiveBid(
      id,
      StrOr(OrStr(StrField(data, "bidderName"), StrField(data, "bidder_name")), "Anonymous"),
      StrOr(OrStr(StrField(data, "bidderNumber"), StrField(data, "bidder_number")), "—"),
      OrInt(NumField(data, "newPrice"), NumField(data, "amount")),
      StrOr(StrField(data, "type"), "online"),
      StrOr(OrStr(StrField(data, "timestamp"), StrField(data, "created_at")), nowIso))
  }

  /** `[b, ...bids].slice(0, 100)`: the new row first, then the newest 99 old rows, none merged away. */
  function Prepended(b: LiveBid, bids: seq<LiveBid>): (r: seq<LiveBid>)
    ensures |r| == if |bids| + 1 <= BidListCap then |bids| + 1 else BidListCap
    ensures r[0] == b
    ensures forall k :: 1 <= k < |r| ==> r[k] == bids[k - 1]
  {
    var all := [b] + bids;
    if |all| <= BidListCap then all else all[..BidListCap]
  }

  /**
   * No merge by id: the new row is counted on top of every equal row the
   * feed keeps, so a repeated push shows twice.
   */
  lemma PrependedKeepsRepeats(b: LiveBid, bids: seq<LiveBid>)
    ensures var r := Prepended(b, bids);
            multiset(r)[b] == 1 + multiset(bids[..|r| - 1])[b]
  {
    var r := Prepended(b, bids);
    assert r == [b] + bids[..|r| - 1];
  }

  /** The arrival times still inside the velocity window at `now`, in order. */
  function Recent(times: seq<int>, now: int): (r: seq<int>)
    ensures |r| <= |times|
  {
    if times == [] then []
    else (if now - times[0] < VelocityWindowMs then [times[0]] else []) + Recent(times[1..], now)
  }

  /** The window keeps exactly the times less than 60000 ms before `now`. */
  lemma {:induction false} RecentMembers(times: seq<int>, now: int)
    ensures forall t :: t in Recent(times, now) <==> t in times && now - t < VelocityWindowMs
  {
    if times != [] {
      RecentMembers(times[1..], now);
      assert times == [times[0]] + times[1..];
    }
  }

  /** The window the page holds after a series of arrivals: each arrival filters what the previous one kept. */
  function Window(arrivals: seq<int>): seq<int>
    decreases |arrivals|
  {
    if arrivals == [] then []
    else
      var last := arrivals[|arrivals| - 1];
      Recent(Window(arrivals[..|arrivals| - 1]) + [last], last)
  }

  predicate Nondecreasing(xs: seq<int>) {
    forall i, j :: 0 <= i < j < |xs| ==> xs[i] <= xs[j]
  }

  lemma {:induction false} RecentAppend(xs: seq<int>, y: int, now: int)
    ensures Recent(xs + [y], now) == Recent(xs, now) + (if now - y < VelocityWindowMs then [y] else [])
  {
    if xs == [] {
      assert xs + [y] == [y];
    } else {
      var tail := if now - y < VelocityWindowMs then [y] else [];
      var head := if now - xs[0] < VelocityWindowMs then [xs[0]] else [];
      assert (xs + [y])[0] == xs[0];
      assert (xs + [y])[1..] == xs[1..] + [y];
      RecentAppend(xs[1..], y, now);
      calc {
        Recent(xs + [y], now);
        head + Recent(xs[1..] + [y], now);
        head + (Recent(xs[1..], now) + tail);
        (head + Recent(xs[1..], now)) + tail;
      }
    }
  }

  /** Filtering again at a later time keeps only what filtering once at that time keeps. */
  lemma {:induction false} RecentAgain(xs: seq<int>, earlier: int, later: int)
    requires earlier <= later
    ensures Recent(Recent(xs, earlier), later) == Recent(xs, later)
  {
    if xs != [] {
      RecentAgain(xs[1..], earlier, later);
      var rest := Recent(xs[1..], earlier);
      if earlier - xs[0] < VelocityWindowMs {
        assert Recent(xs, earlier) == [xs[0]] + rest;
        assert ([xs[0]] + rest)[1..] == rest;
      } else {
        assert Recent(xs, earlier) == rest;
        assert Recent(xs, later) == Recent(xs[1..], later);
      }
    }
  }

  /**
   * With a clock that never runs backwards, the velocity window after the last
   * arrival holds exactly the arrivals (the last one included) less than
   * 60000 ms older than it.
   */
  lemma {:induction false} WindowIsRecentArrivals(arrivals: seq<int>)
    requires arrivals != [] && Nondecreasing(arrivals)
    ensures Window(arrivals) == Recent(arrivals, arrivals[|arrivals| - 1])
    decreases |arrivals|
  {
    var xs := arrivals[..|arrivals| - 1];
    var t := arrivals[|arrivals| - 1];
    assert arrivals == xs + [t];
    if xs == [] {
      assert Window(xs) == [];
    } else {
      var t0 := xs[|xs| - 1];
      WindowIsRecentArrivals(xs);
      RecentAppend(Window(xs), t, t);
      RecentAgain(xs, t0, t);
      RecentAppend(xs, t, t);
    }
  }

  /** `prev ? { ...prev, current_price: price } : prev`: a loaded auction takes the price, whatever it was; none stays none. */
  function WithPrice(auction: Option<AuctionInfo>, price: Option<int>): (r: Option<AuctionInfo>)
    ensures r.Some? <==> auction.Some?
    ensures r.Some? ==> r.value.current_price == price
    ensures r.Some? ==> && r.value.status == auction.value.status
                        && r.value.starting_price == auction.value.starting_price
                        && r.value.bid_increment == auction.value.bid_increment
  {
    if auction.Some? then Some(auction.value.(current_price := price)) else None
  }

  /** `auction?.current_price || 0`, the price the floor guard compares with. */
  function FloorBase(auction: Option<AuctionInfo>): int {
    if auction.Some? then IntOr(auction.value.current_price, 0) else 0
  }

  /** The floor guard lets an amount through: it is a non-zero number above the current price. */
  predicate FloorAccepts(amount: Number, auction: Option<AuctionInfo>) {
    TruthyNumber(amount) && amount.i > FloorBase(auction)
  }

  /** `minNextBid`: (current ‖ starting ‖ 0) + (increment ‖ 1000); the load suggests the same amount. */
  function SuggestedNext(auction: Option<AuctionInfo>): int {
    if auction.Some? then
      IntOr(OrInt(auction.value.current_price, auction.value.starting_price), 0)
        + IntOr(auction.value.bid_increment, DefaultIncrement)
    else DefaultIncrement
  }

  /**
   * With non-negative prices and no non-positive increment, the suggested
   * amount passes the floor guard; the guard itself asks only for more than
   * the current price, so one above it passes too, below the suggestion.
   */
  lemma SuggestionPassesFloorGuard(auction: Option<AuctionInfo>)
    requires auction.Some? ==> && (auction.value.current_price.Some? ==> auction.value.current_price.value >= 0)
                               && (auction.value.starting_price.Some? ==> auction.value.starting_price.value >= 0)
                               && (auction.value.bid_increment.Some? ==> auction.value.bid_increment.value >= 0)
    ensures FloorAccepts(Int(SuggestedNext(auction)), auction)
    ensures FloorAccepts(Int(FloorBase(auction) + 1), auction)
    ensures FloorBase(auction) + 1 <= SuggestedNext(auction)
  {
  }

  /** `String(Number(text) + inc)`: one press of an increment button. */
  function Bumped(text: string, inc: int): (r: string)
    ensures ToNumber(r) == Plus(ToNumber(text), inc)
  {
    TextOf(Plus(ToNumber(text), inc))
  }

  /** Increment presses add up, and a text that is not a number stays NaN. */
  lemma BumpedTwice(text: string, a: int, b: int)
    ensures ToNumber(Bumped(Bumped(text, a), b)) == Plus(ToNumber(text), a + b)
    ensures ToNumber(text).NaN? ==> Bumped(Bumped(text, a), b) == "NaN"
  {
  }

  /** `data.participants || []`. */
  function Roster(data: Json): (r: Json)
    ensures Field(data, "participants").Some? && Truthy(Field(data, "participants").value) ==>
              r == Field(data, "participants").value
    ensures !(Field(data, "participants").Some? && Truthy(Field(data, "participants").value)) ==> r == JArr([])
  {
    if Field(data, "participants").Some? && Truthy(Field(data, "participants").value)
    then Field(data, "participants").value
    else JArr([])
  }

  class ControlCenter {
    const auctionId: string
    var auction: Option<AuctionInfo>
    var bids: seq<LiveBid>
    var participants: Json
    var loading: bool
    /** The floor relay's input, as text. */
    var bidAmount: string
    var success: string
    var error: string
    /** 0 is idle; 1, 2, 3 are the closing-sequence steps. */
    var warningStep: int
    var lastBidTimes: seq<int>
    var bidVelocity: nat
    /** Every request sent, in order. */
    var requests: seq<Request>
    var isEnding: bool
    var navigatedTo: Option<string>

    ghost predicate Valid()
      reads this
    {
      && bidVelocity == |lastBidTimes|
      && 0 <= warningStep <= 3
    }

    constructor (auctionId: string)
      ensures Valid()
      ensures this.auctionId == auctionId && auction == None && bids == [] && participants == JArr([])
      ensures loading && bidAmount == "" && success == "" && error == "" && warningStep == 0
      ensures lastBidTimes == [] && requests == [] && !isEnding && navigatedTo == None
    {
      this.auctionId := auctionId;
      auction := None;
      bids := [];
      participants := JArr([]);
      loading := true;
      bidAmount := "";
      success := "";
      error := "";
      warningStep := 0;
      lastBidTimes := [];
      bidVelocity := 0;
      requests := [];
      isEnding := false;
      navigatedTo := None;
    }

    /**
     * A pushed bid (registered for both 'bidUpdated' and 'bid_update'): the
     * velocity window takes the arrival, the closing sequence goes back to idle,
     * exactly one row is prepended (no merge by id), a loaded auction takes the
     * new amount as its price whatever the old one was, and the relay suggests
     * that amount + 1000.
     */
    method HandleBidUpdate(data: Json, now: int, nowIso: string)
      requires Valid()
      modifies this`lastBidTimes, this`bidVelocity, this`warningStep, this`bids, this`auction, this`bidAmount
      ensures Valid()
      ensures lastBidTimes == Recent(old(lastBidTimes) + [now], now)
      ensures lastBidTimes != [] && lastBidTimes[|lastBidTimes| - 1] == now
      ensures warningStep == 0
      ensures bids == Prepended(NewLiveBid(data, now, nowIso), old(bids))
      ensures auction == WithPrice(old(auction), NewLiveBid(data, now, nowIso).amount)
      ensures ToNumber(bidAmount) == Plus(NumberOf(NewLiveBid(data, now, nowIso).amount), SuggestionStep)
    {
      var newBid := NewLiveBid(data, now, nowIso);
      var times := Recent(lastBidTimes + [now], now);
      RecentAppend(lastBidTimes, now, now);
      var nextText := TextOf(Plus(NumberOf(newBid.amount), SuggestionStep));
      lastBidTimes, bidVelocity, warningStep, bids, auction, bidAmount :=
        times, |times|, 0, Prepended(newBid, bids), WithPrice(auction, newBid.amount), nextText;
    }

    /** A roster push: the roster becomes `data.participants`, or empty when that is absent or falsy. */
    method HandleParticipantUpdate(data: Json)
      modifies this`participants
      ensures participants == Roster(data)
    {
      participants := Roster(data);
    }

    /**
     * `loadData`: both calls succeed (`Some`) and the auction and the history
     * replace what was held, with the suggested amount as the relay's input;
     * or one fails (`None`) and only the error is set. Loading ends either way.
     */
    method LoadData(reply: Option<LoadReply>)
      modifies this`auction, this`bids, this`bidAmount, this`error, this`loading
      ensures !loading
      ensures reply.Some? ==> && auction == Some(reply.value.auction)
                              && bids == (if reply.value.history.Some? then reply.value.history.value else [])
                              && ToNumber(bidAmount) == Int(SuggestedNext(auction))
                              && error == old(error)
      ensures reply.None? ==> && auction == old(auction) && bids == old(bids) && bidAmount == old(bidAmount)
                              && error == LoadFailed
    {
      if reply.Some? {
        var history := if reply.value.history.Some? then reply.value.history.value else [];
        var next := TextOf(Int(SuggestedNext(Some(reply.value.auction))));
        auction, bids, bidAmount, loading := Some(reply.value.auction), history, next, false;
      } else {
        error, loading := LoadFailed, false;
      }
    }

    /**
     * `handleFloorBid`: an amount that is 0, NaN or not above the current
     * price (0 when unknown) only raises the guard error; otherwise exactly one
     * request is sent as the auctioneer, and its outcome sets the banner. The
     * auction's increment is not enforced.
     */
    method HandleFloorBid(reply: ApiReply)
      modifies this`requests, this`success, this`error
      ensures !FloorAccepts(ToNumber(bidAmount), auction) ==>
                requests == old(requests) && error == FloorGuardError && success == ""
      ensures FloorAccepts(ToNumber(bidAmount), auction) ==>
                && requests == old(requests) + [FloorBid(auctionId, ToNumber(bidAmount).i, Auctioneer, HostNumber)]
                && (reply.Succeeded? ==> error == "" && success != "")
                && (reply.Failed? ==> error == FailureText(reply, FloorSyncFailed) && success == "")
    {
      var amount := ToNumber(bidAmount);
      if !FloorAccepts(amount, auction) {
        error, success := FloorGuardError, "";
        return;
      }
      requests := requests + [FloorBid(auctionId, amount.i, Auctioneer, HostNumber)];
      if reply.Succeeded? {
        success, error := "Floor bid of $" + IntText(amount.i) + " synced successfully.", "";
      } else {
        error, success := FailureText(reply, FloorSyncFailed), "";
      }
    }

    /**
     * A closing-sequence button: the step becomes exactly `step` (not one more
     * than before) and its announcement is posted on every press, repeats
     * included; a failed post is only logged, so nothing else changes.
     */
    method HandleFairWarning(step: int)
      requires Valid() && 1 <= step <= 3
      modifies this`warningStep, this`requests
      ensures Valid()
      ensures warningStep == step
      ensures requests == old(requests) + [ChatPost(auctionId, WarningLabel(step), true)]
    {
      warningStep, requests := step, requests + [ChatPost(auctionId, WarningLabel(step), true)];
    }

    /** `handleEndAuction`: nothing without confirmation; success leaves for the dashboard, failure shows the error. */
    method HandleEndAuction(confirmed: bool, reply: ApiReply)
      modifies this`requests, this`isEnding, this`navigatedTo, this`error, this`success
      ensures !confirmed ==> && requests == old(requests) && isEnding == old(isEnding)
                             && navigatedTo == old(navigatedTo) && error == old(error)
      ensures confirmed ==> requests == old(requests) + [EndAuction(auctionId)]
      ensures confirmed && reply.Succeeded? ==> isEnding && navigatedTo == Some("/admin")
      ensures confirmed && reply.Failed? ==> && !isEnding && navigatedTo == old(navigatedTo)
                                             && error == FailureText(reply, EndFailed) && success == ""
    {
      if !confirmed {
        return;
      }
      requests := requests + [EndAuction(auctionId)];
      if reply.Succeeded? {
        isEnding, navigatedTo := true, Some("/admin");
      } else {
        isEnding, error, success := false, FailureText(reply, EndFailed), "";
      }
    }

    /** A quick-add button: the amount grows by `inc` on top of whatever it was. */
    method AddIncrement(inc: int)
      requires inc in FloorIncrements
      modifies this`bidAmount
      ensures ToNumber(bidAmount) == Plus(ToNumber(old(bidAmount)), inc)
    {
      bidAmount := Bumped(bidAmount, inc);
    }

    /** "Reset to Min": the input becomes the minimum next bid shown beside it. */
    method ResetToMin()
      modifies this`bidAmount
      ensures ToNumber(bidAmount) == Int(SuggestedNext(auction))
    {
      bidAmount := TextOf(Int(SuggestedNext(auction)));
    }

    /** Typing into the input replaces its text. */
    method EditAmount(text: string)
      modifies this`bidAmount
      ensures bidAmount == text
    {
      bidAmount := text;
    }
  }
}
