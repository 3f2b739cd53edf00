/**
 * The auctions router: the catalogue query, one auction by id, creation, the
 * partial update of a scheduled auction, the scheduled → live → completed
 * moves, and deletion with its cascade. The caller's admin check is done by a
 * dependency that is not part of this model; the caller is an input.
 */
module Auctions {
  import opened Js
  import opened Lists
  import opened Models

  const AuctionNotFound: string := "Auction not found"
  const OnlyScheduledUpdate: string := "Can only update scheduled auctions"
  const OnlyLiveEnd: string := "Can only end live auctions"
  const OnlyScheduledDelete: string := "Can only delete scheduled auctions"

  /** `f"Auction is already {status}"`. */
  function AlreadyText(status: string): string { "Auction is already " + status }

  /** The body of a create request. */
  datatype AuctionCreate = AuctionCreate(
    title: string, description: Option<string>, image_url: Option<string>, category: Option<string>,
    starting_price: int, auction_date: int, location: Option<string>)

  /**
   * The body of an update request: `None` is a field the request leaves unset;
   * on the nullable columns `Some(None)` is an explicit null.
   */
  datatype AuctionUpdate = AuctionUpdate(
    title: Option<string>, description: Option<Option<string>>, image_url: Option<Option<string>>,
    category: Option<Option<string>>, starting_price: Option<int>, auction_date: Option<int>,
    location: Option<Option<string>>)

  /** The sort key of the catalogue. */
  function AuctionDate(a: AuctionRow): int { a.auction_date }

  /** `if status:` — the filter applies only to a non-empty status. */
  predicate Shows(a: AuctionRow, status: Option<string>) {
    !TruthyStr(status) || a.status == status.value
  }

  function StatusIs(status: Option<string>): AuctionRow -> bool {
    (a: AuctionRow) => Shows(a, status)
  }

  /**
   * `get_auctions`: the auctions of that status (all when none is given),
   * latest auction date first, then `OFFSET skip LIMIT limit`.
   */
  function ListAuctions(t: Tables, status: Option<string>, skip: nat, limit: nat): (r: seq<AuctionRow>)
    ensures |r| <= limit
    ensures |r| == PageLength(|Filter(t.auctions, StatusIs(status))|, skip, limit)
    ensures skip < |Filter(t.auctions, StatusIs(status))| ==>
              SliceAt(r, SortDesc(Filter(t.auctions, StatusIs(status)), AuctionDate), skip)
    ensures Descending(r, AuctionDate)
    ensures forall a :: a in r ==> a in t.auctions && Shows(a, status)
  {
    TopPage(Filter(t.auctions, StatusIs(status)), AuctionDate, skip, limit)
  }

  /** The first page, when it is large enough, holds every auction of that status. */
  lemma FirstPageHoldsAll(t: Tables, status: Option<string>, limit: nat)
    requires limit >= |t.auctions|
    ensures forall a :: a in t.auctions && Shows(a, status) ==> a in ListAuctions(t, status, 0, limit)
  {
    TopPageHoldsAll(Filter(t.auctions, StatusIs(status)), AuctionDate, limit);
  }

  /** The first page holds the latest auctions: an auction of that status left off it is dated no later than any auction on it. */
  lemma FirstPageHoldsLatest(t: Tables, status: Option<string>, limit: nat)
    ensures var r := ListAuctions(t, status, 0, limit);
            forall a, b :: a in t.auctions && Shows(a, status) && a !in r && b in r ==> a.auction_date <= b.auction_date
  {
    var r := ListAuctions(t, status, 0, limit);
    var s := Filter(t.auctions, StatusIs(status));
    TopPageLargest(s, AuctionDate, limit);
    forall a, b | a in t.auctions && Shows(a, status) && a !in r && b in r
      ensures a.auction_date <= b.auction_date
    {
      assert a in s;
      assert AuctionDate(a) <= AuctionDate(b);
    }
  }

  /** `get_auction`: the row with that id, or 404. */
  function GetAuction(t: Tables, id: Id): (r: Reply<AuctionRow>)
    ensures r.Ok? <==> id in AuctionIds(t.auctions)
    ensures r.Ok? ==> r.value in t.auctions && r.value.id == id
    ensures r.HttpError? ==> r == HttpError(404, AuctionNotFound)
  {
    var i := Find(t.auctions, AuctionKey, id);
    if i.Some? then
      assert t.auctions[i.value] in t.auctions;
      Ok(t.auctions[i.value])
    else
      assert forall a :: a in t.auctions ==> a.id != id by {
        forall a | a in t.auctions ensures a.id != id {
          var k :| 0 <= k < |t.auctions| && t.auctions[k] == a;
        }
      }
      HttpError(404, AuctionNotFound)
  }

  /** The status an action moves to, or the 400 it raises. */
  datatype Move = Start | End

  /**
   * `start_auction` and `end_auction` on a row's status: start only from
   * 'scheduled' to 'live', end only from 'live' to 'completed'.
   */
  function Next(status: string, move: Move): (r: Reply<string>)
    ensures r.Ok? <==> (move == Start && status == Scheduled) || (move == End && status == Live)
    ensures r.Ok? && move == Start ==> r.value == Live
    ensures r.Ok? && move == End ==> r.value == Completed
    ensures r.HttpError? ==> r.code == 400
  {
    match move
    case Start => if status != Scheduled then HttpError(400, AlreadyText(status)) else Ok(Live)
    case End => if status != Live then HttpError(400, OnlyLiveEnd) else Ok(Completed)
  }

  /** The status after a series of moves, each refused move leaving it as it was. */
  function Run(status: string, moves: seq<Move>): string
    decreases |moves|
  {
    if moves == [] then status
    else
      var n := Next(status, moves[0]);
      Run(if n.Ok? then n.value else status, moves[1..])
  }

  /** The phase's place in scheduled → live → completed. */
  function Rank(status: string): nat {
    if status == Scheduled then 0 else if status == Live then 1 else 2
  }

  /** 'completed' is terminal: no series of moves leaves it. */
  lemma {:induction false} CompletedIsTerminal(moves: seq<Move>)
    ensures Run(Completed, moves) == Completed
  {
    if moves != [] {
      assert Next(Completed, moves[0]).HttpError?;
      CompletedIsTerminal(moves[1..]);
    }
  }

  /** The phase never goes back: a series of moves only raises the rank. */
  lemma {:induction false} PhasesOnlyAdvance(status: string, moves: seq<Move>)
    requires status in {Scheduled, Live, Completed}
    ensures Run(status, moves) in {Scheduled, Live, Completed}
    ensures Rank(status) <= Rank(Run(status, moves))
    decreases |moves|
  {
    if moves != [] {
      var n := Next(status, moves[0]);
      PhasesOnlyAdvance(if n.Ok? then n.value else status, moves[1..]);
    }
  }

  /** Update and delete are allowed only on a scheduled auction. */
  predicate Editable(status: string) {
    status == Scheduled
  }

  /**
   * The `setattr` loop of `update_auction`: every field set in the request is
   * written, every other one kept; the id, the status, the current price and
   * the creator are never touched.
   */
  function Applied(a: AuctionRow, u: AuctionUpdate): (r: AuctionRow)
    ensures r.id == a.id && r.status == a.status && r.current_price == a.current_price && r.created_by == a.created_by
    ensures r.title == (if u.title.Some? then u.title.value else a.title)
    ensures r.description == (if u.description.Some? then u.description.value else a.description)
    ensures r.image_url == (if u.image_url.Some? then u.image_url.value else a.image_url)
    ensures r.category == (if u.category.Some? then u.category.value else a.category)
    ensures r.location == (if u.location.Some? then u.location.value else a.location)
    ensures r.starting_price == (if u.starting_price.Some? then u.starting_price.value else a.starting_price)
    ensures r.auction_date == (if u.auction_date.Some? then u.auction_date.value else a.auction_date)
    ensures u == AuctionUpdate(None, None, None, None, None, None, None) ==> r == a
  {
    a.(title := if u.title.Some? then u.title.value else a.title,
       description := if u.description.Some? then u.description.value else a.description,
       image_url := if u.image_url.Some? then u.image_url.value else a.image_url,
       category := if u.category.Some? then u.category.value else a.category,
       starting_price := if u.starting_price.Some? then u.starting_price.value else a.starting_price,
       auction_date := if u.auction_date.Some? then u.auction_date.value else a.auction_date,
       location := if u.location.Some? then u.location.value else a.location)
  }

  /** Applying the same update twice is applying it once. */
  lemma ApplyIdempotent(a: AuctionRow, u: AuctionUpdate)
    ensures Applied(Applied(a, u), u) == Applied(a, u)
  {
  }

  /** Replacing an auction by one with the same id and creator keeps every constraint. */
  lemma ReplaceAuctionValid(t: Tables, i: nat, a: AuctionRow)
    requires Valid(t) && i < |t.auctions|
    requires a.id == t.auctions[i].id && a.created_by == t.auctions[i].created_by
    ensures Valid(t.(auctions := t.auctions[i := a]))
  {
    AuctionIdsUpdate(t.auctions, i, a);
    UpdateDistinct(t.auctions, i, a, AuctionKey);
    var after := t.auctions[i := a];
    forall b | b in after
      ensures OptionalRef(b.created_by, UserIds(t.users))
    {
      var k :| 0 <= k < |after| && after[k] == b;
      assert k != i ==> t.auctions[k] in t.auctions;
      assert t.auctions[i] in t.auctions;
    }
  }

  /** Adding an auction with a new id, created by an existing user or none, keeps every constraint. */
  lemma AddAuctionValid(t: Tables, a: AuctionRow)
    requires Valid(t) && a.id !in AuctionIds(t.auctions) && OptionalRef(a.created_by, UserIds(t.users))
    ensures Valid(t.(auctions := t.auctions + [a]))
  {
    AuctionIdsAppend(t.auctions, a);
    forall k | 0 <= k < |t.auctions|
      ensures AuctionKey(t.auctions[k]) != AuctionKey(a)
    {
      assert t.auctions[k] in t.auctions;
    }
    AppendDistinct(t.auctions, a, AuctionKey);
  }

  /** The row `create_auction` inserts: scheduled, priced at its starting price, created by the caller. */
  function Created(req: AuctionCreate, id: Id, creator: Id): (a: AuctionRow)
    ensures a.status == Scheduled && a.current_price == a.starting_price == req.starting_price
    ensures a.id == id && a.created_by == Some(creator)
  {
    AuctionRow(id, req.title, req.description, req.image_url, req.category, req.starting_price,
               req.starting_price, req.auction_date, Scheduled, req.location, Some(creator))
  }

  /** `create_auction`: one new scheduled auction at the end of the table. */
  method CreateAuction(db: Db, req: AuctionCreate, caller: UserRow, newId: Id) returns (r: Reply<AuctionRow>)
    requires Valid(db.tables) && caller in db.tables.users && newId !in AuctionIds(db.tables.auctions)
    modifies db
    ensures Valid(db.tables)
    ensures r == Ok(Created(req, newId, caller.id))
    ensures db.tables == old(db.tables).(auctions := old(db.tables.auctions) + [r.value])
  {
    var a := Created(req, newId, caller.id);
    AddAuctionValid(db.tables, a);
    db.tables := db.tables.(auctions := db.tables.auctions + [a]);
    r := Ok(a);
  }

  /** `update_auction`: 404 for an unknown id, 400 unless scheduled, else the update is applied in place. */
  method UpdateAuction(db: Db, id: Id, upd: AuctionUpdate) returns (r: Reply<AuctionRow>)
    requires Valid(db.tables)
    modifies db
    ensures Valid(db.tables)
    ensures var i := Find(old(db.tables.auctions), AuctionKey, id);
            && (i.None? ==> r == HttpError(404, AuctionNotFound) && db.tables == old(db.tables))
            && (i.Some? && !Editable(old(db.tables.auctions)[i.value].status) ==>
                  r == HttpError(400, OnlyScheduledUpdate) && db.tables == old(db.tables))
            && (i.Some? && Editable(old(db.tables.auctions)[i.value].status) ==>
                  r == Ok(Applied(old(db.tables.auctions)[i.value], upd))
                  && db.tables == old(db.tables).(auctions := old(db.tables.auctions)[i.value := r.value]))
  {
    var i := Find(db.tables.auctions, AuctionKey, id);
    if i.None? {
      return HttpError(404, AuctionNotFound);
    }
    var a := db.tables.auctions[i.value];
    if !Editable(a.status) {
      return HttpError(400, OnlyScheduledUpdate);
    }
    var a' := Applied(a, upd);
    ReplaceAuctionValid(db.tables, i.value, a');
    db.tables := db.tables.(auctions := db.tables.auctions[i.value := a']);
    r := Ok(a');
  }

  /** `start_auction` and `end_auction`: 404 for an unknown id, the move's 400, else the new status in place. */
  method MoveAuction(db: Db, id: Id, move: Move) returns (r: Reply<AuctionRow>)
    requires Valid(db.tables)
    modifies db
    ensures Valid(db.tables)
    ensures var i := Find(old(db.tables.auctions), AuctionKey, id);
            && (i.None? ==> r == HttpError(404, AuctionNotFound) && db.tables == old(db.tables))
            && (i.Some? ==>
                  var n := Next(old(db.tables.auctions)[i.value].status, move);
                  && (n.HttpError? ==> r == HttpError(n.code, n.detail) && db.tables == old(db.tables))
                  && (n.Ok? ==> r == Ok(old(db.tables.auctions)[i.value].(status := n.value))
                                && db.tables == old(db.tables).(auctions := old(db.tables.auctions)[i.value := r.value])))
  {
    var i := Find(db.tables.auctions, AuctionKey, id);
    if i.None? {
      return HttpError(404, AuctionNotFound);
    }
    var a := db.tables.auctions[i.value];
    var n := Next(a.status, move);
    if n.HttpError? {
      return HttpError(n.code, n.detail);
    }
    var a' := a.(status := n.value);
    ReplaceAuctionValid(db.tables, i.value, a');
    db.tables := db.tables.(auctions := db.tables.auctions[i.value := a']);
    r := Ok(a');
  }

  /** `start_auction`. */
  method StartAuction(db: Db, id: Id) returns (r: Reply<AuctionRow>)
    requires Valid(db.tables)
    modifies db
    ensures Valid(db.tables)
    ensures var i := Find(old(db.tables.auctions), AuctionKey, id);
            && (i.None? ==> r == HttpError(404, AuctionNotFound) && db.tables == old(db.tables))
            && (i.Some? && old(db.tables.auctions)[i.value].status != Scheduled ==>
                  r == HttpError(400, AlreadyText(old(db.tables.auctions)[i.value].status)) && db.tables == old(db.tables))
            && (i.Some? && old(db.tables.auctions)[i.value].status == Scheduled ==>
                  r == Ok(old(db.tables.auctions)[i.value].(status := Live))
                  && db.tables == old(db.tables).(auctions := old(db.tables.auctions)[i.value := r.value]))
  {
    r := MoveAuction(db, id, Start);
  }

  /** `end_auction`. */
  method EndAuction(db: Db, id: Id) returns (r: Reply<AuctionRow>)
    requires Valid(db.tables)
    modifies db
    ensures Valid(db.tables)
    ensures var i := Find(old(db.tables.auctions), AuctionKey, id);
            && (i.None? ==> r == HttpError(404, AuctionNotFound) && db.tables == old(db.tables))
            && (i.Some? && old(db.tables.auctions)[i.value].status != Live ==>
                  r == HttpError(400, OnlyLiveEnd) && db.tables == old(db.tables))
            && (i.Some? && old(db.tables.auctions)[i.value].status == Live ==>
                  r == Ok(old(db.tables.auctions)[i.value].(status := Completed))
                  && db.tables == old(db.tables).(auctions := old(db.tables.auctions)[i.value := r.value]))
  {
    r := MoveAuction(db, id, End);
  }

  /** `delete_auction`: 404 for an unknown id, 400 unless scheduled, else the auction and its dependent rows go. */
  method DeleteAuctionById(db: Db, id: Id) returns (r: Reply<()>)
    requires Valid(db.tables)
    modifies db
    ensures Valid(db.tables)
    ensures var i := Find(old(db.tables.auctions), AuctionKey, id);
            && (i.None? ==> r == HttpError(404, AuctionNotFound) && db.tables == old(db.tables))
            && (i.Some? && !Editable(old(db.tables.auctions)[i.value].status) ==>
                  r == HttpError(400, OnlyScheduledDelete) && db.tables == old(db.tables))
            && (i.Some? && Editable(old(db.tables.auctions)[i.value].status) ==>
                  r == Ok(()) && db.tables == DeleteAuction(old(db.tables), id))
  {
    var i := Find(db.tables.auctions, AuctionKey, id);
    if i.None? {
      return HttpError(404, AuctionNotFound);
    }
    if !Editable(db.tables.auctions[i.value].status) {
      return HttpError(400, OnlyScheduledDelete);
    }
    DeleteAuctionValid(db.tables, id);
    db.tables := DeleteAuction(db.tables, id);
    r := Ok(());
  }
}
