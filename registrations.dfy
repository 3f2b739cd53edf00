/**
 * The registrations router: a user registers once per auction (in any phase
 * of the auction), lists are by auction or by user, a registration is
 * deleted by its owner or an admin, and an admin overwrites its status or
 * bidder number.
 */
module Registrations {
  import opened Js
  import opened Lists
  import opened Models
  import Auctions

  const AlreadyRegistered: string := "Already registered for this auction"
  const NotAuthorized: string := "Not authorized"
  const RegistrationNotFound: string := "Registration not found"
  const Approved: string := "approved"
  const Rejected: string := "rejected"

  /** The body of a registration request. */
  datatype RegistrationCreate = RegistrationCreate(auction_id: Id, kind: string)

  /** The guards of `register_for_auction`, in order: 404 for a missing auction, 400 when the pair exists. */
  function CheckRegister(t: Tables, auctionId: Id, userId: Id): (r: Reply<()>)
    ensures r.Ok? <==> auctionId in AuctionIds(t.auctions) && !IsRegistered(t.registrations, auctionId, userId)
    ensures auctionId !in AuctionIds(t.auctions) ==> r == HttpError(404, Auctions.AuctionNotFound)
    ensures r.HttpError? && auctionId in AuctionIds(t.auctions) ==> r == HttpError(400, AlreadyRegistered)
  {
    if Auctions.GetAuction(t, auctionId).HttpError? then HttpError(404, Auctions.AuctionNotFound)
    else if Find(t.registrations, PairOf(auctionId), userId).Some? then HttpError(400, AlreadyRegistered)
    else Ok(())
  }

  /** Some registration is for that auction and that user. */
  predicate IsRegistered(regs: seq<RegistrationRow>, auctionId: Id, userId: Id) {
    exists k :: 0 <= k < |regs| && regs[k].auction_id == auctionId && regs[k].user_id == userId
  }

  /** The user of a registration for that auction: `Find` by user among the auction's registrations. */
  function PairOf(auctionId: Id): RegistrationRow -> Js.Option<Id> {
    (r: RegistrationRow) => if r.auction_id == auctionId then Some(r.user_id) else None
  }

  /** The first registration with that id. */
  function FindRegistration(t: Tables, id: Id): (r: Js.Option<nat>)
    ensures r.Some? <==> id in RegistrationIds(t.registrations)
    ensures r.Some? ==> r.value < |t.registrations| && t.registrations[r.value].id == id
  {
    var i := Find(t.registrations, RegistrationKey, id);
    if i.Some? then
      assert t.registrations[i.value] in t.registrations;
      i
    else
      assert forall x :: x in t.registrations ==> x.id != id by {
        forall x | x in t.registrations ensures x.id != id {
          var k :| 0 <= k < |t.registrations| && t.registrations[k] == x;
        }
      }
      i
  }

  /** Adding a registration for an existing auction and user, with a new id and a new pair, keeps every constraint. */
  lemma AddRegistrationValid(t: Tables, x: RegistrationRow)
    requires Valid(t) && x.auction_id in AuctionIds(t.auctions) && x.user_id in UserIds(t.users)
    requires x.id !in RegistrationIds(t.registrations) && !IsRegistered(t.registrations, x.auction_id, x.user_id)
    ensures Valid(t.(registrations := t.registrations + [x]))
  {
    forall k | 0 <= k < |t.registrations|
      ensures RegistrationKey(t.registrations[k]) != RegistrationKey(x) && PairKey(t.registrations[k]) != PairKey(x)
    {
      assert t.registrations[k] in t.registrations;
    }
    AppendDistinct(t.registrations, x, RegistrationKey);
    AppendDistinct(t.registrations, x, PairKey);
  }

  /** Replacing a registration by one with the same id, auction and user keeps every constraint. */
  lemma ReplaceRegistrationValid(t: Tables, i: nat, x: RegistrationRow)
    requires Valid(t) && i < |t.registrations|
    requires x.id == t.registrations[i].id && x.auction_id == t.registrations[i].auction_id && x.user_id == t.registrations[i].user_id
    ensures Valid(t.(registrations := t.registrations[i := x]))
  {
    UpdateDistinct(t.registrations, i, x, RegistrationKey);
    UpdateDistinct(t.registrations, i, x, PairKey);
    var after := t.registrations[i := x];
    forall y | y in after
      ensures y.auction_id in AuctionIds(t.auctions) && y.user_id in UserIds(t.users)
    {
      var k :| 0 <= k < |after| && after[k] == y;
      assert t.registrations[k] in t.registrations;
    }
  }

  /** Registering again for the same auction is refused once a registration exists. */
  lemma SecondRegistrationRefused(t: Tables, x: RegistrationRow)
    requires x.auction_id in AuctionIds(t.auctions)
    ensures CheckRegister(t.(registrations := t.registrations + [x]), x.auction_id, x.user_id) == HttpError(400, AlreadyRegistered)
  {
    var regs := t.registrations + [x];
    assert regs[|t.registrations|] == x;
  }

  /**
   * `register_for_auction`: 404 for a missing auction, 400 when the caller is
   * registered for it already, else one new 'registered' row at the end. The
   * auction's status is not checked.
   */
  method Register(db: Db, req: RegistrationCreate, caller: UserRow, newId: Id, now: int) returns (r: Reply<RegistrationRow>)
    requires Valid(db.tables) && caller in db.tables.users && newId !in RegistrationIds(db.tables.registrations)
    modifies db
    ensures Valid(db.tables)
    ensures var g := CheckRegister(old(db.tables), req.auction_id, caller.id);
            && (g.HttpError? ==> r == HttpError(g.code, g.detail) && db.tables == old(db.tables))
            && (g.Ok? ==> && r == Ok(NewRegistration(newId, req.auction_id, caller.id, req.kind, Some(DefaultRegistrationStatus), now))
                          && db.tables == old(db.tables).(registrations := old(db.tables.registrations) + [r.value]))
  {
    var g := CheckRegister(db.tables, req.auction_id, caller.id);
    if g.HttpError? {
      return HttpError(g.code, g.detail);
    }
    var x := NewRegistration(newId, req.auction_id, caller.id, req.kind, Some(DefaultRegistrationStatus), now);
    assert caller.id in UserIds(db.tables.users);
    AddRegistrationValid(db.tables, x);
    db.tables := db.tables.(registrations := db.tables.registrations + [x]);
    r := Ok(x);
  }

  function ForAuction(auctionId: Id): RegistrationRow -> bool {
    (r: RegistrationRow) => r.auction_id == auctionId
  }

  function ForUser(userId: Id): RegistrationRow -> bool {
    (r: RegistrationRow) => r.user_id == userId
  }

  /** `get_auction_registrations`: exactly that auction's registrations, in table order. */
  function GetAuctionRegistrations(t: Tables, auctionId: Id): (r: seq<RegistrationRow>)
    ensures forall x :: x in r <==> x in t.registrations && x.auction_id == auctionId
    ensures Sublist(r, t.registrations)
  {
    FilterIsSublist(t.registrations, ForAuction(auctionId));
    Filter(t.registrations, ForAuction(auctionId))
  }

  /** Whether the caller may act on a user's registrations: that user, or an admin. */
  predicate MayAccess(caller: UserRow, userId: Id) {
    caller.id == userId || caller.role == AdminRole
  }

  /** `get_user_registrations`: 403 unless the caller is that user or an admin, else exactly that user's registrations. */
  function GetUserRegistrations(t: Tables, caller: UserRow, userId: Id): (r: Reply<seq<RegistrationRow>>)
    ensures r.HttpError? <==> !MayAccess(caller, userId)
    ensures r.HttpError? ==> r == HttpError(403, NotAuthorized)
    ensures r.Ok? ==> forall x :: x in r.value <==> x in t.registrations && x.user_id == userId
  {
    if caller.id != userId && caller.role != AdminRole then HttpError(403, NotAuthorized)
    else Ok(Filter(t.registrations, ForUser(userId)))
  }

  /** A user may always read their own registrations. */
  lemma OwnRegistrationsReadable(t: Tables, caller: UserRow)
    ensures GetUserRegistrations(t, caller, caller.id).Ok?
  {
  }

  function RegistrationNot(id: Id): RegistrationRow -> bool {
    (r: RegistrationRow) => r.id != id
  }

  /** Deleting a registration keeps every constraint. */
  lemma DeleteRegistrationValid(t: Tables, id: Id)
    requires Valid(t)
    ensures Valid(t.(registrations := Filter(t.registrations, RegistrationNot(id))))
  {
    FilterDistinct(t.registrations, RegistrationNot(id), RegistrationKey);
    FilterDistinct(t.registrations, RegistrationNot(id), PairKey);
  }

  /** Deleting the registration just added gives back the table as it was. */
  lemma {:induction false} RegisterThenDelete(regs: seq<RegistrationRow>, x: RegistrationRow)
    requires x.id !in RegistrationIds(regs)
    ensures Filter(regs + [x], RegistrationNot(x.id)) == regs
  {
    FilterAppend(regs, x, RegistrationNot(x.id));
    forall k | 0 <= k < |regs|
      ensures RegistrationNot(x.id)(regs[k])
    {
      assert regs[k] in regs;
    }
    FilterKeepsAll(regs, RegistrationNot(x.id));
  }

  /**
   * `unregister_from_auction`: 404 for an unknown id, 403 unless the caller
   * owns the registration or is an admin, else the registration is deleted.
   */
  method Unregister(db: Db, id: Id, caller: UserRow) returns (r: Reply<()>)
    requires Valid(db.tables)
    modifies db
    ensures Valid(db.tables)
    ensures var i := FindRegistration(old(db.tables), id);
            && (i.None? ==> r == HttpError(404, RegistrationNotFound) && db.tables == old(db.tables))
            && (i.Some? && !MayAccess(caller, old(db.tables.registrations)[i.value].user_id) ==>
                  r == HttpError(403, NotAuthorized) && db.tables == old(db.tables))
            && (i.Some? && MayAccess(caller, old(db.tables.registrations)[i.value].user_id) ==>
                  r == Ok(()) && db.tables == old(db.tables).(registrations := Filter(old(db.tables.registrations), RegistrationNot(id))))
  {
    var i := FindRegistration(db.tables, id);
    if i.None? {
      return HttpError(404, RegistrationNotFound);
    }
    if db.tables.registrations[i.value].user_id != caller.id && caller.role != AdminRole {
      return HttpError(403, NotAuthorized);
    }
    DeleteRegistrationValid(db.tables, id);
    db.tables := db.tables.(registrations := Filter(db.tables.registrations, RegistrationNot(id)));
    r := Ok(());
  }

  /** `approve_registration`, `reject_registration` and `update_bidder_number`: 404 for an unknown id, else that row rewritten in place. */
  method Rewrite(db: Db, id: Id, status: Js.Option<string>, number: Js.Option<string>) returns (r: Reply<RegistrationRow>)
    requires Valid(db.tables)
    modifies db
    ensures Valid(db.tables)
    ensures var i := FindRegistration(old(db.tables), id);
            && (i.None? ==> r == HttpError(404, RegistrationNotFound) && db.tables == old(db.tables))
            && (i.Some? ==>
                  var x := old(db.tables.registrations)[i.value];
                  && r == Ok(x.(status := if status.Some? then status.value else x.status,
                                bidder_number := if number.Some? then number else x.bidder_number))
                  && db.tables == old(db.tables).(registrations := old(db.tables.registrations)[i.value := r.value]))
  {
    var i := FindRegistration(db.tables, id);
    if i.None? {
      return HttpError(404, RegistrationNotFound);
    }
    var x := db.tables.registrations[i.value];
    var x' := x.(status := if status.Some? then status.value else x.status,
                 bidder_number := if number.Some? then number else x.bidder_number);
    ReplaceRegistrationValid(db.tables, i.value, x');
    db.tables := db.tables.(registrations := db.tables.registrations[i.value := x']);
    r := Ok(x');
  }

  /** `approve_registration`: the status becomes 'approved' whatever it was; nothing else changes. */
  method Approve(db: Db, id: Id) returns (r: Reply<RegistrationRow>)
    requires Valid(db.tables)
    modifies db
    ensures Valid(db.tables)
    ensures var i := FindRegistration(old(db.tables), id);
            && (i.None? ==> r == HttpError(404, RegistrationNotFound) && db.tables == old(db.tables))
            && (i.Some? ==> && r == Ok(old(db.tables.registrations)[i.value].(status := Approved))
                            && db.tables == old(db.tables).(registrations := old(db.tables.registrations)[i.value := r.value]))
  {
    r := Rewrite(db, id, Some(Approved), None);
  }

  /** `reject_registration`: the status becomes 'rejected' whatever it was; nothing else changes. */
  method Reject(db: Db, id: Id) returns (r: Reply<RegistrationRow>)
    requires Valid(db.tables)
    modifies db
    ensures Valid(db.tables)
    ensures var i := FindRegistration(old(db.tables), id);
            && (i.None? ==> r == HttpError(404, RegistrationNotFound) && db.tables == old(db.tables))
            && (i.Some? ==> && r == Ok(old(db.tables.registrations)[i.value].(status := Rejected))
                            && db.tables == old(db.tables).(registrations := old(db.tables.registrations)[i.value := r.value]))
  {
    r := Rewrite(db, id, Some(Rejected), None);
  }

  /**
   * `update_bidder_number`: the number is overwritten; no other registration
   * is consulted, so two registrations of an auction may share a number.
   */
  method UpdateBidderNumber(db: Db, id: Id, number: string) returns (r: Reply<RegistrationRow>)
    requires Valid(db.tables)
    modifies db
    ensures Valid(db.tables)
    ensures var i := FindRegistration(old(db.tables), id);
            && (i.None? ==> r == HttpError(404, RegistrationNotFound) && db.tables == old(db.tables))
            && (i.Some? ==> && r == Ok(old(db.tables.registrations)[i.value].(bidder_number := Some(number)))
                            && db.tables == old(db.tables).(registrations := old(db.tables.registrations)[i.value := r.value]))
  {
    r := Rewrite(db, id, None, Some(number));
  }

  /** No constraint reads the bidder number: any registration may take any number, a number another one holds included. */
  lemma BidderNumberUnconstrained(t: Tables, i: nat, n: Option<string>)
    requires Valid(t) && i < |t.registrations|
    ensures Valid(t.(registrations := t.registrations[i := t.registrations[i].(bidder_number := n)]))
  {
    ReplaceRegistrationValid(t, i, t.registrations[i].(bidder_number := n));
  }

  /** Bidder numbers need not be unique: the constraints allow two registrations of an auction with the same number. */
  lemma SharedBidderNumberAllowed()
    ensures var t := Tables(
              [UserRow("u1", "a@x", "h", "A", None, DefaultRole, 0, true), UserRow("u2", "b@x", "h", "B", None, DefaultRole, 0, true)],
              [AuctionRow("a1", "Lot", None, None, None, 100, 100, 0, Live, None, None)],
              [RegistrationRow("r1", "a1", "u1", "online", Approved, Some("7"), 0),
               RegistrationRow("r2", "a1", "u2", "online", Approved, Some("7"), 0)],
              [], []);
            Valid(t) && t.registrations[0].bidder_number == t.registrations[1].bidder_number
  {
    var users := [UserRow("u1", "a@x", "h", "A", None, DefaultRole, 0, true), UserRow("u2", "b@x", "h", "B", None, DefaultRole, 0, true)];
    var auctions := [AuctionRow("a1", "Lot", None, None, None, 100, 100, 0, Live, None, None)];
    assert users[0] in users && users[1] in users && auctions[0] in auctions;
    assert "u1" in UserIds(users) && "u2" in UserIds(users) && "a1" in AuctionIds(auctions);
  }
}
