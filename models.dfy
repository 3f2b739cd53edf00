/**
 * The backend's five tables (users, auctions, registrations, bids, chat
 * messages): their rows, the defaults the schema fills in, the unique and
 * foreign-key constraints as one validity predicate, and what deleting an
 * auction or a user does to the rows that reference it. The routers work on
 * one `Db` holding these tables. Ids are UUIDs, written as text; prices are
 * whole amounts; times are numbers supplied by the caller.
 */
module Models {
  import opened Js
  import opened Lists

  /** A UUID primary or foreign key. */
  type Id = string

  const DefaultRole: string := "participant"
  const AdminRole: string := "admin"

  const Scheduled: string := "scheduled"
  const Live: string := "live"
  const Completed: string := "completed"

  const DefaultRegistrationStatus: string := "registered"

  datatype UserRow = UserRow(
    id: Id, email: string, password_hash: string, name: string,
    username: Option<string>, role: string, created_at: int, is_active: bool)

  datatype AuctionRow = AuctionRow(
    id: Id, title: string, description: Option<string>, image_url: Option<string>,
    category: Option<string>, starting_price: int, current_price: int, auction_date: int,
    status: string, location: Option<string>, created_by: Option<Id>)

  datatype RegistrationRow = RegistrationRow(
    id: Id, auction_id: Id, user_id: Id, kind: string, status: string,
    bidder_number: Option<string>, registered_at: int)

  datatype BidRow = BidRow(
    id: Id, auction_id: Id, user_id: Option<Id>, amount: int, kind: string,
    bidder_name: string, bidder_number: Option<string>, timestamp: int, is_winning: bool)

  datatype ChatRow = ChatRow(
    id: Id, auction_id: Id, user_id: Option<Id>, message: string,
    is_admin_message: bool, created_at: int)

  /** What an endpoint answers: its value, or the status code and detail of the `HTTPException` it raises. */
  datatype Reply<T> = Ok(value: T) | HttpError(code: int, detail: string)

  /** The whole database. */
  datatype Tables = Tables(
    users: seq<UserRow>, auctions: seq<AuctionRow>, registrations: seq<RegistrationRow>,
    bids: seq<BidRow>, messages: seq<ChatRow>)

  /** A new user: role 'participant' unless given, active. */
  function NewUser(id: Id, email: string, hash: string, name: string, username: Option<string>, role: Option<string>, now: int): (u: UserRow)
    ensures role.None? ==> u.role == DefaultRole
    ensures u.is_active && u.id == id && u.email == email
  {
    UserRow(id, email, hash, name, username, if role.Some? then role.value else DefaultRole, now, true)
  }

  /** A new registration: status 'registered' unless given, no bidder number. */
  function NewRegistration(id: Id, auctionId: Id, userId: Id, kind: string, status: Option<string>, now: int): (r: RegistrationRow)
    ensures status.None? ==> r.status == DefaultRegistrationStatus
    ensures r.bidder_number.None? && r.auction_id == auctionId && r.user_id == userId
  {
    RegistrationRow(id, auctionId, userId, kind, if status.Some? then status.value else DefaultRegistrationStatus, None, now)
  }

  /** A new bid: not winning. */
  function NewBid(id: Id, auctionId: Id, userId: Option<Id>, amount: int, kind: string, name: string, number: Option<string>, now: int): (b: BidRow)
    ensures !b.is_winning && b.amount == amount && b.auction_id == auctionId && b.user_id == userId
  {
    BidRow(id, auctionId, userId, amount, kind, name, number, now, false)
  }

  function UserKey(u: UserRow): Option<Id> { Some(u.id) }
  function EmailKey(u: UserRow): Option<string> { Some(u.email) }
  /** A username is unique when present; SQL lets any number of rows have none. */
  function UsernameKey(u: UserRow): Option<string> { u.username }
  function AuctionKey(a: AuctionRow): Option<Id> { Some(a.id) }
  function RegistrationKey(r: RegistrationRow): Option<Id> { Some(r.id) }
  /** The `unique_auction_user` constraint's columns. */
  function PairKey(r: RegistrationRow): Option<(Id, Id)> { Some((r.auction_id, r.user_id)) }
  function BidKey(b: BidRow): Option<Id> { Some(b.id) }
  function MessageKey(m: ChatRow): Option<Id> { Some(m.id) }

  function UserIds(users: seq<UserRow>): set<Id> { set u | u in users :: u.id }
  function AuctionIds(auctions: seq<AuctionRow>): set<Id> { set a | a in auctions :: a.id }
  function RegistrationIds(regs: seq<RegistrationRow>): set<Id> { set r | r in regs :: r.id }
  function BidIds(bids: seq<BidRow>): set<Id> { set b | b in bids :: b.id }
  function MessageIds(messages: seq<ChatRow>): set<Id> { set m | m in messages :: m.id }

  /** An optional foreign key is null or names an existing row. */
  predicate OptionalRef(r: Option<Id>, ids: set<Id>) {
    r.None? || r.value in ids
  }

  ghost predicate UsersValid(users: seq<UserRow>) {
    Distinct(users, UserKey) && Distinct(users, EmailKey) && Distinct(users, UsernameKey)
  }

  ghost predicate AuctionsValid(auctions: seq<AuctionRow>, users: seq<UserRow>) {
    && Distinct(auctions, AuctionKey)
    && forall a :: a in auctions ==> OptionalRef(a.created_by, UserIds(users))
  }

  ghost predicate RegistrationsValid(regs: seq<RegistrationRow>, auctions: seq<AuctionRow>, users: seq<UserRow>) {
    && Distinct(regs, RegistrationKey)
    && Distinct(regs, PairKey)
    && forall r :: r in regs ==> r.auction_id in AuctionIds(auctions) && r.user_id in UserIds(users)
  }

  ghost predicate BidsValid(bids: seq<BidRow>, auctions: seq<AuctionRow>, users: seq<UserRow>) {
    && Distinct(bids, BidKey)
    && forall b :: b in bids ==> b.auction_id in AuctionIds(auctions) && OptionalRef(b.user_id, UserIds(users))
  }

  ghost predicate MessagesValid(messages: seq<ChatRow>, auctions: seq<AuctionRow>, users: seq<UserRow>) {
    && Distinct(messages, MessageKey)
    && forall m :: m in messages ==> m.auction_id in AuctionIds(auctions) && OptionalRef(m.user_id, UserIds(users))
  }

  /** Every unique and foreign-key constraint of the schema holds. */
  ghost predicate Valid(t: Tables) {
    && UsersValid(t.users)
    && AuctionsValid(t.auctions, t.users)
    && RegistrationsValid(t.registrations, t.auctions, t.users)
    && BidsValid(t.bids, t.auctions, t.users)
    && MessagesValid(t.messages, t.auctions, t.users)
  }

  /** The first row with that key (`.filter(id == ...).first()`). */
  function Find<T>(s: seq<T>, key: T -> Option<Id>, id: Id): (r: Option<nat>)
    ensures r.Some? ==> r.value < |s| && key(s[r.value]) == Some(id)
    ensures r.Some? ==> forall k :: 0 <= k < r.value ==> key(s[k]) != Some(id)
    ensures r.None? ==> forall k :: 0 <= k < |s| ==> key(s[k]) != Some(id)
  {
    if s == [] then None
    else if key(s[0]) == Some(id) then Some(0)
    else
      var rest := Find(s[1..], key, id);
      if rest.Some? then Some(rest.value + 1) else None
  }

  /** Appending a row whose key no row has keeps the keys distinct. */
  lemma AppendDistinct<T, K>(s: seq<T>, x: T, key: T -> Option<K>)
    requires Distinct(s, key)
    requires forall k :: 0 <= k < |s| && key(s[k]).Some? ==> key(s[k]) != key(x)
    ensures Distinct(s + [x], key)
  {
    var s' := s + [x];
    forall i, j | 0 <= i < j < |s'| && key(s'[i]).Some?
      ensures key(s'[i]) != key(s'[j])
    {
      assert s'[i] == s[i];
    }
  }

  /** Replacing a row by one with the same key keeps the keys distinct. */
  lemma UpdateDistinct<T, K>(s: seq<T>, i: nat, x: T, key: T -> Option<K>)
    requires i < |s| && Distinct(s, key) && key(x) == key(s[i])
    ensures Distinct(s[i := x], key)
  {
  }

  /** A filtered table keeps its keys distinct. */
  lemma FilterDistinct<T(!new), K>(s: seq<T>, f: T -> bool, key: T -> Option<K>)
    requires Distinct(s, key)
    ensures Distinct(Filter(s, f), key)
  {
    FilterIsSublist(s, f);
    SublistDistinct(Filter(s, f), s, key);
  }

  /** A key-preserving rewrite of every row keeps the keys distinct. */
  lemma MapDistinct<T(!new), K>(s: seq<T>, f: T -> T, key: T -> Option<K>)
    requires Distinct(s, key)
    requires forall x :: key(f(x)) == key(x)
    ensures Distinct(Map(s, f), key)
  {
  }

  function AuctionNot(id: Id): AuctionRow -> bool { (a: AuctionRow) => a.id != id }
  function RegistrationOutside(id: Id): RegistrationRow -> bool { (r: RegistrationRow) => r.auction_id != id }
  function BidOutside(id: Id): BidRow -> bool { (b: BidRow) => b.auction_id != id }
  function MessageOutside(id: Id): ChatRow -> bool { (m: ChatRow) => m.auction_id != id }

  /** Deleting an auction through the session: its registrations, bids and chat messages go with it. */
  function DeleteAuction(t: Tables, id: Id): (r: Tables)
    ensures r.users == t.users
    ensures forall a :: a in r.auctions <==> a in t.auctions && a.id != id
    ensures forall x :: x in r.registrations <==> x in t.registrations && x.auction_id != id
    ensures forall b :: b in r.bids <==> b in t.bids && b.auction_id != id
    ensures forall m :: m in r.messages <==> m in t.messages && m.auction_id != id
  {
    Tables(t.users, Filter(t.auctions, AuctionNot(id)), Filter(t.registrations, RegistrationOutside(id)),
           Filter(t.bids, BidOutside(id)), Filter(t.messages, MessageOutside(id)))
  }

  /** The ids left after one id is deleted. */
  lemma AuctionIdsAfterDelete(auctions: seq<AuctionRow>, id: Id)
    ensures AuctionIds(Filter(auctions, AuctionNot(id))) == AuctionIds(auctions) - {id}
  {
    var after := Filter(auctions, AuctionNot(id));
    forall x | x in AuctionIds(auctions) - {id}
      ensures x in AuctionIds(after)
    {
      var a :| a in auctions && a.id == x;
      assert a in after;
    }
  }

  /** Deleting an auction with its dependent rows keeps every constraint. */
  lemma DeleteAuctionValid(t: Tables, id: Id)
    requires Valid(t)
    ensures Valid(DeleteAuction(t, id))
  {
    var r := DeleteAuction(t, id);
    AuctionIdsAfterDelete(t.auctions, id);
    FilterDistinct(t.auctions, AuctionNot(id), AuctionKey);
    FilterDistinct(t.registrations, RegistrationOutside(id), RegistrationKey);
    FilterDistinct(t.registrations, RegistrationOutside(id), PairKey);
    FilterDistinct(t.bids, BidOutside(id), BidKey);
    FilterDistinct(t.messages, MessageOutside(id), MessageKey);
  }

  function UserNot(id: Id): UserRow -> bool { (u: UserRow) => u.id != id }
  function RegistrationNotOf(id: Id): RegistrationRow -> bool { (r: RegistrationRow) => r.user_id != id }
  function Detach(r: Option<Id>, id: Id): Option<Id> { if r == Some(id) then None else r }
  function BidDetached(id: Id): BidRow -> BidRow { (b: BidRow) => b.(user_id := Detach(b.user_id, id)) }
  function MessageDetached(id: Id): ChatRow -> ChatRow { (m: ChatRow) => m.(user_id := Detach(m.user_id, id)) }
  function AuctionDetached(id: Id): AuctionRow -> AuctionRow { (a: AuctionRow) => a.(created_by := Detach(a.created_by, id)) }

  /**
   * Deleting a user: the database deletes their registrations (ON DELETE
   * CASCADE) and nulls the user on their bids and chat messages (ON DELETE SET
   * NULL). `created_by` has no ON DELETE rule; the session nulls it on the
   * auctions it has loaded, which is what this models.
   */
  function DeleteUser(t: Tables, id: Id): (r: Tables)
    ensures forall u :: u in r.users <==> u in t.users && u.id != id
    ensures forall x :: x in r.registrations <==> x in t.registrations && x.user_id != id
    ensures |r.auctions| == |t.auctions| && forall k :: 0 <= k < |t.auctions| ==>
              r.auctions[k] == t.auctions[k].(created_by := Detach(t.auctions[k].created_by, id))
    ensures |r.bids| == |t.bids| && forall k :: 0 <= k < |t.bids| ==>
              r.bids[k] == t.bids[k].(user_id := Detach(t.bids[k].user_id, id))
    ensures |r.messages| == |t.messages| && forall k :: 0 <= k < |t.messages| ==>
              r.messages[k] == t.messages[k].(user_id := Detach(t.messages[k].user_id, id))
  {
    Tables(Filter(t.users, UserNot(id)), Map(t.auctions, AuctionDetached(id)),
           Filter(t.registrations, RegistrationNotOf(id)),
           Map(t.bids, BidDetached(id)), Map(t.messages, MessageDetached(id)))
  }

  /** The ids left after one user is deleted. */
  lemma UserIdsAfterDelete(users: seq<UserRow>, id: Id)
    ensures UserIds(Filter(users, UserNot(id))) == UserIds(users) - {id}
  {
    var after := Filter(users, UserNot(id));
    forall x | x in UserIds(users) - {id}
      ensures x in UserIds(after)
    {
      var u :| u in users && u.id == x;
      assert u in after;
    }
  }

  /** Rewriting rows without changing their ids keeps the set of ids. */
  lemma AuctionIdsAfterDetach(auctions: seq<AuctionRow>, id: Id)
    ensures AuctionIds(Map(auctions, AuctionDetached(id))) == AuctionIds(auctions)
  {
    var after := Map(auctions, AuctionDetached(id));
    forall x | x in AuctionIds(auctions)
      ensures x in AuctionIds(after)
    {
      var a :| a in auctions && a.id == x;
      var k :| 0 <= k < |auctions| && auctions[k] == a;
      assert after[k].id == x;
    }
  }

  /** Deleting a user keeps every constraint. */
  lemma DeleteUserValid(t: Tables, id: Id)
    requires Valid(t)
    ensures Valid(DeleteUser(t, id))
  {
    var r := DeleteUser(t, id);
    UserIdsAfterDelete(t.users, id);
    AuctionIdsAfterDetach(t.auctions, id);
    FilterDistinct(t.users, UserNot(id), UserKey);
    FilterDistinct(t.users, UserNot(id), EmailKey);
    FilterDistinct(t.users, UserNot(id), UsernameKey);
    MapDistinct(t.auctions, AuctionDetached(id), AuctionKey);
    FilterDistinct(t.registrations, RegistrationNotOf(id), RegistrationKey);
    FilterDistinct(t.registrations, RegistrationNotOf(id), PairKey);
    MapDistinct(t.bids, BidDetached(id), BidKey);
    MapDistinct(t.messages, MessageDetached(id), MessageKey);
    DetachedCreatorsValid(t, id);
    DetachedBidsValid(t, id);
    DetachedMessagesValid(t, id);
  }

  /** After a user is deleted, every creator left names an existing user. */
  lemma DetachedCreatorsValid(t: Tables, id: Id)
    requires Valid(t)
    ensures var r := DeleteUser(t, id);
            forall a :: a in r.auctions ==> OptionalRef(a.created_by, UserIds(r.users))
  {
    var r := DeleteUser(t, id);
    UserIdsAfterDelete(t.users, id);
    forall a | a in r.auctions
      ensures OptionalRef(a.created_by, UserIds(r.users))
    {
      var k :| 0 <= k < |r.auctions| && r.auctions[k] == a;
      assert t.auctions[k] in t.auctions;
    }
  }

  /** After a user is deleted, every bid still names existing rows. */
  lemma DetachedBidsValid(t: Tables, id: Id)
    requires Valid(t)
    ensures var r := DeleteUser(t, id);
            forall b :: b in r.bids ==> b.auction_id in AuctionIds(r.auctions) && OptionalRef(b.user_id, UserIds(r.users))
  {
    var r := DeleteUser(t, id);
    UserIdsAfterDelete(t.users, id);
    AuctionIdsAfterDetach(t.auctions, id);
    forall b | b in r.bids
      ensures b.auction_id in AuctionIds(r.auctions) && OptionalRef(b.user_id, UserIds(r.users))
    {
      var k :| 0 <= k < |r.bids| && r.bids[k] == b;
      assert t.bids[k] in t.bids;
    }
  }

  /** After a user is deleted, every chat message still names existing rows. */
  lemma DetachedMessagesValid(t: Tables, id: Id)
    requires Valid(t)
    ensures var r := DeleteUser(t, id);
            forall m :: m in r.messages ==> m.auction_id in AuctionIds(r.auctions) && OptionalRef(m.user_id, UserIds(r.users))
  {
    var r := DeleteUser(t, id);
    UserIdsAfterDelete(t.users, id);
    AuctionIdsAfterDetach(t.auctions, id);
    forall m | m in r.messages
      ensures m.auction_id in AuctionIds(r.auctions) && OptionalRef(m.user_id, UserIds(r.users))
    {
      var k :| 0 <= k < |r.messages| && r.messages[k] == m;
      assert t.messages[k] in t.messages;
    }
  }

  /** Appending an auction adds its id to the ids. */
  lemma AuctionIdsAppend(auctions: seq<AuctionRow>, a: AuctionRow)
    ensures AuctionIds(auctions + [a]) == AuctionIds(auctions) + {a.id}
  {
    var after := auctions + [a];
    assert a in after;
    forall x | x in AuctionIds(auctions)
      ensures x in AuctionIds(after)
    {
      var b :| b in auctions && b.id == x;
      assert b in after;
    }
  }

  /** Replacing an auction by one with the same id keeps the ids. */
  lemma AuctionIdsUpdate(auctions: seq<AuctionRow>, i: nat, a: AuctionRow)
    requires i < |auctions| && a.id == auctions[i].id
    ensures AuctionIds(auctions[i := a]) == AuctionIds(auctions)
  {
    var after := auctions[i := a];
    forall x | x in AuctionIds(auctions)
      ensures x in AuctionIds(after)
    {
      var k :| 0 <= k < |auctions| && auctions[k].id == x;
      assert after[k].id == x;
    }
    forall x | x in AuctionIds(after)
      ensures x in AuctionIds(auctions)
    {
      var k :| 0 <= k < |after| && after[k].id == x;
      assert auctions[k].id == x;
    }
  }

  /** Appending a user adds its id to the ids. */
  lemma UserIdsAppend(users: seq<UserRow>, u: UserRow)
    ensures UserIds(users + [u]) == UserIds(users) + {u.id}
  {
    var after := users + [u];
    assert u in after;
    forall x | x in UserIds(users)
      ensures x in UserIds(after)
    {
      var v :| v in users && v.id == x;
      assert v in after;
    }
  }

  /** The database the routers share. */
  class Db {
    var tables: Tables

    constructor ()
      ensures tables == Tables([], [], [], [], []) && Valid(tables)
    {
      tables := Tables([], [], [], [], []);
    }
  }
}
