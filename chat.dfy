/**
 * The chat router: an auction's history, oldest first, with each message
 * given the name of its sender; and sending a message, which is stored and
 * then handed to a broadcast method the connection manager does not have.
 */
module Chat {
  import opened Js
  import opened Lists
  import opened Models
  import Auctions

  const SystemName: string := "System"
  const UnknownName: string := "Unknown User"
  const DefaultHistoryLimit: nat := 50
  /** What FastAPI answers when the endpoint raises `AttributeError`. */
  const ServerError: string := "Internal Server Error"

  /** The body of a chat request. */
  datatype ChatMessageCreate = ChatMessageCreate(auction_id: Id, message: string)

  /** A message as the endpoints answer it: the row plus its sender's name. */
  datatype ChatView = ChatView(row: ChatRow, user_name: string)

  /** The sort key of the history. */
  function CreatedAt(m: ChatRow): int { m.created_at }

  function MessageOf(auctionId: Id): ChatRow -> bool {
    (m: ChatRow) => m.auction_id == auctionId
  }

  /** The query of `get_chat_history`: that auction's messages, oldest first, at most `limit` of them. */
  function HistoryRows(t: Tables, auctionId: Id, limit: nat): (r: seq<ChatRow>)
    ensures |r| <= limit
    ensures |r| == PageLength(|Filter(t.messages, MessageOf(auctionId))|, 0, limit)
    ensures SliceAt(r, SortAsc(Filter(t.messages, MessageOf(auctionId)), CreatedAt), 0)
    ensures Ascending(r, CreatedAt)
    ensures forall m :: m in r ==> m in t.messages && m.auction_id == auctionId
  {
    var sorted := SortAsc(Filter(t.messages, MessageOf(auctionId)), CreatedAt);
    assert Page(sorted, 0, limit) == sorted[..|Page(sorted, 0, limit)|];
    PageAscending(sorted, CreatedAt, 0, limit);
    PageMembers(sorted, 0, limit);
    forall m | m in sorted
      ensures m in Filter(t.messages, MessageOf(auctionId))
    {
      assert m in multiset(sorted);
    }
    Page(sorted, 0, limit)
  }

  /** The history holds the oldest messages: a message of the auction left out is no older than any message shown. */
  lemma HistoryHoldsOldest(t: Tables, auctionId: Id, limit: nat)
    ensures var r := HistoryRows(t, auctionId, limit);
            forall a, b :: a in t.messages && a.auction_id == auctionId && a !in r && b in r ==> b.created_at <= a.created_at
  {
    var r := HistoryRows(t, auctionId, limit);
    var s := Filter(t.messages, MessageOf(auctionId));
    AscPageSmallest(s, CreatedAt, limit);
    forall a, b | a in t.messages && a.auction_id == auctionId && a !in r && b in r
      ensures b.created_at <= a.created_at
    {
      assert a in s;
      assert CreatedAt(b) <= CreatedAt(a);
    }
  }

  /** The name the history gives a message: 'System' without a sender, else the sender's name, or 'Unknown User'. */
  function SenderName(users: seq<UserRow>, m: ChatRow): string {
    if m.user_id.None? then SystemName
    else
      var i := Find(users, UserKey, m.user_id.value);
      if i.Some? then users[i.value].name else UnknownName
  }

  /** 'System' exactly for a message without a sender; 'Unknown User' for a sender no user has; else that user's name. */
  lemma SenderNameMeaning(users: seq<UserRow>, m: ChatRow)
    ensures m.user_id.None? ==> SenderName(users, m) == SystemName
    ensures m.user_id.Some? && m.user_id.value !in UserIds(users) ==> SenderName(users, m) == UnknownName
    ensures m.user_id.Some? && m.user_id.value in UserIds(users) ==>
              exists k :: 0 <= k < |users| && users[k].id == m.user_id.value && SenderName(users, m) == users[k].name
  {
    if m.user_id.Some? {
      var i := Find(users, UserKey, m.user_id.value);
      if i.None? {
        forall u | u in users
          ensures u.id != m.user_id.value
        {
          var k :| 0 <= k < |users| && users[k] == u;
          assert UserKey(users[k]) != Some(m.user_id.value);
        }
      }
    }
  }

  /** The loop of `get_chat_history`: each row, in order, given its sender's name. */
  method NameEach(users: seq<UserRow>, rows: seq<ChatRow>) returns (r: seq<ChatView>)
    ensures |r| == |rows|
    ensures forall k :: 0 <= k < |rows| ==> r[k] == ChatView(rows[k], SenderName(users, rows[k]))
  {
    r := [];
    var i := 0;
    while i < |rows|
      invariant 0 <= i <= |rows| && |r| == i
      invariant forall k :: 0 <= k < i ==> r[k] == ChatView(rows[k], SenderName(users, rows[k]))
    {
      var msg := rows[i];
      var name: string;
      if msg.user_id.Some? {
        var u := Find(users, UserKey, msg.user_id.value);
        name := if u.Some? then users[u.value].name else UnknownName;
      } else {
        name := SystemName;
      }
      r := r + [ChatView(msg, name)];
      i := i + 1;
    }
  }

  /** `get_chat_history`: the query's rows, each given its sender's name. */
  method GetChatHistory(db: Db, auctionId: Id, limit: nat) returns (r: seq<ChatView>)
    ensures var rows := HistoryRows(db.tables, auctionId, limit);
            && |r| == |rows|
            && forall k :: 0 <= k < |rows| ==> r[k] == ChatView(rows[k], SenderName(db.tables.users, rows[k]))
  {
    r := NameEach(db.tables.users, HistoryRows(db.tables, auctionId, limit));
  }

  /**
   * While the constraints hold, the history never says 'Unknown User' for a
   * missing sender: a message keeps a sender only while that user exists.
   */
  lemma SendersAlwaysKnown(t: Tables, m: ChatRow)
    requires Valid(t) && m in t.messages && m.user_id.Some?
    ensures exists k :: 0 <= k < |t.users| && t.users[k].id == m.user_id.value && SenderName(t.users, m) == t.users[k].name
  {
    SenderNameMeaning(t.users, m);
  }

  /** Once its sender is deleted, a message is shown as sent by 'System'. */
  lemma DeletedSenderShowsSystem(t: Tables, id: Id, k: nat)
    requires k < |t.messages| && t.messages[k].user_id == Some(id)
    ensures SenderName(DeleteUser(t, id).users, DeleteUser(t, id).messages[k]) == SystemName
  {
  }

  /** The row `send_chat_message` stores: an admin message exactly when the sender is an admin. */
  function Posted(req: ChatMessageCreate, caller: UserRow, id: Id, now: int): (m: ChatRow)
    ensures m.is_admin_message <==> caller.role == AdminRole
    ensures m.user_id == Some(caller.id) && m.auction_id == req.auction_id && m.message == req.message && m.id == id
  {
    ChatRow(id, req.auction_id, Some(caller.id), req.message, caller.role == AdminRole, now)
  }

  /** The data `send_chat_message` prepares for the broadcast: the stored row's fields plus the sender's name. */
  function ChatPayload(m: ChatRow, userName: string, isoCreatedAt: string): (r: Json)
    ensures r.JObj? && r.fields.Keys == {"id", "auction_id", "user_id", "user_name", "message", "is_admin_message", "created_at"}
    ensures r.fields["id"] == JStr(m.id) && r.fields["auction_id"] == JStr(m.auction_id)
    ensures r.fields["message"] == JStr(m.message) && r.fields["is_admin_message"] == JBool(m.is_admin_message)
    ensures r.fields["user_name"] == JStr(userName)
    ensures m.user_id.Some? ==> r.fields["user_id"] == JStr(m.user_id.value)
  {
    JObj(map["id" := JStr(m.id), "auction_id" := JStr(m.auction_id),
             "user_id" := JStr(if m.user_id.Some? then m.user_id.value else "None"),
             "user_name" := JStr(userName), "message" := JStr(m.message),
             "is_admin_message" := JBool(m.is_admin_message), "created_at" := JStr(isoCreatedAt)])
  }

  /** Adding a message on an existing auction, by an existing user, under a new id keeps every constraint. */
  lemma AddMessageValid(t: Tables, m: ChatRow)
    requires Valid(t) && m.auction_id in AuctionIds(t.auctions) && OptionalRef(m.user_id, UserIds(t.users))
    requires m.id !in MessageIds(t.messages)
    ensures Valid(t.(messages := t.messages + [m]))
  {
    forall k | 0 <= k < |t.messages|
      ensures MessageKey(t.messages[k]) != MessageKey(m)
    {
      assert t.messages[k] in t.messages;
    }
    AppendDistinct(t.messages, m, MessageKey);
  }

  /** 404 for a missing auction; otherwise the message is stored and committed. */
  method Store(db: Db, req: ChatMessageCreate, caller: UserRow, newId: Id, now: int) returns (stored: bool)
    requires Valid(db.tables) && caller in db.tables.users && newId !in MessageIds(db.tables.messages)
    modifies db
    ensures Valid(db.tables)
    ensures stored <==> req.auction_id in AuctionIds(old(db.tables.auctions))
    ensures !stored ==> db.tables == old(db.tables)
    ensures stored ==> db.tables == old(db.tables).(messages := old(db.tables.messages) + [Posted(req, caller, newId, now)])
  {
    if Auctions.GetAuction(db.tables, req.auction_id).HttpError? {
      return false;
    }
    var m := Posted(req, caller, newId, now);
    assert caller.id in UserIds(db.tables.users);
    AddMessageValid(db.tables, m);
    db.tables := db.tables.(messages := db.tables.messages + [m]);
    stored := true;
  }

  /**
   * `send_chat_message` as written: 404 for a missing auction; otherwise the
   * message is stored and committed, and then the call to the connection
   * manager's missing `broadcast_chat_message` raises, so every accepted
   * message is answered 500 and broadcast to no one.
   */
  method SendChatMessage(db: Db, req: ChatMessageCreate, caller: UserRow, newId: Id, now: int) returns (r: Reply<ChatView>)
    requires Valid(db.tables) && caller in db.tables.users && newId !in MessageIds(db.tables.messages)
    modifies db
    ensures Valid(db.tables)
    ensures req.auction_id !in AuctionIds(old(db.tables.auctions)) ==>
              r == HttpError(404, Auctions.AuctionNotFound) && db.tables == old(db.tables)
    ensures req.auction_id in AuctionIds(old(db.tables.auctions)) ==>
              && r == HttpError(500, ServerError)
              && db.tables == old(db.tables).(messages := old(db.tables.messages) + [Posted(req, caller, newId, now)])
  {
    var stored := Store(db, req, caller, newId, now);
    if !stored {
      return HttpError(404, Auctions.AuctionNotFound);
    }
    r := HttpError(500, ServerError);
  }

  /**
   * `send_chat_message` without the failing call: 404 for a missing auction;
   * otherwise the stored message is answered with its sender's name.
   */
  method SendChatMessageAnswered(db: Db, req: ChatMessageCreate, caller: UserRow, newId: Id, now: int) returns (r: Reply<ChatView>)
    requires Valid(db.tables) && caller in db.tables.users && newId !in MessageIds(db.tables.messages)
    modifies db
    ensures Valid(db.tables)
    ensures req.auction_id !in AuctionIds(old(db.tables.auctions)) ==>
              r == HttpError(404, Auctions.AuctionNotFound) && db.tables == old(db.tables)
    ensures req.auction_id in AuctionIds(old(db.tables.auctions)) ==>
              && r == Ok(ChatView(Posted(req, caller, newId, now), caller.name))
              && db.tables == old(db.tables).(messages := old(db.tables.messages) + [r.value.row])
  {
    var stored := Store(db, req, caller, newId, now);
    if !stored {
      return HttpError(404, Auctions.AuctionNotFound);
    }
    r := Ok(ChatView(Posted(req, caller, newId, now), caller.name));
  }

  /** A message stored by a send shows up in the auction's history, under its sender's name, once the limit allows. */
  lemma SentMessageInHistory(t: Tables, req: ChatMessageCreate, caller: UserRow, id: Id, now: int, limit: nat)
    requires caller in t.users && limit > |t.messages|
    ensures var t' := t.(messages := t.messages + [Posted(req, caller, id, now)]);
            Posted(req, caller, id, now) in HistoryRows(t', req.auction_id, limit)
  {
    var m := Posted(req, caller, id, now);
    var t' := t.(messages := t.messages + [m]);
    var chosen := Filter(t'.messages, MessageOf(req.auction_id));
    assert m in t'.messages;
    AscPageHoldsAll(chosen, CreatedAt, limit);
  }
}
