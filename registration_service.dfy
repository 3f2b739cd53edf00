/**
 * The browser-side registration book (`RegistrationService`, one shared
 * instance): a list of registration objects, each a JavaScript object with
 * `id`, `auctionId`, `userId`, `type`, `status`, `registeredAt` and whatever
 * the caller's `userData` adds or overrides. Lookups use strict equality, so
 * an `auctionId` that `Number` turns into NaN never matches anything.
 * Records are JSON-like maps; an in-memory NaN is held as `JNull`, which,
 * like NaN, is strictly equal to no number.
 */
module RegistrationService {
  import opened Js
  import opened Lists

  const AlreadyRegistered: string := "Already registered for this auction"
  const NotRegistered: string := "Not registered for this auction"
  const RegistrationNotFound: string := "Registration not found"

  /** A registration object. */
  type Record = map<string, Json>

  /** An id argument as callers pass it: a number, or a string (the server's ids are UUID strings). */
  datatype Key = KNum(n: int) | KStr(s: string)

  /** `Number(k)`. */
  function KeyNumber(k: Key): (r: Number)
    ensures k.KNum? ==> r == Int(k.n)
    ensures k.KStr? ==> r == ToNumber(k.s)
  {
    match k
    case KNum(n) => Int(n)
    case KStr(s) => ToNumber(s)
  }

  /** The key as a stored value. */
  function KeyJson(k: Key): Json {
    match k
    case KNum(n) => JNum(n)
    case KStr(s) => JStr(s)
  }

  /** The result object of a mutating call. */
  datatype Outcome = Success(registration: Option<Record>) | Failure(error: string)

  /** The object `getRegistrationCounts` returns. */
  datatype Counts = Counts(total: nat, online: nat, onfield: nat, approved: nat, pending: nat)

  /** `v === n` for a stored value and a number: never when `n` is NaN. */
  predicate SameNumber(v: Json, n: Number) {
    n.Int? && v == JNum(n.i)
  }

  /** `r.auctionId === auction`. */
  predicate AuctionMatches(r: Record, auction: Number) {
    "auctionId" in r && SameNumber(r["auctionId"], auction)
  }

  /** `r.userId === user` (user ids are numbers or strings). */
  predicate UserMatches(r: Record, user: Key) {
    "userId" in r && r["userId"] == KeyJson(user)
  }

  /** `r.auctionId === auction && r.userId === user`. */
  predicate Matches(r: Record, auction: Number, user: Key) {
    AuctionMatches(r, auction) && UserMatches(r, user)
  }

  /** `r.id === id`. */
  predicate IdMatches(r: Record, id: Key) {
    "id" in r && r["id"] == KeyJson(id)
  }

  /** The position `findIndex` returns for a pair, as an option. */
  function FindPair(regs: seq<Record>, auction: Number, user: Key): (r: Option<nat>)
    ensures r.Some? ==> r.value < |regs| && Matches(regs[r.value], auction, user)
    ensures r.Some? ==> forall k :: 0 <= k < r.value ==> !Matches(regs[k], auction, user)
    ensures r.None? ==> forall k :: 0 <= k < |regs| ==> !Matches(regs[k], auction, user)
  {
    if regs == [] then None
    else if Matches(regs[0], auction, user) then Some(0)
    else
      var rest := FindPair(regs[1..], auction, user);
      if rest.Some? then Some(rest.value + 1) else None
  }

  /** The position of the first record with this id, as an option. */
  function FindId(regs: seq<Record>, id: Key): (r: Option<nat>)
    ensures r.Some? ==> r.value < |regs| && IdMatches(regs[r.value], id)
    ensures r.Some? ==> forall k :: 0 <= k < r.value ==> !IdMatches(regs[k], id)
    ensures r.None? ==> forall k :: 0 <= k < |regs| ==> !IdMatches(regs[k], id)
  {
    if regs == [] then None
    else if IdMatches(regs[0], id) then Some(0)
    else
      var rest := FindId(regs[1..], id);
      if rest.Some? then Some(rest.value + 1) else None
  }

  /** The new registration object: the defaults, then `userData` spread over them. */
  function NewRecord(id: int, auction: Number, user: Key, kind: string, registeredAt: string, userData: map<string, Json>): (r: Record)
    ensures forall k :: k in userData ==> k in r && r[k] == userData[k]
    ensures "status" !in userData ==> "status" in r && r["status"] == JStr("registered")
    ensures "type" !in userData ==> "type" in r && r["type"] == JStr(kind)
    ensures "auctionId" !in userData && "userId" !in userData ==>
              forall a, u :: Matches(r, a, u) <==> SameNumber(NumberJson(auction), a) && u == user
  {
    var base := map["id" := JNum(id), "auctionId" := NumberJson(auction), "userId" := KeyJson(user),
                    "type" := JStr(kind), "status" := JStr("registered"), "registeredAt" := JStr(registeredAt)];
    assert forall u, w :: KeyJson(u) == KeyJson(w) ==> u == w;
    base + userData
  }

  /** At most one record matches any (auction, user) lookup. */
  ghost predicate Unique(regs: seq<Record>) {
    forall i, j, a, u :: 0 <= i < j < |regs| && Matches(regs[i], a, u) ==> !Matches(regs[j], a, u)
  }

  /** `splice(i, 1)`. */
  function RemoveAt(regs: seq<Record>, i: nat): (r: seq<Record>)
    requires i < |regs|
    ensures |r| == |regs| - 1
    ensures forall k :: 0 <= k < i ==> r[k] == regs[k]
    ensures forall k :: i <= k < |r| ==> r[k] == regs[k + 1]
  {
    regs[..i] + regs[i + 1..]
  }

  /** Records of one auction (`filter`), in order. */
  function ForAuction(regs: seq<Record>, auction: Number): (r: seq<Record>)
    ensures |r| <= |regs|
    ensures forall x :: x in r <==> x in regs && AuctionMatches(x, auction)
  {
    Filter(regs, AuctionFilter(auction))
  }

  /** The callback of the auction filter. */
  function AuctionFilter(auction: Number): Record -> bool {
    (x: Record) => AuctionMatches(x, auction)
  }

  /** Records of one user (`filter`), in order. */
  function ForUser(regs: seq<Record>, user: Key): (r: seq<Record>)
    ensures |r| <= |regs|
    ensures forall x :: x in r <==> x in regs && UserMatches(x, user)
  {
    Filter(regs, (x: Record) => UserMatches(x, user))
  }

  /** Holds the string `value` under `key`. */
  predicate HasText(r: Record, key: string, value: string) {
    key in r && r[key] == JStr(value)
  }

  /** How many records hold the string `value` under `key`. */
  function CountWhere(regs: seq<Record>, key: string, value: string): (n: nat)
    ensures n <= |regs|
  {
    |Filter(regs, HasTextOf(key, value))|
  }

  /** The callback of a counter's filter. */
  function HasTextOf(key: string, value: string): Record -> bool {
    (x: Record) => HasText(x, key, value)
  }

  /** A counter over a list extended by one record grows by one exactly when that record holds the value. */
  lemma CountWhereAppend(regs: seq<Record>, x: Record, key: string, value: string)
    ensures CountWhere(regs + [x], key, value) == CountWhere(regs, key, value) + (if HasText(x, key, value) then 1 else 0)
  {
    FilterAppend(regs, x, HasTextOf(key, value));
  }

  /** No record is counted under two different values of one key. */
  lemma CountsDisjoint(regs: seq<Record>, key: string, v1: string, v2: string)
    requires v1 != v2
    ensures CountWhere(regs, key, v1) + CountWhere(regs, key, v2) <= |regs|
  {
    FiltersDisjoint(regs, HasTextOf(key, v1), HasTextOf(key, v2));
  }

  /** `getRegistrationCounts` over the auction's records. */
  function CountsOf(regs: seq<Record>, auction: Number): (c: Counts)
    ensures c.total == |ForAuction(regs, auction)|
    ensures c.online == CountWhere(ForAuction(regs, auction), "type", "online")
    ensures c.onfield == CountWhere(ForAuction(regs, auction), "type", "onfield")
    ensures c.approved == CountWhere(ForAuction(regs, auction), "status", "approved")
    ensures c.pending == CountWhere(ForAuction(regs, auction), "status", "registered")
    ensures c.online + c.onfield <= c.total
    ensures c.approved + c.pending <= c.total
  {
    var mine := ForAuction(regs, auction);
    CountsDisjoint(mine, "type", "online", "onfield");
    CountsDisjoint(mine, "status", "approved", "registered");
    Counts(|mine|, CountWhere(mine, "type", "online"), CountWhere(mine, "type", "onfield"),
           CountWhere(mine, "status", "approved"), CountWhere(mine, "status", "registered"))
  }

  /** The list after a `register` call, whether it succeeds or not. */
  function Registered(regs: seq<Record>, auctionId: Key, user: Key, kind: string, userData: map<string, Json>, id: int, at: string): seq<Record> {
    if FindPair(regs, KeyNumber(auctionId), user).Some? then regs
    else regs + [NewRecord(id, KeyNumber(auctionId), user, kind, at, userData)]
  }

  /**
   * A new registration for a numeric auction, with `userData` that leaves the
   * id, type and status fields alone, adds one to the total, one to the counter
   * of its type and one to the pending counter, and leaves the approved counter.
   */
  lemma RegisterCountsOnce(regs: seq<Record>, n: int, user: Key, kind: string, userData: map<string, Json>, id: int, at: string)
    requires "auctionId" !in userData && "userId" !in userData && "type" !in userData && "status" !in userData
    requires FindPair(regs, Int(n), user).None?
    ensures var before := CountsOf(regs, Int(n));
            var after := CountsOf(Registered(regs, KNum(n), user, kind, userData, id, at), Int(n));
            && after.total == before.total + 1
            && after.online == before.online + (if kind == "online" then 1 else 0)
            && after.onfield == before.onfield + (if kind == "onfield" then 1 else 0)
            && after.approved == before.approved
            && after.pending == before.pending + 1
  {
    var x := NewRecord(id, Int(n), user, kind, at, userData);
    assert Registered(regs, KNum(n), user, kind, userData, id, at) == regs + [x];
    assert Matches(x, Int(n), user);
    FilterAppend(regs, x, AuctionFilter(Int(n)));
    var mine := ForAuction(regs, Int(n));
    assert ForAuction(regs + [x], Int(n)) == mine + [x];
    CountWhereAppend(mine, x, "type", "online");
    CountWhereAppend(mine, x, "type", "onfield");
    CountWhereAppend(mine, x, "status", "approved");
    CountWhereAppend(mine, x, "status", "registered");
  }

  /** The list after an `unregister` call, whether it succeeds or not. */
  function Unregistered(regs: seq<Record>, auctionId: Key, user: Key): seq<Record> {
    var i := FindPair(regs, KeyNumber(auctionId), user);
    if i.Some? then RemoveAt(regs, i.value) else regs
  }

  /**
   * For a numeric auction id, and `userData` that leaves `auctionId` and
   * `userId` alone, registering and then unregistering the same pair gives
   * back the list as it was, whether the registration was new or not there.
   */
  lemma RegisterThenUnregister(regs: seq<Record>, auctionId: Key, user: Key, kind: string, userData: map<string, Json>, id: int, at: string)
    requires KeyNumber(auctionId).Int?
    requires "auctionId" !in userData && "userId" !in userData
    requires FindPair(regs, KeyNumber(auctionId), user).None?
    ensures Unregistered(Registered(regs, auctionId, user, kind, userData, id, at), auctionId, user) == regs
  {
    var a := KeyNumber(auctionId);
    var r := NewRecord(id, a, user, kind, at, userData);
    var after := regs + [r];
    assert Registered(regs, auctionId, user, kind, userData, id, at) == after;
    assert Matches(r, a, user) by {
      assert SameNumber(NumberJson(a), a);
    }
    var i := FindPair(after, a, user);
    assert i.Some? by {
      assert after[|regs|] == r;
    }
    assert i.value == |regs| by {
      assert forall k :: 0 <= k < |regs| ==> after[k] == regs[k];
    }
    assert RemoveAt(after, |regs|) == regs by {
      assert after[..|regs|] == regs;
    }
  }

  /**
   * Registering keeps at most one match per lookup, provided `userData` does
   * not override `auctionId` or `userId`.
   */
  lemma RegisterKeepsUnique(regs: seq<Record>, auctionId: Key, user: Key, kind: string, userData: map<string, Json>, id: int, at: string)
    requires Unique(regs)
    requires "auctionId" !in userData && "userId" !in userData
    ensures Unique(Registered(regs, auctionId, user, kind, userData, id, at))
  {
    var a := KeyNumber(auctionId);
    if FindPair(regs, a, user).None? {
      var r := NewRecord(id, a, user, kind, at, userData);
      var after := regs + [r];
      forall i, j, b, u | 0 <= i < j < |after| && Matches(after[i], b, u)
        ensures !Matches(after[j], b, u)
      {
        if j == |regs| {
          assert after[i] == regs[i];
          assert !Matches(regs[i], a, user);
          assert Matches(r, b, u) ==> b == a && u == user;
        } else {
          assert after[i] == regs[i] && after[j] == regs[j];
        }
      }
    }
  }

  /** Unregistering keeps at most one match per lookup. */
  lemma UnregisterKeepsUnique(regs: seq<Record>, auctionId: Key, user: Key)
    requires Unique(regs)
    ensures Unique(Unregistered(regs, auctionId, user))
  {
    var i := FindPair(regs, KeyNumber(auctionId), user);
    if i.Some? {
      var after := RemoveAt(regs, i.value);
      forall x, y, b, u | 0 <= x < y < |after| && Matches(after[x], b, u)
        ensures !Matches(after[y], b, u)
      {
        var x0 := if x < i.value then x else x + 1;
        var y0 := if y < i.value then y else y + 1;
        assert after[x] == regs[x0] && after[y] == regs[y0] && x0 < y0;
      }
    }
  }

  /** `isRegistered`: `some` record matches. */
  predicate IsRegisteredIn(regs: seq<Record>, auction: Number, user: Key) {
    exists k :: 0 <= k < |regs| && Matches(regs[k], auction, user)
  }

  /** `isRegistered` and `getRegistration` agree: one finds a record exactly when the other says yes. */
  lemma IsRegisteredIffFound(regs: seq<Record>, auction: Number, user: Key)
    ensures IsRegisteredIn(regs, auction, user) <==> FindPair(regs, auction, user).Some?
  {
    if FindPair(regs, auction, user).Some? {
      assert Matches(regs[FindPair(regs, auction, user).value], auction, user);
    }
  }

  /** With a UUID string as auction id, `Number` gives NaN, so no lookup ever finds a registration. */
  lemma UuidAuctionNeverFound(regs: seq<Record>, uuid: string, user: Key)
    requires exists k :: 1 <= k < |uuid| && uuid[k] == '-'
    ensures FindPair(regs, KeyNumber(KStr(uuid)), user).None?
    ensures !IsRegisteredIn(regs, KeyNumber(KStr(uuid)), user)
    ensures ForAuction(regs, KeyNumber(KStr(uuid))) == []
  {
    InnerHyphenIsNaN(uuid);
    NothingMatchesNaN(regs);
  }

  /** No record's auction id is strictly equal to NaN. */
  lemma NothingMatchesNaN(regs: seq<Record>)
    ensures ForAuction(regs, NaN) == []
  {
    FilterNone(regs, AuctionFilter(NaN));
  }

  /**
   * Registering a UUID auction as written: every call succeeds and appends
   * (the earlier record is never found), and no lookup afterwards finds it.
   */
  lemma UuidRegistrationLost(regs: seq<Record>, uuid: string, user: Key, kind: string, userData: map<string, Json>, id: int, at: string)
    requires exists k :: 1 <= k < |uuid| && uuid[k] == '-'
    ensures var after := Registered(regs, KStr(uuid), user, kind, userData, id, at);
            && |after| == |regs| + 1
            && FindPair(after, KeyNumber(KStr(uuid)), user).None?
            && |Registered(after, KStr(uuid), user, kind, userData, id, at)| == |regs| + 2
  {
    var after := Registered(regs, KStr(uuid), user, kind, userData, id, at);
    UuidAuctionNeverFound(regs, uuid, user);
    UuidAuctionNeverFound(after, uuid, user);
  }

  /** The corrected comparison: the stored auction id is the id as given, compared strictly. */
  predicate KeyMatches(r: Record, auction: Key, user: Key) {
    "auctionId" in r && r["auctionId"] == KeyJson(auction) && UserMatches(r, user)
  }

  /** The position of the first record for the pair under the corrected comparison. */
  function FindKeyed(regs: seq<Record>, auction: Key, user: Key): (r: Option<nat>)
    ensures r.Some? ==> r.value < |regs| && KeyMatches(regs[r.value], auction, user)
    ensures r.Some? ==> forall k :: 0 <= k < r.value ==> !KeyMatches(regs[k], auction, user)
    ensures r.None? ==> forall k :: 0 <= k < |regs| ==> !KeyMatches(regs[k], auction, user)
  {
    if regs == [] then None
    else if KeyMatches(regs[0], auction, user) then Some(0)
    else
      var rest := FindKeyed(regs[1..], auction, user);
      if rest.Some? then Some(rest.value + 1) else None
  }

  /** The new registration object of the corrected service: the auction id is stored as given. */
  function KeyedRecord(id: int, auction: Key, user: Key, kind: string, registeredAt: string, userData: map<string, Json>): (r: Record)
    ensures forall k :: k in userData ==> k in r && r[k] == userData[k]
    ensures "auctionId" !in userData && "userId" !in userData ==>
              forall a, u :: KeyMatches(r, a, u) <==> a == auction && u == user
  {
    var base := map["id" := JNum(id), "auctionId" := KeyJson(auction), "userId" := KeyJson(user),
                    "type" := JStr(kind), "status" := JStr("registered"), "registeredAt" := JStr(registeredAt)];
    assert forall u, w :: KeyJson(u) == KeyJson(w) ==> u == w;
    base + userData
  }

  /** The list after a `register` call of the corrected service. */
  function RegisteredKeyed(regs: seq<Record>, auction: Key, user: Key, kind: string, userData: map<string, Json>, id: int, at: string): seq<Record> {
    if FindKeyed(regs, auction, user).Some? then regs
    else regs + [KeyedRecord(id, auction, user, kind, at, userData)]
  }

  /**
   * With the id kept as given, a UUID auction behaves like any other: after
   * registering, the lookup finds the record, and a second registration
   * changes nothing.
   */
  lemma RegisterThenFound(regs: seq<Record>, auction: Key, user: Key, kind: string, userData: map<string, Json>, id: int, at: string)
    requires "auctionId" !in userData && "userId" !in userData
    ensures var after := RegisteredKeyed(regs, auction, user, kind, userData, id, at);
            && FindKeyed(after, auction, user).Some?
            && RegisteredKeyed(after, auction, user, kind, userData, id + 1, at) == after
  {
    var after := RegisteredKeyed(regs, auction, user, kind, userData, id, at);
    if FindKeyed(regs, auction, user).None? {
      var r := KeyedRecord(id, auction, user, kind, at, userData);
      assert after[|regs|] == r && KeyMatches(r, auction, user);
    }
  }

  class Book {
    var registrations: seq<Record>

    /** A fresh book (what is stored in the browser is not part of this model). */
    constructor ()
      ensures registrations == []
    {
      registrations := [];
    }

    /**
     * `register`: when the pair is already there, the failure result and no
     * change; otherwise one new object (status 'registered', type defaulting to
     * 'online', `userData` spread last) is appended.
     */
    method Register(auctionId: Key, userId: Key, kind: Option<string>, userData: map<string, Json>, now: int, nowIso: string)
      returns (result: Outcome)
      modifies this
      ensures var k := if kind.Some? then kind.value else "online";
              registrations == Registered(old(registrations), auctionId, userId, k, userData, now, nowIso)
      ensures FindPair(old(registrations), KeyNumber(auctionId), userId).Some? <==> result == Failure(AlreadyRegistered)
      ensures result.Success? ==> |registrations| == |old(registrations)| + 1
                                  && result.registration == Some(registrations[|registrations| - 1])
    {
      var a := KeyNumber(auctionId);
      var existing := FindPair(registrations, a, userId);
      if existing.Some? {
        return Failure(AlreadyRegistered);
      }
      var k := if kind.Some? then kind.value else "online";
      var r := NewRecord(now, a, userId, k, nowIso, userData);
      registrations := registrations + [r];
      return Success(Some(r));
    }

    /** `unregister`: removes the first matching object and nothing else, or fails without a change. */
    method Unregister(auctionId: Key, userId: Key) returns (result: Outcome)
      modifies this
      ensures registrations == Unregistered(old(registrations), auctionId, userId)
      ensures FindPair(old(registrations), KeyNumber(auctionId), userId).None? <==> result == Failure(NotRegistered)
      ensures result.Success? ==> result.registration.None? && |registrations| == |old(registrations)| - 1
    {
      var i := FindPair(registrations, KeyNumber(auctionId), userId);
      if i.None? {
        return Failure(NotRegistered);
      }
      registrations := RemoveAt(registrations, i.value);
      return Success(None);
    }

    /** `isRegistered`. */
    function IsRegistered(auctionId: Key, userId: Key): (b: bool)
      reads this
      ensures b <==> GetRegistration(auctionId, userId).Some?
    {
      IsRegisteredIffFound(registrations, KeyNumber(auctionId), userId);
      IsRegisteredIn(registrations, KeyNumber(auctionId), userId)
    }

    /** `getRegistration`: the first matching object, or undefined. */
    function GetRegistration(auctionId: Key, userId: Key): (r: Option<Record>)
      reads this
      ensures r.Some? ==> r.value in registrations && Matches(r.value, KeyNumber(auctionId), userId)
      ensures r.Some? ==> exists i :: 0 <= i < |registrations| && registrations[i] == r.value &&
                            forall k :: 0 <= k < i ==> !Matches(registrations[k], KeyNumber(auctionId), userId)
      ensures r.None? ==> forall k :: 0 <= k < |registrations| ==> !Matches(registrations[k], KeyNumber(auctionId), userId)
    {
      var i := FindPair(registrations, KeyNumber(auctionId), userId);
      if i.Some? then Some(registrations[i.value]) else None
    }

    /** `getAuctionRegistrations`. */
    function GetAuctionRegistrations(auctionId: Key): (r: seq<Record>)
      reads this
      ensures forall x :: x in r <==> x in registrations && AuctionMatches(x, KeyNumber(auctionId))
    {
      ForAuction(registrations, KeyNumber(auctionId))
    }

    /** `getUserRegistrations`. */
    function GetUserRegistrations(userId: Key): (r: seq<Record>)
      reads this
      ensures forall x :: x in r <==> x in registrations && UserMatches(x, userId)
    {
      ForUser(registrations, userId)
    }

    /** `getRegistrationCounts`. */
    function GetRegistrationCounts(auctionId: Key): (c: Counts)
      reads this
      ensures c.total == |GetAuctionRegistrations(auctionId)|
      ensures c.online == CountWhere(GetAuctionRegistrations(auctionId), "type", "online")
      ensures c.onfield == CountWhere(GetAuctionRegistrations(auctionId), "type", "onfield")
      ensures c.approved == CountWhere(GetAuctionRegistrations(auctionId), "status", "approved")
      ensures c.pending == CountWhere(GetAuctionRegistrations(auctionId), "status", "registered")
      ensures c.online + c.onfield <= c.total && c.approved + c.pending <= c.total
    {
      CountsOf(registrations, KeyNumber(auctionId))
    }

    /** Approve or reject: sets the status of the first object with that id, or fails without a change. */
    method SetStatus(registrationId: Key, status: string) returns (result: Outcome)
      modifies this
      ensures var i := FindId(old(registrations), registrationId);
              && (i.None? ==> registrations == old(registrations) && result == Failure(RegistrationNotFound))
              && (i.Some? ==> && |registrations| == |old(registrations)|
                              && registrations[i.value] == old(registrations)[i.value]["status" := JStr(status)]
                              && (forall k :: 0 <= k < |registrations| && k != i.value ==> registrations[k] == old(registrations)[k])
                              && result == Success(Some(registrations[i.value])))
    {
      var i := FindId(registrations, registrationId);
      if i.None? {
        return Failure(RegistrationNotFound);
      }
      var updated := registrations[i.value]["status" := JStr(status)];
      registrations := registrations[i.value := updated];
      return Success(Some(updated));
    }

    /** `approveRegistration`. */
    method ApproveRegistration(registrationId: Key) returns (result: Outcome)
      modifies this
      ensures var i := FindId(old(registrations), registrationId);
              && (i.None? ==> registrations == old(registrations) && result == Failure(RegistrationNotFound))
              && (i.Some? ==> registrations == old(registrations)[i.value := old(registrations)[i.value]["status" := JStr("approved")]])
    {
      result := SetStatus(registrationId, "approved");
    }

    /** `rejectRegistration`. */
    method RejectRegistration(registrationId: Key) returns (result: Outcome)
      modifies this
      ensures var i := FindId(old(registrations), registrationId);
              && (i.None? ==> registrations == old(registrations) && result == Failure(RegistrationNotFound))
              && (i.Some? ==> registrations == old(registrations)[i.value := old(registrations)[i.value]["status" := JStr("rejected")]])
    {
      result := SetStatus(registrationId, "rejected");
    }
  }
}
