/**
 * The admin's bidder-management page for one auction: the registrations the
 * server lists, a search box and a status filter over them, the three
 * counters, and the approve, reject and assign-number actions, each applied
 * to the local list only once the server call has succeeded.
 */
module BiddersManagement {
  import opened Js
  import opened Lists

  const AllStatuses: string := "all"
  const Approved: string := "approved"
  const Rejected: string := "rejected"
  const Pending: string := "registered"

  /**
   * A row as the server lists it. The server's registration carries no
   * `user_name`, so on rows from the server it is absent.
   */
  datatype Row = Row(id: string, user_name: Option<string>, bidder_number: Option<string>, status: string, kind: string)

  /** `(s || '').toLowerCase().includes(term.toLowerCase())`. */
  predicate FieldContains(s: Option<string>, term: string) {
    Includes(Lower(StrOr(s, "")), Lower(term))
  }

  /** The filter's predicate: the search matches the name or the bidder number, and the status filter is 'all' or the row's status. */
  predicate Passes(r: Row, search: string, status: string) {
    (FieldContains(r.user_name, search) || FieldContains(r.bidder_number, search))
    && (status == AllStatuses || r.status == status)
  }

  /** `filteredRegistrations`. */
  function Filtered(rows: seq<Row>, search: string, status: string): (r: seq<Row>)
    ensures forall x :: x in r <==> x in rows && Passes(x, search, status)
    ensures Sublist(r, rows)
  {
    FilterIsSublist(rows, RowFilter(search, status));
    Filter(rows, RowFilter(search, status))
  }

  /** The callback of the filter. */
  function RowFilter(search: string, status: string): Row -> bool {
    (r: Row) => Passes(r, search, status)
  }

  /** An empty search with the 'all' filter shows every row, in order. */
  lemma EmptySearchShowsAll(rows: seq<Row>)
    ensures Filtered(rows, "", AllStatuses) == rows
  {
    forall k | 0 <= k < |rows|
      ensures Passes(rows[k], "", AllStatuses)
    {
      EmptyIncluded(Lower(StrOr(rows[k].user_name, "")));
    }
    FilterKeepsAll(rows, RowFilter("", AllStatuses));
  }

  /**
   * On a row with neither a name nor a bidder number (every row the server
   * lists before a number is assigned), only the empty search matches.
   */
  lemma BareRowsMatchOnlyEmptySearch(r: Row, search: string, status: string)
    requires r.user_name.None? && r.bidder_number.None?
    ensures Passes(r, search, status) ==> search == ""
  {
  }

  /** `rows.filter(r => r.status === status).length`. */
  function CountStatus(rows: seq<Row>, status: string): (n: nat)
    ensures n <= |rows|
  {
    |Filter(rows, StatusFilter(status))|
  }

  /** The callback of a status count. */
  function StatusFilter(status: string): Row -> bool {
    (r: Row) => r.status == status
  }

  /** The approved and pending counters never add up to more than the total. */
  lemma CountersWithinTotal(rows: seq<Row>)
    ensures CountStatus(rows, Approved) + CountStatus(rows, Pending) <= |rows|
  {
    FiltersDisjoint(rows, StatusFilter(Approved), StatusFilter(Pending));
  }

  /** The approve button is shown on a row exactly when it is not approved. */
  predicate OffersApprove(r: Row) {
    r.status != Approved
  }

  /** The reject button is shown on a row exactly when it is not rejected. */
  predicate OffersReject(r: Row) {
    r.status != Rejected
  }

  /** Every row offers at least one of the two actions. */
  lemma SomeActionOffered(r: Row)
    ensures OffersApprove(r) || OffersReject(r)
  {
  }

  /** `prev.map(r => r.id === id ? {...r, status} : r)`. */
  function WithStatus(rows: seq<Row>, id: string, status: string): (r: seq<Row>)
    ensures |r| == |rows|
    ensures forall k :: 0 <= k < |rows| && rows[k].id == id ==> r[k] == rows[k].(status := status)
    ensures forall k :: 0 <= k < |rows| && rows[k].id != id ==> r[k] == rows[k]
  {
    Map(rows, (x: Row) => if x.id == id then x.(status := status) else x)
  }

  /** `prev.map(r => r.id === id ? {...r, bidder_number: n} : r)`. */
  function WithNumber(rows: seq<Row>, id: string, n: string): (r: seq<Row>)
    ensures |r| == |rows|
    ensures forall k :: 0 <= k < |rows| && rows[k].id == id ==> r[k] == rows[k].(bidder_number := Some(n))
    ensures forall k :: 0 <= k < |rows| && rows[k].id != id ==> r[k] == rows[k]
  {
    Map(rows, (x: Row) => if x.id == id then x.(bidder_number := Some(n)) else x)
  }

  /** Approving a row never lowers the approved counter, and the approved row no longer offers approval. */
  lemma ApprovingRaisesCounter(rows: seq<Row>, id: string)
    ensures CountStatus(rows, Approved) <= CountStatus(WithStatus(rows, id, Approved), Approved)
    ensures forall k :: 0 <= k < |rows| && rows[k].id == id ==> !OffersApprove(WithStatus(rows, id, Approved)[k])
  {
    var after := WithStatus(rows, id, Approved);
    CountMonotoneUnder(rows, after, Approved);
  }

  /** A pointwise change that keeps every row of a status keeps the count of that status from falling. */
  lemma {:induction false} CountMonotoneUnder(rows: seq<Row>, after: seq<Row>, status: string)
    requires |after| == |rows|
    requires forall k :: 0 <= k < |rows| && rows[k].status == status ==> after[k].status == status
    ensures CountStatus(rows, status) <= CountStatus(after, status)
  {
    if rows != [] {
      CountMonotoneUnder(rows[1..], after[1..], status);
      assert rows == [rows[0]] + rows[1..];
      assert after == [after[0]] + after[1..];
    }
  }

  class Page {
    /** The `:auctionId` route parameter. */
    const auctionId: string
    var registrations: seq<Row>
    var auction: Option<Json>
    var loading: bool
    var searchTerm: string
    var filterStatus: string
    var editingBidderNumber: Option<string>
    var tempBidderNumber: string

    constructor (auctionId: string)
      ensures this.auctionId == auctionId && registrations == [] && auction.None? && loading
      ensures searchTerm == "" && filterStatus == AllStatuses
      ensures editingBidderNumber.None? && tempBidderNumber == ""
    {
      this.auctionId := auctionId;
      registrations := [];
      auction := None;
      loading := true;
      searchTerm := "";
      filterStatus := AllStatuses;
      editingBidderNumber := None;
      tempBidderNumber := "";
    }

    /**
     * `loadData`: both calls together; when both succeed the list becomes
     * `regRes.data || []` and the auction is set, when either fails neither is.
     * Loading ends either way.
     */
    method LoadData(reply: Option<(Option<seq<Row>>, Json)>)
      modifies this`registrations, this`auction, this`loading
      ensures !loading
      ensures reply.Some? ==> (registrations == (if reply.value.0.Some? then reply.value.0.value else [])
                               && auction == Some(reply.value.1))
      ensures reply.None? ==> registrations == old(registrations) && auction == old(auction)
    {
      if reply.Some? {
        registrations, auction := (if reply.value.0.Some? then reply.value.0.value else []), Some(reply.value.1);
      }
      loading := false;
    }

    /** `handleApprove`: the local rows with that id become approved only after the server call succeeds. */
    method HandleApprove(regId: string, apiOk: bool)
      modifies this`registrations
      ensures registrations == (if apiOk then WithStatus(old(registrations), regId, Approved) else old(registrations))
    {
      if apiOk {
        registrations := WithStatus(registrations, regId, Approved);
      }
    }

    /** `handleReject`: the local rows with that id become rejected only after the server call succeeds. */
    method HandleReject(regId: string, apiOk: bool)
      modifies this`registrations
      ensures registrations == (if apiOk then WithStatus(old(registrations), regId, Rejected) else old(registrations))
    {
      if apiOk {
        registrations := WithStatus(registrations, regId, Rejected);
      }
    }

    /** The pencil button: editing starts with the row's number, or an empty field. */
    method StartEditing(r: Row)
      modifies this`editingBidderNumber, this`tempBidderNumber
      ensures editingBidderNumber == Some(r.id) && tempBidderNumber == StrOr(r.bidder_number, "")
    {
      editingBidderNumber, tempBidderNumber := Some(r.id), StrOr(r.bidder_number, "");
    }

    /** The cancel button beside the bidder-number field: editing closes and the typed text stays. */
    method CancelEditing()
      modifies this`editingBidderNumber
      ensures editingBidderNumber.None?
    {
      editingBidderNumber := None;
    }

    /** Typing in the bidder-number field. */
    method EditNumber(text: string)
      modifies this`tempBidderNumber
      ensures tempBidderNumber == text
    {
      tempBidderNumber := text;
    }

    /**
     * `handleAssignNumber`: after the server call succeeds, the rows with that
     * id take the typed number and editing closes; on failure nothing changes.
     */
    method HandleAssignNumber(regId: string, apiOk: bool)
      modifies this`registrations, this`editingBidderNumber, this`tempBidderNumber
      ensures apiOk ==> registrations == WithNumber(old(registrations), regId, old(tempBidderNumber))
                        && editingBidderNumber.None? && tempBidderNumber == ""
      ensures !apiOk ==> registrations == old(registrations) && editingBidderNumber == old(editingBidderNumber)
                         && tempBidderNumber == old(tempBidderNumber)
    {
      if apiOk {
        registrations, editingBidderNumber, tempBidderNumber := WithNumber(registrations, regId, tempBidderNumber), None, "";
      }
    }

    /** Typing in the search box. */
    method SetSearch(text: string)
      modifies this`searchTerm
      ensures searchTerm == text
    {
      searchTerm := text;
    }

    /** A status button: 'all', 'registered', 'approved' or 'rejected'. */
    method SetFilter(status: string)
      requires status in [AllStatuses, Pending, Approved, Rejected]
      modifies this`filterStatus
      ensures filterStatus == status
    {
      filterStatus := status;
    }

    /** The rows the table shows. */
    function Shown(): (r: seq<Row>)
      reads this
      ensures Sublist(r, registrations)
      ensures forall x :: x in r <==> x in registrations && Passes(x, searchTerm, filterStatus)
    {
      Filtered(registrations, searchTerm, filterStatus)
    }
  }
}
