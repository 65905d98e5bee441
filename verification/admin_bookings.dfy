/**
 * The administrator's bookings page (frontend/src/pages/AdminBookings.tsx):
 * the status and destination-name filters re-run by an effect, the per-status
 * counters, the status-change buttons and the confirm-then-update handler.
 */
module AdminBookings {
  import opened Common
  import opened Text
  import opened Seqs
  import opened Types

  /** The status selector's "All Statuses" value. */
  const ALL: string := "ALL"

  function StatusFilter(status: string): BookingResponse -> bool {
    (b: BookingResponse) => b.status == status
  }

  function NameFilter(term: string): BookingResponse -> bool {
    (b: BookingResponse) => ContainsIgnoreCase(b.destination.name, term)
  }

  /** The `applyFilters` effect: status first, then destination name; no sorting. */
  function ApplyFilters(bookings: seq<BookingResponse>, statusFilter: string, searchTerm: string): (r: seq<BookingResponse>)
    ensures |r| <= |bookings|
    ensures statusFilter == ALL && searchTerm == "" ==> r == bookings
  {
    var byStatus := if statusFilter != ALL then Filter(bookings, StatusFilter(statusFilter)) else bookings;
    if searchTerm != "" then Filter(byStatus, NameFilter(searchTerm)) else byStatus
  }

  /** Reference definition: a booking is listed when it passes both active filters. */
  predicate Listed(b: BookingResponse, statusFilter: string, searchTerm: string) {
    && (statusFilter == ALL || b.status == statusFilter)
    && (searchTerm == "" || ContainsIgnoreCase(b.destination.name, searchTerm))
  }

  /**
   * The listed bookings are exactly the fetched ones passing both filters, each
   * as often as fetched, in fetched order.
   */
  lemma FiltersExact(bookings: seq<BookingResponse>, statusFilter: string, searchTerm: string, x: BookingResponse)
    ensures multiset(ApplyFilters(bookings, statusFilter, searchTerm))[x] ==
            if Listed(x, statusFilter, searchTerm) then multiset(bookings)[x] else 0
    ensures x in ApplyFilters(bookings, statusFilter, searchTerm) <==> x in bookings && Listed(x, statusFilter, searchTerm)
    ensures IsSubsequence(ApplyFilters(bookings, statusFilter, searchTerm), bookings)
  {
    var byStatus := if statusFilter != ALL then Filter(bookings, StatusFilter(statusFilter)) else bookings;
    if statusFilter != ALL {
      FilterMultiplicity(bookings, StatusFilter(statusFilter), x);
      FilterIsSubsequence(bookings, StatusFilter(statusFilter));
    } else {
      SubsequenceReflexive(bookings);
    }
    if searchTerm != "" {
      FilterMultiplicity(byStatus, NameFilter(searchTerm), x);
      FilterIsSubsequence(byStatus, NameFilter(searchTerm));
      SubsequenceTransitive(Filter(byStatus, NameFilter(searchTerm)), byStatus, bookings);
    }
  }

  /** "ALL" with an empty search lists every fetched booking, in fetched order. */
  lemma NoFiltersListsAll(bookings: seq<BookingResponse>)
    ensures ApplyFilters(bookings, ALL, "") == bookings
  {
  }

  /** A counter card: `bookings.filter(b => b.status === status).length`. */
  function StatusCount(bookings: seq<BookingResponse>, status: string): (n: nat)
    ensures n <= |bookings|
  {
    Count(bookings, StatusFilter(status))
  }

  /** A counter equals the length of the list shown when filtering by that status alone. */
  lemma CounterMatchesFilter(bookings: seq<BookingResponse>, status: string)
    requires status != ALL
    ensures StatusCount(bookings, status) == |ApplyFilters(bookings, status, "")|
  {
  }

  /** When every booking has one of the three statuses, the three counters add up to the total. */
  lemma {:induction false} CountersSumToTotal(bookings: seq<BookingResponse>)
    requires forall i :: 0 <= i < |bookings| ==> IsKnownStatus(bookings[i].status)
    ensures StatusCount(bookings, CONFIRMED) + StatusCount(bookings, PENDING) + StatusCount(bookings, CANCELLED)
            == |bookings|
    decreases |bookings|
  {
    if |bookings| > 0 {
      var b, rest := bookings[0], bookings[1..];
      assert bookings == [b] + rest;
      CountersSumToTotal(rest);
      FilterCons(b, rest, StatusFilter(CONFIRMED));
      FilterCons(b, rest, StatusFilter(PENDING));
      FilterCons(b, rest, StatusFilter(CANCELLED));
    }
  }

  /** The status-change buttons of one booking, in the page's order: Confirm, Cancel, Set Pending. */
  function StatusActions(status: string): (r: seq<string>)
    ensures forall t :: t in r <==> IsKnownStatus(t) && t != status
    ensures |r| == if IsKnownStatus(status) then 2 else 3
  {
    (if status != CONFIRMED then [CONFIRMED] else []) +
    (if status != CANCELLED then [CANCELLED] else []) +
    (if status != PENDING then [PENDING] else [])
  }

  const GrayHex: string := "#6c757d"

  /** The admin badge colour, gray for a status the server is not known to send. */
  function StatusColor(status: string): (r: string)
    ensures IsKnownStatus(status) <==> r != GrayHex
  {
    if status == CONFIRMED then "#28a745"
    else if status == CANCELLED then "#dc3545"
    else if status == PENDING then "#ffc107"
    else GrayHex
  }

  lemma StatusColorDistinct(s: string, t: string)
    requires IsKnownStatus(s) && IsKnownStatus(t) && s != t
    ensures StatusColor(s) != StatusColor(t)
  {
  }

  /** A status change the page asked the server for. */
  datatype StatusChange = StatusChange(bookingId: int, status: string)

  /** The page's list state. */
  class AdminBookingsPage {
    var bookings: seq<BookingResponse>
    var filteredBookings: seq<BookingResponse>
    var loading: bool
    var error: string
    var statusFilter: string
    var searchTerm: string

    /** The filter effect has run since the last change of its inputs. */
    ghost predicate Valid()
      reads this
    {
      filteredBookings == ApplyFilters(bookings, statusFilter, searchTerm)
    }

    constructor ()
      ensures Valid()
      ensures bookings == [] && filteredBookings == [] && loading && error == ""
      ensures statusFilter == ALL && searchTerm == ""
    {
      bookings := [];
      filteredBookings := [];
      loading := true;
      error := "";
      statusFilter := ALL;
      searchTerm := "";
    }

    /** `fetchBookings`: the fetched list or the error text; loading stops; the effect re-runs. */
    method FetchBookings(response: Result<seq<BookingResponse>, string>)
      requires Valid()
      modifies this
      ensures Valid()
      ensures !loading && statusFilter == old(statusFilter) && searchTerm == old(searchTerm)
      ensures response.Success? ==> bookings == response.value && error == old(error)
      ensures response.Failure? ==>
                bookings == old(bookings) && error == ErrorText(response.error, "Failed to load bookings")
    {
      if response.Success? {
        bookings := response.value;
      } else {
        error := ErrorText(response.error, "Failed to load bookings");
      }
      loading := false;
      filteredBookings := ApplyFilters(bookings, statusFilter, searchTerm);
    }

    /** A change of the status selector or of the search box. */
    method SetFilters(status: string, term: string)
      requires Valid()
      modifies this
      ensures Valid()
      ensures statusFilter == status && searchTerm == term
      ensures bookings == old(bookings) && loading == old(loading) && error == old(error)
    {
      statusFilter, searchTerm := status, term;
      filteredBookings := ApplyFilters(bookings, statusFilter, searchTerm);
    }

    /**
     * `handleUpdateStatus`: nothing unless the prompt is accepted; then the
     * update request, then either an alert and a refetch or an alert with the
     * error. `updated` is the server's answer, `refetched` the list call that
     * follows a success.
     */
    method HandleUpdateStatus(bookingId: int, newStatus: string, confirmed: bool, updated: Outcome,
                              refetched: Result<seq<BookingResponse>, string>)
      returns (request: Option<StatusChange>, refetch: bool, alert: Option<string>)
      requires Valid()
      requires IsKnownStatus(newStatus)
      modifies this
      ensures Valid()
      ensures statusFilter == old(statusFilter) && searchTerm == old(searchTerm)
      ensures request == (if confirmed then Some(StatusChange(bookingId, newStatus)) else None)
      ensures refetch <==> confirmed && updated.Resolved?
      ensures !refetch ==> bookings == old(bookings) && error == old(error) && loading == old(loading)
      ensures !confirmed ==> alert == None
      ensures refetch ==>
                alert == Some("Booking status updated to " + newStatus) && !loading &&
                (refetched.Success? ==> bookings == refetched.value && error == old(error)) &&
                (refetched.Failure? ==> bookings == old(bookings) &&
                                        error == ErrorText(refetched.error, "Failed to load bookings"))
      ensures confirmed && updated.Rejected? ==>
                alert == Some(ErrorText(updated.message, "Failed to update booking status"))
    {
      if !confirmed {
        return None, false, None;
      }
      request := Some(StatusChange(bookingId, newStatus));
      if updated.Resolved? {
        alert := Some("Booking status updated to " + newStatus);
        FetchBookings(refetched);
        refetch := true;
      } else {
        alert := Some(ErrorText(updated.message, "Failed to update booking status"));
        refetch := false;
      }
    }
  }
}
