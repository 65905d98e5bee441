/**
 * The traveller's own bookings page (frontend/src/pages/MyBookings.tsx):
 * which actions a booking offers, how its status is shown, its total price,
 * and the confirm-then-cancel handler.
 */
module MyBookings {
  import opened Common
  import opened Types
  import Travelers

  /** The "Cancel Booking" button is rendered for this status. */
  predicate ShowsCancel(status: string) {
    status == PENDING
  }

  /** The "Confirmed" marker is rendered for this status. */
  predicate ShowsConfirmedMarker(status: string) {
    status == CONFIRMED
  }

  /**
   * What the booking card offers: a pending booking only the cancel button, a
   * confirmed one only the marker, a cancelled or unknown one neither.
   */
  lemma BookingControls(status: string)
    ensures !(ShowsCancel(status) && ShowsConfirmedMarker(status))
    ensures ShowsCancel(status) <==> status == PENDING
    ensures ShowsConfirmedMarker(status) <==> status == CONFIRMED
    ensures status == CANCELLED ==> !ShowsCancel(status) && !ShowsConfirmedMarker(status)
  {
  }

  /** The displayed total: price per person times travellers. */
  function TotalPrice(b: BookingResponse): (r: int)
    ensures r == Travelers.TotalPrice(b.destination.price, b.travelers)
    ensures b.travelers == 1 ==> r == b.destination.price
    ensures b.travelers >= 0 && b.destination.price >= 0 ==> r >= 0
  {
    b.destination.price * b.travelers
  }

  const GrayBadge: string := "bg-gray-100 text-gray-800 dark:bg-gray-900/30 dark:text-gray-400"

  /** Badge classes per status, gray for any status the server is not known to send. */
  function StatusColor(status: string): (r: string)
    ensures IsKnownStatus(status) <==> r != GrayBadge
  {
    if status == CONFIRMED then "bg-green-100 text-green-800 dark:bg-green-900/30 dark:text-green-400"
    else if status == CANCELLED then "bg-red-100 text-red-800 dark:bg-red-900/30 dark:text-red-400"
    else if status == PENDING then "bg-yellow-100 text-yellow-800 dark:bg-yellow-900/30 dark:text-yellow-400"
    else GrayBadge
  }

  /** Status icon; the admin page uses the same mapping. */
  function StatusIcon(status: string): (r: string)
    ensures IsKnownStatus(status) <==> r != "📋"
  {
    if status == CONFIRMED then "✅"
    else if status == CANCELLED then "❌"
    else if status == PENDING then "⏳"
    else "📋"
  }

  /** Distinct known statuses are told apart by both colour and icon. */
  lemma StatusDisplayDistinct(s: string, t: string)
    requires IsKnownStatus(s) && IsKnownStatus(t) && s != t
    ensures StatusColor(s) != StatusColor(t)
    ensures StatusIcon(s) != StatusIcon(t)
  {
  }

  /** The page's list state. */
  class MyBookingsPage {
    var bookings: seq<BookingResponse>
    var loading: bool
    var error: string

    constructor ()
      ensures bookings == [] && loading && error == ""
    {
      bookings := [];
      loading := true;
      error := "";
    }

    /** `fetchBookings`: the fetched list, or the error text; loading stops either way. */
    method FetchBookings(response: Result<seq<BookingResponse>, string>)
      modifies this
      ensures !loading
      ensures response.Success? ==> bookings == response.value && error == old(error)
      ensures response.Failure? ==>
                bookings == old(bookings) && error == ErrorText(response.error, "Failed to load bookings")
    {
      if response.Success? {
        bookings := response.value;
      } else {
        error := ErrorText(response.error, "Failed to load bookings");
      }
      loading := false;
    }

    /**
     * `handleCancelBooking`: nothing unless the prompt is accepted; then the
     * cancel request, then either an alert and a refetch, or an alert with the
     * error. `cancelled` is the server's answer, `refetched` the list call that
     * follows a success. Returns the booking id whose cancel was requested,
     * whether the list was fetched again, and the alert shown.
     */
    method HandleCancelBooking(bookingId: int, confirmed: bool, cancelled: Outcome,
                               refetched: Result<seq<BookingResponse>, string>)
      returns (request: Option<int>, refetch: bool, alert: Option<string>)
      modifies this
      ensures request == (if confirmed then Some(bookingId) else None)
      ensures refetch <==> confirmed && cancelled.Resolved?
      ensures !refetch ==> bookings == old(bookings) && error == old(error) && loading == old(loading)
      ensures !confirmed ==> alert == None
      ensures refetch ==>
                alert == Some("Booking cancelled successfully") && !loading &&
                (refetched.Success? ==> bookings == refetched.value && error == old(error)) &&
                (refetched.Failure? ==> bookings == old(bookings) &&
                                        error == ErrorText(refetched.error, "Failed to load bookings"))
      ensures confirmed && cancelled.Rejected? ==>
                alert == Some(ErrorText(cancelled.message, "Failed to cancel booking"))
    {
      if !confirmed {
        return None, false, None;
      }
      request := Some(bookingId);
      if cancelled.Resolved? {
        alert := Some("Booking cancelled successfully");
        FetchBookings(refetched);
        refetch := true;
      } else {
        alert := Some(ErrorText(cancelled.message, "Failed to cancel booking"));
        refetch := false;
      }
    }
  }
}
