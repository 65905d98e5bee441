/**
 * The booking form (frontend/src/pages/BookingForm.tsx): the destination
 * being booked, the traveller counter seeded from the previous page, the
 * start date, and the submit handler that posts the booking request.
 */
module BookingForm {
  import opened Common
  import opened Types
  import Travelers

  class BookingFormPage {
    /** `Number(id)` from the route. */
    const routeId: int
    var destination: Option<Destination>
    var loading: bool
    var submitting: bool
    var error: string
    var success: bool
    var travelers: int
    var startDate: string

    /** Initial state; `fromNavigation` is `location.state?.travelers`. */
    constructor (routeId: int, fromNavigation: Option<int>)
      ensures this.routeId == routeId
      ensures travelers == Travelers.Initial(fromNavigation)
      ensures destination == None && loading && !submitting && error == "" && !success && startDate == ""
    {
      this.routeId := routeId;
      destination := None;
      loading := true;
      submitting := false;
      error := "";
      success := false;
      travelers := Travelers.Initial(fromNavigation);
      startDate := "";
    }

    /** `fetchDestination(Number(id))`: the destination or the error text; loading stops either way. */
    method FetchDestination(response: Result<Destination, string>)
      modifies this
      ensures !loading
      ensures response.Success? ==> destination == Some(response.value) && error == old(error)
      ensures response.Failure? ==>
                destination == old(destination) && error == ErrorText(response.error, "Failed to load destination")
      ensures travelers == old(travelers) && startDate == old(startDate) && success == old(success)
      ensures submitting == old(submitting)
    {
      if response.Success? {
        destination := Some(response.value);
      } else {
        error := ErrorText(response.error, "Failed to load destination");
      }
      loading := false;
    }

    method SetStartDate(date: string)
      modifies this
      ensures startDate == date
      ensures travelers == old(travelers) && destination == old(destination) && error == old(error)
      ensures success == old(success) && submitting == old(submitting) && loading == old(loading)
    {
      startDate := date;
    }

    /** The minus button. */
    method DecrementTravelers()
      modifies this
      ensures travelers == Travelers.Decrement(old(travelers))
      ensures startDate == old(startDate) && destination == old(destination) && error == old(error)
      ensures success == old(success) && submitting == old(submitting) && loading == old(loading)
    {
      travelers := Travelers.Decrement(travelers);
    }

    /** The plus button. */
    method IncrementTravelers()
      modifies this
      ensures travelers == Travelers.Increment(old(travelers))
      ensures startDate == old(startDate) && destination == old(destination) && error == old(error)
      ensures success == old(success) && submitting == old(submitting) && loading == old(loading)
    {
      travelers := Travelers.Increment(travelers);
    }

    /** The number box. */
    method TypeTravelers(value: int)
      modifies this
      ensures travelers == Travelers.Clamp(value)
      ensures startDate == old(startDate) && destination == old(destination) && error == old(error)
      ensures success == old(success) && submitting == old(submitting) && loading == old(loading)
    {
      travelers := Travelers.Clamp(value);
    }

    /** The total shown beside the form: zero until the destination has loaded. */
    function TotalPrice(): (r: int)
      reads this
      ensures destination.None? ==> r == 0
      ensures destination.Some? ==> r == Travelers.TotalPrice(destination.value.price, travelers)
    {
      if destination.Some? then Travelers.TotalPrice(destination.value.price, travelers) else 0
    }

    /**
     * `handleSubmit`. Without a start date nothing is sent and the form asks
     * for one. Otherwise the request carries the route's destination id, the
     * chosen start, the end date `endDateOf` computes from it (a week later in
     * the source) and the current count; `created` is the server's answer.
     * Returns the request that was sent, if any.
     */
    method HandleSubmit(endDateOf: string -> string, created: Outcome) returns (request: Option<BookingRequest>)
      modifies this
      ensures !submitting
      ensures startDate == "" ==> request == None && error == "Please select a start date" && success == old(success)
      ensures startDate != "" ==>
                request == Some(BookingRequest(routeId, startDate, endDateOf(startDate), travelers))
      ensures startDate != "" && created.Resolved? ==> success && error == ""
      ensures startDate != "" && created.Rejected? ==>
                success == old(success) && error == ErrorText(created.message, "Failed to create booking")
      ensures request.None? <==> startDate == ""
      ensures travelers == old(travelers) && startDate == old(startDate)
      ensures destination == old(destination) && loading == old(loading)
    {
      error := "";
      submitting := true;
      if startDate == "" {
        error := "Please select a start date";
        submitting := false;
        return None;
      }
      var endDate := endDateOf(startDate);
      request := Some(BookingRequest(routeId, startDate, endDate, travelers));
      if created.Resolved? {
        success := true;
      } else {
        error := ErrorText(created.message, "Failed to create booking");
      }
      submitting := false;
    }
  }

  /**
   * A count the form was opened with outside 1..10 is pulled back by the
   * buttons towards the range: the plus button lowers an oversized count to
   * the cap, the minus button raises one below 1 to 1, and a typed value
   * always lands inside.
   */
  lemma OutOfRangeCounts(t: int, typed: int)
    ensures Travelers.InRange(Travelers.Clamp(typed))
    ensures t > Travelers.MaxTravelers ==> Travelers.Increment(t) == Travelers.MaxTravelers < t
    ensures t < Travelers.MinTravelers ==> Travelers.Decrement(t) == Travelers.MinTravelers > t
  {
  }
}
