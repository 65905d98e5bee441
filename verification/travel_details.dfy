/**
 * The destination page (frontend/src/pages/TravelDetails.tsx): the loaded
 * destination, the traveller counter that starts at one, the displayed total
 * and the "Book Now" navigation that carries the count to the booking form.
 */
module TravelDetails {
  import opened Common
  import opened Types
  import Travelers

  /** `navigate('/booking/' + id, { state: { travelers } })`. */
  datatype BookNow = BookNow(destinationId: int, travelers: int)

  class TravelDetailsPage {
    var destination: Option<Destination>
    var loading: bool
    var error: string
    var travelers: int

    /** Every way of changing the count keeps it within 1..10. */
    ghost predicate Valid()
      reads this
    {
      Travelers.InRange(travelers)
    }

    constructor ()
      ensures Valid()
      ensures destination == None && loading && error == "" && travelers == 1
    {
      destination := None;
      loading := true;
      error := "";
      travelers := 1;
    }

    method FetchDestination(response: Result<Destination, string>)
      requires Valid()
      modifies this
      ensures Valid() && !loading && travelers == old(travelers)
      ensures response.Success? ==> destination == Some(response.value) && error == old(error)
      ensures response.Failure? ==>
                destination == old(destination) && error == ErrorText(response.error, "Failed to load destination")
    {
      if response.Success? {
        destination := Some(response.value);
      } else {
        error := ErrorText(response.error, "Failed to load destination");
      }
      loading := false;
    }

    method DecrementTravelers()
      requires Valid()
      modifies this
      ensures Valid() && travelers == Travelers.Decrement(old(travelers))
      ensures destination == old(destination) && error == old(error) && loading == old(loading)
    {
      travelers := Travelers.Decrement(travelers);
    }

    method IncrementTravelers()
      requires Valid()
      modifies this
      ensures Valid() && travelers == Travelers.Increment(old(travelers))
      ensures destination == old(destination) && error == old(error) && loading == old(loading)
    {
      travelers := Travelers.Increment(travelers);
    }

    method TypeTravelers(value: int)
      requires Valid()
      modifies this
      ensures Valid() && travelers == Travelers.Clamp(value)
      ensures destination == old(destination) && error == old(error) && loading == old(loading)
    {
      travelers := Travelers.Clamp(value);
    }

    /** The total, shown only once a destination has loaded. */
    function TotalPrice(): (r: int)
      requires destination.Some?
      reads this
      ensures r == Travelers.TotalPrice(destination.value.price, travelers)
      ensures travelers == 1 ==> r == destination.value.price
    {
      destination.value.price * travelers
    }

    /**
     * `handleBookNow`: with a destination, navigate to its booking form with
     * the current count, which that form then starts from unchanged.
     */
    method HandleBookNow() returns (nav: Option<BookNow>)
      requires Valid()
      ensures nav.Some? <==> destination.Some?
      ensures nav.Some? ==> nav.value == BookNow(destination.value.id, travelers)
      ensures nav.Some? ==> Travelers.Initial(Some(nav.value.travelers)) == travelers
    {
      if destination.Some? {
        Travelers.HandOffKeepsCount(travelers);
        nav := Some(BookNow(destination.value.id, travelers));
      } else {
        nav := None;
      }
    }
  }
}
