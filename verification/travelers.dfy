/**
 * The traveller counter shared by the destination page and the booking form
 * (frontend/src/pages/TravelDetails.tsx, frontend/src/pages/BookingForm.tsx):
 * the minus and plus buttons, the typed value and the hand-off between pages.
 * The range 1..10 is enforced only here; the server checks only positivity.
 */
module Travelers {
  import opened Common

  const MinTravelers: int := 1
  const MaxTravelers: int := 10

  predicate InRange(t: int) {
    MinTravelers <= t <= MaxTravelers
  }

  /** The minus button: `Math.max(1, travelers - 1)`. */
  function Decrement(t: int): (r: int)
    ensures r >= MinTravelers
    ensures t > MinTravelers ==> r == t - 1
    ensures InRange(t) ==> InRange(r)
  {
    if t - 1 > MinTravelers then t - 1 else MinTravelers
  }

  /** The plus button: `Math.min(10, travelers + 1)`. */
  function Increment(t: int): (r: int)
    ensures r <= MaxTravelers
    ensures t < MaxTravelers ==> r == t + 1
    ensures InRange(t) ==> InRange(r)
  {
    if t + 1 < MaxTravelers then t + 1 else MaxTravelers
  }

  /** The number box: `Math.min(10, Math.max(1, value))`; a typed value in range is kept as typed. */
  function Clamp(v: int): (r: int)
    ensures InRange(r)
    ensures InRange(v) ==> r == v
    ensures v < MinTravelers ==> r == MinTravelers
    ensures v > MaxTravelers ==> r == MaxTravelers
  {
    if v < MinTravelers then MinTravelers else if v > MaxTravelers then MaxTravelers else v
  }

  /** Minus undoes plus and plus undoes minus away from the ends of the range. */
  lemma StepsUndoEachOther(t: int)
    ensures MinTravelers <= t < MaxTravelers ==> Decrement(Increment(t)) == t
    ensures MinTravelers < t <= MaxTravelers ==> Increment(Decrement(t)) == t
  {
  }

  /** At the ends of the range the buttons do nothing. */
  lemma StepsSaturate()
    ensures Decrement(MinTravelers) == MinTravelers
    ensures Increment(MaxTravelers) == MaxTravelers
  {
  }

  /**
   * The booking form's initial count: `location.state?.travelers || 1`, so a
   * missing or zero value becomes 1 and any other value is taken as sent.
   */
  function Initial(fromNavigation: Option<int>): (r: int)
    ensures fromNavigation.None? ==> r == 1
    ensures fromNavigation == Some(0) ==> r == 1
    ensures fromNavigation.Some? && fromNavigation.value != 0 ==> r == fromNavigation.value
  {
    if fromNavigation.None? || fromNavigation.value == 0 then 1 else fromNavigation.value
  }

  /** A count chosen on the destination page arrives unchanged in the booking form. */
  lemma HandOffKeepsCount(t: int)
    requires InRange(t)
    ensures Initial(Some(t)) == t
  {
  }

  /** Price per person times travellers, as both pages display it. */
  function TotalPrice(price: int, travelers: int): (r: int)
    ensures travelers == 1 ==> r == price
    ensures price >= 0 && travelers >= 0 ==> r >= 0
  {
    price * travelers
  }

  /** Below the cap, each press of the plus button adds exactly one price per person to the total. */
  lemma IncrementAddsOnePrice(price: int, t: int)
    requires MinTravelers <= t < MaxTravelers
    ensures TotalPrice(price, Increment(t)) == TotalPrice(price, t) + price
    ensures TotalPrice(price, Decrement(Increment(t))) == TotalPrice(price, t)
  {
  }

  /** One price per person for each of `n` travellers, added up one traveller at a time. */
  function PricePerHead(price: int, n: nat): int {
    if n == 0 then 0 else PricePerHead(price, n - 1) + price
  }

  /** The displayed total is one price per person for every traveller counted. */
  lemma {:induction false} TotalPriceCountsEveryTraveller(price: int, n: nat)
    ensures TotalPrice(price, n) == PricePerHead(price, n)
  {
    if n > 0 {
      TotalPriceCountsEveryTraveller(price, n - 1);
      assert TotalPrice(price, n) == TotalPrice(price, n - 1) + price;
    }
  }
}
