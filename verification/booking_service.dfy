/**
 * The server's booking operations
 * (src/main/java/com/travelapp/travelplanner/booking/service/BookingService.java):
 * request validation, creation, the owner's and the administrator's
 * listings, lookup, cancellation and status changes.
 */
module BookingService {
  import opened Common
  import opened Entities
  import opened Tables
  import opened Database

  /** The guard clauses of `createBooking`, in their order; `None` when the request passes them all. */
  function Validate(req: BookingRequest): (r: Option<Error>)
    ensures r.Some? ==> r.value.BadRequest?
    ensures req.startDate.Some? && req.endDate.Some? && req.startDate.value > req.endDate.value ==> r.Some?
  {
    if req.destinationId.None? then Some(BadRequest("destinationId is required"))
    else if req.startDate.None? || req.endDate.None? then Some(BadRequest("startDate and endDate are required"))
    else if req.startDate.value > req.endDate.value then Some(BadRequest("startDate must be before endDate"))
    else if req.travelers.None? || req.travelers.value <= 0 then Some(BadRequest("travelers must be > 0"))
    else None
  }

  /** A request the server accepts: every field present, the start not after the end, at least one traveller. */
  predicate WellFormed(req: BookingRequest) {
    req.destinationId.Some? && req.startDate.Some? && req.endDate.Some? && req.travelers.Some? &&
    req.startDate.value <= req.endDate.value && req.travelers.value > 0
  }

  /** Validation accepts exactly the well-formed requests and otherwise fails with a bad request. */
  lemma ValidateExact(req: BookingRequest)
    ensures Validate(req).None? <==> WellFormed(req)
    ensures Validate(req).Some? ==> Validate(req).value.BadRequest?
  {
  }

  /**
   * `isAfter` lets a trip start and end on the same day, and there is no
   * upper bound on travellers: eleven travellers pass although the client
   * never offers more than ten.
   */
  lemma ValidationBoundaries(destinationId: int, day: int, travelers: int)
    requires travelers > 0
    ensures Validate(BookingRequest(Some(destinationId), Some(day), Some(day), Some(travelers))).None?
    ensures Validate(BookingRequest(Some(destinationId), Some(day), Some(day), Some(11))).None?
    ensures Validate(BookingRequest(Some(destinationId), Some(day + 1), Some(day), Some(travelers))) ==
              Some(BadRequest("startDate must be before endDate"))
  {
  }

  /** `toResponse`: the booking with its destination row resolved. */
  function ToResponse(db: Db, b: Booking): (r: BookingResponse)
    requires b.destinationId in db.destinations
    reads db
    ensures r.id == b.id && r.destination == db.destinations[b.destinationId]
    ensures r.status == b.status && r.travelers == b.travelers
    ensures r.startDate == b.startDate && r.endDate == b.endDate && r.createdAt == b.createdAt
  {
    BookingResponse(b.id, db.destinations[b.destinationId], b.startDate, b.endDate, b.travelers, b.status, b.createdAt)
  }

  /** The booking `createBooking` stores for a request that passed validation. */
  function NewBooking(id: int, userId: int, req: BookingRequest, now: int): (b: Booking)
    requires WellFormed(req)
    ensures b.status == PENDING && b.userId == userId && b.id == id && b.destinationId == req.destinationId.value
    ensures b.travelers == req.travelers.value > 0 && b.startDate <= b.endDate
    ensures b.startDate == req.startDate.value && b.endDate == req.endDate.value && b.createdAt == now
  {
    Booking(id, userId, req.destinationId.value, req.startDate.value, req.endDate.value, req.travelers.value, PENDING, now)
  }

  /**
   * `createBooking`: validation first, then the user and the destination must
   * exist; the stored booking is PENDING and stamped with `now`.
   */
  method CreateBooking(db: Db, userId: int, req: BookingRequest, now: int) returns (r: Result<BookingResponse, Error>)
    requires db.Valid()
    modifies db
    ensures db.Valid()
    ensures db.users == old(db.users) && db.destinations == old(db.destinations) && db.favorites == old(db.favorites)
    ensures Validate(req).Some? ==> r == Failure(Validate(req).value)
    ensures WellFormed(req) && userId !in old(db.users) ==> r == Failure(NotFound("User not found"))
    ensures WellFormed(req) && userId in old(db.users) && req.destinationId.value !in old(db.destinations) ==>
              r == Failure(NotFound("Destination not found"))
    ensures r.Success? <==>
              WellFormed(req) && userId in old(db.users) && req.destinationId.value in old(db.destinations)
    ensures r.Failure? ==> db.bookings == old(db.bookings) && db.nextId == old(db.nextId)
    ensures r.Success? ==>
              old(db.nextId) !in old(db.bookings) &&
              db.bookings == old(db.bookings)[old(db.nextId) := NewBooking(old(db.nextId), userId, req, now)] &&
              r.value == ToResponse(db, NewBooking(old(db.nextId), userId, req, now)) &&
              db.nextId == old(db.nextId) + 1
  {
    var invalid := Validate(req);
    if invalid.Some? {
      return Failure(invalid.value);
    }
    ValidateExact(req);
    if userId !in db.users {
      return Failure(NotFound("User not found"));
    }
    if req.destinationId.value !in db.destinations {
      return Failure(NotFound("Destination not found"));
    }
    var id := db.nextId;
    var booking := NewBooking(id, userId, req, now);
    db.bookings := db.bookings[id := booking];
    db.nextId := id + 1;
    r := Success(ToResponse(db, booking));
  }

  /** Ids of stored bookings, each stored under its own id and referring to a stored destination. */
  predicate Listable(db: Db, ks: seq<int>)
    reads db
  {
    forall i :: 0 <= i < |ks| ==>
      ks[i] in db.bookings && db.bookings[ks[i]].id == ks[i] &&
      db.bookings[ks[i]].destinationId in db.destinations
  }

  lemma SelectedListable(db: Db, ks: seq<int>)
    requires db.Valid()
    requires forall k :: k in ks ==> k in db.bookings
    ensures Listable(db, ks)
  {
    forall i | 0 <= i < |ks| ensures ks[i] in db.bookings {
      var k := ks[i];
      assert k in ks;
      assert k in db.bookings;
    }
  }

  /** The responses for the given booking ids, in that order. */
  function Responses(db: Db, ks: seq<int>): (rs: seq<BookingResponse>)
    requires Listable(db, ks)
    reads db
    ensures |rs| == |ks|
    ensures forall i :: 0 <= i < |ks| ==> rs[i] == ToResponse(db, db.bookings[ks[i]]) && rs[i].id == ks[i]
  {
    if |ks| == 0 then [] else [ToResponse(db, db.bookings[ks[0]])] + Responses(db, ks[1..])
  }

  predicate OwnedBy(b: Booking, userId: int) {
    b.userId == userId
  }

  /**
   * `getUserBookings`: every booking of the user exactly once and nothing
   * else. An unknown user simply has none.
   */
  method GetUserBookings(db: Db, userId: int) returns (rs: seq<BookingResponse>)
    requires db.Valid()
    ensures forall i :: 0 <= i < |rs| ==>
              rs[i].id in db.bookings && OwnedBy(db.bookings[rs[i].id], userId) &&
              rs[i] == ToResponse(db, db.bookings[rs[i].id])
    ensures forall k :: k in db.bookings && OwnedBy(db.bookings[k], userId) ==>
              exists i :: 0 <= i < |rs| && rs[i].id == k
    ensures forall i, j :: 0 <= i < j < |rs| ==> rs[i].id != rs[j].id
  {
    var ks := Select(db.bookings, (b: Booking) => OwnedBy(b, userId));
    SelectedListable(db, ks);
    rs := Responses(db, ks);
    forall k | k in db.bookings && OwnedBy(db.bookings[k], userId)
      ensures exists i :: 0 <= i < |rs| && rs[i].id == k
    {
      var i :| 0 <= i < |ks| && ks[i] == k;
      assert rs[i].id == k;
    }
  }

  /** `getAllBookings`: every booking exactly once. */
  method GetAllBookings(db: Db) returns (rs: seq<BookingResponse>)
    requires db.Valid()
    ensures forall i :: 0 <= i < |rs| ==> rs[i].id in db.bookings && rs[i] == ToResponse(db, db.bookings[rs[i].id])
    ensures forall k :: k in db.bookings ==> exists i :: 0 <= i < |rs| && rs[i].id == k
    ensures forall i, j :: 0 <= i < j < |rs| ==> rs[i].id != rs[j].id
    ensures |rs| == |db.bookings|
  {
    var ks := Select(db.bookings, (b: Booking) => true);
    SelectedListable(db, ks);
    rs := Responses(db, ks);
    forall k | k in db.bookings
      ensures exists i :: 0 <= i < |rs| && rs[i].id == k
    {
      var i :| 0 <= i < |ks| && ks[i] == k;
      assert rs[i].id == k;
    }
    DistinctKeysCoverTable(ks, db.bookings);
  }

  /** A duplicate-free listing of exactly a table's ids has one entry per row. */
  lemma {:induction false} DistinctKeysCoverTable<R>(ks: seq<int>, table: map<int, R>)
    requires Distinct(ks)
    requires forall k :: k in ks <==> k in table
    ensures |ks| == |table|
    decreases |ks|
  {
    if |ks| == 0 {
      assert table.Keys == {} by {
        assert forall k :: k in table.Keys <==> k in ks;
      }
    } else {
      var rest := map k | k in table && k != ks[0] :: table[k];
      assert table.Keys == rest.Keys + {ks[0]};
      forall k ensures k in ks[1..] <==> k in rest {
        if k in ks[1..] {
          var j :| 0 <= j < |ks[1..]| && ks[1..][j] == k;
          assert ks[j + 1] == k;
        }
        if k in rest {
          assert k in ks;
          var j :| 0 <= j < |ks| && ks[j] == k;
          assert j != 0;
          assert ks[1..][j - 1] == k;
        }
      }
      DistinctKeysCoverTable(ks[1..], rest);
    }
  }

  /**
   * `getUserBooking`: the booking when it exists and belongs to the user;
   * not found, or refused for someone else's booking.
   */
  function GetUserBooking(db: Db, userId: int, bookingId: int): (r: Result<BookingResponse, Error>)
    requires db.Valid()
    reads db
    ensures r.Success? <==> bookingId in db.bookings && OwnedBy(db.bookings[bookingId], userId)
    ensures r.Success? ==> r.value.id == bookingId && r.value == ToResponse(db, db.bookings[bookingId])
    ensures bookingId !in db.bookings ==> r == Failure(NotFound("Booking not found"))
    ensures bookingId in db.bookings && !OwnedBy(db.bookings[bookingId], userId) ==>
              r == Failure(BadRequest("You cannot access someone else's booking"))
  {
    if bookingId !in db.bookings then Failure(NotFound("Booking not found"))
    else if !OwnedBy(db.bookings[bookingId], userId) then Failure(BadRequest("You cannot access someone else's booking"))
    else Success(ToResponse(db, db.bookings[bookingId]))
  }

  /**
   * `cancelBooking`: the owner may cancel a booking in any status, including
   * one already cancelled or confirmed; only the status changes.
   */
  method CancelBooking(db: Db, userId: int, bookingId: int) returns (r: Result<(), Error>)
    requires db.Valid()
    modifies db
    ensures db.Valid()
    ensures r.Success? <==> bookingId in old(db.bookings) && OwnedBy(old(db.bookings)[bookingId], userId)
    ensures bookingId !in old(db.bookings) ==> r == Failure(NotFound("Booking not found"))
    ensures bookingId in old(db.bookings) && !OwnedBy(old(db.bookings)[bookingId], userId) ==>
              r == Failure(BadRequest("You cannot cancel someone else's booking"))
    ensures r.Success? ==> db.bookings == old(db.bookings)[bookingId := old(db.bookings)[bookingId].(status := CANCELLED)]
    ensures r.Failure? ==> db.bookings == old(db.bookings)
    ensures db.users == old(db.users) && db.destinations == old(db.destinations)
    ensures db.favorites == old(db.favorites) && db.nextId == old(db.nextId)
  {
    if bookingId !in db.bookings {
      return Failure(NotFound("Booking not found"));
    }
    var booking := db.bookings[bookingId];
    if !OwnedBy(booking, userId) {
      return Failure(BadRequest("You cannot cancel someone else's booking"));
    }
    db.bookings := db.bookings[bookingId := booking.(status := CANCELLED)];
    r := Success(());
  }

  /**
   * `updateStatus`: any booking may be moved to any status, with no
   * transition rules and no ownership check (the route is for administrators).
   */
  method UpdateStatus(db: Db, bookingId: int, status: BookingStatus) returns (r: Result<BookingResponse, Error>)
    requires db.Valid()
    modifies db
    ensures db.Valid()
    ensures r.Success? <==> bookingId in old(db.bookings)
    ensures r.Failure? ==> r == Failure(NotFound("Booking not found")) && db.bookings == old(db.bookings)
    ensures r.Success? ==>
              db.bookings == old(db.bookings)[bookingId := old(db.bookings)[bookingId].(status := status)] &&
              r.value == ToResponse(db, db.bookings[bookingId]) && r.value.status == status
    ensures db.users == old(db.users) && db.destinations == old(db.destinations)
    ensures db.favorites == old(db.favorites) && db.nextId == old(db.nextId)
  {
    if bookingId !in db.bookings {
      return Failure(NotFound("Booking not found"));
    }
    var updated := db.bookings[bookingId].(status := status);
    db.bookings := db.bookings[bookingId := updated];
    r := Success(ToResponse(db, updated));
  }

  /** After a successful cancel the owner's lookup shows the booking as cancelled, with nothing else changed. */
  lemma CancelledBookingReadsBack(db: Db, userId: int, bookingId: int, before: Booking)
    requires db.Valid()
    requires bookingId in db.bookings && db.bookings[bookingId] == before.(status := CANCELLED)
    requires OwnedBy(before, userId)
    ensures GetUserBooking(db, userId, bookingId).Success?
    ensures GetUserBooking(db, userId, bookingId).value.status == CANCELLED
    ensures GetUserBooking(db, userId, bookingId).value.travelers == before.travelers
  {
  }
}
