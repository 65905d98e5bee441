/**
 * The server's destination catalogue
 * (src/main/java/com/travelapp/travelplanner/destination/service/DestinationService.java):
 * listing, lookup, creation, update and deletion.
 */
module DestinationService {
  import opened Common
  import opened Text
  import opened Entities
  import opened Tables
  import opened Database

  /** The message of the not-found error, with the id rendered in decimal. */
  function NotFoundMessage(id: int): (m: string)
    ensures IsPrefix("Destination not found with id ", m)
    ensures m[|"Destination not found with id "|..] == IntToString(id)
  {
    "Destination not found with id " + IntToString(id)
  }

  /** `getDestination`: the stored destination, or not found with its id in the message. */
  function GetDestination(db: Db, id: int): (r: Result<Destination, Error>)
    requires db.Valid()
    reads db
    ensures r.Success? <==> id in db.destinations
    ensures r.Success? ==> r.value == db.destinations[id] && r.value.id == Some(id)
    ensures r.Failure? ==> r.error == NotFound(NotFoundMessage(id))
  {
    if id in db.destinations then Success(db.destinations[id]) else Failure(NotFound(NotFoundMessage(id)))
  }

  function Values(db: Db, ks: seq<int>): (ds: seq<Destination>)
    requires forall i :: 0 <= i < |ks| ==> ks[i] in db.destinations
    reads db
    ensures |ds| == |ks|
    ensures forall i :: 0 <= i < |ks| ==> ds[i] == db.destinations[ks[i]]
  {
    if |ks| == 0 then [] else [db.destinations[ks[0]]] + Values(db, ks[1..])
  }

  /** `getAllDestinations`: every stored destination exactly once. */
  method GetAllDestinations(db: Db) returns (ds: seq<Destination>)
    requires db.Valid()
    ensures forall i :: 0 <= i < |ds| ==>
              ds[i].id.Some? && ds[i].id.value in db.destinations && db.destinations[ds[i].id.value] == ds[i]
    ensures forall k :: k in db.destinations ==> db.destinations[k] in ds
    ensures forall i, j :: 0 <= i < j < |ds| ==> ds[i].id != ds[j].id
  {
    var ks := Select(db.destinations, (d: Destination) => true);
    forall i | 0 <= i < |ks| ensures ks[i] in db.destinations {
      var k := ks[i];
      assert k in ks;
    }
    ds := Values(db, ks);
    forall k | k in db.destinations ensures db.destinations[k] in ds {
      var i :| 0 <= i < |ks| && ks[i] == k;
      assert ds[i] == db.destinations[k];
    }
  }

  /** The content fields of two destinations agree; ids are not compared. */
  predicate SameContent(a: Destination, b: Destination) {
    a.(id := None) == b.(id := None)
  }

  /**
   * `createDestination`: any id the client sent is discarded and the row is
   * saved under a fresh id, so creation never overwrites an existing one.
   */
  method CreateDestination(db: Db, destination: Destination) returns (saved: Destination)
    requires db.Valid()
    modifies db
    ensures db.Valid()
    ensures saved.id == Some(old(db.nextId)) && old(db.nextId) !in old(db.destinations)
    ensures SameContent(saved, destination)
    ensures db.destinations == old(db.destinations)[old(db.nextId) := saved]
    ensures db.users == old(db.users) && db.bookings == old(db.bookings) && db.favorites == old(db.favorites)
    ensures db.nextId == old(db.nextId) + 1
  {
    var id := db.nextId;
    saved := destination.(id := Some(id));
    db.destinations := db.destinations[id := saved];
    db.nextId := id + 1;
  }

  /**
   * `updateDestination`: the six content fields are taken from `updated`,
   * while the stored row keeps its own id whatever `updated` carries.
   */
  method UpdateDestination(db: Db, id: int, updated: Destination) returns (r: Result<Destination, Error>)
    requires db.Valid()
    modifies db
    ensures db.Valid()
    ensures r.Success? <==> id in old(db.destinations)
    ensures r.Failure? ==> r.error == NotFound(NotFoundMessage(id)) && db.destinations == old(db.destinations)
    ensures r.Success? ==>
              r.value.id == Some(id) && SameContent(r.value, updated) &&
              db.destinations == old(db.destinations)[id := r.value]
    ensures db.users == old(db.users) && db.bookings == old(db.bookings) && db.favorites == old(db.favorites)
    ensures db.nextId == old(db.nextId)
  {
    var existing := GetDestination(db, id);
    if existing.Failure? {
      return Failure(existing.error);
    }
    var e := existing.value;
    var saved := e.(name := updated.name, country := updated.country, city := updated.city,
                    description := updated.description, imageUrl := updated.imageUrl, price := updated.price);
    db.destinations := db.destinations[id := saved];
    r := Success(saved);
  }

  /** Some booking or favorite still refers to the destination. */
  predicate Referenced(db: Db, id: int)
    reads db
  {
    (exists k :: k in db.bookings && db.bookings[k].destinationId == id) ||
    (exists k :: k in db.favorites && db.favorites[k].destinationId == id)
  }

  /**
   * `deleteDestination`: not found when absent; the database refuses the
   * delete while a booking or favorite still refers to the row.
   */
  method DeleteDestination(db: Db, id: int) returns (r: Result<(), Error>)
    requires db.Valid()
    modifies db
    ensures db.Valid()
    ensures id !in old(db.destinations) ==> r == Failure(NotFound(NotFoundMessage(id)))
    ensures id in old(db.destinations) && old(Referenced(db, id)) ==> r == Failure(IntegrityViolation)
    ensures r.Success? <==> id in old(db.destinations) && !old(Referenced(db, id))
    ensures r.Success? ==> db.destinations == old(db.destinations) - {id}
    ensures r.Failure? ==> db.destinations == old(db.destinations)
    ensures db.users == old(db.users) && db.bookings == old(db.bookings) && db.favorites == old(db.favorites)
    ensures db.nextId == old(db.nextId)
  {
    var existing := GetDestination(db, id);
    if existing.Failure? {
      return Failure(existing.error);
    }
    if Referenced(db, id) {
      return Failure(IntegrityViolation);
    }
    db.destinations := db.destinations - {id};
    r := Success(());
  }

  /** A created destination reads back with the content it was created with. */
  lemma CreatedReadsBack(db: Db, id: int, created: Destination, sent: Destination)
    requires db.Valid() && id in db.destinations && db.destinations[id] == created
    requires SameContent(created, sent)
    ensures GetDestination(db, id) == Success(created)
    ensures GetDestination(db, id).value.name == sent.name && GetDestination(db, id).value.price == sent.price
  {
    assert created.(id := None).name == sent.(id := None).name;
    assert created.(id := None).price == sent.(id := None).price;
  }
}
