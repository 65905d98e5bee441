/**
 * The server's favorites operations
 * (src/main/java/com/travelapp/travelplanner/favorites/service/FavoritesService.java):
 * adding a destination, listing a user's favorites, and the two ways of
 * removing one, by favorite id and by destination id.
 */
module FavoritesService {
  import opened Common
  import opened Entities
  import opened Tables
  import opened Database

  predicate Matches(f: Favorite, userId: int, destinationId: int) {
    f.userId == userId && f.destinationId == destinationId
  }

  /** `existsByUser_IdAndDestination_Id`. */
  predicate HasFavorite(favorites: map<int, Favorite>, userId: int, destinationId: int) {
    exists k :: k in favorites && Matches(favorites[k], userId, destinationId)
  }

  /** `findByUser_IdAndDestination_Id`: the id of the one row for this pair, if there is one. */
  function FindByUserAndDestination(favorites: map<int, Favorite>, userId: int, destinationId: int): (r: Option<int>)
    requires UniqueFavorites(favorites)
    ensures r.None? <==> !HasFavorite(favorites, userId, destinationId)
    ensures r.Some? ==> r.value in favorites && Matches(favorites[r.value], userId, destinationId)
  {
    if HasFavorite(favorites, userId, destinationId) then
      var k :| k in favorites && Matches(favorites[k], userId, destinationId); Some(k)
    else None
  }

  /**
   * The table after `removeFavoriteByDestination`: the user's row for the
   * destination deleted, or not found when there is none. Exactly that row
   * goes; every other row stays as it was.
   */
  function RemoveByDestination(favorites: map<int, Favorite>, userId: int, destinationId: int)
    : (r: Result<map<int, Favorite>, Error>)
    requires UniqueFavorites(favorites)
    ensures r.Failure? <==> !HasFavorite(favorites, userId, destinationId)
    ensures r.Failure? ==> r.error == NotFound("Favorite not found")
    ensures r.Success? ==> UniqueFavorites(r.value) && !HasFavorite(r.value, userId, destinationId)
    ensures r.Success? ==> forall k :: k in r.value <==> k in favorites && !Matches(favorites[k], userId, destinationId)
    ensures r.Success? ==> forall k :: k in r.value ==> r.value[k] == favorites[k]
  {
    match FindByUserAndDestination(favorites, userId, destinationId)
    case None => Failure(NotFound("Favorite not found"))
    case Some(k) => Success(favorites - {k})
  }

  /** Removing by destination twice: the second call finds nothing and fails. */
  lemma SecondRemoveFails(favorites: map<int, Favorite>, userId: int, destinationId: int)
    requires UniqueFavorites(favorites)
    requires RemoveByDestination(favorites, userId, destinationId).Success?
    ensures RemoveByDestination(RemoveByDestination(favorites, userId, destinationId).value, userId, destinationId)
              == Failure(NotFound("Favorite not found"))
  {
  }

  /** Adding a destination and then removing it by destination gives back the table as it was. */
  lemma AddThenRemove(favorites: map<int, Favorite>, id: int, userId: int, destinationId: int)
    requires UniqueFavorites(favorites)
    requires !HasFavorite(favorites, userId, destinationId) && id !in favorites
    ensures UniqueFavorites(favorites[id := Favorite(id, userId, destinationId)])
    ensures RemoveByDestination(favorites[id := Favorite(id, userId, destinationId)], userId, destinationId)
              == Success(favorites)
  {
    var added := favorites[id := Favorite(id, userId, destinationId)];
    assert Matches(added[id], userId, destinationId);
    var r := RemoveByDestination(added, userId, destinationId);
    assert r.Success?;
    assert r.value == favorites by {
      forall k ensures k in r.value <==> k in favorites {
        if k in favorites && k != id {
          assert !Matches(favorites[k], userId, destinationId);
        }
      }
    }
  }

  /**
   * `addFavorite`: the destination id is required, the pair must not be a
   * favorite yet, and the user and the destination must exist; the new row
   * is returned with its destination.
   */
  method AddFavorite(db: Db, userId: int, destinationId: Option<int>) returns (r: Result<FavoriteResponse, Error>)
    requires db.Valid()
    modifies db
    ensures db.Valid()
    ensures db.users == old(db.users) && db.destinations == old(db.destinations) && db.bookings == old(db.bookings)
    ensures destinationId.None? ==> r == Failure(BadRequest("destinationId is required"))
    ensures destinationId.Some? && HasFavorite(old(db.favorites), userId, destinationId.value) ==>
              r == Failure(BadRequest("Destination already in favorites"))
    ensures (destinationId.Some? && !HasFavorite(old(db.favorites), userId, destinationId.value) &&
             userId !in old(db.users)) ==> r == Failure(NotFound("User not found"))
    ensures (destinationId.Some? && !HasFavorite(old(db.favorites), userId, destinationId.value) &&
             userId in old(db.users) && destinationId.value !in old(db.destinations)) ==>
              r == Failure(NotFound("Destination not found"))
    ensures r.Success? <==>
              destinationId.Some? && !HasFavorite(old(db.favorites), userId, destinationId.value) &&
              userId in old(db.users) && destinationId.value in old(db.destinations)
    ensures r.Failure? ==> db.favorites == old(db.favorites) && db.nextId == old(db.nextId)
    ensures r.Success? ==>
              old(db.nextId) !in old(db.favorites) &&
              db.favorites == old(db.favorites)[old(db.nextId) := Favorite(old(db.nextId), userId, destinationId.value)] &&
              r.value == FavoriteResponse(old(db.nextId), db.destinations[destinationId.value]) &&
              HasFavorite(db.favorites, userId, destinationId.value) &&
              db.nextId == old(db.nextId) + 1
  {
    if destinationId.None? {
      return Failure(BadRequest("destinationId is required"));
    }
    var destId := destinationId.value;
    if HasFavorite(db.favorites, userId, destId) {
      return Failure(BadRequest("Destination already in favorites"));
    }
    if userId !in db.users {
      return Failure(NotFound("User not found"));
    }
    if destId !in db.destinations {
      return Failure(NotFound("Destination not found"));
    }
    var id := db.nextId;
    var favorite := Favorite(id, userId, destId);
    assert Matches(favorite, userId, destId);
    db.favorites := db.favorites[id := favorite];
    assert id in db.favorites && Matches(db.favorites[id], userId, destId);
    db.nextId := id + 1;
    r := Success(FavoriteResponse(id, db.destinations[destId]));
  }

  /** Favorite ids whose row is stored under its own id and refers to a stored destination. */
  predicate Listable(db: Db, ks: seq<int>)
    reads db
  {
    forall i :: 0 <= i < |ks| ==>
      ks[i] in db.favorites && db.favorites[ks[i]].id == ks[i] &&
      db.favorites[ks[i]].destinationId in db.destinations
  }

  lemma SelectedListable(db: Db, ks: seq<int>)
    requires db.Valid()
    requires forall k :: k in ks ==> k in db.favorites
    ensures Listable(db, ks)
  {
    forall i | 0 <= i < |ks| ensures ks[i] in db.favorites {
      var k := ks[i];
      assert k in ks;
      assert k in db.favorites;
    }
  }

  function ToResponse(db: Db, f: Favorite): (r: FavoriteResponse)
    requires f.destinationId in db.destinations
    reads db
    ensures r.id == f.id && r.destination == db.destinations[f.destinationId]
  {
    FavoriteResponse(f.id, db.destinations[f.destinationId])
  }

  function Responses(db: Db, ks: seq<int>): (rs: seq<FavoriteResponse>)
    requires Listable(db, ks)
    reads db
    ensures |rs| == |ks|
    ensures forall i :: 0 <= i < |ks| ==> rs[i] == ToResponse(db, db.favorites[ks[i]]) && rs[i].id == ks[i]
  {
    if |ks| == 0 then [] else [ToResponse(db, db.favorites[ks[0]])] + Responses(db, ks[1..])
  }

  /** `getFavorites`: each of the user's favorites exactly once, with its destination. */
  method GetFavorites(db: Db, userId: int) returns (rs: seq<FavoriteResponse>)
    requires db.Valid()
    ensures forall i :: 0 <= i < |rs| ==>
              rs[i].id in db.favorites && db.favorites[rs[i].id].userId == userId &&
              rs[i] == ToResponse(db, db.favorites[rs[i].id])
    ensures forall k :: k in db.favorites && db.favorites[k].userId == userId ==>
              exists i :: 0 <= i < |rs| && rs[i].id == k
    ensures forall i, j :: 0 <= i < j < |rs| ==> rs[i].id != rs[j].id
  {
    var ks := Select(db.favorites, (f: Favorite) => f.userId == userId);
    SelectedListable(db, ks);
    rs := Responses(db, ks);
    forall k | k in db.favorites && db.favorites[k].userId == userId
      ensures exists i :: 0 <= i < |rs| && rs[i].id == k
    {
      var i :| 0 <= i < |ks| && ks[i] == k;
      assert rs[i].id == k;
    }
  }

  /** In a user's listing, a destination appears at most once. */
  lemma ListingHasNoDuplicateDestination(db: Db, userId: int, a: int, b: int)
    requires db.Valid()
    requires a in db.favorites && b in db.favorites
    requires db.favorites[a].userId == userId && db.favorites[b].userId == userId
    requires db.favorites[a].destinationId == db.favorites[b].destinationId
    ensures a == b
  {
  }

  /** `removeFavorite`: by favorite id, only by its owner. */
  method RemoveFavorite(db: Db, userId: int, favoriteId: int) returns (r: Result<(), Error>)
    requires db.Valid()
    modifies db
    ensures db.Valid()
    ensures db.users == old(db.users) && db.destinations == old(db.destinations)
    ensures db.bookings == old(db.bookings) && db.nextId == old(db.nextId)
    ensures r.Success? <==> favoriteId in old(db.favorites) && old(db.favorites)[favoriteId].userId == userId
    ensures favoriteId !in old(db.favorites) ==> r == Failure(NotFound("Favorite not found"))
    ensures favoriteId in old(db.favorites) && old(db.favorites)[favoriteId].userId != userId ==>
              r == Failure(BadRequest("You cannot delete someone else's favorite"))
    ensures r.Success? ==> db.favorites == old(db.favorites) - {favoriteId}
    ensures r.Failure? ==> db.favorites == old(db.favorites)
  {
    if favoriteId !in db.favorites {
      return Failure(NotFound("Favorite not found"));
    }
    if db.favorites[favoriteId].userId != userId {
      return Failure(BadRequest("You cannot delete someone else's favorite"));
    }
    db.favorites := db.favorites - {favoriteId};
    r := Success(());
  }

  /** `removeFavoriteByDestination`, proved against `RemoveByDestination`. */
  method RemoveFavoriteByDestination(db: Db, userId: int, destinationId: int) returns (r: Result<(), Error>)
    requires db.Valid()
    modifies db
    ensures db.Valid()
    ensures db.users == old(db.users) && db.destinations == old(db.destinations)
    ensures db.bookings == old(db.bookings) && db.nextId == old(db.nextId)
    ensures r.Success? <==> RemoveByDestination(old(db.favorites), userId, destinationId).Success?
    ensures r.Success? ==> db.favorites == RemoveByDestination(old(db.favorites), userId, destinationId).value
    ensures r.Failure? ==>
              r.error == RemoveByDestination(old(db.favorites), userId, destinationId).error &&
              db.favorites == old(db.favorites)
  {
    var found := FindByUserAndDestination(db.favorites, userId, destinationId);
    if found.None? {
      return Failure(NotFound("Favorite not found"));
    }
    db.favorites := db.favorites - {found.value};
    r := Success(());
  }
}
