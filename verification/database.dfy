/**
 * The four JPA repositories the services share, as one object holding a
 * table per entity, and the repository queries that list rows.
 */
module Database {
  import opened Common
  import opened Entities
  import opened Tables

  /** The users table's unique email column. */
  predicate UniqueEmails(users: map<int, User>) {
    forall a, b :: a in users && b in users && users[a].email == users[b].email ==> a == b
  }

  /** The favorites table's unique constraint on (user_id, destination_id). */
  predicate UniqueFavorites(favorites: map<int, Favorite>) {
    forall a, b ::
      (a in favorites && b in favorites &&
       favorites[a].userId == favorites[b].userId &&
       favorites[a].destinationId == favorites[b].destinationId) ==> a == b
  }

  class Db {
    var users: map<int, User>
    var destinations: map<int, Destination>
    var bookings: map<int, Booking>
    var favorites: map<int, Favorite>
    /** The next generated identity; every stored id is below it. */
    var nextId: int

    /**
     * Every row sits under its own id, ids are below `nextId`, bookings and
     * favorites reference existing users and destinations, and the unique
     * constraints hold.
     */
    ghost predicate Valid()
      reads this
    {
      (forall k :: k in users ==> users[k].id == k && k < nextId) &&
      (forall k :: k in destinations ==> destinations[k].id == Some(k) && k < nextId) &&
      (forall k :: k in bookings ==> bookings[k].id == k && k < nextId &&
                                      bookings[k].userId in users && bookings[k].destinationId in destinations) &&
      (forall k :: k in favorites ==> favorites[k].id == k && k < nextId &&
                                       favorites[k].userId in users && favorites[k].destinationId in destinations) &&
      UniqueEmails(users) && UniqueFavorites(favorites)
    }

    constructor ()
      ensures Valid()
      ensures users == map[] && destinations == map[] && bookings == map[] && favorites == map[]
    {
      users := map[];
      destinations := map[];
      bookings := map[];
      favorites := map[];
      nextId := 1;
    }
  }
}
