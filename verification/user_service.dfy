/**
 * Accounts on the server
 * (src/main/java/com/travelapp/travelplanner/user/service/UserService.java):
 * registration and the two lookups.
 */
module UserService {
  import opened Common
  import opened Entities
  import opened Database

  /** `existsByEmail`. */
  predicate EmailTaken(users: map<int, User>, email: string) {
    exists k :: k in users && users[k].email == email
  }

  /** `findByEmail(...).orElse(null)`: the one user with this email, if any. */
  function FindByEmail(db: Db, email: string): (r: Option<User>)
    requires db.Valid()
    reads db
    ensures r.Some? <==> EmailTaken(db.users, email)
    ensures r.Some? ==> r.value.email == email && r.value.id in db.users && db.users[r.value.id] == r.value
  {
    if EmailTaken(db.users, email) then
      var k :| k in db.users && db.users[k].email == email; Some(db.users[k])
    else None
  }

  /** `findById(...).orElse(null)`. */
  function FindById(db: Db, id: int): (r: Option<User>)
    requires db.Valid()
    reads db
    ensures r.Some? <==> id in db.users
    ensures r.Some? ==> r.value == db.users[id] && r.value.id == id
  {
    if id in db.users then Some(db.users[id]) else None
  }

  /**
   * `register`: refused when the email is taken; otherwise an active USER
   * is stored with `encodedPassword` (the password encoder's output for the
   * submitted password, which is salted and so left as a parameter) and
   * returned without it.
   */
  method Register(db: Db, name: string, email: string, encodedPassword: string) returns (r: Result<UserDTO, Error>)
    requires db.Valid()
    modifies db
    ensures db.Valid()
    ensures db.destinations == old(db.destinations) && db.bookings == old(db.bookings) && db.favorites == old(db.favorites)
    ensures r.Success? <==> !EmailTaken(old(db.users), email)
    ensures r.Failure? ==>
              r == Failure(BadRequest("Email already registered")) &&
              db.users == old(db.users) && db.nextId == old(db.nextId)
    ensures r.Success? ==>
              old(db.nextId) !in old(db.users) &&
              db.users == old(db.users)[old(db.nextId) := User(old(db.nextId), name, email, encodedPassword, USER, true)] &&
              r.value == UserDTO(old(db.nextId), name, email, "USER") &&
              FindByEmail(db, email) == Some(db.users[old(db.nextId)]) &&
              db.nextId == old(db.nextId) + 1
  {
    if EmailTaken(db.users, email) {
      return Failure(BadRequest("Email already registered"));
    }
    var id := db.nextId;
    var user := User(id, name, email, encodedPassword, USER, true);
    db.users := db.users[id := user];
    db.nextId := id + 1;
    assert db.users[id].email == email;
    r := Success(UserDTO(id, name, email, RoleName(USER)));
  }

  /** A second registration with the same email is always refused. */
  lemma EmailRegisteredOnce(db: Db, email: string, k: int)
    requires db.Valid() && k in db.users && db.users[k].email == email
    ensures EmailTaken(db.users, email)
    ensures FindByEmail(db, email) == Some(db.users[k])
  {
  }
}
