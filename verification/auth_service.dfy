/**
 * Login on the server
 * (backend/src/main/java/com/travelapp/travelplanner/user/service/AuthService.java).
 * The password check and the token generator are parameters: `matches` is
 * the password encoder's `matches(raw, hash)`, `generateToken` the token
 * provider's `generateToken(userId, role)`.
 */
module AuthService {
  import opened Common
  import opened Entities
  import opened Database
  import opened UserService

  /**
   * `login`: an unknown email and a wrong password both fail as invalid
   * credentials; an inactive account fails as a bad request before the
   * password is checked; otherwise the token for the user's id and role.
   */
  function Login(db: Db, email: string, password: string,
                 matches: (string, string) -> bool, generateToken: (int, string) -> string): (r: Result<string, Error>)
    requires db.Valid()
    reads db
    ensures !EmailTaken(db.users, email) ==> r == Failure(BadCredentials("Invalid credentials"))
    ensures EmailTaken(db.users, email) && !FindByEmail(db, email).value.active ==>
              r == Failure(BadRequest("User is inactive"))
    ensures r.Success? <==>
              EmailTaken(db.users, email) && FindByEmail(db, email).value.active &&
              matches(password, FindByEmail(db, email).value.passwordHash)
    ensures r.Success? ==>
              r.value == generateToken(FindByEmail(db, email).value.id, RoleName(FindByEmail(db, email).value.role))
    ensures r.Failure? && !r.error.BadRequest? ==> r == Failure(BadCredentials("Invalid credentials"))
  {
    match FindByEmail(db, email)
    case None => Failure(BadCredentials("Invalid credentials"))
    case Some(user) =>
      if !user.active then Failure(BadRequest("User is inactive"))
      else if !matches(password, user.passwordHash) then Failure(BadCredentials("Invalid credentials"))
      else Success(generateToken(user.id, RoleName(user.role)))
  }

  /** An unknown email and a wrong password for an active account cannot be told apart. */
  lemma UnknownEmailLooksLikeWrongPassword(db: Db, unknown: string, known: string, password: string,
                                           matches: (string, string) -> bool, generateToken: (int, string) -> string)
    requires db.Valid()
    requires !EmailTaken(db.users, unknown)
    requires FindByEmail(db, known).Some? && FindByEmail(db, known).value.active
    requires !matches(password, FindByEmail(db, known).value.passwordHash)
    ensures Login(db, unknown, password, matches, generateToken) == Login(db, known, password, matches, generateToken)
  {
  }

  /**
   * A freshly registered account (active, role USER) logs in with the
   * password whose encoding was stored, and its token names the USER role.
   */
  lemma RegisteredUserLogsIn(db: Db, id: int, name: string, email: string, password: string, encoded: string,
                             matches: (string, string) -> bool, generateToken: (int, string) -> string)
    requires db.Valid()
    requires id in db.users && db.users[id] == User(id, name, email, encoded, USER, true)
    requires matches(password, encoded)
    ensures Login(db, email, password, matches, generateToken) == Success(generateToken(id, "USER"))
  {
    EmailRegisteredOnce(db, email, id);
  }
}
