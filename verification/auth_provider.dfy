/**
 * The session held by the client (frontend/src/context/AuthProvider.tsx): the
 * token and user restored from storage, login (which decodes the token's
 * payload into a user record), register (which logs in and then patches the
 * name), logout, and the two derived flags the route guard reads.
 */
module AuthProvider {
  import opened Common
  import opened Types
  import opened Storage

  /** The token payload fields the client reads: `sub` as a number and `role`. */
  datatype Claims = Claims(sub: int, role: string)

  /** The user record login builds: id and role from the token, email from the form, no name yet. */
  function UserFromClaims(claims: Claims, email: string): (u: User)
    ensures u.id == claims.sub && u.role == claims.role && u.email == email && u.name == ""
  {
    User(claims.sub, "", email, claims.role)
  }

  class Session {
    const storage: LocalStorage
    var user: Option<User>
    var token: Option<string>

    /** The in-memory session always mirrors the two storage entries it owns. */
    ghost predicate Valid()
      reads this, storage
    {
      storage.token == token && storage.user == user
    }

    /** `getInitialToken` / `getInitialUser`. */
    constructor (storage: LocalStorage)
      ensures this.storage == storage
      ensures token == storage.token && user == storage.user
      ensures Valid()
    {
      this.storage := storage;
      token := storage.token;
      user := storage.user;
    }

    /** `!!token`: a present, non-empty token. */
    function IsAuthenticated(): (r: bool)
      reads this
      ensures r <==> token.Some? && token.value != ""
      ensures token.None? ==> !r
    {
      token.Some? && token.value != ""
    }

    /** `user?.role === 'ADMIN'`. */
    function IsAdmin(): (r: bool)
      reads this
      ensures r <==> user.Some? && user.value.role == "ADMIN"
    {
      user.Some? && user.value.role == "ADMIN"
    }

    /**
     * `login`. `response` is the login call's answer (the token or the error)
     * and `decode` stands for `JSON.parse(atob(token.split('.')[1]))`, `None`
     * when that throws. On success both storage entries and the session hold
     * the token and the decoded user; on any failure nothing changes and the
     * error is rethrown (`succeeded` is false).
     */
    method Login(email: string, response: Result<string, string>, decode: string -> Option<Claims>)
      returns (succeeded: bool)
      requires Valid()
      modifies this, storage
      ensures Valid() && storage.theme == old(storage.theme)
      ensures succeeded <==> response.Success? && decode(response.value).Some?
      ensures succeeded ==>
                token == Some(response.value) &&
                user == Some(UserFromClaims(decode(response.value).value, email))
      ensures !succeeded ==> token == old(token) && user == old(user)
    {
      if response.Failure? {
        return false;
      }
      var jwt := response.value;
      var payload := decode(jwt);
      if payload.None? {
        return false;
      }
      var userData := UserFromClaims(payload.value, email);
      storage.token := Some(jwt);
      storage.user := Some(userData);
      token := Some(jwt);
      user := Some(userData);
      succeeded := true;
    }

    /**
     * `register`: the register call (`registered`), then a login with the same
     * email, then the user's name is filled in, in the session and in storage.
     * A failure of either call fails the whole registration; a failed
     * register call makes no login attempt.
     */
    method Register(name: string, email: string, registered: Outcome,
                    response: Result<string, string>, decode: string -> Option<Claims>)
      returns (loginAttempted: bool, succeeded: bool)
      requires Valid()
      modifies this, storage
      ensures Valid() && storage.theme == old(storage.theme)
      ensures loginAttempted <==> registered.Resolved?
      ensures succeeded <==> registered.Resolved? && response.Success? && decode(response.value).Some?
      ensures succeeded ==>
                token == Some(response.value) &&
                user == Some(UserFromClaims(decode(response.value).value, email).(name := name))
      ensures !succeeded ==> token == old(token) && user == old(user)
    {
      if registered.Rejected? {
        return false, false;
      }
      loginAttempted := true;
      succeeded := Login(email, response, decode);
      if succeeded {
        var updated := user.value.(name := name);
        storage.user := Some(updated);
        user := Some(updated);
      }
    }

    /** `logout`: both entries removed; the session is signed out. */
    method Logout()
      requires Valid()
      modifies this, storage
      ensures Valid() && storage.theme == old(storage.theme)
      ensures token == None && user == None
      ensures !IsAuthenticated() && !IsAdmin()
    {
      storage.token := None;
      storage.user := None;
      token := None;
      user := None;
    }
  }

  /** A token whose payload names the ADMIN role makes the logged-in session an administrator's. */
  lemma LoginRoleDecidesAdmin(claims: Claims, email: string, name: string)
    ensures UserFromClaims(claims, email).role == "ADMIN" <==> claims.role == "ADMIN"
    ensures UserFromClaims(claims, email).(name := name).role == claims.role
  {
  }
}
