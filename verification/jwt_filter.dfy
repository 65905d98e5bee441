/**
 * The per-request authentication filter
 * (src/main/java/com/travelapp/travelplanner/security/JwtAuthenticationFilter.java):
 * it reads a bearer token from the Authorization header and records the
 * caller's id and role authority in the security context. Token parsing and
 * signature checking are the parameter `parse`: `None` when either
 * `getUserIdFromToken` or `getRoleFromToken` throws, and a missing role
 * claim when the role is absent.
 */
module JwtFilter {
  import opened Common
  import opened Text
  import opened Entities
  import opened Database
  import UserService
  import AuthService

  datatype ParsedToken = ParsedToken(userId: int, role: Option<string>)

  /** The authentication the filter records: the user id as principal and its granted authorities. */
  datatype Authentication = Authentication(principal: int, authorities: seq<string>)

  /** `header != null && header.startsWith("Bearer ")` then `header.substring(7)`. */
  function BearerToken(header: Option<string>): (t: Option<string>)
    ensures t.Some? <==> header.Some? && StartsWith(header.value, "Bearer ")
    ensures t.Some? ==> header.value == "Bearer " + t.value
  {
    if header.Some? && StartsWith(header.value, "Bearer ") then Some(header.value[7..]) else None
  }

  lemma BearerRoundTrip(token: string)
    ensures BearerToken(Some("Bearer " + token)) == Some(token)
  {
    assert ("Bearer " + token)[..7] == "Bearer ";
    assert ("Bearer " + token)[7..] == token;
  }

  /** The scheme is matched case-sensitively, so a lower-case `bearer` is ignored. */
  lemma SchemeIsCaseSensitive(token: string)
    ensures BearerToken(Some("bearer " + token)).None?
  {
    assert ("bearer " + token)[0] == 'b';
  }

  /** `"ROLE_" + role`, where Java renders a missing role as `null`. */
  function Authority(role: Option<string>): (a: string)
    ensures IsPrefix("ROLE_", a)
    ensures role.Some? ==> a == "ROLE_" + role.value
    ensures role.None? ==> a == "ROLE_null"
  {
    "ROLE_" + (if role.Some? then role.value else "null")
  }

  /** What the filter does to the security context. */
  datatype Action = Keep | Authenticate(authentication: Authentication) | Clear

  function Decide(header: Option<string>, parse: string -> Option<ParsedToken>): (a: Action)
    ensures a.Keep? <==> BearerToken(header).None?
    ensures a.Clear? <==> BearerToken(header).Some? && parse(BearerToken(header).value).None?
    ensures a.Authenticate? ==>
              var p := parse(BearerToken(header).value).value;
              a.authentication == Authentication(p.userId, [Authority(p.role)])
  {
    match BearerToken(header)
    case None => Keep
    case Some(token) =>
      match parse(token)
      case None => Clear
      case Some(p) => Authenticate(Authentication(p.userId, [Authority(p.role)]))
  }

  /** `SecurityContextHolder.getContext()`. */
  class SecurityContext {
    var authentication: Option<Authentication>

    constructor ()
      ensures authentication == None
    {
      authentication := None;
    }
  }

  /**
   * `doFilterInternal`: the context is set, cleared or left alone as
   * `Decide` says, and the request always continues down the chain.
   */
  method DoFilterInternal(context: SecurityContext, header: Option<string>, parse: string -> Option<ParsedToken>)
    returns (continues: bool)
    modifies context
    ensures continues
    ensures Decide(header, parse).Keep? ==> context.authentication == old(context.authentication)
    ensures Decide(header, parse).Clear? ==> context.authentication == None
    ensures Decide(header, parse).Authenticate? ==>
              context.authentication == Some(Decide(header, parse).authentication)
  {
    var bearer := BearerToken(header);
    if bearer.Some? {
      var parsed := parse(bearer.value);
      if parsed.Some? {
        context.authentication := Some(Authentication(parsed.value.userId, [Authority(parsed.value.role)]));
      } else {
        context.authentication := None;
      }
    }
    continues := true;
  }

  /**
   * End to end: when the parser reads back what the generator wrote, the
   * token a successful login returns authenticates its bearer as that user,
   * with the authority for the user's role.
   */
  lemma LoginTokenAuthenticates(db: Db, email: string, password: string,
                                matches: (string, string) -> bool, generateToken: (int, string) -> string,
                                parse: string -> Option<ParsedToken>)
    requires db.Valid()
    requires AuthService.Login(db, email, password, matches, generateToken).Success?
    requires forall id, role :: parse(generateToken(id, role)) == Some(ParsedToken(id, Some(role)))
    ensures UserService.FindByEmail(db, email).Some?
    ensures Decide(Some("Bearer " + AuthService.Login(db, email, password, matches, generateToken).value), parse) ==
              Authenticate(Authentication(UserService.FindByEmail(db, email).value.id,
                                          ["ROLE_" + RoleName(UserService.FindByEmail(db, email).value.role)]))
  {
    var token := AuthService.Login(db, email, password, matches, generateToken).value;
    BearerRoundTrip(token);
    var user := UserService.FindByEmail(db, email).value;
    assert parse(generateToken(user.id, RoleName(user.role))) == Some(ParsedToken(user.id, Some(RoleName(user.role))));
  }
}
