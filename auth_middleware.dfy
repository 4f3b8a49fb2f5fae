/** Request authentication (server/src/middleware/auth.js): bearer-token
    extraction as section 2.1 of RFC 6750 describes the `Authorization`
    header, the user lookup, and the role gate. Token verification is an
    opaque function given as a parameter. */
module AuthMiddleware {
  import opened Common
  import opened Text
  import opened UserModel

  const BearerPrefix: string := "Bearer "

  /** The claims a verified token carries: the user id (`sub`) and the role. */
  datatype Claims = Claims(sub: UserId, role: string)

  /** The token of an `Authorization` header: the text after an exact-case
      "Bearer " prefix; an absent header counts as "". */
  function ExtractToken(header: Option<string>): (r: Option<string>)
    ensures r.Some? <==> header.Some? && StartsWith(header.value, BearerPrefix)
    ensures r.Some? ==> header.value == BearerPrefix + r.value
  {
    var h := if header.Some? then header.value else "";
    if StartsWith(h, BearerPrefix) then Some(h[|BearerPrefix|..]) else None
  }

  const MissingToken: Error := Error(401, "Missing authorization token")
  const InvalidToken: Error := Error(401, "Invalid token")
  const ExpiredToken: Error := Error(401, "Invalid or expired token")
  const Forbidden: Error := Error(403, "Forbidden")

  /** The user the request acts as: the stored user without its password
      hash. */
  function WithoutHash(u: User): (r: User)
    ensures r.passwordHash == "" && r.(passwordHash := u.passwordHash) == u
  {
    u.(passwordHash := "")
  }

  /** `requireAuth`: a missing or empty token gives "Missing authorization
      token", a token that does not verify gives "Invalid or expired token",
      a token whose user no longer exists gives "Invalid token"; all are 401.
      `verify` stands for the JWT signature and expiry check. */
  function RequireAuth(header: Option<string>, verify: string -> Option<Claims>, users: map<UserId, User>): (r: Result<User>)
    ensures r.Ok? <==>
      ExtractToken(header).Some? && ExtractToken(header).value != "" &&
      verify(ExtractToken(header).value).Some? && verify(ExtractToken(header).value).value.sub in users
    ensures r.Ok? ==> r.value == WithoutHash(users[verify(ExtractToken(header).value).value.sub])
    ensures r.Err? ==> r.error.status == 401
    ensures (ExtractToken(header).None? || ExtractToken(header).value == "") ==> r == Err(MissingToken)
  {
    var token := ExtractToken(header);
    if token.None? || token.value == "" then Err(MissingToken)
    else
      match verify(token.value)
      case None => Err(ExpiredToken)
      case Some(claims) =>
        if claims.sub in users then Ok(WithoutHash(users[claims.sub])) else Err(InvalidToken)
  }

  /** `requireRole(...roles)`: passes iff the request has a role and it is one
      of `roles`; otherwise 403 "Forbidden". */
  function RequireRole(role: Option<Role>, roles: seq<Role>): (r: Result<()>)
    ensures r.Ok? <==> role.Some? && role.value in roles
    ensures r.Err? ==> r.error == Forbidden
  {
    if role.Some? && role.value in roles then Ok(()) else Err(Forbidden)
  }
}
