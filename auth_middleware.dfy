/** The guards of middleware/auth.ts: requireAuth reads a Bearer token from
    the Authorization header, verifies it and attaches its claims to the
    request; requireRole, requireAdmin and requireHost decide on the
    attached claims; optionalAuth attaches claims when it can and never
    fails. Token verification (signature and expiry) is a parameter. */
module AuthMiddleware {
  import opened Common
  import opened Accounts

  /** verifyAccessToken: the claims of a token it accepts, None when it
      throws. */
  type TokenVerifier = string -> Option<Claims>

  const BearerPrefix := "Bearer "

  /** An incoming request: its Authorization header and the user the
      middleware attaches. */
  class Request {
    var authorization: Option<string>
    var user: Option<Claims>

    constructor (authorization: Option<string>)
      ensures this.authorization == authorization && user.None?
    {
      this.authorization := authorization;
      user := None;
    }
  }

  /** The token a header carries: everything after its first seven
      characters, when it is present and starts with "Bearer ". */
  function BearerToken(header: Option<string>): (token: Option<string>)
    ensures token.Some? <==> Truthy(header) && BearerPrefix <= header.value
    ensures token.Some? ==> header.value == BearerPrefix + token.value
  {
    if Truthy(header) && BearerPrefix <= header.value then
      assert header.value == BearerPrefix + header.value[7..];
      Some(header.value[7..])
    else None
  }

  /** Putting a token behind "Bearer " and reading it back gives the token. */
  lemma BearerRoundTrip(token: string)
    ensures BearerToken(Some(BearerPrefix + token)) == Some(token)
  {
    assert BearerPrefix <= BearerPrefix + token;
  }

  /** What requireAuth decides for a header: the verified claims, or the
      401 it answers with. */
  function Authenticate(header: Option<string>, verify: TokenVerifier): (r: Result<Claims, AppError>)
    ensures BearerToken(header).None? ==> r == Err(AppError(401, "No token provided"))
    ensures BearerToken(header).Some? && verify(BearerToken(header).value).None? ==>
      r == Err(AppError(401, "Invalid or expired token"))
    ensures r.Ok? <==> exists token :: header == Some(BearerPrefix + token) && verify(token).Some?
    ensures r.Ok? ==> Some(r.value) == verify(BearerToken(header).value)
  {
    match BearerToken(header)
    case None =>
      assert forall token :: header == Some(BearerPrefix + token) ==> BearerToken(header) == Some(token) by {
        forall token | header == Some(BearerPrefix + token) { BearerRoundTrip(token); }
      }
      Err(AppError(401, "No token provided"))
    case Some(token) =>
      assert forall t :: header == Some(BearerPrefix + t) ==> t == token by {
        forall t | header == Some(BearerPrefix + t) { BearerRoundTrip(t); }
      }
      match verify(token)
      case None => Err(AppError(401, "Invalid or expired token"))
      case Some(claims) => Ok(claims)
  }

  /** requireAuth: attach the verified claims, or report the 401 and leave
      the request as it was. */
  method RequireAuth(req: Request, verify: TokenVerifier) returns (err: Option<AppError>)
    modifies req
    ensures req.authorization == old(req.authorization)
    ensures Authenticate(req.authorization, verify).Err? ==>
      err == Some(Authenticate(req.authorization, verify).error) && req.user == old(req.user)
    ensures Authenticate(req.authorization, verify).Ok? ==>
      err.None? && req.user == Some(Authenticate(req.authorization, verify).value)
  {
    match Authenticate(req.authorization, verify)
    case Err(e) =>
      err := Some(e);
    case Ok(claims) =>
      req.user := Some(claims);
      err := None;
  }

  /** requireRole(...allowed): 401 without a user, 403 when the user's role
      is not listed. */
  function RequireRole(user: Option<Claims>, allowed: seq<string>): (e: Option<AppError>)
    ensures e.None? <==> user.Some? && user.value.role in allowed
    ensures user.None? ==> e == Some(AppError(401, "Authentication required"))
    ensures user.Some? && user.value.role !in allowed ==> e == Some(AppError(403, "Insufficient permissions"))
  {
    if user.None? then Some(AppError(401, "Authentication required"))
    else if user.value.role !in allowed then Some(AppError(403, "Insufficient permissions"))
    else None
  }

  /** requireAdmin: requireRole('ADMIN'). */
  function RequireAdmin(user: Option<Claims>): (e: Option<AppError>)
    ensures e.None? <==> user.Some? && user.value.role == RoleAdmin
    ensures e.Some? ==> e.value.status == 401 || e.value.status == 403
  {
    RequireRole(user, [RoleAdmin])
  }

  /** requireHost: 401 without a user, 403 unless the token says host. */
  function RequireHost(user: Option<Claims>): (e: Option<AppError>)
    ensures e.None? <==> user.Some? && user.value.isHost
    ensures user.None? ==> e == Some(AppError(401, "Authentication required"))
    ensures user.Some? && !user.value.isHost ==> e == Some(AppError(403, "Host status required"))
  {
    if user.None? then Some(AppError(401, "Authentication required"))
    else if !user.value.isHost then Some(AppError(403, "Host status required"))
    else None
  }

  /** requireAuth then requireAdmin, as every admin route is mounted: the
      request gets through exactly when its token verifies to an admin's
      claims. */
  lemma AdminGate(header: Option<string>, verify: TokenVerifier)
    ensures var auth := Authenticate(header, verify);
      (auth.Ok? && RequireAdmin(Some(auth.value)).None?) <==>
        BearerToken(header).Some? && verify(BearerToken(header).value).Some?
        && verify(BearerToken(header).value).value.role == RoleAdmin
  {
  }

  /** optionalAuth: attach the claims of a valid Bearer token; otherwise
      leave the request alone. It never reports an error. */
  method OptionalAuth(req: Request, verify: TokenVerifier)
    modifies req
    ensures req.authorization == old(req.authorization)
    ensures Authenticate(req.authorization, verify).Ok? ==> req.user == Some(Authenticate(req.authorization, verify).value)
    ensures Authenticate(req.authorization, verify).Err? ==> req.user == old(req.user)
  {
    var token := BearerToken(req.authorization);
    if token.Some? {
      var claims := verify(token.value);
      if claims.Some? {
        req.user := claims;
      }
    }
  }

  /** Whichever guard runs, a request with a valid Bearer token ends up
      with the same user attached. */
  method GuardsAgree(header: Option<string>, verify: TokenVerifier) returns (strict: Option<Claims>, lenient: Option<Claims>)
    ensures strict == lenient
    ensures strict.Some? <==> Authenticate(header, verify).Ok?
  {
    var a := new Request(header);
    var err := RequireAuth(a, verify);
    var b := new Request(header);
    OptionalAuth(b, verify);
    strict, lenient := a.user, b.user;
  }
}
