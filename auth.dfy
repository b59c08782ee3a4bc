/**
 * The authentication gate `isAuthenticated` (access-token cookie, then token
 * verification, then the session cache) and the role gate `authrizeRoles`.
 */
module Auth {
  import opened Wrappers
  import opened JsText
  import opened Tokens
  import opened Http
  import opened Sessions
  import UserModel

  const LoginRequired := "Please login to access this resource"
  const InvalidAccessToken := "Invalid access token"
  const UserNotFound := "User not found"

  /**
   * How the gate ends: `next()` with `req.user` set, `next(new
   * ErrorHandler(...))`, or the verifier's throw, which the async wrapper
   * hands on to `next(err)` unchanged.
   */
  datatype GateOutcome =
    | Proceed(user: Snapshot)
    | Reject(error: AppError)
    | Propagate(thrown: JwtError)

  /** An incoming request: its parsed cookies and the `user` the gate attaches. */
  class Request {
    var cookies: map<string, string>
    var user: Option<Snapshot>

    constructor (cookies: map<string, string>)
      ensures this.cookies == cookies && user == None
    {
      this.cookies := cookies;
      user := None;
    }
  }

  /** `req.cookies.access_token`. */
  function AccessCookie(cookies: map<string, string>): Option<string> {
    if "access_token" in cookies then Some(cookies["access_token"]) else None
  }

  /** The cookie is there and not empty. */
  predicate HasToken(token: Option<string>) {
    token.Some? && Truthy(token.value)
  }

  /** The id the gate reads from a verified, truthy payload, if it has one. */
  function DecodedId(token: string, secret: string, verify: Verifier): Option<string> {
    match verify(token, secret)
    case Success(Some(IdPayload(id))) => Some(id)
    case _ => None
  }

  /** The session keys the gate reads for this token: the decoded id, or none. */
  function KeysRead(token: Option<string>, secret: string, verify: Verifier): seq<string> {
    if HasToken(token) && DecodedId(token.value, secret, verify).Some? then
      [DecodedId(token.value, secret, verify).value]
    else
      []
  }

  /**
   * The outcome of the gate, as a function of the cookie, the verifier and
   * the cache. It proceeds exactly when a present token verifies to an id
   * with a live session, and then carries that session's snapshot; the
   * verifier's own error is passed on, never turned into a 401; a falsy
   * decode is "Invalid access token"; a rejection is 401 before any session
   * is looked at and 404 after.
   */
  function Authenticate(token: Option<string>, secret: string, verify: Verifier,
                        entries: map<string, string>, parse: Parser): (r: GateOutcome)
    ensures !HasToken(token) ==> r == Reject(AppError(LoginRequired, 401))
    ensures r.Proceed? <==>
      HasToken(token) && DecodedId(token.value, secret, verify).Some?
      && Session(entries, DecodedId(token.value, secret, verify).value).Some?
    ensures r.Proceed? ==>
      r.user == parse(Session(entries, DecodedId(token.value, secret, verify).value).value)
    ensures r.Propagate? <==> HasToken(token) && verify(token.value, secret).Failure?
    ensures r.Propagate? ==> r.thrown == verify(token.value, secret).error
    ensures HasToken(token) && verify(token.value, secret).Success? && FalsyDecode(verify(token.value, secret).value)
      ==> r == Reject(AppError(InvalidAccessToken, 401))
    ensures HasToken(token) && verify(token.value, secret).Success? && !FalsyDecode(verify(token.value, secret).value)
      ==> r.Proceed? || r == Reject(AppError(UserNotFound, 404))
    ensures r.Reject? ==>
      (r.error.statusCode == 401 && |KeysRead(token, secret, verify)| == 0)
      || r.error == AppError(UserNotFound, 404)
    ensures r.Reject? && r.error.statusCode == 404 ==>
      HasToken(token) && verify(token.value, secret).Success? && !FalsyDecode(verify(token.value, secret).value)
  {
    if !HasToken(token) then
      Reject(AppError(LoginRequired, 401))
    else
      match verify(token.value, secret)
      case Failure(e) => Propagate(e)
      case Success(decoded) =>
        if FalsyDecode(decoded) then
          Reject(AppError(InvalidAccessToken, 401))
        else if decoded.value.IdPayload? && Session(entries, decoded.value.id).Some? then
          Proceed(parse(Session(entries, decoded.value.id).value))
        else
          Reject(AppError(UserNotFound, 404))
  }

  /**
   * `isAuthenticated(req, res, next)`. The cache is only read: no token means
   * no read at all, and otherwise the one key read is the decoded id.
   * `req.user` is set exactly when the request proceeds.
   */
  method IsAuthenticated(req: Request, cache: SessionCache, secret: string,
                         verify: Verifier, parse: Parser) returns (r: GateOutcome)
    modifies req`user, cache`lookups
    ensures r == Authenticate(AccessCookie(req.cookies), secret, verify, cache.entries, parse)
    ensures cache.lookups == old(cache.lookups) + KeysRead(AccessCookie(req.cookies), secret, verify)
    ensures req.user == (if r.Proceed? then Some(r.user) else old(req.user))
  {
    var token := AccessCookie(req.cookies);
    if !HasToken(token) {
      return Reject(AppError(LoginRequired, 401));
    }
    var decoded := verify(token.value, secret);
    if decoded.Failure? {
      return Propagate(decoded.error);
    }
    if FalsyDecode(decoded.value) {
      return Reject(AppError(InvalidAccessToken, 401));
    }
    var payload := decoded.value.value;
    if !payload.IdPayload? {
      return Reject(AppError(UserNotFound, 404));
    }
    var cached := cache.Get(payload.id);
    if cached.None? || !Truthy(cached.value) {
      return Reject(AppError(UserNotFound, 404));
    }
    var snapshot := parse(cached.value);
    req.user := Some(snapshot);
    r := Proceed(snapshot);
  }

  /** The gate depends on the cache only through the entry of the decoded id. */
  lemma GateReadsOnlyDecodedId(token: Option<string>, secret: string, verify: Verifier,
                               entries: map<string, string>, other: map<string, string>, parse: Parser)
    requires forall k :: k in KeysRead(token, secret, verify) ==> Session(entries, k) == Session(other, k)
    ensures Authenticate(token, secret, verify, entries, parse) == Authenticate(token, secret, verify, other, parse)
  {
    if HasToken(token) && DecodedId(token.value, secret, verify).Some? {
      assert DecodedId(token.value, secret, verify).value in KeysRead(token, secret, verify);
    }
  }

  /**
   * The access token a login issues passes the gate whenever the user's
   * session is cached, and attaches that session. The gate verifies with
   * `process.env.ACCESS_TOKEN as string`, which is a string only when the
   * variable is set, so this lemma and the next two take it set.
   */
  lemma IssuedAccessTokenPasses(u: UserModel.User, sign: Signer, verify: Verifier, env: map<string, string>,
                                entries: map<string, string>, parse: Parser)
    requires "ACCESS_TOKEN" in env
    requires JwtLaws(sign, verify)
    requires Session(entries, u.id).Some?
    ensures Authenticate(Some(UserModel.SignAccessToken(u, sign, env)), EnvOr(env, "ACCESS_TOKEN"), verify, entries, parse)
         == Proceed(parse(Session(entries, u.id).value))
  {
    UserModel.SessionTokensVerify(u, sign, verify, env);
    assert UserModel.SignAccessToken(u, sign, env) != "";
  }

  /**
   * A signature-valid access token whose session is gone (logged out, or
   * never cached) is refused with 404, not with the 401 of a missing token.
   */
  lemma MissingSessionIsNotFound(u: UserModel.User, sign: Signer, verify: Verifier, env: map<string, string>,
                                 entries: map<string, string>, parse: Parser)
    requires "ACCESS_TOKEN" in env
    requires JwtLaws(sign, verify)
    requires Session(entries, u.id).None?
    ensures Authenticate(Some(UserModel.SignAccessToken(u, sign, env)), EnvOr(env, "ACCESS_TOKEN"), verify, entries, parse)
         == Reject(AppError(UserNotFound, 404))
  {
    UserModel.SessionTokensVerify(u, sign, verify, env);
    assert UserModel.SignAccessToken(u, sign, env) != "";
  }

  /**
   * With distinct secrets, a refresh token presented as the access token
   * never proceeds: the verifier's error is passed on.
   */
  lemma RefreshTokenIsNotAccessToken(u: UserModel.User, sign: Signer, verify: Verifier, env: map<string, string>,
                                     entries: map<string, string>, parse: Parser)
    requires "ACCESS_TOKEN" in env
    requires JwtLaws(sign, verify)
    requires EnvOr(env, "ACCESS_TOKEN") != EnvOr(env, "REFRESH_TOKEN")
    ensures Authenticate(Some(UserModel.SignRefreshToken(u, sign, env)), EnvOr(env, "ACCESS_TOKEN"), verify, entries, parse).Propagate?
  {
    UserModel.SessionTokensVerify(u, sign, verify, env);
    assert UserModel.SignRefreshToken(u, sign, env) != "";
  }

  // ---------------------------------------------------------------------------
  // Role gate
  // ---------------------------------------------------------------------------

  /** `req.user?.role || ""`. */
  function RoleOf(user: Option<Snapshot>): string {
    if user.Some? && user.value.role.Some? then user.value.role.value else ""
  }

  /** The refusal message for a role. */
  function RoleRefused(role: string): string {
    "Role: " + role + " is not allowed to access this resource"
  }

  /**
   * `authrizeRoles(...roles)` applied to a request: `None` is `next()`, and
   * a refusal is a 403 naming the role.
   */
  function AuthorizeRoles(roles: seq<string>, user: Option<Snapshot>): (r: Option<AppError>)
    ensures r.None? <==> RoleOf(user) in roles
    ensures r.Some? ==> r.value == AppError(RoleRefused(RoleOf(user)), 403)
  {
    if RoleOf(user) in roles then None else Some(AppError(RoleRefused(RoleOf(user)), 403))
  }

  /** An empty allow-list refuses everyone, even a request with no user. */
  lemma EmptyAllowListRefusesAll(user: Option<Snapshot>)
    ensures AuthorizeRoles([], user).Some?
  {
  }

  /** Adding roles to the allow-list never refuses a request it allowed. */
  lemma AllowListMonotone(roles: seq<string>, more: seq<string>, user: Option<Snapshot>)
    requires forall role :: role in roles ==> role in more
    ensures AuthorizeRoles(roles, user).None? ==> AuthorizeRoles(more, user).None?
  {
  }

  /** A missing user, a missing role and an empty role are all judged as the role "". */
  lemma MissingRoleIsEmptyRole(roles: seq<string>, id: Option<string>)
    ensures AuthorizeRoles(roles, None) == AuthorizeRoles(roles, Some(Snapshot(id, None)))
    ensures AuthorizeRoles(roles, None) == AuthorizeRoles(roles, Some(Snapshot(id, Some(""))))
    ensures AuthorizeRoles(roles, None).None? <==> "" in roles
  {
  }

  /** A user with the default role is refused by the admin-only course routes. */
  lemma DefaultRoleRefusedByAdminRoutes(id: Option<string>)
    ensures AuthorizeRoles(["admin"], Some(Snapshot(id, Some(UserModel.DefaultRole))))
         == Some(AppError(RoleRefused("user"), 403))
  {
    assert UserModel.DefaultRole !in ["admin"];
  }
}
