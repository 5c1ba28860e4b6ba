/** The LolAPIService HTTP server: the CORS origin check, the rate-limit
    configuration, the unauthenticated health check, the MEMBER gate in
    front of the Riot routes, and the catch-all error handler. */
module LolServer {
  import opened Common
  import opened Json
  import opened Auth

  const ApiPrefix: string := "/api/v1"
  const HealthPath: string := "/api/v1/health"
  const RiotPrefix: string := "/api/v1/riot"
  const MemberRole: string := "MEMBER"
  const CorsRejectedMessage: string := "Not allowed by CORS"
  const InternalServerError: string := "INTERNAL_SERVER_ERROR"
  const InternalServerErrorMessage: string := "Internal Server Error"
  const DefaultWindowMs: nat := 60000
  const DefaultMaxRequests: nat := 100

  /** The environment the server reads. */
  datatype ServerEnv = ServerEnv(
    corsOrigin: Option<string>,
    issuer: Option<string>,
    audience: Option<string>,
    rolePath: Option<string>,
    rateLimitWindowMs: Option<string>,
    rateLimitMaxRequests: Option<string>)

  /** What the server sees of a request. */
  datatype ServerRequest = ServerRequest(httpMethod: string, path: string, origin: Option<string>, authorization: Option<string>)

  // ---------------------------------------------------------------------
  // CORS

  /** `(CORS_ORIGIN || '').split(',').map(s => s.trim()).filter(Boolean)` */
  function AllowedOrigins(env: Option<string>): seq<string> {
    SplitTrimmed(env.GetOr(""), ',')
  }

  /** Every allowed origin is non-empty, trimmed and free of commas. */
  lemma AllowedOriginsEntries(env: Option<string>)
    ensures forall o :: o in AllowedOrigins(env) ==> o != "" && IsTrimmed(o) && ',' !in o
  {
    SplitTrimmedEntries(env.GetOr(""), ',');
  }

  /** The `origin` callback: a request without an origin, any origin when
      no list is configured, and a listed origin are allowed; any other
      origin is the error `Not allowed by CORS`. */
  function CorsCheck(origin: Option<string>, allowed: seq<string>): (r: Result<bool, Error>)
    ensures r.Success? <==> !Present(origin) || allowed == [] || origin.value in allowed
    ensures r.Success? ==> r.value
    ensures r.Failure? ==> r.error == Raise(CorsRejectedMessage)
  {
    if !Present(origin) || |allowed| == 0 || origin.value in allowed then Success(true)
    else Failure(Raise(CorsRejectedMessage))
  }

  /** Without CORS_ORIGIN every origin is allowed. */
  lemma UnsetCorsAllowsAll(origin: Option<string>)
    ensures AllowedOrigins(None) == []
    ensures CorsCheck(origin, AllowedOrigins(None)).Success?
  {
    assert Split("", ',') == [""];
    assert Trim("") == "";
    assert TrimEach([""]) == [""];
  }

  /** With CORS_ORIGIN set to a comma list of origins, a request carrying an
      origin is allowed exactly when that origin is one of them. */
  lemma ListedOriginsOnly(origins: seq<string>, origin: string)
    requires OriginList(origins)
    requires origin != ""
    ensures CorsCheck(Some(origin), AllowedOrigins(Some(Join(origins, ',')))).Success? <==> origin in origins
  {
    AllowedOriginsOfJoin(origins);
    CorsCheckOfListed(origin, origins);
  }

  lemma CorsCheckOfListed(origin: string, allowed: seq<string>)
    requires origin != "" && allowed != []
    ensures CorsCheck(Some(origin), allowed).Success? <==> origin in allowed
  {
  }

  /** A non-empty list of origins, each non-empty, trimmed and without a comma. */
  predicate OriginList(origins: seq<string>) {
    |origins| >= 1 && forall i :: 0 <= i < |origins| ==> origins[i] != "" && IsTrimmed(origins[i]) && ',' !in origins[i]
  }

  lemma AllowedOriginsOfJoin(origins: seq<string>)
    requires OriginList(origins)
    ensures AllowedOrigins(Some(Join(origins, ','))) == origins
  {
    SplitTrimmedOfJoin(origins, ',');
  }

  // ---------------------------------------------------------------------
  // Rate limit

  /** `parseInt(env || default, 10)`; None is NaN. */
  function RateLimitSetting(env: Option<string>, default: nat): (r: Option<int>)
    ensures !Present(env) ==> r == Some(default)
  {
    ParseIntOfNatToString(default, true);
    ParseInt(if Present(env) then env.value else NatToString(default), true)
  }

  /** The window is 60000 ms and the budget 100 requests unless configured. */
  lemma RateLimitDefaults(env: ServerEnv)
    requires !Present(env.rateLimitWindowMs) && !Present(env.rateLimitMaxRequests)
    ensures RateLimitSetting(env.rateLimitWindowMs, DefaultWindowMs) == Some(60000)
    ensures RateLimitSetting(env.rateLimitMaxRequests, DefaultMaxRequests) == Some(100)
  {
  }

  // ---------------------------------------------------------------------
  // Routing

  datatype Route = Preflight | HealthRoute | RiotRoute | OtherRoute

  /** Which handler a request reaches. The CORS middleware ends every
      OPTIONS request itself (its default is not to pass preflights on);
      `app.get` also serves HEAD; the Riot router sits below `/api/v1/riot`. */
  function RouteOf(httpMethod: string, path: string): Route {
    if httpMethod == "OPTIONS" then Preflight
    else if (httpMethod == "GET" || httpMethod == "HEAD") && path == HealthPath then HealthRoute
    else if path == RiotPrefix || StartsWith(path, RiotPrefix + "/") then RiotRoute
    else OtherRoute
  }

  /** The 500 the error handler answers with. */
  function InternalError(): (r: Response)
    ensures r.status == 500 && ErrorCode(r.body) == Some(InternalServerError)
  {
    EnvelopesDiffer(JNull, InternalServerError, InternalServerErrorMessage);
    Response(500, ErrorBody(InternalServerError, InternalServerErrorMessage))
  }

  /** The preflight answer of the CORS middleware: 204 without a body. */
  function PreflightResponse(): Response {
    Response(204, JNull)
  }

  /** The health body `{ success: true, data: { status: 'ok' } }`. */
  function HealthResponse(): Response {
    Response(200, OkBody(JObj(map["status" := JStr("ok")])))
  }

  /** `authenticate` followed by `requireRole('MEMBER')`: the gate in
      front of the Riot router. A missing or rejected token is a 401, a
      verified token without the MEMBER role a 403. */
  function MemberGate(env: ServerEnv, authorization: Option<string>,
                      verify: (string, VerifyOptions) -> Verification): (g: Gate)
    ensures var a := Authenticate(authorization, Options(env.issuer, env.audience), verify);
            && (g.Pass? <==> a.Pass? && HasRole(a.user, RolePath(env.rolePath), MemberRole))
            && (g.Pass? ==> g.user == a.user)
            && (a.Deny? ==> g == a)
            && (a.Pass? && !HasRole(a.user, RolePath(env.rolePath), MemberRole) ==> g.response.status == 403)
  {
    match Authenticate(authorization, Options(env.issuer, env.audience), verify)
    case Deny(response) => Deny(response)
    case Pass(user) => RequireRole(MemberRole, user, RolePath(env.rolePath))
  }

  /** The response of the app: the CORS check first (its error reaches the
      error handler), then the route. The Riot router runs behind the
      MEMBER gate; its answer, and that of the other routers, are
      parameters. `riot` receives the authenticated user. */
  function Handle(env: ServerEnv, req: ServerRequest, verify: (string, VerifyOptions) -> Verification,
                  riot: Option<Json> -> Response, other: Response): (r: Response)
    ensures CorsCheck(req.origin, AllowedOrigins(env.corsOrigin)).Failure? ==> r == InternalError()
    ensures (CorsCheck(req.origin, AllowedOrigins(env.corsOrigin)).Success? && req.httpMethod == "OPTIONS")
              ==> r == PreflightResponse()
    ensures (CorsCheck(req.origin, AllowedOrigins(env.corsOrigin)).Success? && RouteOf(req.httpMethod, req.path) == HealthRoute)
              ==> r == HealthResponse()
    ensures (CorsCheck(req.origin, AllowedOrigins(env.corsOrigin)).Success? && RouteOf(req.httpMethod, req.path) == RiotRoute)
              ==> var g := MemberGate(env, req.authorization, verify);
                  r == (if g.Pass? then riot(g.user) else g.response)
  {
    if CorsCheck(req.origin, AllowedOrigins(env.corsOrigin)).Failure? then InternalError()
    else
      match RouteOf(req.httpMethod, req.path)
      case Preflight => PreflightResponse()
      case HealthRoute => HealthResponse()
      case OtherRoute => other
      case RiotRoute =>
        var g := MemberGate(env, req.authorization, verify);
        if g.Pass? then riot(g.user) else g.response
  }

  /** A request to a Riot route other than a preflight answers with the
      router's response exactly when the bearer token verifies and its
      roles hold MEMBER; otherwise it is a 401 (no or invalid token) or a
      403 (no MEMBER role). */
  lemma RiotRoutesNeedMember(env: ServerEnv, req: ServerRequest, verify: (string, VerifyOptions) -> Verification,
                             riot: Option<Json> -> Response, other: Response)
    requires CorsCheck(req.origin, AllowedOrigins(env.corsOrigin)).Success?
    requires req.httpMethod != "OPTIONS"
    requires req.path == RiotPrefix || StartsWith(req.path, RiotPrefix + "/")
    ensures var a := Authenticate(req.authorization, Options(env.issuer, env.audience), verify);
            var r := Handle(env, req, verify, riot, other);
            && (a.Deny? ==> r.status == 401)
            && (a.Pass? && !HasRole(a.user, RolePath(env.rolePath), MemberRole) ==> r.status == 403)
            && (a.Pass? && HasRole(a.user, RolePath(env.rolePath), MemberRole) ==> r == riot(a.user))
  {
    RiotPathIsNotHealth(req.path);
    assert RouteOf(req.httpMethod, req.path) == RiotRoute;
    var g := MemberGate(env, req.authorization, verify);
    assert Handle(env, req, verify, riot, other) == (if g.Pass? then riot(g.user) else g.response);
  }

  /** A path below `/api/v1/riot` is never the health path. */
  lemma RiotPathIsNotHealth(path: string)
    requires path == RiotPrefix || StartsWith(path, RiotPrefix + "/")
    ensures path != HealthPath
  {
    assert path[..|RiotPrefix|] == RiotPrefix;
    assert path[8] == 'r' && HealthPath[8] == 'h';
  }

  /** The health check answers 200 to a GET or HEAD from any allowed
      origin with no Authorization header at all. */
  lemma HealthNeedsNoToken(env: ServerEnv, httpMethod: string, origin: Option<string>,
                           verify: (string, VerifyOptions) -> Verification,
                           riot: Option<Json> -> Response, other: Response)
    requires httpMethod == "GET" || httpMethod == "HEAD"
    requires CorsCheck(origin, AllowedOrigins(env.corsOrigin)).Success?
    ensures Handle(env, ServerRequest(httpMethod, HealthPath, origin, None), verify, riot, other).status == 200
  {
    assert RouteOf(httpMethod, HealthPath) == HealthRoute;
  }

  /** Every preflight from an allowed origin is answered 204 by the CORS
      middleware, on every path and whatever the Authorization header. */
  lemma PreflightNeedsNoToken(env: ServerEnv, req: ServerRequest, verify: (string, VerifyOptions) -> Verification,
                              riot: Option<Json> -> Response, other: Response)
    requires req.httpMethod == "OPTIONS"
    requires CorsCheck(req.origin, AllowedOrigins(env.corsOrigin)).Success?
    ensures Handle(env, req, verify, riot, other).status == 204
  {
    assert RouteOf(req.httpMethod, req.path) == Preflight;
  }

  /** A request without an Origin header is never stopped by CORS, so a
      Riot route without a token is a 401 whatever CORS_ORIGIN says,
      except for a preflight. */
  lemma RiotWithoutTokenIs401(env: ServerEnv, httpMethod: string, path: string,
                              verify: (string, VerifyOptions) -> Verification,
                              riot: Option<Json> -> Response, other: Response)
    requires httpMethod != "OPTIONS"
    requires path == RiotPrefix || StartsWith(path, RiotPrefix + "/")
    ensures var r := Handle(env, ServerRequest(httpMethod, path, None, None), verify, riot, other);
            r == Response(401, ErrorBody(Unauthorized, MissingTokenMessage))
  {
    RiotPathIsNotHealth(path);
    assert RouteOf(httpMethod, path) == RiotRoute;
    assert BearerToken(None) == None;
    assert MemberGate(env, None, verify) == Deny(Response(401, ErrorBody(Unauthorized, MissingTokenMessage)));
  }
}
