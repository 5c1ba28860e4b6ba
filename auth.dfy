/** The OIDC bearer-token middleware of the user service (and, identically,
    of the LolAPIService server): extracting the token, turning the
    verifier's verdict into a 401, walking a dotted claim path, and the
    role gate that answers 403. Signature checking is the verifier's
    business and is a parameter here. */
module Auth {
  import opened Common
  import opened Json

  const DefaultRolePath: string := "realm_access.roles"
  const BearerPrefix: string := "Bearer "
  const TokenExpiredName: string := "TokenExpiredError"
  const Unauthorized: string := "UNAUTHORIZED"
  const TokenExpired: string := "TOKEN_EXPIRED"
  const Forbidden: string := "FORBIDDEN"
  const MissingTokenMessage: string := "Missing token"
  const InvalidTokenMessage: string := "Invalid token"
  const InsufficientRoleMessage: string := "Insufficient role"

  // ---------------------------------------------------------------------
  // Claim paths

  /** One step of the walk: the property `k` of a truthy value, otherwise undefined. */
  function Step(acc: Option<Json>, k: string): Option<Json> {
    if Truthy(acc) then Prop(acc.value, k) else None
  }

  /** The left fold of `Step` over the keys. */
  function Walk(acc: Option<Json>, keys: seq<string>): Option<Json>
    decreases |keys|
  {
    if keys == [] then acc else Walk(Step(acc, keys[0]), keys[1..])
  }

  /** `getValueByPath(obj, path)`: the value at a dotted path, undefined as
      soon as an intermediate value is falsy or lacks the key. */
  function GetValueByPath(obj: Option<Json>, path: string): Option<Json> {
    Walk(obj, Split(path, '.'))
  }

  /** Nothing is read from a falsy or undefined value, whatever the path. */
  lemma GetValueByPathOfFalsy(obj: Option<Json>, path: string)
    requires !Truthy(obj)
    ensures GetValueByPath(obj, path) == None
  {
    WalkFromFalsy(obj, Split(path, '.'));
  }

  /** A falsy or undefined value has no properties: walking on from it
      gives undefined. */
  lemma {:induction false} WalkFromFalsy(acc: Option<Json>, keys: seq<string>)
    requires keys != [] && !Truthy(acc)
    ensures Walk(acc, keys) == None
    decreases |keys|
  {
    if |keys| > 1 {
      WalkFromFalsy(None, keys[1..]);
    }
  }

  /** Walking two key lists one after the other is walking their concatenation. */
  lemma {:induction false} WalkAppend(acc: Option<Json>, p: seq<string>, q: seq<string>)
    ensures Walk(acc, p + q) == Walk(Walk(acc, p), q)
    decreases |p|
  {
    if p != [] {
      assert (p + q)[0] == p[0];
      assert (p + q)[1..] == p[1..] + q;
      WalkAppend(Step(acc, p[0]), p[1..], q);
    } else {
      assert p + q == q;
    }
  }

  /** A path without a dot reads one property. */
  lemma GetValueByPathKey(obj: Option<Json>, k: string)
    requires '.' !in k
    ensures GetValueByPath(obj, k) == (if Truthy(obj) then Prop(obj.value, k) else None)
  {
    SplitOfSeparatorFree(k, '.');
    assert Walk(obj, [k]) == Walk(Step(obj, k), []);
  }

  /** `a.b` reads `b` from what `a` reads. */
  lemma GetValueByPathDot(obj: Option<Json>, a: string, b: string)
    requires '.' !in a
    ensures GetValueByPath(obj, a + "." + b) == GetValueByPath(GetValueByPath(obj, a), b)
  {
    SplitPrefix(a, b, '.');
    SplitOfSeparatorFree(a, '.');
    WalkAppend(obj, [a], Split(b, '.'));
  }

  /** `process.env.OIDC_ROLE_PATH || 'realm_access.roles'` */
  function RolePath(env: Option<string>): (p: string)
    ensures p != ""
    ensures !Present(env) ==> p == DefaultRolePath
  {
    if Present(env) then env.value else DefaultRolePath
  }

  const RealmAccessKey: string := "realm_access"
  const RolesKey: string := "roles"

  /** The roles a token with the claims `claims` carries under the default
      path: the array at `realm_access.roles`, when there is one. */
  function RealmRoles(claims: map<string, Json>): Option<seq<Json>> {
    if RealmAccessKey in claims && claims[RealmAccessKey].JObj?
       && RolesKey in claims[RealmAccessKey].fields && claims[RealmAccessKey].fields[RolesKey].JArr?
    then Some(claims[RealmAccessKey].fields[RolesKey].items)
    else None
  }

  lemma DefaultRolePathKeys()
    ensures DefaultRolePath == RealmAccessKey + "." + RolesKey
    ensures '.' !in RealmAccessKey
  {
  }

  /** Only an object has a `roles` property. */
  lemma RolesKeyOnlyOnObjects(v: Json)
    requires !v.JObj?
    ensures Prop(v, RolesKey) == None
  {
    assert RolesKey != "length";
    assert CanonicalIndex(RolesKey).None? by {
      assert !IsDigit(RolesKey[0]);
    }
  }

  /** The default path reads `realm_access.roles`, and only an array there
      is an array read. */
  lemma DefaultPathReadsRealmRoles(claims: map<string, Json>)
    ensures var v := GetValueByPath(Some(JObj(claims)), DefaultRolePath);
            (v.Some? && v.value.JArr?) <==> RealmRoles(claims).Some?
    ensures RealmRoles(claims).Some? ==>
              GetValueByPath(Some(JObj(claims)), DefaultRolePath) == Some(JArr(RealmRoles(claims).value))
  {
    DefaultRolePathKeys();
    GetValueByPathDot(Some(JObj(claims)), RealmAccessKey, RolesKey);
    GetValueByPathKey(Some(JObj(claims)), RealmAccessKey);
    var ra := GetValueByPath(Some(JObj(claims)), RealmAccessKey);
    GetValueByPathKey(ra, RolesKey);
    if ra.Some? && !ra.value.JObj? {
      RolesKeyOnlyOnObjects(ra.value);
    }
  }

  // ---------------------------------------------------------------------
  // `authenticate`

  /** The options handed to the verifier: RS256 only, the configured
      issuer, and an audience only when one is configured. */
  datatype VerifyOptions = VerifyOptions(algorithms: seq<string>, issuer: Option<string>, audience: Option<string>)

  /** What the verifier decides about a token: its payload, or the name of
      the error it raised. */
  datatype Verification = Verified(payload: Json) | Rejected(errorName: string)

  /** A middleware either passes the request on (with `req.user`) or answers it. */
  datatype Gate = Pass(user: Option<Json>) | Deny(response: Response)

  function Options(issuerEnv: Option<string>, audienceEnv: Option<string>): (o: VerifyOptions)
    ensures o.algorithms == ["RS256"] && o.issuer == issuerEnv
    ensures o.audience.Some? <==> Present(audienceEnv)
    ensures o.audience.Some? ==> o.audience == audienceEnv
  {
    VerifyOptions(["RS256"], issuerEnv, if Present(audienceEnv) then audienceEnv else None)
  }

  /** The token of an `Authorization` header, when it has the exact,
      case-sensitive `Bearer ` scheme and something after it. */
  function BearerToken(authorization: Option<string>): (t: Option<string>)
    ensures t.Some? <==> authorization.Some? && StartsWith(authorization.value, BearerPrefix)
                         && |authorization.value| > |BearerPrefix|
    ensures t.Some? ==> t.value != "" && BearerPrefix + t.value == authorization.value
  {
    var auth := authorization.GetOr("");
    var token := if StartsWith(auth, BearerPrefix) then Some(auth[|BearerPrefix|..]) else None;
    if Present(token) then token else None
  }

  /** Every non-empty token sent with the `Bearer ` scheme is the token read back. */
  lemma BearerTokenRoundTrip(token: string)
    requires token != ""
    ensures BearerToken(Some(BearerPrefix + token)) == Some(token)
  {
    assert (BearerPrefix + token)[..|BearerPrefix|] == BearerPrefix;
    assert (BearerPrefix + token)[|BearerPrefix|..] == token;
  }

  /** The scheme is matched exactly and case-sensitively: a header that
      opens with any other seven characters (`bearer `, `Basic  `, `BEARER `)
      counts as no token, whatever follows. */
  lemma LowerCaseSchemeIsMissing(scheme: string, rest: string)
    requires |scheme| == |BearerPrefix| && scheme != BearerPrefix
    ensures BearerToken(Some(scheme + rest)) == None
  {
    assert (scheme + rest)[..|BearerPrefix|] == scheme;
  }

  /** `authenticate`: 401 UNAUTHORIZED "Missing token" without a bearer
      token; otherwise the verifier decides, and a rejection is a 401 whose
      code is TOKEN_EXPIRED exactly when the token had expired. */
  function Authenticate(authorization: Option<string>, opts: VerifyOptions,
                        verify: (string, VerifyOptions) -> Verification): (g: Gate)
    ensures g.Pass? <==> BearerToken(authorization).Some? && verify(BearerToken(authorization).value, opts).Verified?
    ensures g.Pass? ==> g.user == Some(verify(BearerToken(authorization).value, opts).payload)
    ensures g.Deny? ==> g.response.status == 401
    ensures BearerToken(authorization).None? ==>
              g == Deny(Response(401, ErrorBody(Unauthorized, MissingTokenMessage)))
  {
    var token := BearerToken(authorization);
    if token.None? then Deny(Response(401, ErrorBody(Unauthorized, MissingTokenMessage)))
    else
      match verify(token.value, opts)
      case Rejected(name) =>
        var code := if name == TokenExpiredName then TokenExpired else Unauthorized;
        Deny(Response(401, ErrorBody(code, InvalidTokenMessage)))
      case Verified(payload) => Pass(Some(payload))
  }

  /** Every refusal of `authenticate` is a 401; its code is TOKEN_EXPIRED
      exactly for an expired token and UNAUTHORIZED otherwise, and its
      message tells a missing token from an invalid one. */
  lemma AuthenticateRefusals(authorization: Option<string>, opts: VerifyOptions,
                             verify: (string, VerifyOptions) -> Verification)
    requires Authenticate(authorization, opts, verify).Deny?
    ensures var r := Authenticate(authorization, opts, verify).response;
            var token := BearerToken(authorization);
            && r.status == 401
            && (ErrorCode(r.body) == Some(TokenExpired) <==>
                  token.Some? && verify(token.value, opts) == Rejected(TokenExpiredName))
            && (ErrorCode(r.body) == Some(Unauthorized) <==>
                  !(token.Some? && verify(token.value, opts) == Rejected(TokenExpiredName)))
            && (r.body == ErrorBody(ErrorCode(r.body).value, MissingTokenMessage) <==> token.None?)
  {
    var r := Authenticate(authorization, opts, verify).response;
    var token := BearerToken(authorization);
    if token.None? {
      EnvelopesDiffer(JNull, Unauthorized, MissingTokenMessage);
    } else {
      var name := verify(token.value, opts).errorName;
      var code := if name == TokenExpiredName then TokenExpired else Unauthorized;
      EnvelopesDiffer(JNull, code, InvalidTokenMessage);
      assert ErrorBody(code, InvalidTokenMessage) != ErrorBody(code, MissingTokenMessage) by {
        assert InvalidTokenMessage[0] != MissingTokenMessage[0];
        var e1 := map["code" := JStr(code), "message" := JStr(InvalidTokenMessage)];
        var e2 := map["code" := JStr(code), "message" := JStr(MissingTokenMessage)];
        assert e1["message"] != e2["message"];
        assert Prop(ErrorBody(code, InvalidTokenMessage), "error") == Some(JObj(e1));
        assert Prop(ErrorBody(code, MissingTokenMessage), "error") == Some(JObj(e2));
      }
    }
  }

  // ---------------------------------------------------------------------
  // `requireRole`

  /** `req.user || {}` */
  function UserOrEmpty(user: Option<Json>): Json {
    if Truthy(user) then user.value else JObj(map[])
  }

  /** Whether the value at the role path of the user is an array holding `role`. */
  predicate HasRole(user: Option<Json>, rolePath: string, role: string) {
    var v := GetValueByPath(Some(UserOrEmpty(user)), rolePath);
    v.Some? && v.value.JArr? && JStr(role) in v.value.items
  }

  /** `requireRole(role)`: the request goes on, unchanged, exactly when the
      user's roles hold `role`; otherwise 403 FORBIDDEN. */
  function RequireRole(role: string, user: Option<Json>, rolePath: string): (g: Gate)
    ensures g.Pass? <==> HasRole(user, rolePath, role)
    ensures g.Pass? ==> g.user == user
    ensures g.Deny? ==> g.response == Response(403, ErrorBody(Forbidden, InsufficientRoleMessage))
  {
    var found := GetValueByPath(Some(UserOrEmpty(user)), rolePath);
    var roles := if Truthy(found) then found.value else JArr([]);
    if !roles.JArr? || JStr(role) !in roles.items then
      Deny(Response(403, ErrorBody(Forbidden, InsufficientRoleMessage)))
    else Pass(user)
  }

  /** With the default path, a token passes the role gate exactly when its
      `realm_access.roles` claim is an array holding the role. */
  lemma RequireRoleOfClaims(role: string, claims: map<string, Json>)
    ensures RequireRole(role, Some(JObj(claims)), DefaultRolePath).Pass? <==>
              RealmRoles(claims).Some? && JStr(role) in RealmRoles(claims).value
  {
    DefaultPathReadsRealmRoles(claims);
  }

  /** A request without a user is refused whatever the role and the path. */
  lemma NoUserIsForbidden(role: string, rolePath: string)
    ensures RequireRole(role, None, rolePath).Deny?
  {
    var keys := Split(rolePath, '.');
    var empty: map<string, Json> := map[];
    assert keys[0] !in empty;
    assert Step(Some(JObj(empty)), keys[0]) == None;
    assert Walk(Some(JObj(empty)), keys) == Walk(None, keys[1..]);
    if |keys| > 1 {
      WalkFromFalsy(None, keys[1..]);
    }
    assert GetValueByPath(Some(JObj(map[])), rolePath) == None;
  }
}
