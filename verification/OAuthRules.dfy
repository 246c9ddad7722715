/** The decisions of the authorization server that only read: request validation, the
    checks on a presented code or refresh token, and access-token validation. */
module OAuthRules {
  import opened Wrappers
  import opened GoStrings
  import opened Entities
  import opened Scopes
  import opened TableOps

  /** Server options. `canonicalResource` and `matchRedirectURI` stand for URL handling and
      `s256` for BASE64URL(SHA256(.)); nothing is assumed about them. */
  datatype Config = Config(
    scopes: seq<string>,
    defaultScopes: Option<seq<string>>,
    resources: seq<string>,
    codeTTL: int,
    accessTokenTTL: int,
    refreshTokenTTL: int,
    refreshReuseGrace: int,
    requireOfflineAccess: bool,
    canonicalResource: string -> Option<string>,
    matchRedirectURI: (seq<string>, string) -> bool,
    s256: string -> string)

  datatype ResolvedClient = ResolvedClient(id: string, redirectURIs: seq<string>, grantTypes: seq<string>, cimd: bool)

  datatype OAuthError =
    InvalidRequest | InvalidGrant | InvalidScope | InvalidTarget | UnauthorizedClient | UnsupportedResponseType

  const AUTHORIZATION_CODE := "authorization_code"
  const REFRESH_TOKEN := "refresh_token"
  const OFFLINE_ACCESS := "offline_access"

  // ---------- authorization requests ----------

  datatype AuthzParams = AuthzParams(
    responseType: string, redirectURI: string, scope: string, resource: string, challenge: string,
        challengeMethod: string)

  datatype AuthzRequest = AuthzRequest(
    client: ResolvedClient, redirectURI: string, scopes: seq<string>, resource: string, challenge: string)

  predicate IsUnreserved(c: char) {
    'A' <= c <= 'Z' || 'a' <= c <= 'z' || '0' <= c <= '9' || c == '-' || c == '.' || c == '_' || c == '~'
  }

  predicate ValidChallenge(c: string) {
    |c| == 43 && forall i :: 0 <= i < |c| ==> IsUnreserved(c[i]) && c[i] != '.' && c[i] != '~'
  }

  predicate ValidVerifier(v: string) {
    43 <= |v| <= 128 && forall i :: 0 <= i < |v| ==> IsUnreserved(v[i])
  }

  predicate VerifyS256(cfg: Config, verifier: string, challenge: string) {
    ValidVerifier(verifier) && cfg.s256(verifier) == challenge
  }

  /** The scopes a request without `scope` asks for. */
  function Defaults(cfg: Config): seq<string> {
    if cfg.defaultScopes.Some? then cfg.defaultScopes.value else cfg.scopes
  }

  function ResolveScopes(cfg: Config, raw: string): Result<seq<string>, OAuthError> {
    var req := ScopesOf(raw);
    if req == [] then Ok(Defaults(cfg))
    else if Elements(req) <= Elements(cfg.scopes) then Ok(req)
    else Err(InvalidScope)
  }

  function ResolveResource(cfg: Config, raw: string): Result<string, OAuthError> {
    if raw == "" then
      if |cfg.resources| == 1 then Ok(cfg.resources[0]) else Err(InvalidTarget)
    else match cfg.canonicalResource(raw)
      case None => Err(InvalidTarget)
      case Some(c) => if c in cfg.resources then Ok(c) else Err(InvalidTarget)
  }

  /** A refused authorization request: shown to the user, or sent to the redirect URI. */
  datatype AuthzError = Shown(error: OAuthError) | SentTo(redirectURI: string, error: OAuthError)

  /** The request is refused on a page while its redirect URI is not established, and by a redirect
      to it afterwards. */
  function ParseAuthz(cfg: Config, client: ResolvedClient, p: AuthzParams): Result<AuthzRequest, AuthzError> {
    if p.redirectURI == "" || !cfg.matchRedirectURI(client.redirectURIs, p.redirectURI) then Err(Shown(InvalidRequest))
    else match ParseRest(cfg, client, p)
      case Err(e) => Err(SentTo(p.redirectURI, e))
      case Ok(q) => Ok(q)
  }

  function ParseRest(cfg: Config, client: ResolvedClient, p: AuthzParams): Result<AuthzRequest, OAuthError> {
    if p.responseType != "code" then Err(UnsupportedResponseType)
    else if |client.grantTypes| > 0 && AUTHORIZATION_CODE !in client.grantTypes then Err(UnauthorizedClient)
    else if p.challenge == "" || p.challengeMethod != "S256" || !ValidChallenge(p.challenge) then Err(InvalidRequest)
    else match ResolveScopes(cfg, p.scope)
      case Err(e) => Err(e)
      case Ok(scopes) =>
        match ResolveResource(cfg, p.resource)
        case Err(e) => Err(e)
        case Ok(resource) => Ok(AuthzRequest(client, p.redirectURI, scopes, resource, p.challenge))
  }

  /** A remembered consent that covers the request lets it skip the consent page. */
  predicate Covers(consent: Option<Consent>, scopes: seq<string>) {
    consent.Some? && Elements(scopes) <= ScopeSet(consent.value.scopes)
  }

  // ---------- token requests ----------

  datatype CodeRequest = CodeRequest(
    client: ResolvedClient, code: string, redirectURI: string, verifier: string, resource: string)

  datatype RefreshRequest = RefreshRequest(client: ResolvedClient, refreshToken: string, resource: string,
                                           scope: string)

  predicate ClientAllows(c: ResolvedClient, grantType: string) {
    if c.grantTypes == [] then grantType == AUTHORIZATION_CODE || grantType == REFRESH_TOKEN
    else grantType in c.grantTypes
  }

  predicate IssuesRefresh(cfg: Config, c: ResolvedClient, scopes: seq<string>) {
    ClientAllows(c, REFRESH_TOKEN) && (cfg.requireOfflineAccess ==> OFFLINE_ACCESS in scopes)
  }

  /** An optional `resource` parameter must name the bound resource. */
  predicate ResourceAgrees(cfg: Config, raw: string, bound: string) {
    raw == "" || cfg.canonicalResource(raw) == Some(bound)
  }

  /** The request comes from the code's client and carries the verifier of its challenge; its redirect
      URI and resource, where given, are those of the authorization request. */
  predicate Proves(cfg: Config, rq: CodeRequest, code: Code) {
    && rq.client.id == code.clientID && VerifyS256(cfg, rq.verifier, code.challenge)
    && (rq.redirectURI == "" || rq.redirectURI == code.redirectURI) && ResourceAgrees(cfg, rq.resource, code.resource)
  }

  datatype Verdict = Accept | Refuse(error: OAuthError) | Revoke(grantID: string, error: OAuthError)

  /** The checks on a stored code, in the order the handler makes them. A used code
      revokes what was issued from it. */
  function JudgeCode(cfg: Config, code: Code, rq: CodeRequest, now: int): Verdict {
    if code.usedAt.Some? then
      if code.grantID != "" then Revoke(code.grantID, InvalidGrant) else Refuse(InvalidGrant)
    else if now > code.expiresAt then Refuse(InvalidGrant)
    else if code.clientID != rq.client.id then Refuse(InvalidGrant)
    else if rq.redirectURI != "" && rq.redirectURI != code.redirectURI then Refuse(InvalidGrant)
    else if !VerifyS256(cfg, rq.verifier, code.challenge) then Refuse(InvalidGrant)
    else if !ResourceAgrees(cfg, rq.resource, code.resource) then Refuse(InvalidTarget)
    else Accept
  }

  /** The grant id and secret of a refresh token "gid.secret". */
  function ParseRefreshToken(token: string): Option<(string, string)> {
    match Cut(token, '.')
    case None => None
    case Some((gid, secret)) => if gid == "" || secret == "" || |gid| > 64 then None else Some((gid, secret))
  }

  function RefreshTokenOf(gid: string, secret: string): string {
    gid + ['.'] + secret
  }

  predicate InGrace(cfg: Config, g: Grant, now: int) {
    cfg.refreshReuseGrace > 0 && g.lastUsedAt.Some? && now - g.lastUsedAt.value <= cfg.refreshReuseGrace
  }

  /** The checks on a stored grant. The just-rotated secret coming back revokes the grant
      outside the grace window; an expired grant is deleted. */
  function JudgeGrant(cfg: Config, g: Grant, rq: RefreshRequest, secret: string, now: int): Verdict {
    var presented := Sha256(secret);
    if g.clientID != rq.client.id then Refuse(InvalidGrant)
    else if g.tokenHash != presented then
      if g.prevTokenHash == presented && !InGrace(cfg, g, now) then Revoke(g.id, InvalidGrant) else Refuse(InvalidGrant)
    else if now > g.expiresAt then Revoke(g.id, InvalidGrant)
    else if !ResourceAgrees(cfg, rq.resource, g.resource) then Refuse(InvalidTarget)
    else Accept
  }

  /** The scopes of a refreshed token: all of the grant's, or a requested subset. */
  function NarrowScopes(granted: string, requested: string): Result<seq<string>, OAuthError> {
    var req := ScopesOf(requested);
    if req == [] then Ok(ScopesOf(granted))
    else if Elements(req) <= ScopeSet(granted) then Ok(req)
    else Err(InvalidScope)
  }

  predicate Available(users: map<string, User>, id: string, now: int) {
    id in users && !users[id].IsLockedOut(now)
  }

  function NewGrant(cfg: Config, code: Code, user: User, client: ResolvedClient, gid: string, hash: Digest,
                    now: int): Grant {
    Grant(gid, user.id, client.id, code.scopes, code.resource, hash, NoDigest, user.securityStamp,
          now + cfg.refreshTokenTTL, now, None)
  }

  // ---------- access tokens ----------

  datatype AccessToken = AccessToken(
    sub: string, aud: string, clientID: string, scope: string, gid: string, stamp: string, iat: int, exp: int)

  datatype TokenResponse = TokenResponse(accessToken: AccessToken, refreshToken: string, scope: string)

  function SignToken(cfg: Config, user: User, g: Grant, scopes: seq<string>, now: int): AccessToken {
    AccessToken(user.id, g.resource, g.clientID, JoinScopes(scopes), g.id, user.securityStamp,
                Unix(now), Unix(now + cfg.accessTokenTTL))
  }

  /** The time claims of an access token, in whole seconds. */
  predicate InTime(at: AccessToken, now: int) {
    at.iat * SECOND <= now < at.exp * SECOND
  }

  /** A bearer token as its parsing leaves it: signed by someone else or for another issuer, an app
      session token, or an access token of this server. */
  datatype Bearer = Foreign | SessionJWT | AccessJWT(token: AccessToken)

  /** What `ValidateResourceToken` checks against the token and its user. */
  predicate UserAccepts(cfg: Config, users: map<string, User>, at: AccessToken, resource: string, now: int) {
    && cfg.canonicalResource(resource) == Some(at.aud)
    && InTime(at, now)
    && at.sub != "" && at.gid != ""
    && Available(users, at.sub, now)
    && users[at.sub].securityStamp == at.stamp
  }

  /** What it then checks against the token's grant. */
  predicate GrantAccepts(t: OAuthTables, at: AccessToken) {
    at.gid in t.grants && t.grants[at.gid].userID == at.sub
  }

  /** `ValidateResourceToken` with nothing between its two reads, for an access token of this server. */
  predicate Validates(cfg: Config, t: OAuthTables, users: map<string, User>, at: AccessToken, resource: string,
                      now: int) {
    UserAccepts(cfg, users, at, resource, now) && GrantAccepts(t, at)
  }

  // ---------- properties of the decisions ----------

  /** The code points of the base64url alphabet (section 5 of RFC 4648). */
  predicate Base64URL(n: int) {
    48 <= n <= 57 || 65 <= n <= 90 || 97 <= n <= 122 || n == 45 || n == 95
  }

  /** What a code challenge is bound to: 43 characters of base64url (section 4.2 of RFC 7636). */
  predicate IsChallenge(c: string) {
    |c| == 43 && forall i :: 0 <= i < |c| ==> Base64URL(c[i] as int)
  }

  /** The request may name this redirect URI and receive an answer there. */
  predicate MayReturnTo(cfg: Config, client: ResolvedClient, uri: string) {
    uri != "" && cfg.matchRedirectURI(client.redirectURIs, uri)
  }

  /** The other parameters that an authorization request needs. */
  predicate WellFormed(cfg: Config, client: ResolvedClient, p: AuthzParams) {
    && p.responseType == "code" && (client.grantTypes == [] || AUTHORIZATION_CODE in client.grantTypes)
    && p.challengeMethod == "S256" && IsChallenge(p.challenge)
    && (forall sc :: sc in ScopeSet(p.scope) ==> sc in cfg.scopes)
    && (if p.resource == "" then |cfg.resources| == 1
        else cfg.canonicalResource(p.resource).Some? && cfg.canonicalResource(p.resource).value in cfg.resources)
  }

  /** An authorization request is accepted exactly when every parameter is acceptable, and then for
      the redirect URI, scopes, resource and challenge it named; an answer of any kind is sent to a
      redirect URI only when it is one of the client's, and says what is wrong first. */
  lemma ParseAuthzIff(cfg: Config, client: ResolvedClient, p: AuthzParams)
    ensures var r := ParseAuthz(cfg, client, p);
            && (r.Ok? <==> MayReturnTo(cfg, client, p.redirectURI) && WellFormed(cfg, client, p))
            && (r.Err? ==> (r.error.SentTo? <==> MayReturnTo(cfg, client, p.redirectURI)))
            && (r.Err? && r.error.SentTo? ==>
                  && r.error.redirectURI == p.redirectURI
                  && r.error.error == if p.responseType != "code" then UnsupportedResponseType
                                      else if client.grantTypes != [] && AUTHORIZATION_CODE !in client.grantTypes
                                      then UnauthorizedClient
                                      else if p.challengeMethod != "S256" || !IsChallenge(p.challenge)
                                      then InvalidRequest
                                      else if !(ScopeSet(p.scope) <= Elements(cfg.scopes)) then InvalidScope
                                      else InvalidTarget)
            && (r.Ok? ==>
                  && r.value.client == client && r.value.redirectURI == p.redirectURI
                  && r.value.challenge == p.challenge
                  && r.value.scopes == (if ScopesOf(p.scope) != [] then ScopesOf(p.scope)
                                        else if cfg.defaultScopes.Some? then cfg.defaultScopes.value else cfg.scopes)
                  && (if p.resource == "" then cfg.resources == [r.value.resource]
                      else cfg.canonicalResource(p.resource) == Some(r.value.resource)))
  {
    assert ValidChallenge(p.challenge) <==> IsChallenge(p.challenge);
  }

  /** A verifier proves a challenge exactly when it is 43 to 128 unreserved characters that hash to
      it (section 4.1 of RFC 7636). */
  lemma VerifierIff(cfg: Config, verifier: string, challenge: string)
    ensures VerifyS256(cfg, verifier, challenge) <==>
            && 43 <= |verifier| <= 128 && cfg.s256(verifier) == challenge
            && forall i :: 0 <= i < |verifier| ==>
                Base64URL(verifier[i] as int) || verifier[i] == '.' || verifier[i] == '~'
  {
  }

  /** A refresh token is read as a grant id and a secret exactly when it is the two around a dot, the
      id of 1 to 64 characters without a dot and the secret not empty. */
  lemma ParseRefreshTokenIff(token: string, gid: string, secret: string)
    ensures ParseRefreshToken(token) == Some((gid, secret)) <==>
            token == gid + "." + secret && '.' !in gid && 1 <= |gid| <= 64 && secret != ""
  {
    CutSplits(token, '.');
    if '.' !in gid {
      CutOfConcat(gid, secret, '.');
    }
  }

  /** The configured set bounds what a default request is granted exactly when every
      white-space-free piece of every default scope is itself configured. */
  predicate DefaultsConfigured(cfg: Config) {
    forall d :: d in Defaults(cfg) ==> Elements(Fields(d)) <= Elements(cfg.scopes)
  }

  lemma DefaultScopesBoundedIff(cfg: Config)
    ensures ScopeSet(JoinScopes(Defaults(cfg))) <= Elements(cfg.scopes) <==> DefaultsConfigured(cfg)
  {
    PrintedScopes(Defaults(cfg));
    if ScopeSet(JoinScopes(Defaults(cfg))) <= Elements(cfg.scopes) {
      forall d, t | d in Defaults(cfg) && t in Elements(Fields(d))
        ensures t in Elements(cfg.scopes)
      {
        assert t in ScopeSet(JoinScopes(Defaults(cfg)));
      }
    }
  }

  /** A scope name holding a space passes the server's own start-up check (every default
      is in the configured list) and still yields scopes outside the configuration. */
  lemma DefaultScopesUnboundedExample(cfg: Config)
    requires cfg.scopes == ["a b"] && cfg.defaultScopes == None
    ensures !(ScopeSet(JoinScopes(Defaults(cfg))) <= Elements(cfg.scopes))
  {
    assert Fields("a b") == ["a", "b"] by {
      FieldsOfToken("a");
      FieldsOfToken("b");
      FieldsOfConcat("a", "b");
      assert "a" + SPACE + "b" == "a b";
    }
    assert "a" in Elements(Fields("a b"));
    DefaultScopesBoundedIff(cfg);
  }

  /** Whatever a request asks for, the scopes it resolves to are configured. */
  lemma ResolvedScopesConfigured(cfg: Config, raw: string)
    requires DefaultsConfigured(cfg)
    ensures var r := ResolveScopes(cfg, raw);
            r.Ok? ==> ScopeSet(JoinScopes(r.value)) <= Elements(cfg.scopes)
  {
    if ScopesOf(raw) == [] {
      DefaultScopesBoundedIff(cfg);
    } else {
      ParseIsCanonical(raw);
    }
  }

  /** Narrowing never leaves the granted scopes, and its result prints and parses back. */
  lemma NarrowedScopes(granted: string, requested: string)
    ensures var r := NarrowScopes(granted, requested);
            r.Ok? ==> ScopesOf(JoinScopes(r.value)) == r.value && Elements(r.value) <= ScopeSet(granted)
  {
    ParseIsCanonical(granted);
    ParseIsCanonical(requested);
  }

  /** The refresh token handed out parses back into its grant id and secret. */
  lemma RefreshTokenRoundTrip(gid: string, secret: string)
    requires '.' !in gid && 0 < |gid| <= 64 && secret != ""
    ensures ParseRefreshToken(RefreshTokenOf(gid, secret)) == Some((gid, secret))
  {
    ParseRefreshTokenIff(RefreshTokenOf(gid, secret), gid, secret);
  }
}
