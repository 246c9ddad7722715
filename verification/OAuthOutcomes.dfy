/** What a handler that runs on its own achieves, what it needs, and what the expiry
    garbage collection can and cannot change about it. */
module OAuthOutcomes {
  import opened Wrappers
  import opened GoStrings
  import opened Entities
  import opened Scopes
  import opened TableOps
  import opened OAuthRules
  import opened OAuthHandlers
  import opened OAuthProtocol
  import opened OAuthInvariants
  import opened OAuthTheorems

  // ---------- redemption ----------

  /** What the request must present, and the user be, for a code to be redeemed. */
  predicate Redeemable(cfg: Config, t: OAuthTables, users: map<string, User>, clock: int, rq: CodeRequest) {
    && (rq.client.grantTypes == [] || AUTHORIZATION_CODE in rq.client.grantTypes)
    && rq.code != "" && Sha256(rq.code) in t.codes
    && var c := t.codes[Sha256(rq.code)];
       && c.usedAt.None? && clock <= c.expiresAt && c.clientID == rq.client.id
       && (rq.redirectURI == "" || rq.redirectURI == c.redirectURI)
       && ValidVerifier(rq.verifier) && cfg.s256(rq.verifier) == c.challenge
       && (rq.resource == "" || cfg.canonicalResource(rq.resource) == Some(c.resource))
       && c.userID in users && !users[c.userID].IsLockedOut(clock)
  }

  /** A lone redemption answers with tokens exactly when the code is redeemable. */
  lemma RedeemAnswers(cfg: Config, t: OAuthTables, users: map<string, User>, clock: int, draws: nat -> string,
                      rq: CodeRequest)
    requires CodesKeyed(t)
    ensures Complete(cfg, t, users, clock, draws, Redeem(rq)).1.Tokens? <==> Redeemable(cfg, t, users, clock, rq)
  {
    RedeemAnswerOf(cfg, t, users, clock, draws, rq);
  }

  /** A lone redemption that is refused: with which error, and what it changes. Only the replay of a
      used code changes anything: it deletes the grant recorded on it. */
  lemma RedeemRefused(cfg: Config, t: OAuthTables, users: map<string, User>, clock: int, draws: nat -> string,
                      rq: CodeRequest)
    requires CodesKeyed(t) && !Redeemable(cfg, t, users, clock, rq)
    ensures var (tables, answer) := Complete(cfg, t, users, clock, draws, Redeem(rq));
            var h := Sha256(rq.code);
            var mayExchange := rq.client.grantTypes == [] || AUTHORIZATION_CODE in rq.client.grantTypes;
            && tables == (if mayExchange && rq.code != "" && h in t.codes && t.codes[h].usedAt.Some?
                             && t.codes[h].grantID != ""
                          then DeleteGrant(t, t.codes[h].grantID) else t)
            && answer == Refused(
                           if !mayExchange then UnauthorizedClient
                           else if rq.code == "" then InvalidRequest
                           else if h in t.codes && OnlyResourceDiffers(cfg, t.codes[h], clock, rq) then InvalidTarget
                           else InvalidGrant)
  {
    var env := Env(users, clock, draws(7));
    var next := NextRequest(cfg, t, env, Redeem(rq));
    assert NextTables(cfg, t, env, Redeem(rq)) == t;
    if next.Deleting? {
      DeletingCompletes(cfg, t, users, clock, draws, next.gid, next.answer);
    } else if next.RedeemChecked? {
      assert !Available(users, next.code.userID, clock);
      UnavailableRefused(cfg, t, users, clock, draws, next);
    }
  }

  lemma UnavailableRefused(cfg: Config, t: OAuthTables, users: map<string, User>, clock: int, draws: nat -> string,
                           r: Request)
    requires r.RedeemChecked? && !Available(users, r.code.userID, clock)
    ensures Complete(cfg, t, users, clock, draws, r) == (t, Refused(InvalidGrant))
  {
  }

  /** The request presents everything the code asks for but its resource. */
  predicate OnlyResourceDiffers(cfg: Config, c: Code, clock: int, rq: CodeRequest) {
    && c.usedAt.None? && clock <= c.expiresAt && c.clientID == rq.client.id
    && (rq.redirectURI == "" || rq.redirectURI == c.redirectURI)
    && ValidVerifier(rq.verifier) && cfg.s256(rq.verifier) == c.challenge
    && rq.resource != "" && cfg.canonicalResource(rq.resource) != Some(c.resource)
  }

  predicate CodesKeyed(t: OAuthTables) {
    forall h :: h in t.codes ==> t.codes[h].codeHash == h
  }

  lemma CheckedAnswers(cfg: Config, t: OAuthTables, users: map<string, User>, clock: int, draws: nat -> string,
      rq: CodeRequest, code: Code)
    requires CodeIsUnused(t, code.codeHash)
    ensures Complete(cfg, t, users, clock, draws, RedeemChecked(rq, code, clock)).1 ==
            if Available(users, code.userID, clock)
            then Complete(cfg, t, users, clock, draws, RedeemUser(rq, code, clock, users[code.userID])).1
            else Refused(InvalidGrant)
    ensures Available(users, code.userID, clock) ==>
              Complete(cfg, t, users, clock, draws, RedeemUser(rq, code, clock, users[code.userID])).1.Tokens?
  {
    if Available(users, code.userID, clock) {
      UserRedeems(cfg, t, users, clock, draws, rq, code, users[code.userID]);
    }
  }

  /** The client may use refresh tokens, and the scopes ask for one where that is required. */
  predicate GetsRefresh(cfg: Config, client: ResolvedClient, scopes: seq<string>) {
    && (client.grantTypes == [] || "refresh_token" in client.grantTypes)
    && (cfg.requireOfflineAccess ==> "offline_access" in scopes)
  }

  /** The client's row after it has been used. */
  function ClientsUsed(clients: map<string, Client>, client: ResolvedClient, at: int): map<string, Client> {
    if client.cimd || client.id !in clients then clients
    else clients[client.id := clients[client.id].(lastUsedAt := Some(at))]
  }

  /** The answer to a redemption: an access token for the user, client, resource and scopes of
      the code, and a refresh token when the client may refresh. */
  function TokensFor(cfg: Config, rq: CodeRequest, code: Code, user: User, gid: string, secret: string,
                     clock: int): Outcome {
    var scopes := ScopesOf(code.scopes);
    var at := AccessToken(user.id, code.resource, rq.client.id, JoinScopes(scopes), gid, user.securityStamp,
                          Unix(clock), Unix(clock + cfg.accessTokenTTL));
    Tokens(TokenResponse(at, if GetsRefresh(cfg, rq.client, scopes) then gid + "." + secret else "",
                         JoinScopes(scopes)))
  }

  /** The grant a lone redemption creates, the code it marks, the client it touches, and the tokens it
      answers with; nothing else changes. */
  lemma UserRedeems(cfg: Config, t: OAuthTables, users: map<string, User>, clock: int, draws: nat -> string,
      rq: CodeRequest, code: Code, user: User)
    requires CodeIsUnused(t, code.codeHash)
    ensures var (tables, answer) := Complete(cfg, t, users, clock, draws, RedeemUser(rq, code, clock, user));
            var gid, secret := draws(5), draws(3);
            var refreshes := GetsRefresh(cfg, rq.client, ScopesOf(code.scopes));
            && answer == TokensFor(cfg, rq, code, user, gid, secret, clock)
            && tables.grants == t.grants[gid := Grant(gid, user.id, rq.client.id, code.scopes, code.resource,
                                                      if refreshes then Sha256(secret) else NoDigest, NoDigest,
                                                      user.securityStamp, clock + cfg.refreshTokenTTL, clock, None)]
            && tables.codes == t.codes[code.codeHash := t.codes[code.codeHash].(usedAt := Some(clock), grantID := gid)]
            && tables.clients == ClientsUsed(t.clients, rq.client, clock)
            && tables.consents == t.consents && tables.jtis == t.jtis
  {
    var r := RedeemUser(rq, code, clock, user);
    var env := Env(users, clock, draws(5));
    var t1 := NextTables(cfg, t, env, r);
    assert NextRequest(cfg, t, env, r) == RedeemWon(rq, code, clock, user, draws(5));
    WonCompletes(cfg, t1, users, clock, draws, rq, code, user, draws(5));
  }

  lemma SigningCompletes(cfg: Config, t: OAuthTables, users: map<string, User>, clock: int, draws: nat -> string,
                         r: Request)
    requires r.Signing?
    ensures Complete(cfg, t, users, clock, draws, r) ==
            (t, Tokens(TokenResponse(SignToken(cfg, r.user, r.grant, r.scopes, clock), r.refresh,
                                     JoinScopes(r.scopes))))
  {
  }

  lemma WonCompletes(cfg: Config, t: OAuthTables, users: map<string, User>, clock: int, draws: nat -> string,
      rq: CodeRequest, code: Code, user: User, gid: string)
    ensures var (tables, answer) := Complete(cfg, t, users, clock, draws, RedeemWon(rq, code, clock, user, gid));
            var g := GrantFor(cfg, rq, code, user, gid, draws(3), clock);
            && answer == TokensFor(cfg, rq, code, user, gid, draws(3), clock)
            && tables == t.(grants := t.grants[gid := g], clients := ClientsUsed(t.clients, rq.client, clock))
  {
    var r := RedeemWon(rq, code, clock, user, gid);
    var env := Env(users, clock, draws(3));
    CreatedCompletes(cfg, NextTables(cfg, t, env, r), users, clock, draws, NextRequest(cfg, t, env, r));
  }

  lemma CreatedCompletes(cfg: Config, t: OAuthTables, users: map<string, User>, clock: int, draws: nat -> string,
                         r: Request)
    requires r.RedeemCreated?
    ensures var (tables, answer) := Complete(cfg, t, users, clock, draws, r);
            && answer == Tokens(TokenResponse(SignToken(cfg, r.user, r.grant, ScopesOf(r.grant.scopes), clock),
                                              r.refresh,
                                              JoinScopes(ScopesOf(r.grant.scopes))))
            && tables == t.(clients := ClientsUsed(t.clients, r.codeRequest.client, r.now))
  {
    var env := Env(users, clock, draws(2));
    SigningCompletes(cfg, NextTables(cfg, t, env, r), users, clock, draws, NextRequest(cfg, t, env, r));
  }

  // ---------- refreshing ----------

  /** What the request must present, and the user be, for a grant to be refreshed. */
  predicate Refreshable(cfg: Config, t: OAuthTables, users: map<string, User>, clock: int, rq: RefreshRequest,
      gid: string, secret: string) {
    && (rq.client.grantTypes == [] || REFRESH_TOKEN in rq.client.grantTypes) && gid in t.grants
    && var g := t.grants[gid];
       && g.clientID == rq.client.id && g.tokenHash == Sha256(secret) && clock <= g.expiresAt
       && (rq.resource == "" || cfg.canonicalResource(rq.resource) == Some(g.resource))
       && g.userID in users && !users[g.userID].IsLockedOut(clock) && users[g.userID].securityStamp == g.securityStamp
       && ScopeSet(rq.scope) <= ScopeSet(g.scopes)
  }

  /** A lone refresh answers with tokens exactly when the grant is refreshable: with the next
      refresh token and the requested scopes, or all of the grant's. */
  lemma RefreshAnswers(cfg: Config, t: OAuthTables, users: map<string, User>, clock: int, draws: nat -> string,
      rq: RefreshRequest, gid: string, secret: string)
    requires ParseRefreshToken(rq.refreshToken) == Some((gid, secret)) && GrantsKeyed(t)
    ensures var answer := Complete(cfg, t, users, clock, draws, Refresh(rq)).1;
            && (answer.Tokens? <==> Refreshable(cfg, t, users, clock, rq, gid, secret))
            && (answer.Tokens? ==>
                  && answer.response.refreshToken == RefreshTokenOf(gid, draws(2))
                  && ScopeSet(answer.response.scope) == if ScopesOf(rq.scope) == [] then ScopeSet(t.grants[gid].scopes)
                      else ScopeSet(rq.scope))
  {
    RefreshAnswerOf(cfg, t, users, clock, draws, rq);
    if gid in t.grants {
      UserAnswerTokens(cfg, users, clock, draws, rq, t.grants[gid]);
    }
  }

  /** A lone refresh that is refused: with which error, and what it changes. It deletes the grant for
      the just-rotated secret outside the grace period, an expired grant, and a grant from before a
      change of its user's security stamp; otherwise nothing changes. */
  lemma RefreshRefused(cfg: Config, t: OAuthTables, users: map<string, User>, clock: int, draws: nat -> string,
      rq: RefreshRequest, gid: string, secret: string)
    requires ParseRefreshToken(rq.refreshToken) == Some((gid, secret)) && GrantsKeyed(t)
    requires !Refreshable(cfg, t, users, clock, rq, gid, secret)
    ensures var (tables, answer) := Complete(cfg, t, users, clock, draws, Refresh(rq));
            var mayRefresh := rq.client.grantTypes == [] || REFRESH_TOKEN in rq.client.grantTypes;
            && tables == (if mayRefresh && gid in t.grants && t.grants[gid].clientID == rq.client.id
                             && EndsGrant(cfg, t.grants[gid], users, clock, rq, secret)
                          then DeleteGrant(t, gid) else t)
            && answer == Refused(
                           if !mayRefresh then UnauthorizedClient
                           else if gid !in t.grants || t.grants[gid].clientID != rq.client.id
                                   || !InForce(t.grants[gid], clock, secret) then InvalidGrant
                           else if !NamesResource(cfg, rq.resource, t.grants[gid].resource) then InvalidTarget
                           else if !HasUser(t.grants[gid], users, clock)
                                   || users[t.grants[gid].userID].securityStamp != t.grants[gid].securityStamp
                                then InvalidGrant
                           else InvalidScope)
  {
    var env := Env(users, clock, draws(4));
    var next := NextRequest(cfg, t, env, Refresh(rq));
    assert NextTables(cfg, t, env, Refresh(rq)) == t;
    FirstRead(cfg, t, env, rq, gid, secret);
    if next.Deleting? {
      DeletingCompletes(cfg, t, users, clock, draws, next.gid, next.answer);
    } else if next.RefreshChecked? {
      CheckedRefused(cfg, t, users, clock, draws, next);
    }
  }

  /** Where a refresh stands after it has read its grant. */
  lemma FirstRead(cfg: Config, t: OAuthTables, env: Env, rq: RefreshRequest, gid: string, secret: string)
    requires ParseRefreshToken(rq.refreshToken) == Some((gid, secret)) && GrantsKeyed(t)
    ensures var r := NextRequest(cfg, t, env, Refresh(rq));
            if !(rq.client.grantTypes == [] || REFRESH_TOKEN in rq.client.grantTypes)
            then r == Done(Refused(UnauthorizedClient))
            else if gid !in t.grants || t.grants[gid].clientID != rq.client.id then r == Done(Refused(InvalidGrant))
            else
              var g := t.grants[gid];
              if !InForce(g, env.clock, secret) then
                r == if EndsGrant(cfg, g, env.users, env.clock, rq, secret) then Deleting(gid, Refused(InvalidGrant))
                     else Done(Refused(InvalidGrant))
              else if !NamesResource(cfg, rq.resource, g.resource) then r == Done(Refused(InvalidTarget))
              else r == RefreshChecked(rq, secret, g, env.clock)
  {
  }

  lemma CheckedRefused(cfg: Config, t: OAuthTables, users: map<string, User>, clock: int, draws: nat -> string,
                       r: Request)
    requires r.RefreshChecked?
    requires HasUser(r.grant, users, clock) && users[r.grant.userID].securityStamp == r.grant.securityStamp
        ==> !(ScopeSet(r.refreshRequest.scope) <= ScopeSet(r.grant.scopes))
    ensures Complete(cfg, t, users, clock, draws, r) ==
            if !HasUser(r.grant, users, clock) then (t, Refused(InvalidGrant))
            else if users[r.grant.userID].securityStamp != r.grant.securityStamp
            then (DeleteGrant(t, r.grant.id), Refused(InvalidGrant))
            else (t, Refused(InvalidScope))
  {
    var env := Env(users, clock, draws(3));
    var next := NextRequest(cfg, t, env, r);
    assert NextTables(cfg, t, env, r) == t;
    if next.Deleting? {
      DeletingCompletes(cfg, t, users, clock, draws, next.gid, next.answer);
    }
  }

  /** The secret is the grant's current one, and the grant has not expired. */
  predicate InForce(g: Grant, clock: int, secret: string) {
    g.tokenHash == Sha256(secret) && clock <= g.expiresAt
  }

  predicate NamesResource(cfg: Config, raw: string, bound: string) {
    raw == "" || cfg.canonicalResource(raw) == Some(bound)
  }

  predicate HasUser(g: Grant, users: map<string, User>, clock: int) {
    && g.userID in users
    && !(users[g.userID].lockoutEnabled && users[g.userID].lockoutEnd.Some? && clock < users[g.userID].lockoutEnd.value)
  }

  /** The refused refresh deletes the grant. */
  predicate EndsGrant(cfg: Config, g: Grant, users: map<string, User>, clock: int, rq: RefreshRequest,
                      secret: string) {
    if g.tokenHash != Sha256(secret) then
      && g.prevTokenHash == Sha256(secret)
      && !(cfg.refreshReuseGrace > 0 && g.lastUsedAt.Some? && clock - g.lastUsedAt.value <= cfg.refreshReuseGrace)
    else
      || g.expiresAt < clock
      || (NamesResource(cfg, rq.resource, g.resource) && HasUser(g, users, clock)
          && users[g.userID].securityStamp != g.securityStamp)
  }

  lemma UserAnswerTokens(cfg: Config, users: map<string, User>, clock: int, draws: nat -> string, rq: RefreshRequest,
                         g: Grant)
    ensures var answer := UserAnswer(cfg, users, clock, draws, rq, g);
            && (answer.Tokens? <==>
                  && Available(users, g.userID, clock) && users[g.userID].securityStamp == g.securityStamp
                  && ScopeSet(rq.scope) <= ScopeSet(g.scopes))
            && (answer.Tokens? ==>
                  && answer.response.refreshToken == RefreshTokenOf(g.id, draws(2))
                  && ScopeSet(answer.response.scope) == if ScopesOf(rq.scope) == [] then ScopeSet(g.scopes)
                      else ScopeSet(rq.scope))
  {
    NarrowedScopes(g.scopes, rq.scope);
  }

  /** A successful refresh rotates its grant and touches no other row. */
  lemma RefreshRotates(cfg: Config, t: OAuthTables, users: map<string, User>, clock: int, draws: nat -> string,
      rq: RefreshRequest, gid: string, secret: string)
    requires ParseRefreshToken(rq.refreshToken) == Some((gid, secret)) && GrantsKeyed(t)
    requires Complete(cfg, t, users, clock, draws, Refresh(rq)).1.Tokens?
    ensures gid in t.grants && Complete(cfg, t, users, clock, draws, Refresh(rq)).0 ==
            t.(grants := t.grants[gid := t.grants[gid].(prevTokenHash := Sha256(secret), tokenHash := Sha256(draws(2)),
                                                       expiresAt := clock + cfg.refreshTokenTTL,
                                                           lastUsedAt := Some(clock))])
  {
    var env := Env(users, clock, draws(4));
    var next := NextRequest(cfg, t, env, Refresh(rq));
    assert NextTables(cfg, t, env, Refresh(rq)) == t;
    if next.Deleting? {
      DeletingCompletes(cfg, t, users, clock, draws, next.gid, next.answer);
    } else if next.RefreshChecked? {
      CheckedRotates(cfg, t, users, clock, draws, rq, secret, t.grants[gid]);
    }
  }

  lemma CheckedRotates(cfg: Config, t: OAuthTables, users: map<string, User>, clock: int, draws: nat -> string,
      rq: RefreshRequest, secret: string, g: Grant)
    requires g.id in t.grants && t.grants[g.id] == g && g.tokenHash == Sha256(secret)
    requires Complete(cfg, t, users, clock, draws, RefreshChecked(rq, secret, g, clock)).1.Tokens?
    ensures Complete(cfg, t, users, clock, draws, RefreshChecked(rq, secret, g, clock)).0 ==
            RotateGrant(t, g.id, Sha256(secret), Sha256(draws(2)), clock + cfg.refreshTokenTTL, clock)
  {
    var r := RefreshChecked(rq, secret, g, clock);
    var env := Env(users, clock, draws(3));
    var next := NextRequest(cfg, t, env, r);
    assert NextTables(cfg, t, env, r) == t;
    if next.Deleting? {
      DeletingCompletes(cfg, t, users, clock, draws, next.gid, next.answer);
    } else if next.RefreshUser? {
      RotationCompletes(cfg, t, users, clock, draws, next);
    }
  }

  lemma RotationCompletes(cfg: Config, t: OAuthTables, users: map<string, User>, clock: int, draws: nat -> string,
                          r: Request)
    requires r.RefreshUser? && HashMatches(t, r.grant.id, r.grant.tokenHash)
    ensures var (tables, answer) := Complete(cfg, t, users, clock, draws, r);
            && tables == RotateGrant(t, r.grant.id, r.grant.tokenHash, Sha256(draws(2)), r.now + cfg.refreshTokenTTL,
                                     r.now)
            && answer == Tokens(TokenResponse(SignToken(cfg, r.user, r.grant, r.scopes, clock),
                                              RefreshTokenOf(r.grant.id, draws(2)), JoinScopes(r.scopes)))
  {
    var env := Env(users, clock, draws(2));
    SigningCompletes(cfg, NextTables(cfg, t, env, r), users, clock, draws, NextRequest(cfg, t, env, r));
  }

  // ---------- garbage collection ----------

  /** Purging never changes the answer to a redemption. */
  lemma PurgeKeepsRedeemAnswers(cfg: Config, t: OAuthTables, users: map<string, User>, clock: int,
      draws: nat -> string, rq: CodeRequest, cutoff: int)
    requires CodesKeyed(t) && cutoff <= clock
    ensures Complete(cfg, Purged(t, cutoff), users, clock, draws, Redeem(rq)).1 == Complete(cfg, t, users, clock,
            draws, Redeem(rq)).1
  {
    RedeemAnswerOf(cfg, t, users, clock, draws, rq);
    RedeemAnswerOf(cfg, Purged(t, cutoff), users, clock, draws, rq);
  }

  /** The answer to a lone redemption, in one expression. */
  lemma RedeemAnswerOf(cfg: Config, t: OAuthTables, users: map<string, User>, clock: int, draws: nat -> string,
                       rq: CodeRequest)
    requires CodesKeyed(t)
    ensures Complete(cfg, t, users, clock, draws, Redeem(rq)).1 ==
            if !ClientAllows(rq.client, AUTHORIZATION_CODE) then Refused(UnauthorizedClient)
            else if rq.code == "" then Refused(InvalidRequest)
            else if Sha256(rq.code) !in t.codes then Refused(InvalidGrant)
            else CodeAnswer(cfg, users, clock, draws, rq, t.codes[Sha256(rq.code)])
  {
    var env := Env(users, clock, draws(7));
    var next := NextRequest(cfg, t, env, Redeem(rq));
    assert NextTables(cfg, t, env, Redeem(rq)) == t;
    if next.Deleting? {
      DeletingCompletes(cfg, t, users, clock, draws, next.gid, next.answer);
    } else if next.RedeemChecked? {
      CheckedAnswers(cfg, t, users, clock, draws, rq, next.code);
      if Available(users, next.code.userID, clock) {
        UserRedeems(cfg, t, users, clock, draws, rq, next.code, users[next.code.userID]);
      }
    }
  }

  function CodeAnswer(cfg: Config, users: map<string, User>, clock: int, draws: nat -> string, rq: CodeRequest,
      code: Code): Outcome {
    match JudgeCode(cfg, code, rq, clock)
    case Revoke(_, e) => Refused(e)
    case Refuse(e) => Refused(e)
    case Accept =>
      if Available(users, code.userID, clock) then TokensFor(cfg, rq, code, users[code.userID], draws(5), draws(3),
                                                             clock)
      else Refused(InvalidGrant)
  }

  /** Purging never changes the answer to a refresh. */
  lemma PurgeKeepsRefreshAnswers(cfg: Config, t: OAuthTables, users: map<string, User>, clock: int,
      draws: nat -> string, rq: RefreshRequest, cutoff: int)
    requires GrantsKeyed(t) && cutoff <= clock
    ensures Complete(cfg, Purged(t, cutoff), users, clock, draws, Refresh(rq)).1 == Complete(cfg, t, users, clock,
            draws, Refresh(rq)).1
  {
    RefreshAnswerOf(cfg, t, users, clock, draws, rq);
    RefreshAnswerOf(cfg, Purged(t, cutoff), users, clock, draws, rq);
  }

  predicate GrantsKeyed(t: OAuthTables) {
    forall gid :: gid in t.grants ==> t.grants[gid].id == gid
  }

  lemma RefreshAnswerOf(cfg: Config, t: OAuthTables, users: map<string, User>, clock: int, draws: nat -> string,
      rq: RefreshRequest)
    requires GrantsKeyed(t)
    ensures Complete(cfg, t, users, clock, draws, Refresh(rq)).1 ==
            if !ClientAllows(rq.client, REFRESH_TOKEN) then Refused(UnauthorizedClient)
            else if ParseRefreshToken(rq.refreshToken).None?
                || ParseRefreshToken(rq.refreshToken).value.0 !in t.grants then Refused(InvalidGrant)
            else var (gid, secret) := ParseRefreshToken(rq.refreshToken).value;
                 GrantAnswer(cfg, users, clock, draws, rq, secret, t.grants[gid])
  {
    var env := Env(users, clock, draws(4));
    var next := NextRequest(cfg, t, env, Refresh(rq));
    assert NextTables(cfg, t, env, Refresh(rq)) == t;
    if next.Deleting? {
      DeletingCompletes(cfg, t, users, clock, draws, next.gid, next.answer);
    } else if next.RefreshChecked? {
      GrantAnswers(cfg, t, users, clock, draws, rq, next.secret, next.grant);
    }
  }

  function GrantAnswer(cfg: Config, users: map<string, User>, clock: int, draws: nat -> string, rq: RefreshRequest,
      secret: string, g: Grant): Outcome {
    match JudgeGrant(cfg, g, rq, secret, clock)
    case Revoke(_, e) => Refused(e)
    case Refuse(e) => Refused(e)
    case Accept => UserAnswer(cfg, users, clock, draws, rq, g)
  }

  function UserAnswer(cfg: Config, users: map<string, User>, clock: int, draws: nat -> string, rq: RefreshRequest,
      g: Grant): Outcome {
    if !Available(users, g.userID, clock) || users[g.userID].securityStamp != g.securityStamp then Refused(InvalidGrant)
    else match NarrowScopes(g.scopes, rq.scope)
      case Err(e) => Refused(e)
      case Ok(scopes) =>
        Tokens(TokenResponse(SignToken(cfg, users[g.userID], g, scopes, clock), RefreshTokenOf(g.id, draws(2)),
                             JoinScopes(scopes)))
  }

  lemma GrantAnswers(cfg: Config, t: OAuthTables, users: map<string, User>, clock: int, draws: nat -> string,
      rq: RefreshRequest, secret: string, g: Grant)
    requires HashMatches(t, g.id, g.tokenHash)
    ensures Complete(cfg, t, users, clock, draws, RefreshChecked(rq, secret, g, clock)).1 == UserAnswer(cfg, users,
            clock, draws, rq, g)
  {
    var r := RefreshChecked(rq, secret, g, clock);
    var env := Env(users, clock, draws(3));
    var next := NextRequest(cfg, t, env, r);
    assert NextTables(cfg, t, env, r) == t;
    if next.Deleting? {
      DeletingCompletes(cfg, t, users, clock, draws, next.gid, next.answer);
    } else if next.RefreshUser? {
      RotationCompletes(cfg, t, users, clock, draws, next);
    }
  }

  /** Purging never changes whether an access token validates, provided its handler signed it
      soon enough: no later than the refresh lifetime exceeds the access lifetime after the
      clock reading the grant's expiry was computed from. */
  lemma PurgeKeepsValidation(cfg: Config, s: State, st: Signed, resource: string, now: int, cutoff: int)
    requires Reachable(cfg, s) && st in s.log.tokens && cutoff <= now
    requires st.at - st.since <= cfg.refreshTokenTTL - cfg.accessTokenTTL
    ensures Validates(cfg, Purged(s.tables, cutoff), s.users, st.token, resource, now)
            <==> Validates(cfg, s.tables, s.users, st.token, resource, now)
  {
    TokenBounds(cfg, s, st);
    if Validates(cfg, s.tables, s.users, st.token, resource, now) {
      UnixBound(st.at + cfg.accessTokenTTL);
    }
    ValidAfterPurgeIff(cfg, s.tables, s.users, st.token, resource, now, cutoff);
  }

  /** A token's expiry, and the expiry of the grant it names, against the readings of its handler. */
  lemma TokenBounds(cfg: Config, s: State, st: Signed)
    requires Reachable(cfg, s) && st in s.log.tokens
    ensures st.token.exp == Unix(st.at + cfg.accessTokenTTL)
    ensures st.token.gid in s.tables.grants ==>
        s.tables.grants[st.token.gid].expiresAt >= st.since + cfg.refreshTokenTTL
  {
    ReachableTokens(cfg, s);
    ReachableGrants(cfg, s);
    TokenFacts(cfg, s.log, st);
    if st.token.gid in s.tables.grants {
      RowFacts(cfg, s, st.token.gid);
    }
  }

  lemma TokenFacts(cfg: Config, log: History, st: Signed)
    requires TokensLogged(cfg, log) && st in log.tokens
    ensures TokenLogged(cfg, log, st)
  {
  }

  lemma UnixBound(t: int)
    ensures Unix(t) * SECOND <= t < Unix(t) * SECOND + SECOND
  {
  }

  /** Without that proviso: a token still validates after the purge exactly when it did
      before and its grant had not expired at the cutoff. */
  lemma ValidAfterPurgeIff(cfg: Config, t: OAuthTables, users: map<string, User>, at: AccessToken, resource: string,
      now: int, cutoff: int)
    ensures Validates(cfg, Purged(t, cutoff), users, at, resource, now)
            <==> Validates(cfg, t, users, at, resource, now) && t.grants[at.gid].expiresAt >= cutoff
  {
  }

  /** What a purge does change: a replayed used code always revokes before it, and after it exactly
      when the code had not expired at the cutoff; a grant that is itself left survives otherwise. */
  lemma PurgeForgetsReplay(cfg: Config, t: OAuthTables, users: map<string, User>, clock: int, draws: nat -> string,
      rq: CodeRequest, cutoff: int)
    requires ClientAllows(rq.client, AUTHORIZATION_CODE) && rq.code != "" && Sha256(rq.code) in t.codes
    requires t.codes[Sha256(rq.code)].usedAt.Some? && t.codes[Sha256(rq.code)].grantID != ""
    ensures var c, z := t.codes[Sha256(rq.code)], Purged(t, cutoff);
            && c.grantID !in Complete(cfg, t, users, clock, draws, Redeem(rq)).0.grants
            && Complete(cfg, z, users, clock, draws, Redeem(rq)) ==
               (if c.expiresAt < cutoff then z else DeleteGrant(z, c.grantID), Refused(InvalidGrant))
            && (c.grantID in Complete(cfg, z, users, clock, draws, Redeem(rq)).0.grants <==>
                c.expiresAt < cutoff && c.grantID in t.grants && t.grants[c.grantID].expiresAt >= cutoff)
  {
    var c, z := t.codes[Sha256(rq.code)], Purged(t, cutoff);
    ReplayDeletes(cfg, t, users, clock, draws, rq);
    SweepsAreExact(t, cutoff);
    if c.expiresAt < cutoff {
      var env := Env(users, clock, draws(7));
      assert NextRequest(cfg, z, env, Redeem(rq)) == Done(Refused(InvalidGrant));
      assert NextTables(cfg, z, env, Redeem(rq)) == z;
    } else {
      ReplayDeletes(cfg, z, users, clock, draws, rq);
    }
  }

  /** In every reachable state rows are filed under their own keys. */
  lemma ReachableKeyed(cfg: Config, s: State)
    requires Reachable(cfg, s)
    ensures CodesKeyed(s.tables) && GrantsKeyed(s.tables)
  {
    ReachableCodes(cfg, s);
    ReachableGrants(cfg, s);
    forall h | h in s.tables.codes
      ensures s.tables.codes[h].codeHash == h
    {
      assert CodeRowOk(s.log, h, s.tables.codes[h]);
      assert CodeLogged(cfg, s.log, h, s.log.codes[h]);
    }
    forall gid | gid in s.tables.grants
      ensures s.tables.grants[gid].id == gid
    {
      assert GrantRowOk(cfg, s.log, gid, s.tables.grants[gid]);
    }
  }

  /** In every reachable state, purging with a cutoff that is not in the future is invisible: no
      redemption or refresh run then is answered differently, and no access token signed in
      time validates differently. */
  lemma PurgeIsInvisible(cfg: Config, s: State, draws: nat -> string, code: CodeRequest, refresh: RefreshRequest,
      st: Signed, resource: string, cutoff: int)
    requires Reachable(cfg, s) && cutoff <= s.clock
    ensures var z := Purged(s.tables, cutoff);
            && Complete(cfg, z, s.users, s.clock, draws, Redeem(code)).1 == Complete(cfg, s.tables, s.users, s.clock,
                    draws, Redeem(code)).1
            && Complete(cfg, z, s.users, s.clock, draws, Refresh(refresh)).1 == Complete(cfg, s.tables, s.users,
                    s.clock, draws, Refresh(refresh)).1
            && (st in s.log.tokens && st.at - st.since <= cfg.refreshTokenTTL - cfg.accessTokenTTL ==>
                  (Validates(cfg, z, s.users, st.token, resource, s.clock) <==>
                   Validates(cfg, s.tables, s.users, st.token, resource, s.clock)))
  {
    ReachableKeyed(cfg, s);
    PurgeKeepsRedeemAnswers(cfg, s.tables, s.users, s.clock, draws, code, cutoff);
    PurgeKeepsRefreshAnswers(cfg, s.tables, s.users, s.clock, draws, refresh, cutoff);
    if st in s.log.tokens && st.at - st.since <= cfg.refreshTokenTTL - cfg.accessTokenTTL {
      PurgeKeepsValidation(cfg, s, st, resource, s.clock, cutoff);
    }
  }

  // ---------- the revocation endpoint ----------

  /** A client can revoke exactly its own grants, by a current or just-rotated refresh secret. */
  lemma RevokeBySecretIff(cfg: Config, t: OAuthTables, users: map<string, User>, clock: int, draws: nat -> string,
      client: ResolvedClient, gid: string, secret: string)
    ensures Complete(cfg, t, users, clock, draws, RevokeToken(client, RefreshForm(gid, secret))) ==
            (if gid in t.grants && t.grants[gid].clientID == client.id
                && (t.grants[gid].tokenHash == Sha256(secret) || t.grants[gid].prevTokenHash == Sha256(secret))
             then DeleteGrant(t, gid) else t,
             Revoked)
  {
    var r := RevokeToken(client, RefreshForm(gid, secret));
    var env := Env(users, clock, draws(3));
    assert NextTables(cfg, t, env, r) == t;
    FoundCompletes(cfg, t, users, clock, draws, client, gid);
  }

  /** And by any of its access tokens that is within its time. */
  lemma RevokeByAccessTokenIff(cfg: Config, t: OAuthTables, users: map<string, User>, clock: int,
      draws: nat -> string, client: ResolvedClient, at: AccessToken)
    ensures Complete(cfg, t, users, clock, draws, RevokeToken(client, AccessForm(at))) ==
            (if at.iat * SECOND <= clock < at.exp * SECOND && at.gid != ""
                && at.gid in t.grants && t.grants[at.gid].clientID == client.id
             then DeleteGrant(t, at.gid) else t,
             Revoked)
  {
    var r := RevokeToken(client, AccessForm(at));
    var env := Env(users, clock, draws(3));
    assert NextTables(cfg, t, env, r) == t;
    FoundCompletes(cfg, t, users, clock, draws, client, at.gid);
  }

  /** The application revokes a grant for a user: only that user's own. */
  lemma RevokeOwnIff(cfg: Config, t: OAuthTables, users: map<string, User>, clock: int, draws: nat -> string,
      userID: string, gid: string)
    ensures Complete(cfg, t, users, clock, draws, RevokeOwn(userID, gid)) ==
            if gid !in t.grants then (t, Revoked)
            else if t.grants[gid].userID == userID then (DeleteGrant(t, gid), Revoked)
            else (t, NoSuchGrant)
  {
    var env := Env(users, clock, draws(2));
    assert NextTables(cfg, t, env, RevokeOwn(userID, gid)) == t;
    DeletingCompletes(cfg, t, users, clock, draws, gid, Revoked);
  }

  lemma FoundCompletes(cfg: Config, t: OAuthTables, users: map<string, User>, clock: int, draws: nat -> string,
      client: ResolvedClient, gid: string)
    ensures Complete(cfg, t, users, clock, draws, RevokeFound(client, gid)) ==
            (if gid in t.grants && t.grants[gid].clientID == client.id then DeleteGrant(t, gid) else t, Revoked)
  {
    var env := Env(users, clock, draws(2));
    assert NextTables(cfg, t, env, RevokeFound(client, gid)) == t;
    DeletingCompletes(cfg, t, users, clock, draws, gid, Revoked);
  }

  // ---------- disconnecting a client ----------

  /** Disconnecting a client leaves the user no grant of it, so none of its access tokens for
      that user validates any more; every other grant stays. */
  lemma DisconnectedTokensEnd(cfg: Config, t: OAuthTables, users: map<string, User>, userID: string,
      clientID: string, at: AccessToken, resource: string, now: int)
    ensures Validates(cfg, Disconnected(t, userID, clientID), users, at, resource, now)
            <==> Validates(cfg, t, users, at, resource, now)
                 && !(t.grants[at.gid].userID == userID && t.grants[at.gid].clientID == clientID)
  {
  }

  /** It leaves unredeemed codes in place: the answer to a redemption is the same as before. */
  lemma DisconnectKeepsCodes(cfg: Config, t: OAuthTables, users: map<string, User>, clock: int, draws: nat -> string,
      rq: CodeRequest, userID: string, clientID: string)
    requires CodesKeyed(t)
    ensures Complete(cfg, Disconnected(t, userID, clientID), users, clock, draws, Redeem(rq)).1
            == Complete(cfg, t, users, clock, draws, Redeem(rq)).1
  {
    RedeemAnswerOf(cfg, t, users, clock, draws, rq);
    RedeemAnswerOf(cfg, Disconnected(t, userID, clientID), users, clock, draws, rq);
  }

  // ---------- a change of the security stamp ----------

  /** Every write to the user keeps that stamp. */
  predicate KeepsStamp(es: seq<Event>, userID: string, stamp: string) {
    forall i :: 0 <= i < |es| && es[i].WriteUser? && es[i].user.id == userID ==> es[i].user.securityStamp == stamp
  }

  lemma {:induction false} StampKept(cfg: Config, s: State, es: seq<Event>, userID: string, stamp: string)
    requires KeepsStamp(es, userID, stamp) && (userID in s.users ==> s.users[userID].securityStamp == stamp)
    ensures var z := Run(cfg, s, es); userID in z.users ==> z.users[userID].securityStamp == stamp
    decreases |es|
  {
    if es != [] {
      StampKept(cfg, Apply(cfg, s, es[0]), es[1..], userID, stamp);
    }
  }

  /** After a write that changes a user's security stamp, and whatever happens that does not change it
      again, no access token signed under another stamp validates, and no grant from before can be
      refreshed: trying to, with its current secret in time, deletes it. */
  lemma StampChangeRevokes(cfg: Config, s: State, u: User, es: seq<Event>, at: AccessToken, resource: string, now: int,
      draws: nat -> string, rq: RefreshRequest, gid: string, secret: string)
    requires Reachable(cfg, s) && CanRun(cfg, s, [WriteUser(u)] + es) && KeepsStamp(es, u.id, u.securityStamp)
    requires ParseRefreshToken(rq.refreshToken) == Some((gid, secret))
    ensures var z := Run(cfg, s, [WriteUser(u)] + es);
            && (at.sub == u.id && at.stamp != u.securityStamp ==>
                  !Validates(cfg, z.tables, z.users, at, resource, now))
            && (gid in z.tables.grants && z.tables.grants[gid].userID == u.id
                && z.tables.grants[gid].securityStamp != u.securityStamp ==>
                  var (tables, answer) := Complete(cfg, z.tables, z.users, z.clock, draws, Refresh(rq));
                  && answer.Refused?
                  && (ClientAllows(rq.client, REFRESH_TOKEN) && z.tables.grants[gid].clientID == rq.client.id
                      && InForce(z.tables.grants[gid], z.clock, secret)
                      && NamesResource(cfg, rq.resource, z.tables.grants[gid].resource)
                      && HasUser(z.tables.grants[gid], z.users, z.clock) ==>
                        tables == DeleteGrant(z.tables, gid)))
  {
    var s', z := Apply(cfg, s, WriteUser(u)), Run(cfg, s, [WriteUser(u)] + es);
    assert ([WriteUser(u)] + es)[1..] == es;
    StampKept(cfg, s', es, u.id, u.securityStamp);
    ReachableLater(cfg, s, [WriteUser(u)] + es);
    ReachableKeyed(cfg, z);
    if gid in z.tables.grants && z.tables.grants[gid].userID == u.id
       && z.tables.grants[gid].securityStamp != u.securityStamp {
      RefreshRefused(cfg, z.tables, z.users, z.clock, draws, rq, gid, secret);
    }
  }

  // ---------- the end of a user ----------

  /** The user is not written again. */
  predicate NotWritten(es: seq<Event>, userID: string) {
    forall i :: 0 <= i < |es| && es[i].WriteUser? ==> es[i].user.id != userID
  }

  lemma {:induction false} StaysDeleted(cfg: Config, s: State, es: seq<Event>, userID: string)
    requires NotWritten(es, userID) && userID !in s.users
    ensures userID !in Run(cfg, s, es).users
    decreases |es|
  {
    if es != [] {
      StaysDeleted(cfg, Apply(cfg, s, es[0]), es[1..], userID);
    }
  }

  /** Deleting a user leaves exactly the codes, consents and grants of the others, and ends the user's
      tokens: whatever happens later, even if a redemption in flight still creates a grant, no access
      token of the user validates and no refresh of such a grant succeeds. */
  lemma DeletedUserEnds(cfg: Config, s: State, userID: string, es: seq<Event>, at: AccessToken, resource: string,
      now: int, draws: nat -> string, rq: RefreshRequest, gid: string, secret: string)
    requires Reachable(cfg, s) && CanRun(cfg, s, [DeleteUser(userID)] + es) && NotWritten(es, userID)
    requires ParseRefreshToken(rq.refreshToken) == Some((gid, secret))
    ensures var t, t' := s.tables, Apply(cfg, s, DeleteUser(userID)).tables;
            && (forall h :: h in t'.codes <==> h in t.codes && t.codes[h].userID != userID)
            && (forall h :: h in t'.codes ==> t'.codes[h] == t.codes[h])
            && (forall k :: k in t'.consents <==> k in t.consents && t.consents[k].userID != userID)
            && (forall k :: k in t'.consents ==> t'.consents[k] == t.consents[k])
            && (forall g :: g in t'.grants <==> g in t.grants && t.grants[g].userID != userID)
            && (forall g :: g in t'.grants ==> t'.grants[g] == t.grants[g])
            && (t'.clients, t'.jtis) == (t.clients, t.jtis)
    ensures var z := Run(cfg, s, [DeleteUser(userID)] + es);
            && (at.sub == userID ==> !Validates(cfg, z.tables, z.users, at, resource, now))
            && (gid in z.tables.grants && z.tables.grants[gid].userID == userID ==>
                  Complete(cfg, z.tables, z.users, z.clock, draws, Refresh(rq)).1.Refused?)
  {
    var z := Run(cfg, s, [DeleteUser(userID)] + es);
    assert ([DeleteUser(userID)] + es)[1..] == es;
    StaysDeleted(cfg, Apply(cfg, s, DeleteUser(userID)), es, userID);
    ReachableLater(cfg, s, [DeleteUser(userID)] + es);
    ReachableKeyed(cfg, z);
    if gid in z.tables.grants && z.tables.grants[gid].userID == userID {
      RefreshRefused(cfg, z.tables, z.users, z.clock, draws, rq, gid, secret);
    }
  }
}
