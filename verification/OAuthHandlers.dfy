/** The handlers of the authorization server as requests in flight. A handler is a
    sequence of store calls; between two of them any other request may run. A request in
    flight is its program counter together with the local variables it still needs; a clock
    reading belongs to the store call before it. */
module OAuthHandlers {
  import opened Wrappers
  import opened GoStrings
  import opened Entities
  import opened Scopes
  import opened TableOps
  import opened OAuthRules
  import opened MemStore

  /** A token presented to the revocation endpoint, already split by its format. */
  datatype PresentedToken = RefreshForm(gid: string, secret: string) | AccessForm(token: AccessToken)

  datatype Outcome =
    | Refused(error: OAuthError)
    | Tokens(response: TokenResponse)
    | CodeSent(code: string)
    | ConsentPage
    | Revoked
    | NoSuchGrant

  datatype Request =
    // the authorization endpoint
    | Visiting(userID: string, authz: AuthzRequest)
    | Approved(userID: string, authz: AuthzRequest)
    | ConsentRead(userID: string, authz: AuthzRequest, scopes: seq<string>, createdAt: int, now: int)
    | CodeReady(userID: string, authz: AuthzRequest)
    // the token endpoint, authorization_code
    | Redeem(codeRequest: CodeRequest)
    | RedeemChecked(codeRequest: CodeRequest, code: Code, now: int)
    | RedeemUser(codeRequest: CodeRequest, code: Code, now: int, user: User)
    | RedeemLost(codeRequest: CodeRequest)
    | RedeemWon(codeRequest: CodeRequest, code: Code, now: int, user: User, gid: string)
    | RedeemCreated(codeRequest: CodeRequest, now: int, user: User, grant: Grant, refresh: string)
    // the token endpoint, refresh_token
    | Refresh(refreshRequest: RefreshRequest)
    | RefreshChecked(refreshRequest: RefreshRequest, secret: string, grant: Grant, now: int)
    | RefreshUser(refreshRequest: RefreshRequest, secret: string, grant: Grant, now: int, user: User,
                  scopes: seq<string>)
    // both: the tokens are signed after the last store call, with a clock reading of their own
    | Signing(user: User, grant: Grant, scopes: seq<string>, refresh: string, now: int)
    // the revocation endpoint and the app-facing RevokeGrant
    | RevokeToken(client: ResolvedClient, presented: PresentedToken)
    | RevokeFound(client: ResolvedClient, gid: string)
    | RevokeOwn(userID: string, gid: string)
    // a grant deletion on the way to an answer
    | Deleting(gid: string, answer: Outcome)
    | Done(outcome: Outcome)

  /** The shared state a step may read besides the OAuth tables, and what it may draw:
      `draw` is the random id or secret, should the step need one. */
  datatype Env = Env(users: map<string, User>, clock: int, draw: string)

  /** How a handler continues from a verdict on what it has just read. */
  function Answer(v: Verdict, accepted: Request): Request {
    match v
    case Accept => accepted
    case Refuse(e) => Done(Refused(e))
    case Revoke(gid, e) => Deleting(gid, Refused(e))
  }

  /** The tables after the request's next store call. */
  function NextTables(cfg: Config, t: OAuthTables, env: Env, r: Request): OAuthTables {
    match r
    case ConsentRead(uid, q, scopes, created, now) =>
      SaveConsent(t, Consent(uid, q.client.id, JoinScopes(scopes), created, now))
    case CodeReady(uid, q) => CreateCode(t, NewCode(cfg, uid, q, env.draw, env.clock))
    case RedeemUser(rq, code, now, user) => MarkCodeUsed(t, code.codeHash, env.draw, now)
    case RedeemWon(rq, code, now, user, gid) => CreateGrant(t, GrantFor(cfg, rq, code, user, gid, env.draw, now))
    case RedeemCreated(rq, now, user, g, refresh) => if rq.client.cimd then t else TouchClient(t, rq.client.id, now)
    case RefreshUser(rq, secret, g, now, user, scopes) =>
      RotateGrant(t, g.id, g.tokenHash, Sha256(env.draw), now + cfg.refreshTokenTTL, now)
    case Deleting(gid, answer) => DeleteGrant(t, gid)
    case _ => t
  }

  function NewCode(cfg: Config, uid: string, q: AuthzRequest, secret: string, now: int): Code {
    Code(Sha256(secret), q.client.id, uid, q.redirectURI, JoinScopes(q.scopes), q.resource, q.challenge,
         now + cfg.codeTTL, None, "")
  }

  /** The grant created from a code: with a refresh hash when the client may refresh. */
  function GrantFor(cfg: Config, rq: CodeRequest, code: Code, user: User, gid: string, secret: string,
                    now: int): Grant {
    var hash := if IssuesRefresh(cfg, rq.client, ScopesOf(code.scopes)) then Sha256(secret) else NoDigest;
    NewGrant(cfg, code, user, rq.client, gid, hash, now)
  }

  /** Where the request stands after its next store call. */
  function NextRequest(cfg: Config, t: OAuthTables, env: Env, r: Request): Request {
    match r
    case Visiting(uid, q) =>
      if Covers(GetConsent(t, uid, q.client.id), q.scopes) then CodeReady(uid, q) else Done(ConsentPage)
    case Approved(uid, q) =>
      (match GetConsent(t, uid, q.client.id)
       case None => ConsentRead(uid, q, q.scopes, env.clock, env.clock)
       case Some(prev) => ConsentRead(uid, q, Union(ScopesOf(prev.scopes), q.scopes), prev.createdAt, env.clock))
    case ConsentRead(uid, q, _, _, _) => CodeReady(uid, q)
    case CodeReady(_, _) => Done(CodeSent(env.draw))

    case Redeem(rq) =>
      if !ClientAllows(rq.client, AUTHORIZATION_CODE) then Done(Refused(UnauthorizedClient))
      else if rq.code == "" then Done(Refused(InvalidRequest))
      else if Sha256(rq.code) !in t.codes then Done(Refused(InvalidGrant))
      else
        var code := t.codes[Sha256(rq.code)];
        Answer(JudgeCode(cfg, code, rq, env.clock), RedeemChecked(rq, code, env.clock))
    case RedeemChecked(rq, code, now) =>
      if !Available(env.users, code.userID, env.clock) then Done(Refused(InvalidGrant))
      else RedeemUser(rq, code, now, env.users[code.userID])
    case RedeemUser(rq, code, now, user) =>
      if CodeIsUnused(t, code.codeHash) then RedeemWon(rq, code, now, user, env.draw) else RedeemLost(rq)
    case RedeemLost(rq) =>
      if Sha256(rq.code) in t.codes && t.codes[Sha256(rq.code)].grantID != ""
      then Deleting(t.codes[Sha256(rq.code)].grantID, Refused(InvalidGrant))
      else Done(Refused(InvalidGrant))
    case RedeemWon(rq, code, now, user, gid) =>
      var g := GrantFor(cfg, rq, code, user, gid, env.draw, now);
      RedeemCreated(rq, now, user, g, if g.tokenHash == NoDigest then "" else RefreshTokenOf(gid, env.draw))
    case RedeemCreated(rq, now, user, g, refresh) => Signing(user, g, ScopesOf(g.scopes), refresh, now)

    case Refresh(rq) =>
      if !ClientAllows(rq.client, REFRESH_TOKEN) then Done(Refused(UnauthorizedClient))
      else (
        match ParseRefreshToken(rq.refreshToken)
        case None => Done(Refused(InvalidGrant))
        case Some((gid, secret)) =>
          if gid !in t.grants then Done(Refused(InvalidGrant))
          else Answer(JudgeGrant(cfg, t.grants[gid], rq, secret, env.clock),
                      RefreshChecked(rq, secret, t.grants[gid], env.clock)))
    case RefreshChecked(rq, secret, g, now) =>
      if !Available(env.users, g.userID, env.clock) then Done(Refused(InvalidGrant))
      else if env.users[g.userID].securityStamp != g.securityStamp then Deleting(g.id, Refused(InvalidGrant))
      else (
        match NarrowScopes(g.scopes, rq.scope)
        case Err(e) => Done(Refused(e))
        case Ok(scopes) => RefreshUser(rq, secret, g, now, env.users[g.userID], scopes))
    case RefreshUser(rq, secret, g, now, user, scopes) =>
      if HashMatches(t, g.id, g.tokenHash) then Signing(user, g, scopes, RefreshTokenOf(g.id, env.draw), now)
      else Done(Refused(InvalidGrant))

    case Signing(user, g, scopes, refresh, now) =>
      Done(Tokens(TokenResponse(SignToken(cfg, user, g, scopes, env.clock), refresh, JoinScopes(scopes))))

    case RevokeToken(client, RefreshForm(gid, secret)) =>
      if gid in t.grants && Sha256(secret) in {t.grants[gid].tokenHash, t.grants[gid].prevTokenHash}
      then RevokeFound(client, gid) else Done(Revoked)
    case RevokeToken(client, AccessForm(token)) =>
      if InTime(token, env.clock) && token.gid != "" then RevokeFound(client, token.gid) else Done(Revoked)
    case RevokeFound(client, gid) =>
      if gid in t.grants && t.grants[gid].clientID == client.id then Deleting(gid, Revoked) else Done(Revoked)
    case RevokeOwn(uid, gid) =>
      if gid !in t.grants then Done(Revoked)
      else if t.grants[gid].userID != uid then Done(NoSuchGrant)
      else Deleting(gid, Revoked)
    case Deleting(_, answer) => Done(answer)
    case Done(_) => r
  }

  predicate IsAuthorize(r: Request) {
    r.Visiting? || r.Approved? || r.ConsentRead? || r.CodeReady?
  }

  predicate IsExchange(r: Request) {
    r.Redeem? || r.RedeemChecked? || r.RedeemUser? || r.RedeemLost? || r.RedeemWon? || r.RedeemCreated?
  }

  predicate IsRefresh(r: Request) {
    r.Refresh? || r.RefreshChecked? || r.RefreshUser?
  }

  predicate IsRevoke(r: Request) {
    r.RevokeToken? || r.RevokeFound? || r.RevokeOwn?
  }

  /** Store calls a request may still make. */
  function Remaining(r: Request): nat {
    match r
    case Visiting(_, _) => 2
    case Approved(_, _) => 3
    case ConsentRead(_, _, _, _, _) => 2
    case CodeReady(_, _) => 1
    case Redeem(_) => 7
    case RedeemChecked(_, _, _) => 6
    case RedeemUser(_, _, _, _) => 5
    case RedeemLost(_) => 2
    case RedeemWon(_, _, _, _, _) => 3
    case RedeemCreated(_, _, _, _, _) => 2
    case Refresh(_) => 4
    case RefreshChecked(_, _, _, _) => 3
    case RefreshUser(_, _, _, _, _, _) => 2
    case Signing(_, _, _, _, _) => 1
    case RevokeToken(_, _) => 3
    case RevokeFound(_, _) => 2
    case RevokeOwn(_, _) => 2
    case Deleting(_, _) => 1
    case Done(_) => 0
  }

  /** Every step comes closer to an answer, so every handler answers. */
  lemma StepsTerminate(cfg: Config, t: OAuthTables, env: Env, r: Request)
    requires !r.Done?
    ensures Remaining(NextRequest(cfg, t, env, r)) < Remaining(r)
  {
  }

  /** A handler that runs with nothing in between: the tables it leaves and its answer.
      `draws` supplies the random value of each step. */
  function Complete(cfg: Config, t: OAuthTables, users: map<string, User>, clock: int, draws: nat -> string,
      r: Request): (OAuthTables, Outcome)
    decreases Remaining(r)
  {
    if r.Done? then (t, r.outcome)
    else
      var env := Env(users, clock, draws(Remaining(r)));
      StepsTerminate(cfg, t, env, r);
      Complete(cfg, NextTables(cfg, t, env, r), users, clock, draws, NextRequest(cfg, t, env, r))
  }

  // ---------- the handlers over the shared store ----------

  /** One request being served: its program counter and locals, advanced one store call at a time. */
  class Handler {
    const cfg: Config
    const store: Store
    var request: Request

    constructor (cfg: Config, store: Store, request: Request)
      ensures this.cfg == cfg && this.store == store && this.request == request
    {
      this.cfg, this.store, this.request := cfg, store, request;
    }

    /** Performs the next store call; other handlers run between two calls of this method. */
    method Step(now: int, draw: string)
      modifies this`request, store`oauth
      ensures store.oauth == NextTables(cfg, old(store.oauth), Env(store.db.users, now, draw), old(request))
      ensures request == NextRequest(cfg, old(store.oauth), Env(store.db.users, now, draw), old(request))
    {
      if IsAuthorize(request) {
        AuthorizeStep(now, draw);
      } else if IsExchange(request) {
        ExchangeStep(now, draw);
      } else if IsRefresh(request) {
        RefreshGrantStep(now, draw);
      } else if IsRevoke(request) {
        RevokeStep(now, draw);
      } else {
        FinishStep(now, draw);
      }
    }

    method AuthorizeStep(now: int, draw: string)
      requires IsAuthorize(request)
      modifies this`request, store`oauth
      ensures store.oauth == NextTables(cfg, old(store.oauth), Env(store.db.users, now, draw), old(request))
      ensures request == NextRequest(cfg, old(store.oauth), Env(store.db.users, now, draw), old(request))
    {
      match request
      case Visiting(uid, q) => VisitStep(uid, q);
      case Approved(uid, q) => ApproveStep(uid, q, now);
      case ConsentRead(uid, q, scopes, created, at) =>
        store.SaveConsent(Consent(uid, q.client.id, JoinScopes(scopes), created, at));
        request := CodeReady(uid, q);
      case CodeReady(uid, q) =>
        store.CreateCode(NewCode(cfg, uid, q, draw, now));
        request := Done(CodeSent(draw));
    }

    method ExchangeStep(now: int, draw: string)
      requires IsExchange(request)
      modifies this`request, store`oauth
      ensures store.oauth == NextTables(cfg, old(store.oauth), Env(store.db.users, now, draw), old(request))
      ensures request == NextRequest(cfg, old(store.oauth), Env(store.db.users, now, draw), old(request))
    {
      match request
      case Redeem(rq) => RedeemStep(rq, now);
      case RedeemChecked(rq, code, at) =>
        var u := store.FindUser(code.userID);
        request := if u.Err? || u.value.IsLockedOut(now) then Done(Refused(InvalidGrant))
            else RedeemUser(rq, code, at, u.value);
      case RedeemUser(rq, code, at, user) =>
        var won := store.MarkCodeUsed(code.codeHash, draw, at);
        request := if won then RedeemWon(rq, code, at, user, draw) else RedeemLost(rq);
      case RedeemLost(rq) =>
        var c := store.GetCode(Sha256(rq.code));
        request := if c.Ok? && c.value.grantID != "" then Deleting(c.value.grantID, Refused(InvalidGrant))
                   else Done(Refused(InvalidGrant));
      case RedeemWon(rq, code, at, user, gid) =>
        var g := GrantFor(cfg, rq, code, user, gid, draw, at);
        store.CreateGrant(g);
        request := RedeemCreated(rq, at, user, g, if g.tokenHash == NoDigest then "" else RefreshTokenOf(gid, draw));
      case RedeemCreated(rq, at, user, g, refresh) =>
        if !rq.client.cimd {
          store.TouchClient(rq.client.id, at);
        }
        request := Signing(user, g, ScopesOf(g.scopes), refresh, at);
    }

    method RefreshGrantStep(now: int, draw: string)
      requires IsRefresh(request)
      modifies this`request, store`oauth
      ensures store.oauth == NextTables(cfg, old(store.oauth), Env(store.db.users, now, draw), old(request))
      ensures request == NextRequest(cfg, old(store.oauth), Env(store.db.users, now, draw), old(request))
    {
      match request
      case Refresh(rq) => RefreshStep(rq, now);
      case RefreshChecked(rq, secret, g, at) => RefreshUserStep(rq, secret, g, at, now);
      case RefreshUser(rq, secret, g, at, user, scopes) =>
        var ok := store.RotateGrant(g.id, g.tokenHash, Sha256(draw), at + cfg.refreshTokenTTL, at);
        request := if ok then Signing(user, g, scopes, RefreshTokenOf(g.id, draw), at) else Done(Refused(InvalidGrant));
    }

    method RevokeStep(now: int, draw: string)
      requires IsRevoke(request)
      modifies this`request, store`oauth
      ensures store.oauth == NextTables(cfg, old(store.oauth), Env(store.db.users, now, draw), old(request))
      ensures request == NextRequest(cfg, old(store.oauth), Env(store.db.users, now, draw), old(request))
    {
      match request
      case RevokeToken(client, presented) => RevokeTokenStep(client, presented, now);
      case RevokeFound(client, gid) => RevokeFoundStep(client, gid);
      case RevokeOwn(uid, gid) => RevokeOwnStep(uid, gid);
    }

    method FinishStep(now: int, draw: string)
      requires request.Signing? || request.Deleting? || request.Done?
      modifies this`request, store`oauth
      ensures store.oauth == NextTables(cfg, old(store.oauth), Env(store.db.users, now, draw), old(request))
      ensures request == NextRequest(cfg, old(store.oauth), Env(store.db.users, now, draw), old(request))
    {
      match request
      case Signing(user, g, scopes, refresh, at) =>
        request := Done(Tokens(TokenResponse(SignToken(cfg, user, g, scopes, now), refresh, JoinScopes(scopes))));
      case Deleting(gid, answer) =>
        store.DeleteGrant(gid);
        request := Done(answer);
      case Done(_) =>
    }

    method VisitStep(uid: string, q: AuthzRequest)
      modifies this`request
      ensures request == NextRequest(cfg, store.oauth, Env(store.db.users, 0, ""), Visiting(uid, q))
    {
      var c := store.GetConsent(uid, q.client.id);
      request := if Covers(c, q.scopes) then CodeReady(uid, q) else Done(ConsentPage);
    }

    method ApproveStep(uid: string, q: AuthzRequest, now: int)
      modifies this`request
      ensures request == NextRequest(cfg, store.oauth, Env(store.db.users, now, ""), Approved(uid, q))
    {
      var scopes, created := q.scopes, now;
      var prev := store.GetConsent(uid, q.client.id);
      if prev.Some? {
        scopes := Union(ScopesOf(prev.value.scopes), q.scopes);
        created := prev.value.createdAt;
      }
      request := ConsentRead(uid, q, scopes, created, now);
    }

    method RedeemStep(rq: CodeRequest, now: int)
      modifies this`request
      ensures request == NextRequest(cfg, store.oauth, Env(store.db.users, now, ""), Redeem(rq))
    {
      if !ClientAllows(rq.client, AUTHORIZATION_CODE) {
        request := Done(Refused(UnauthorizedClient));
        return;
      }
      if rq.code == "" {
        request := Done(Refused(InvalidRequest));
        return;
      }
      var code := store.GetCode(Sha256(rq.code));
      if code.Err? {
        request := Done(Refused(InvalidGrant));
        return;
      }
      request := Answer(JudgeCode(cfg, code.value, rq, now), RedeemChecked(rq, code.value, now));
    }

    method RefreshStep(rq: RefreshRequest, now: int)
      modifies this`request
      ensures request == NextRequest(cfg, store.oauth, Env(store.db.users, now, ""), Refresh(rq))
    {
      if !ClientAllows(rq.client, REFRESH_TOKEN) {
        request := Done(Refused(UnauthorizedClient));
        return;
      }
      var parts := ParseRefreshToken(rq.refreshToken);
      if parts.None? {
        request := Done(Refused(InvalidGrant));
        return;
      }
      var (gid, secret) := parts.value;
      var g := store.GetGrant(gid);
      if g.Err? {
        request := Done(Refused(InvalidGrant));
        return;
      }
      request := Answer(JudgeGrant(cfg, g.value, rq, secret, now), RefreshChecked(rq, secret, g.value, now));
    }

    method RefreshUserStep(rq: RefreshRequest, secret: string, g: Grant, at: int, now: int)
      modifies this`request
      ensures request == NextRequest(cfg, store.oauth, Env(store.db.users, now, ""), RefreshChecked(rq, secret, g, at))
    {
      var u := store.FindUser(g.userID);
      if u.Err? || u.value.IsLockedOut(now) {
        request := Done(Refused(InvalidGrant));
        return;
      }
      if u.value.securityStamp != g.securityStamp {
        request := Deleting(g.id, Refused(InvalidGrant));
        return;
      }
      var scopes := NarrowScopes(g.scopes, rq.scope);
      request := if scopes.Err? then Done(Refused(scopes.error))
          else RefreshUser(rq, secret, g, at, u.value, scopes.value);
    }

    method RevokeTokenStep(client: ResolvedClient, presented: PresentedToken, now: int)
      modifies this`request
      ensures request == NextRequest(cfg, store.oauth, Env(store.db.users, now, ""), RevokeToken(client, presented))
    {
      match presented
      case AccessForm(token) =>
        request := if InTime(token, now) && token.gid != "" then RevokeFound(client, token.gid) else Done(Revoked);
      case RefreshForm(gid, secret) =>
        var g := store.GetGrant(gid);
        var h := Sha256(secret);
        request := if g.Ok? && (g.value.tokenHash == h || g.value.prevTokenHash == h) then RevokeFound(client, gid)
            else Done(Revoked);
    }

    method RevokeFoundStep(client: ResolvedClient, gid: string)
      modifies this`request
      ensures request == NextRequest(cfg, store.oauth, Env(store.db.users, 0, ""), RevokeFound(client, gid))
    {
      var g := store.GetGrant(gid);
      request := if g.Ok? && g.value.clientID == client.id then Deleting(gid, Revoked) else Done(Revoked);
    }

    method RevokeOwnStep(uid: string, gid: string)
      modifies this`request
      ensures request == NextRequest(cfg, store.oauth, Env(store.db.users, 0, ""), RevokeOwn(uid, gid))
    {
      var g := store.GetGrant(gid);
      request := if g.Err? then Done(Revoked) else if g.value.userID != uid then Done(NoSuchGrant)
          else Deleting(gid, Revoked);
    }

    /** Serves the request to its answer with nothing in between. */
    method Serve(now: int, draws: nat -> string) returns (answer: Outcome)
      modifies this`request, store`oauth
      ensures (store.oauth, answer) == Complete(cfg, old(store.oauth), store.db.users, now, draws, old(request))
      ensures store.db == old(store.db)
    {
      ghost var goal := Complete(cfg, store.oauth, store.db.users, now, draws, request);
      while !request.Done?
        invariant goal == Complete(cfg, store.oauth, store.db.users, now, draws, request)
        invariant store.db == old(store.db)
        decreases Remaining(request)
      {
        StepsTerminate(cfg, store.oauth, Env(store.db.users, now, draws(Remaining(request))), request);
        Step(now, draws(Remaining(request)));
      }
      return request.outcome;
    }
  }

  // ---------- calls by the application ----------

  class Server {
    const store: Store

    constructor (store: Store)
      ensures this.store == store
    {
      this.store := store;
    }

    /** Runs the three sweeps with one clock reading; reports the codes and grants deleted. */
    method PurgeExpired(now: int) returns (codes: nat, grants: nat)
      modifies store`oauth
      ensures store.oauth == Purged(old(store.oauth), now)
      ensures forall h :: h in store.oauth.codes <==>
          h in old(store.oauth).codes && !(old(store.oauth).codes[h].expiresAt < now)
      ensures forall gid :: gid in store.oauth.grants <==>
          gid in old(store.oauth).grants && !(old(store.oauth).grants[gid].expiresAt < now)
      ensures codes == |old(store.oauth).codes| - |store.oauth.codes|
      ensures grants == |old(store.oauth).grants| - |store.oauth.grants|
    {
      codes := store.DeleteExpiredCodes(now);
      grants := store.DeleteExpiredGrants(now);
      var assertions := store.DeleteExpiredClientAssertions(now);
    }

    /** The user an access token acts for: only for an access token of this server, and only when it validates. */
    method ValidateResourceToken(cfg: Config, bearer: Bearer, resource: string, now: int) returns (r: Option<User>)
      ensures r.Some? <==>
                && bearer.AccessJWT?
                && var t, users, grants := bearer.token, store.db.users, store.oauth.grants;
                   && cfg.canonicalResource(resource) == Some(t.aud)
                   && t.iat * SECOND <= now < t.exp * SECOND && t.sub != "" && t.gid != "" && t.sub in users
                   && !(users[t.sub].lockoutEnabled && users[t.sub].lockoutEnd.Some?
                        && now < users[t.sub].lockoutEnd.value)
                   && users[t.sub].securityStamp == t.stamp
                   && t.gid in grants && grants[t.gid].userID == t.sub
      ensures r.Some? <==> bearer.AccessJWT? && Validates(cfg, store.oauth, store.db.users, bearer.token, resource, now)
      ensures r.Some? ==> bearer.token.sub in store.db.users && r.value == store.db.users[bearer.token.sub]
    {
      var res := cfg.canonicalResource(resource);
      if res.None? || !bearer.AccessJWT? {
        return None;
      }
      var token := bearer.token;
      if token.aud != res.value || !InTime(token, now) {
        return None;
      }
      if token.sub == "" || token.gid == "" {
        return None;
      }
      var u := store.FindUser(token.sub);
      if u.Err? || u.value.securityStamp != token.stamp || u.value.IsLockedOut(now) {
        return None;
      }
      var g := store.GetGrant(token.gid);
      if g.Err? || g.value.userID != token.sub {
        return None;
      }
      return Some(u.value);
    }

    method RevokeClient(userID: string, clientID: string)
      modifies store`oauth
      ensures store.oauth == Disconnected(old(store.oauth), userID, clientID)
    {
      var n := store.DeleteUserClientGrants(userID, clientID);
      store.DeleteConsent(userID, clientID);
    }
  }
}
