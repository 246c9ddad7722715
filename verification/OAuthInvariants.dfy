/** What every step of the authorization server keeps. */
module OAuthInvariants {
  import opened Wrappers
  import opened GoStrings
  import opened Entities
  import opened Scopes
  import opened TableOps
  import opened OAuthRules
  import opened OAuthHandlers
  import opened OAuthProtocol

  // ---------- the invariant ----------

  ghost predicate DrawnHash(log: History, d: Digest) {
    d.Sha256? && d.secret in log.drawn
  }

  /** The columns of a code that never change. */
  predicate SameCode(a: Code, b: Code) {
    a.(usedAt := None, grantID := "") == b.(usedAt := None, grantID := "")
  }

  /** The columns of a grant that never change. */
  predicate SameGrant(a: Grant, b: Grant) {
    && a.id == b.id && a.userID == b.userID && a.clientID == b.clientID
    && a.scopes == b.scopes && a.resource == b.resource && a.securityStamp == b.securityStamp
  }

  ghost predicate ApprovedBy(log: History, userID: string, clientID: string, scopes: set<string>) {
    forall sc :: sc in scopes ==> (userID, clientID, sc) in log.approved
  }

  /** The code was created for a validated request, and carries its client, redirect URI, scopes,
      resource and challenge. */
  ghost predicate IssuedFor(cfg: Config, log: History, h: Digest, c: Code) {
    && h in log.issued
    && var i := log.issued[h];
       && Validated(cfg, i.authz)
       && c == Code(h, i.authz.client.id, i.userID, i.authz.redirectURI, JoinScopes(i.authz.scopes), i.authz.resource,
                    i.authz.challenge, i.at + cfg.codeTTL, None, "")
  }

  /** Every code stands for an approved request: scopes its user approved for its client,
      a configured resource and, when the defaults are configured scopes, configured scopes. */
  ghost predicate CodeLogged(cfg: Config, log: History, h: Digest, c: Code) {
    && DrawnHash(log, h) && IssuedFor(cfg, log, h, c)
    && ApprovedBy(log, c.userID, c.clientID, ScopeSet(c.scopes))
    && c.resource in cfg.resources
    && (DefaultsConfigured(cfg) ==> ScopeSet(c.scopes) <= Elements(cfg.scopes))
  }

  ghost predicate CodesLogged(cfg: Config, log: History) {
    forall h :: h in log.codes ==> CodeLogged(cfg, log, h, log.codes[h])
  }

  ghost predicate WinnersLogged(log: History) {
    && (forall h :: h in log.winners ==> h in log.codes && log.winners[h] in log.drawn && log.winners[h] != "")
    && (forall h, k :: h in log.winners && k in log.winners && log.winners[h] == log.winners[k] ==> h == k)
  }

  ghost predicate MintLogged(cfg: Config, log: History, gid: string, m: Mint) {
    && gid in log.drawn && m.grant.id == gid && gid != ""
    && m.code in log.winners && log.winners[m.code] == gid && m.code in log.codes
    && var c := log.codes[m.code];
       && m.grant.userID == c.userID && m.grant.clientID == c.clientID && m.grant.scopes == c.scopes
           && m.grant.resource == c.resource
       && m.code == Sha256(m.request.code) && Proves(cfg, m.request, c) && m.grant.createdAt <= c.expiresAt
  }

  /** The four histories kept per grant cover the same grants. */
  ghost predicate SameGrants(log: History) {
    && (forall gid :: gid in log.chains <==> gid in log.mints)
    && (forall gid :: gid in log.redeemed <==> gid in log.mints)
    && (forall gid :: gid in log.renewed <==> gid in log.mints)
  }

  ghost predicate MintsLogged(cfg: Config, log: History) {
    && SameGrants(log)
    && forall gid :: gid in log.mints ==> MintLogged(cfg, log, gid, log.mints[gid])
  }

  /** A grant's hashes are pairwise distinct, each was installed in that grant, and the
      redeemed secrets are exactly those whose hash has been rotated away. */
  ghost predicate ChainLogged(log: History, gid: string)
    requires gid in log.chains && gid in log.redeemed
  {
    var chain := log.chains[gid];
    && Distinct(chain)
    && (forall i :: 0 <= i < |chain| ==>
        DrawnHash(log, chain[i]) && chain[i] in log.versions && log.versions[chain[i]].id == gid)
    && log.redeemed[gid] == if chain == [] then [] else chain[..|chain| - 1]
  }

  ghost predicate ChainsLogged(log: History) {
    && (forall gid :: gid in log.chains && gid in log.redeemed ==> ChainLogged(log, gid))
    && (forall d :: d in log.versions ==> DrawnHash(log, d))
  }

  ghost predicate TokenLogged(cfg: Config, log: History, st: Signed) {
    var t := st.token;
    && t.gid in log.mints && t.gid in log.renewed && st.since <= log.renewed[t.gid]
    && t.exp == Unix(st.at + cfg.accessTokenTTL)
    && var g := log.mints[t.gid].grant;
       t.sub == g.userID && t.clientID == g.clientID && t.aud == g.resource && ScopeSet(t.scope) <= ScopeSet(g.scopes)
  }

  ghost predicate TokensLogged(cfg: Config, log: History) {
    forall st :: st in log.tokens ==> TokenLogged(cfg, log, st)
  }

  ghost predicate LogOk(cfg: Config, log: History) {
    CodesLogged(cfg, log) && WinnersLogged(log) && MintsLogged(cfg, log) && ChainsLogged(log) && TokensLogged(cfg, log)
  }

  // rows of the store

  ghost predicate CodeRowOk(log: History, h: Digest, c: Code) {
    && h in log.codes && SameCode(c, log.codes[h])
    && (c.usedAt.Some? <==> h in log.winners)
    && c.grantID == if h in log.winners then log.winners[h] else ""
  }

  ghost predicate GrantRowOk(cfg: Config, log: History, gid: string, g: Grant) {
    && g.id == gid && gid in log.mints && gid in log.chains && gid in log.renewed && SameGrant(g, log.mints[gid].grant)
    && g.expiresAt == log.renewed[gid] + cfg.refreshTokenTTL
    && (|log.chains[gid]| >= 2 ==> g.lastUsedAt == Some(log.renewed[gid]))
    && var chain := log.chains[gid];
       && g.tokenHash == (if chain == [] then NoDigest else chain[|chain| - 1])
       && g.prevTokenHash == (if |chain| < 2 then NoDigest else chain[|chain| - 2])
       && (chain != [] ==> g.tokenHash in log.versions && log.versions[g.tokenHash] == g)
  }

  ghost predicate ConsentRowOk(log: History, k: string, c: Consent) {
    BAR !in c.userID && k == ConsentKey(c.userID, c.clientID)
        && ApprovedBy(log, c.userID, c.clientID, ScopeSet(c.scopes))
  }

  ghost predicate CodeRowsOk(t: OAuthTables, log: History) {
    forall h :: h in t.codes ==> CodeRowOk(log, h, t.codes[h])
  }

  ghost predicate GrantRowsOk(cfg: Config, t: OAuthTables, log: History) {
    forall gid :: gid in t.grants ==> GrantRowOk(cfg, log, gid, t.grants[gid])
  }

  ghost predicate ConsentRowsOk(t: OAuthTables, log: History) {
    forall k :: k in t.consents ==> ConsentRowOk(log, k, t.consents[k])
  }

  // requests in flight

  ghost predicate Requested(cfg: Config, log: History, q: AuthzRequest) {
    && Validated(cfg, q) && q.resource in cfg.resources
    && (DefaultsConfigured(cfg) ==> ScopeSet(JoinScopes(q.scopes)) <= Elements(cfg.scopes))
  }

  /** A request holding a code read that code from the store. */
  ghost predicate HoldsCode(cfg: Config, log: History, rq: CodeRequest, code: Code, now: int) {
    && code.codeHash in log.codes && SameCode(code, log.codes[code.codeHash])
    && code.codeHash == Sha256(rq.code) && Proves(cfg, rq, code) && now <= code.expiresAt
  }

  /** A request holding a grant read a version of it from the store. */
  ghost predicate HoldsGrant(cfg: Config, log: History, secret: string, g: Grant, now: int) {
    && g.tokenHash == Sha256(secret) && g.tokenHash in log.versions && log.versions[g.tokenHash] == g
    && g.id in log.mints && SameGrant(g, log.mints[g.id].grant)
    && g.expiresAt <= now + cfg.refreshTokenTTL
  }

  ghost predicate RequestOk(cfg: Config, log: History, clock: int, r: Request) {
    match r
    case Visiting(uid, q) => BAR !in uid && Requested(cfg, log, q)
    case Approved(uid, q) => BAR !in uid && Requested(cfg, log, q)
        && ApprovedBy(log, uid, q.client.id, ScopeSet(JoinScopes(q.scopes)))
    case ConsentRead(uid, q, scopes, _, _) =>
      && BAR !in uid && Requested(cfg, log, q) && ApprovedBy(log, uid, q.client.id, ScopeSet(JoinScopes(q.scopes)))
      && ApprovedBy(log, uid, q.client.id, ScopeSet(JoinScopes(scopes)))
    case CodeReady(uid, q) => Requested(cfg, log, q)
        && ApprovedBy(log, uid, q.client.id, ScopeSet(JoinScopes(q.scopes)))
    case RedeemChecked(rq, code, now) => HoldsCode(cfg, log, rq, code, now) && now <= clock
    case RedeemUser(rq, code, now, user) => HoldsCode(cfg, log, rq, code, now) && user.id == code.userID && now <= clock
    case RedeemWon(rq, code, now, user, gid) =>
      && HoldsCode(cfg, log, rq, code, now) && user.id == code.userID && now <= clock && gid != "" && gid in log.drawn
      && code.codeHash in log.winners && log.winners[code.codeHash] == gid
    case RedeemCreated(_, now, user, g, _) => HoldsMint(log, user, g, ScopesOf(g.scopes), now)
    case RefreshChecked(_, secret, g, now) => HoldsGrant(cfg, log, secret, g, now) && now <= clock
    case RefreshUser(_, secret, g, now, user, scopes) =>
      && HoldsGrant(cfg, log, secret, g, now) && now <= clock && user.id == g.userID
      && ScopesOf(JoinScopes(scopes)) == scopes && Elements(scopes) <= ScopeSet(g.scopes)
    case Signing(user, g, scopes, _, now) => HoldsMint(log, user, g, scopes, now)
    case _ => true
  }

  ghost predicate HoldsMint(log: History, user: User, g: Grant, scopes: seq<string>, now: int) {
    && g.id in log.mints && SameGrant(g, log.mints[g.id].grant) && user.id == g.userID
    && ScopesOf(JoinScopes(scopes)) == scopes && Elements(scopes) <= ScopeSet(g.scopes)
    && g.id in log.renewed && now <= log.renewed[g.id]
  }

  ghost predicate RequestsOk(cfg: Config, s: State) {
    forall id :: id in s.requests ==> RequestOk(cfg, s.log, s.clock, s.requests[id])
  }

  /** A won redemption has not created its grant yet, and no two share a grant id. */
  ghost predicate PendingOk(s: State) {
    && (forall id :: id in s.requests && s.requests[id].RedeemWon? ==> s.requests[id].gid !in s.log.mints)
    && (forall id, jd ::
          id in s.requests && jd in s.requests && id != jd && s.requests[id].RedeemWon? && s.requests[jd].RedeemWon? ==>
            s.requests[id].gid != s.requests[jd].gid)
  }

  ghost predicate RenewalsOk(s: State) {
    forall gid :: gid in s.log.renewed ==> s.log.renewed[gid] <= s.clock
  }

  ghost predicate Inv(cfg: Config, s: State) {
    && LogOk(cfg, s.log) && UsersKeyed(s.users)
    && CodeRowsOk(s.tables, s.log) && GrantRowsOk(cfg, s.tables, s.log) && ConsentRowsOk(s.tables, s.log)
    && RequestsOk(cfg, s) && PendingOk(s) && RenewalsOk(s)
  }

  // ---------- the history only grows ----------

  ghost predicate Grows(log: History, log': History) {
    && log.drawn <= log'.drawn && log.approved <= log'.approved && log.tokens <= log'.tokens
    && (forall h :: h in log.codes ==> h in log'.codes && log'.codes[h] == log.codes[h])
    && (forall h :: h in log.winners ==> h in log'.winners && log'.winners[h] == log.winners[h])
    && (forall g :: g in log.mints ==> g in log'.mints && log'.mints[g] == log.mints[g])
    && (forall d :: d in log.versions ==> d in log'.versions && log'.versions[d] == log.versions[d])
    && (forall g :: g in log.renewed ==> g in log'.renewed && log.renewed[g] <= log'.renewed[g])
    && (forall g :: g in log.chains ==> g in log'.chains && log.chains[g] <= log'.chains[g])
  }

  lemma RequestStays(cfg: Config, log: History, log': History, clock: int, clock': int, r: Request)
    requires Grows(log, log') && clock <= clock' && RequestOk(cfg, log, clock, r)
    ensures RequestOk(cfg, log', clock', r)
  {
  }

  lemma OthersStay(cfg: Config, s: State, s': State, id: nat)
    requires RequestsOk(cfg, s) && Grows(s.log, s'.log) && s.clock <= s'.clock
    requires s'.requests.Keys == s.requests.Keys + {id}
    requires forall jd :: jd in s.requests && jd != id ==> s'.requests[jd] == s.requests[jd]
    requires RequestOk(cfg, s'.log, s'.clock, s'.requests[id])
    ensures RequestsOk(cfg, s')
  {
    forall jd | jd in s'.requests
      ensures RequestOk(cfg, s'.log, s'.clock, s'.requests[jd])
    {
      if jd != id {
        RequestStays(cfg, s.log, s'.log, s.clock, s'.clock, s.requests[jd]);
      }
    }
  }

  // ---------- frames: what each part of the history depends on ----------

  lemma CodesFrame(cfg: Config, log: History, log': History)
    requires CodesLogged(cfg, log) && log.codes == log'.codes && log.issued == log'.issued
    requires log.drawn <= log'.drawn && log.approved <= log'.approved
    ensures CodesLogged(cfg, log')
  {
    forall h | h in log'.codes
      ensures CodeLogged(cfg, log', h, log'.codes[h])
    {
      CodeStays(cfg, log, log', h, log.codes[h]);
    }
  }

  lemma CodeStays(cfg: Config, log: History, log': History, h: Digest, c: Code)
    requires CodeLogged(cfg, log, h, c) && h in log'.issued && log'.issued[h] == log.issued[h]
    requires log.drawn <= log'.drawn && log.approved <= log'.approved
    ensures CodeLogged(cfg, log', h, c)
  {
  }

  lemma WinnersFrame(log: History, log': History)
    requires WinnersLogged(log) && log.winners == log'.winners
    requires log.drawn <= log'.drawn && log.codes.Keys <= log'.codes.Keys
    ensures WinnersLogged(log')
  {
  }

  lemma MintsFrame(cfg: Config, log: History, log': History)
    requires MintsLogged(cfg, log) && log.mints == log'.mints && SameGrants(log')
    requires log.drawn <= log'.drawn
    requires forall h :: h in log.codes ==> h in log'.codes && log'.codes[h] == log.codes[h]
    requires forall h :: h in log.winners ==> h in log'.winners && log'.winners[h] == log.winners[h]
    ensures MintsLogged(cfg, log')
  {
    assert forall gid :: gid in log.mints ==> MintLogged(cfg, log, gid, log.mints[gid]);
  }

  lemma ChainsFrame(log: History, log': History)
    requires ChainsLogged(log) && log.chains == log'.chains && log.redeemed == log'.redeemed
        && log.versions == log'.versions
    requires log.drawn <= log'.drawn
    ensures ChainsLogged(log')
  {
    assert forall gid :: gid in log.chains && gid in log.redeemed ==> ChainLogged(log, gid);
  }

  lemma TokensFrame(cfg: Config, log: History, log': History)
    requires TokensLogged(cfg, log) && log.tokens == log'.tokens
    requires forall g :: g in log.mints ==> g in log'.mints && log'.mints[g] == log.mints[g]
    requires forall g :: g in log.renewed ==> g in log'.renewed && log.renewed[g] <= log'.renewed[g]
    ensures TokensLogged(cfg, log')
  {
    assert forall st :: st in log.tokens ==> TokenLogged(cfg, log, st);
  }

  // ---------- what a step does to the history ----------

  /** What a step may rely on: its draw is new, a won redemption has no grant yet, and a
      rotation is about to replace the last hash of its chain, installed no later than
      the rotating handler's clock reading. */
  ghost predicate StepReady(cfg: Config, t: OAuthTables, log: History, env: Env, r: Request) {
    && env.draw != "" && env.draw !in log.drawn
    && Sha256(env.draw) !in log.codes && Sha256(env.draw) !in log.versions
    && (Wins(t, r) ==> r.code.codeHash !in log.winners)
    && (r.RedeemWon? ==> r.gid !in log.mints && r.gid !in log.chains && r.gid !in log.redeemed && r.gid !in log.renewed)
    && (Rotates(t, r) ==> RotationReady(cfg, t, log, r))
  }

  ghost predicate RotationReady(cfg: Config, t: OAuthTables, log: History, r: Request)
    requires Rotates(t, r)
  {
    var gid := r.grant.id;
    && gid in log.mints && gid in log.chains && gid in log.redeemed && gid in log.renewed && log.renewed[gid] <= r.now
    && log.chains[gid] != [] && log.chains[gid][|log.chains[gid]| - 1] == Sha256(r.secret)
    && t.grants[gid] == r.grant
  }

  lemma DrawIsNew(cfg: Config, s: State, draw: string)
    requires LogOk(cfg, s.log) && Drawable(s, draw)
    ensures Sha256(draw) !in s.log.codes && Sha256(draw) !in s.log.versions
  {
    assert Sha256(draw) in s.log.codes ==> CodeLogged(cfg, s.log, Sha256(draw), s.log.codes[Sha256(draw)]);
  }

  lemma RotationIsReady(cfg: Config, t: OAuthTables, log: History, clock: int, r: Request)
    requires Rotates(t, r) && RequestOk(cfg, log, clock, r) && GrantRowOk(cfg, log, r.grant.id, t.grants[r.grant.id])
    requires r.grant.id in log.redeemed
    ensures RotationReady(cfg, t, log, r)
  {
  }

  lemma IsReady(cfg: Config, s: State, id: nat, draw: string)
    requires Inv(cfg, s) && id in s.requests && Drawable(s, draw)
    ensures StepReady(cfg, s.tables, s.log, Env(s.users, s.clock, draw), s.requests[id])
    ensures RequestOk(cfg, s.log, s.clock, s.requests[id])
  {
    var r := s.requests[id];
    DrawIsNew(cfg, s, draw);
    assert RequestOk(cfg, s.log, s.clock, r);
    if Wins(s.tables, r) {
      assert CodeRowOk(s.log, r.code.codeHash, s.tables.codes[r.code.codeHash]);
    }
    if Rotates(s.tables, r) {
      RotationIsReady(cfg, s.tables, s.log, s.clock, r);
    }
  }

  lemma StepCodesLogged(cfg: Config, t: OAuthTables, log: History, env: Env, r: Request)
    requires CodesLogged(cfg, log) && StepReady(cfg, t, log, env, r) && RequestOk(cfg, log, env.clock, r)
    ensures CodesLogged(cfg, LogStep(cfg, t, log, env, r))
  {
    var log' := LogStep(cfg, t, log, env, r);
    if r.CodeReady? {
      forall h | h in log'.codes
        ensures CodeLogged(cfg, log', h, log'.codes[h])
      {
        if h == Sha256(env.draw) {
          NewCodeIsLogged(cfg, t, log, env, r);
        } else {
          CodeStays(cfg, log, log', h, log.codes[h]);
        }
      }
    } else {
      CodesFrame(cfg, log, log');
    }
  }

  lemma NewCodeIsLogged(cfg: Config, t: OAuthTables, log: History, env: Env, r: Request)
    requires r.CodeReady? && RequestOk(cfg, log, env.clock, r)
    ensures var log', h := LogStep(cfg, t, log, env, r), Sha256(env.draw); CodeLogged(cfg, log', h, log'.codes[h])
  {
  }

  lemma StepWinnersLogged(cfg: Config, t: OAuthTables, log: History, env: Env, r: Request)
    requires WinnersLogged(log) && StepReady(cfg, t, log, env, r) && RequestOk(cfg, log, env.clock, r)
    ensures WinnersLogged(LogStep(cfg, t, log, env, r))
  {
    if !r.RedeemUser? {
      WinnersFrame(log, LogStep(cfg, t, log, env, r));
    }
  }

  lemma StepMintsLogged(cfg: Config, t: OAuthTables, log: History, env: Env, r: Request)
    requires MintsLogged(cfg, log) && StepReady(cfg, t, log, env, r) && RequestOk(cfg, log, env.clock, r)
    ensures MintsLogged(cfg, LogStep(cfg, t, log, env, r))
  {
    if r.RedeemWon? {
      MintAdded(cfg, t, log, env, r);
    } else {
      MintsUntouched(cfg, t, log, env, r);
    }
  }

  lemma MintsUntouched(cfg: Config, t: OAuthTables, log: History, env: Env, r: Request)
    requires MintsLogged(cfg, log) && !r.RedeemWon? && Sha256(env.draw) !in log.codes
    requires Wins(t, r) ==> r.code.codeHash !in log.winners
    requires Rotates(t, r) ==> r.grant.id in log.mints
    ensures MintsLogged(cfg, LogStep(cfg, t, log, env, r))
  {
    GrantsUntouched(cfg, t, log, env, r);
    MintsFrame(cfg, log, LogStep(cfg, t, log, env, r));
  }

  lemma GrantsUntouched(cfg: Config, t: OAuthTables, log: History, env: Env, r: Request)
    requires SameGrants(log) && !r.RedeemWon?
    requires Rotates(t, r) ==> r.grant.id in log.mints
    ensures SameGrants(LogStep(cfg, t, log, env, r))
  {
  }

  lemma MintAdded(cfg: Config, t: OAuthTables, log: History, env: Env, r: Request)
    requires r.RedeemWon? && MintsLogged(cfg, log) && RequestOk(cfg, log, env.clock, r)
    ensures MintsLogged(cfg, LogStep(cfg, t, log, env, r))
  {
    MintIsLogged(cfg, t, log, env, r);
    MintCovers(cfg, t, log, env, r);
    MintsGrow(cfg, log, LogStep(cfg, t, log, env, r), r.gid);
  }

  lemma MintCovers(cfg: Config, t: OAuthTables, log: History, env: Env, r: Request)
    requires r.RedeemWon? && SameGrants(log)
    ensures var log' := LogStep(cfg, t, log, env, r);
            && SameGrants(log') && r.gid in log'.mints && log.drawn <= log'.drawn && log'.codes == log.codes
                && log'.winners == log.winners
            && forall gid :: gid in log'.mints && gid != r.gid ==> gid in log.mints && log'.mints[gid] == log.mints[gid]
  {
  }

  lemma MintIsLogged(cfg: Config, t: OAuthTables, log: History, env: Env, r: Request)
    requires r.RedeemWon? && RequestOk(cfg, log, env.clock, r)
    ensures var log' := LogStep(cfg, t, log, env, r); MintLogged(cfg, log', r.gid, log'.mints[r.gid])
  {
  }

  lemma MintsGrow(cfg: Config, log: History, log': History, added: string)
    requires MintsLogged(cfg, log) && log.drawn <= log'.drawn && log'.codes == log.codes && log'.winners == log.winners
    requires forall gid :: gid in log'.mints && gid != added ==> gid in log.mints && log'.mints[gid] == log.mints[gid]
    ensures forall gid :: gid in log'.mints && gid != added ==> MintLogged(cfg, log', gid, log'.mints[gid])
  {
    assert forall gid :: gid in log.mints ==> MintLogged(cfg, log, gid, log.mints[gid]);
  }

  lemma StepChainsLogged(cfg: Config, t: OAuthTables, log: History, env: Env, r: Request)
    requires ChainsLogged(log) && StepReady(cfg, t, log, env, r)
    ensures ChainsLogged(LogStep(cfg, t, log, env, r))
  {
    if r.RedeemWon? {
      ChainStarted(cfg, t, log, env, r);
    } else if Rotates(t, r) {
      ChainExtended(cfg, t, log, env, r);
    } else {
      ChainsFrame(log, LogStep(cfg, t, log, env, r));
    }
  }

  lemma ChainsGrow(log: History, log': History, changed: string)
    requires ChainsLogged(log) && log.drawn <= log'.drawn
    requires forall gid :: gid in log'.chains && gid != changed ==>
        gid in log.chains && log'.chains[gid] == log.chains[gid]
    requires forall gid :: gid in log'.redeemed && gid != changed ==>
        gid in log.redeemed && log'.redeemed[gid] == log.redeemed[gid]
    requires forall d :: d in log.versions ==> d in log'.versions && log'.versions[d] == log.versions[d]
    ensures forall gid :: gid in log'.chains && gid in log'.redeemed && gid != changed ==> ChainLogged(log', gid)
  {
    assert forall gid :: gid in log.chains && gid in log.redeemed ==> ChainLogged(log, gid);
  }

  lemma ChainStarted(cfg: Config, t: OAuthTables, log: History, env: Env, r: Request)
    requires r.RedeemWon? && ChainsLogged(log) && Sha256(env.draw) !in log.versions
    ensures ChainsLogged(LogStep(cfg, t, log, env, r))
  {
    var log' := LogStep(cfg, t, log, env, r);
    ChainsGrow(log, log', r.gid);
    assert ChainLogged(log', r.gid);
  }

  lemma ChainExtended(cfg: Config, t: OAuthTables, log: History, env: Env, r: Request)
    requires Rotates(t, r) && RotationReady(cfg, t, log, r) && ChainsLogged(log) && Sha256(env.draw) !in log.versions
    ensures ChainsLogged(LogStep(cfg, t, log, env, r))
  {
    RotationLogged(cfg, t, log, env, r);
    ChainReplaced(log, LogStep(cfg, t, log, env, r), r.grant.id, env.draw, RotatedRow(cfg, t, env, r));
  }

  lemma ChainReplaced(log: History, log': History, gid: string, draw: string, row: Grant)
    requires ChainsLogged(log) && gid in log.chains && gid in log.redeemed && log.chains[gid] != []
    requires Sha256(draw) !in log.versions && row.id == gid && log'.drawn == log.drawn + {draw}
    requires log'.chains == log.chains[gid := log.chains[gid] + [Sha256(draw)]]
    requires log'.redeemed == log.redeemed[gid := log.redeemed[gid] + [log.chains[gid][|log.chains[gid]| - 1]]]
    requires log'.versions == log.versions[Sha256(draw) := row]
    ensures ChainsLogged(log')
  {
    ChainsGrow(log, log', gid);
    RotatedChain(log, log', gid, Sha256(draw));
  }

  /** What a rotation adds to the history. */
  lemma RotationLogged(cfg: Config, t: OAuthTables, log: History, env: Env, r: Request)
    requires Rotates(t, r) && RotationReady(cfg, t, log, r)
    ensures var log', gid, hash := LogStep(cfg, t, log, env, r), r.grant.id, Sha256(env.draw);
            && log'.drawn == log.drawn + {env.draw}
            && log'.chains == log.chains[gid := log.chains[gid] + [hash]]
            && log'.redeemed == log.redeemed[gid := log.redeemed[gid] + [log.chains[gid][|log.chains[gid]| - 1]]]
            && log'.versions == log.versions[hash := RotatedRow(cfg, t, env, r)] && RotatedRow(cfg, t, env, r).id == gid
  {
  }

  /** Appending a fresh hash in place of the redeemed one. */
  lemma RotatedChain(log: History, log': History, gid: string, hash: Digest)
    requires gid in log.chains && gid in log.redeemed && ChainLogged(log, gid) && log.chains[gid] != []
    requires gid in log'.chains && gid in log'.redeemed && log.drawn <= log'.drawn
    requires hash !in log.versions && DrawnHash(log', hash) && hash in log'.versions && log'.versions[hash].id == gid
    requires forall d :: d in log.versions ==> d in log'.versions && log'.versions[d] == log.versions[d]
    requires log'.chains[gid] == log.chains[gid] + [hash]
    requires log'.redeemed[gid] == log.redeemed[gid] + [log.chains[gid][|log.chains[gid]| - 1]]
    ensures ChainLogged(log', gid)
  {
    var chain := log.chains[gid];
    assert chain == chain[..|chain| - 1] + [chain[|chain| - 1]];
    assert log'.chains[gid][..|chain|] == chain;
  }

  lemma StepTokensLogged(cfg: Config, t: OAuthTables, log: History, env: Env, r: Request)
    requires TokensLogged(cfg, log) && StepReady(cfg, t, log, env, r) && RequestOk(cfg, log, env.clock, r)
    ensures TokensLogged(cfg, LogStep(cfg, t, log, env, r))
  {
    var log' := LogStep(cfg, t, log, env, r);
    if r.Signing? {
      SignedIsLogged(cfg, log, env, r);
      TokenAdded(cfg, log, log', Signed(SignToken(cfg, r.user, r.grant, r.scopes, env.clock), r.now, env.clock));
    } else {
      StepGrows(cfg, t, log, env, r);
      TokensFrame(cfg, log, log');
    }
  }

  lemma SignedIsLogged(cfg: Config, log: History, env: Env, r: Request)
    requires r.Signing? && RequestOk(cfg, log, env.clock, r)
    ensures TokenLogged(cfg, log, Signed(SignToken(cfg, r.user, r.grant, r.scopes, env.clock), r.now, env.clock))
  {
  }

  lemma TokenAdded(cfg: Config, log: History, log': History, st: Signed)
    requires TokensLogged(cfg, log) && TokenLogged(cfg, log, st)
    requires log'.mints == log.mints && log'.renewed == log.renewed && log'.tokens == log.tokens + {st}
    ensures TokensLogged(cfg, log')
  {
    assert forall x :: x in log.tokens ==> TokenLogged(cfg, log, x);
  }

  lemma StepGrows(cfg: Config, t: OAuthTables, log: History, env: Env, r: Request)
    requires StepReady(cfg, t, log, env, r)
    ensures Grows(log, LogStep(cfg, t, log, env, r))
  {
    if r.RedeemWon? || Rotates(t, r) {
      GrantHistoryGrows(cfg, t, log, env, r);
    }
  }

  lemma GrantHistoryGrows(cfg: Config, t: OAuthTables, log: History, env: Env, r: Request)
    requires StepReady(cfg, t, log, env, r) && (r.RedeemWon? || Rotates(t, r))
    ensures var log' := LogStep(cfg, t, log, env, r);
            && (forall g :: g in log.mints ==> g in log'.mints && log'.mints[g] == log.mints[g])
            && (forall d :: d in log.versions ==> d in log'.versions && log'.versions[d] == log.versions[d])
            && (forall g :: g in log.renewed ==> g in log'.renewed && log.renewed[g] <= log'.renewed[g])
            && (forall g :: g in log.chains ==> g in log'.chains && log.chains[g] <= log'.chains[g])
  {
  }

  lemma StepLogOk(cfg: Config, t: OAuthTables, log: History, env: Env, r: Request)
    requires LogOk(cfg, log) && StepReady(cfg, t, log, env, r) && RequestOk(cfg, log, env.clock, r)
    ensures LogOk(cfg, LogStep(cfg, t, log, env, r))
  {
    StepCodesLogged(cfg, t, log, env, r);
    StepWinnersLogged(cfg, t, log, env, r);
    StepMintsLogged(cfg, t, log, env, r);
    StepChainsLogged(cfg, t, log, env, r);
    StepTokensLogged(cfg, t, log, env, r);
  }

  // ---------- what a step does to the rows ----------

  /** Deleting rows, or history about other codes, leaves the remaining rows as they were. */
  lemma CodeRowsFrame(t: OAuthTables, t': OAuthTables, log: History, log': History)
    requires CodeRowsOk(t, log)
    requires forall h :: h in t'.codes ==> h in t.codes && t'.codes[h] == t.codes[h]
    requires log.winners == log'.winners && forall h :: h in log.codes ==>
        h in log'.codes && log'.codes[h] == log.codes[h]
    ensures CodeRowsOk(t', log')
  {
    assert forall h :: h in t.codes ==> CodeRowOk(log, h, t.codes[h]);
  }

  lemma CodeRowAdded(t: OAuthTables, t': OAuthTables, log: History, log': History, c: Code)
    requires CodeRowsOk(t, log) && c.usedAt.None? && c.grantID == "" && c.codeHash !in log.codes
        && c.codeHash !in log.winners
    requires t'.codes == t.codes[c.codeHash := c] && log'.codes == log.codes[c.codeHash := c]
        && log'.winners == log.winners
    ensures CodeRowsOk(t', log')
  {
    assert forall h :: h in t.codes ==> CodeRowOk(log, h, t.codes[h]);
  }

  lemma CodeRowIssued(cfg: Config, t: OAuthTables, log: History, env: Env, r: Request)
    requires r.CodeReady? && CodeRowsOk(t, log) && WinnersLogged(log) && Sha256(env.draw) !in log.codes
    ensures CodeRowsOk(NextTables(cfg, t, env, r), LogStep(cfg, t, log, env, r))
  {
    CodeRowAdded(t, NextTables(cfg, t, env, r), log, LogStep(cfg, t, log, env, r),
                 NewCode(cfg, r.userID, r.authz, env.draw, env.clock));
  }

  lemma CodeRowWon(t: OAuthTables, t': OAuthTables, log: History, log': History, h: Digest, gid: string, at: int)
    requires CodeRowsOk(t, log) && h in t.codes
    requires t'.codes == t.codes[h := t.codes[h].(usedAt := Some(at), grantID := gid)]
    requires log'.winners == log.winners[h := gid] && log'.codes == log.codes
    ensures CodeRowsOk(t', log')
  {
    assert forall k :: k in t.codes ==> CodeRowOk(log, k, t.codes[k]);
  }

  lemma StepCodeRows(cfg: Config, t: OAuthTables, log: History, env: Env, r: Request)
    requires CodeRowsOk(t, log) && WinnersLogged(log) && Sha256(env.draw) !in log.codes
    ensures CodeRowsOk(NextTables(cfg, t, env, r), LogStep(cfg, t, log, env, r))
  {
    var t', log' := NextTables(cfg, t, env, r), LogStep(cfg, t, log, env, r);
    if r.CodeReady? {
      CodeRowIssued(cfg, t, log, env, r);
    } else if Wins(t, r) {
      CodeRowWon(t, t', log, log', r.code.codeHash, env.draw, r.now);
    } else {
      CodesStay(cfg, t, log, env, r);
      CodeRowsFrame(t, t', log, log');
    }
  }

  /** Only creating and redeeming a code changes codes. */
  lemma CodesStay(cfg: Config, t: OAuthTables, log: History, env: Env, r: Request)
    requires !r.CodeReady? && !Wins(t, r)
    ensures NextTables(cfg, t, env, r).codes == t.codes
    ensures LogStep(cfg, t, log, env, r).codes == log.codes && LogStep(cfg, t, log, env, r).winners == log.winners
  {
  }

  lemma ConsentRowsFrame(t: OAuthTables, t': OAuthTables, log: History, log': History)
    requires ConsentRowsOk(t, log) && log.approved <= log'.approved
    requires forall k :: k in t'.consents ==> k in t.consents && t'.consents[k] == t.consents[k]
    ensures ConsentRowsOk(t', log')
  {
    assert forall k :: k in t.consents ==> ConsentRowOk(log, k, t.consents[k]);
  }

  lemma ConsentRowSaved(t: OAuthTables, log: History, c: Consent)
    requires ConsentRowsOk(t, log) && BAR !in c.userID && ApprovedBy(log, c.userID, c.clientID, ScopeSet(c.scopes))
    ensures ConsentRowsOk(SaveConsent(t, c), log)
  {
    assert forall k :: k in t.consents ==> ConsentRowOk(log, k, t.consents[k]);
  }

  lemma StepConsentRows(cfg: Config, t: OAuthTables, log: History, env: Env, r: Request)
    requires ConsentRowsOk(t, log) && (r.ConsentRead? ==> RequestOk(cfg, log, env.clock, r))
    ensures ConsentRowsOk(NextTables(cfg, t, env, r), LogStep(cfg, t, log, env, r))
  {
    var t', log' := NextTables(cfg, t, env, r), LogStep(cfg, t, log, env, r);
    if r.ConsentRead? {
      ConsentRowSaved(t, log, Consent(r.userID, r.authz.client.id, JoinScopes(r.scopes), r.createdAt, r.now));
      ConsentRowsFrame(t', t', log, log');
    } else {
      ConsentsStay(cfg, t, env, r);
      ConsentRowsFrame(t, t', log, log');
    }
  }

  lemma ConsentsStay(cfg: Config, t: OAuthTables, env: Env, r: Request)
    requires !r.ConsentRead?
    ensures NextTables(cfg, t, env, r).consents == t.consents
  {
  }

  lemma GrantRowsFrame(cfg: Config, t: OAuthTables, t': OAuthTables, log: History, log': History)
    requires GrantRowsOk(cfg, t, log)
    requires forall gid :: gid in t'.grants ==> gid in t.grants && t'.grants[gid] == t.grants[gid]
    requires log'.mints == log.mints && log'.chains == log.chains && log'.renewed == log.renewed
        && log'.versions == log.versions
    ensures GrantRowsOk(cfg, t', log')
  {
    assert forall gid :: gid in t.grants ==> GrantRowOk(cfg, log, gid, t.grants[gid]);
  }

  /** A row whose own history is kept is still right. */
  lemma GrantRowStays(cfg: Config, log: History, log': History, gid: string, g: Grant)
    requires GrantRowOk(cfg, log, gid, g)
    requires gid in log'.mints && log'.mints[gid] == log.mints[gid]
    requires gid in log'.chains && log'.chains[gid] == log.chains[gid]
    requires gid in log'.renewed && log'.renewed[gid] == log.renewed[gid]
    requires forall d :: d in log.versions ==> d in log'.versions && log'.versions[d] == log.versions[d]
    ensures GrantRowOk(cfg, log', gid, g)
  {
  }

  /** The history of the other grants is kept. */
  ghost predicate OthersKept(log: History, log': History, changed: string) {
    && (forall gid :: gid in log.mints && gid != changed ==> gid in log'.mints && log'.mints[gid] == log.mints[gid])
    && (forall gid :: gid in log.chains && gid != changed ==> gid in log'.chains && log'.chains[gid] == log.chains[gid])
    && (forall gid :: gid in log.renewed && gid != changed ==>
        gid in log'.renewed && log'.renewed[gid] == log.renewed[gid])
    && (forall d :: d in log.versions ==> d in log'.versions && log'.versions[d] == log.versions[d])
  }

  /** Changing one grant and its history leaves the other rows as they were. */
  lemma OtherGrantRows(cfg: Config, t: OAuthTables, t': OAuthTables, log: History, log': History, changed: string)
    requires GrantRowsOk(cfg, t, log) && OthersKept(log, log', changed)
    requires forall gid :: gid in t'.grants && gid != changed ==> gid in t.grants && t'.grants[gid] == t.grants[gid]
    requires changed in t'.grants ==> GrantRowOk(cfg, log', changed, t'.grants[changed])
    ensures GrantRowsOk(cfg, t', log')
  {
    forall gid | gid in t'.grants
      ensures GrantRowOk(cfg, log', gid, t'.grants[gid])
    {
      if gid != changed {
        GrantRowStays(cfg, log, log', gid, t.grants[gid]);
      }
    }
  }

  lemma CreateKeepsOthers(cfg: Config, t: OAuthTables, log: History, env: Env, r: Request)
    requires r.RedeemWon? && Sha256(env.draw) !in log.versions
    ensures OthersKept(log, LogStep(cfg, t, log, env, r), r.gid)
  {
  }

  lemma RotateKeepsOthers(cfg: Config, t: OAuthTables, log: History, env: Env, r: Request)
    requires Rotates(t, r) && Sha256(env.draw) !in log.versions
    ensures OthersKept(log, LogStep(cfg, t, log, env, r), r.grant.id)
  {
  }

  lemma GrantCreated(cfg: Config, t: OAuthTables, log: History, env: Env, r: Request)
    requires r.RedeemWon? && Sha256(env.draw) !in log.versions
    ensures var t', log' := NextTables(cfg, t, env, r), LogStep(cfg, t, log, env, r);
            GrantRowOk(cfg, log', r.gid, t'.grants[r.gid])
  {
  }

  lemma GrantRotated(cfg: Config, t: OAuthTables, log: History, env: Env, r: Request)
    requires Rotates(t, r) && GrantRowOk(cfg, log, r.grant.id, t.grants[r.grant.id])
    ensures var t', log' := NextTables(cfg, t, env, r), LogStep(cfg, t, log, env, r);
            GrantRowOk(cfg, log', r.grant.id, t'.grants[r.grant.id])
  {
  }

  lemma GrantRowsAfterCreate(cfg: Config, t: OAuthTables, log: History, env: Env, r: Request)
    requires r.RedeemWon? && GrantRowsOk(cfg, t, log) && Sha256(env.draw) !in log.versions
    ensures GrantRowsOk(cfg, NextTables(cfg, t, env, r), LogStep(cfg, t, log, env, r))
  {
    GrantCreated(cfg, t, log, env, r);
    CreateKeepsOthers(cfg, t, log, env, r);
    OtherGrantRows(cfg, t, NextTables(cfg, t, env, r), log, LogStep(cfg, t, log, env, r), r.gid);
  }

  lemma GrantRowsAfterRotate(cfg: Config, t: OAuthTables, log: History, env: Env, r: Request)
    requires Rotates(t, r) && GrantRowsOk(cfg, t, log) && Sha256(env.draw) !in log.versions
    ensures GrantRowsOk(cfg, NextTables(cfg, t, env, r), LogStep(cfg, t, log, env, r))
  {
    GrantRotated(cfg, t, log, env, r);
    RotateKeepsOthers(cfg, t, log, env, r);
    forall gid | gid != r.grant.id
      ensures gid in NextTables(cfg, t, env, r).grants <==> gid in t.grants
      ensures gid in t.grants ==> NextTables(cfg, t, env, r).grants[gid] == t.grants[gid]
    {
      RotateTouchesOne(cfg, t, env, r, gid);
    }
    OtherGrantRows(cfg, t, NextTables(cfg, t, env, r), log, LogStep(cfg, t, log, env, r), r.grant.id);
  }

  lemma RotateTouchesOne(cfg: Config, t: OAuthTables, env: Env, r: Request, gid: string)
    requires Rotates(t, r) && gid != r.grant.id
    ensures var t' := NextTables(cfg, t, env, r);
            (gid in t'.grants <==> gid in t.grants) && (gid in t.grants ==> t'.grants[gid] == t.grants[gid])
  {
  }

  lemma StepGrantRows(cfg: Config, t: OAuthTables, log: History, env: Env, r: Request)
    requires GrantRowsOk(cfg, t, log) && Sha256(env.draw) !in log.versions
    ensures GrantRowsOk(cfg, NextTables(cfg, t, env, r), LogStep(cfg, t, log, env, r))
  {
    if r.RedeemWon? {
      GrantRowsAfterCreate(cfg, t, log, env, r);
    } else if Rotates(t, r) {
      GrantRowsAfterRotate(cfg, t, log, env, r);
    } else {
      GrantsStay(cfg, t, log, env, r);
      GrantRowsFrame(cfg, t, NextTables(cfg, t, env, r), log, LogStep(cfg, t, log, env, r));
    }
  }

  /** Other steps leave grants and their history alone, or delete a grant. */
  lemma GrantsStay(cfg: Config, t: OAuthTables, log: History, env: Env, r: Request)
    requires !r.RedeemWon? && !Rotates(t, r)
    ensures var t', log' := NextTables(cfg, t, env, r), LogStep(cfg, t, log, env, r);
            && t'.grants == (if r.Deleting? then t.grants - {r.gid} else t.grants)
            && log'.mints == log.mints && log'.chains == log.chains && log'.renewed == log.renewed
                && log'.versions == log.versions
  {
  }

  // ---------- what a request holds after a step ----------

  lemma ConsentLookup(t: OAuthTables, log: History, userID: string, clientID: string)
    requires ConsentRowsOk(t, log) && BAR !in userID && GetConsent(t, userID, clientID).Some?
    ensures ApprovedBy(log, userID, clientID, ScopeSet(GetConsent(t, userID, clientID).value.scopes))
  {
    var k := ConsentKey(userID, clientID);
    assert ConsentRowOk(log, k, t.consents[k]);
    ConcatInjective(userID, clientID, t.consents[k].userID, t.consents[k].clientID, BAR);
  }

  /** A covered request asks only for approved scopes, also after printing and parsing. */
  lemma CoveredIsApproved(log: History, userID: string, clientID: string, consent: string, scopes: seq<string>)
    requires ApprovedBy(log, userID, clientID, ScopeSet(consent)) && Elements(scopes) <= ScopeSet(consent)
    ensures ApprovedBy(log, userID, clientID, ScopeSet(JoinScopes(scopes)))
  {
    ParseIsCanonical(consent);
    PrintedScopes(scopes);
    forall sc | sc in ScopeSet(JoinScopes(scopes))
      ensures (userID, clientID, sc) in log.approved
    {
      var x :| x in scopes && sc in Fields(x);
      assert x in Elements(scopes);
      FieldsOfToken(x);
    }
  }

  lemma UnionIsApproved(log: History, userID: string, clientID: string, consent: string, scopes: seq<string>)
    requires ApprovedBy(log, userID, clientID, ScopeSet(consent))
        && ApprovedBy(log, userID, clientID, ScopeSet(JoinScopes(scopes)))
    ensures ApprovedBy(log, userID, clientID, ScopeSet(JoinScopes(Union(ScopesOf(consent), scopes))))
  {
    var had := ScopesOf(consent);
    ParseIsCanonical(consent);
    ParseIsCanonical(JoinScopes(had) + SPACE + JoinScopes(scopes));
    UnionIsSetUnion(had, scopes);
  }

  lemma NextAuthorizeOk(cfg: Config, t: OAuthTables, log: History, env: Env, r: Request)
    requires IsAuthorize(r) && ConsentRowsOk(t, log) && RequestOk(cfg, log, env.clock, r)
    ensures RequestOk(cfg, log, env.clock, NextRequest(cfg, t, env, r))
  {
    match r
    case Visiting(uid, q) =>
      var c := GetConsent(t, uid, q.client.id);
      if Covers(c, q.scopes) {
        ConsentLookup(t, log, uid, q.client.id);
        CoveredIsApproved(log, uid, q.client.id, c.value.scopes, q.scopes);
      }
    case Approved(uid, q) =>
      var c := GetConsent(t, uid, q.client.id);
      if c.Some? {
        ConsentLookup(t, log, uid, q.client.id);
        UnionIsApproved(log, uid, q.client.id, c.value.scopes, q.scopes);
      }
    case ConsentRead(uid, q, _, _, _) =>
    case CodeReady(uid, q) =>
  }

  lemma NextExchangeOk(cfg: Config, t: OAuthTables, log: History, env: Env, r: Request)
    requires IsExchange(r) && !r.RedeemWon? && !r.RedeemUser? && RequestOk(cfg, log, env.clock, r)
    requires CodeRowsOk(t, log) && CodesLogged(cfg, log) && UsersKeyed(env.users)
    ensures RequestOk(cfg, log, env.clock, NextRequest(cfg, t, env, r))
  {
    if r.Redeem? {
      RedeemHolds(cfg, t, log, env, r.codeRequest);
    } else if r.RedeemChecked? {
      CodeCheckedHolds(cfg, t, log, env, r);
    } else {
      LostOrCreatedHolds(cfg, t, log, env, r);
    }
  }

  lemma LostOrCreatedHolds(cfg: Config, t: OAuthTables, log: History, env: Env, r: Request)
    requires (r.RedeemLost? || r.RedeemCreated?) && RequestOk(cfg, log, env.clock, r)
    ensures RequestOk(cfg, log, env.clock, NextRequest(cfg, t, env, r))
  {
  }

  lemma CodeCheckedHolds(cfg: Config, t: OAuthTables, log: History, env: Env, r: Request)
    requires r.RedeemChecked? && RequestOk(cfg, log, env.clock, r) && UsersKeyed(env.users)
    ensures RequestOk(cfg, log, env.clock, NextRequest(cfg, t, env, r))
  {
  }

  lemma StoredCodeHolds(cfg: Config, t: OAuthTables, log: History, rq: CodeRequest, now: int)
    requires CodeRowsOk(t, log) && CodesLogged(cfg, log)
    requires Sha256(rq.code) in t.codes && Proves(cfg, rq, t.codes[Sha256(rq.code)])
        && now <= t.codes[Sha256(rq.code)].expiresAt
    ensures HoldsCode(cfg, log, rq, t.codes[Sha256(rq.code)], now)
  {
    var h := Sha256(rq.code);
    assert CodeRowOk(log, h, t.codes[h]);
    assert CodeLogged(cfg, log, h, log.codes[h]);
  }

  lemma CreatedHolds(cfg: Config, t: OAuthTables, log: History, env: Env, r: Request)
    requires r.RedeemWon? && RequestOk(cfg, log, env.clock, r)
    ensures RequestOk(cfg, LogStep(cfg, t, log, env, r), env.clock, NextRequest(cfg, t, env, r))
  {
    ParseIsCanonical(r.code.scopes);
  }

  lemma WonHolds(cfg: Config, t: OAuthTables, log: History, env: Env, r: Request)
    requires r.RedeemUser? && RequestOk(cfg, log, env.clock, r) && env.draw != ""
    ensures RequestOk(cfg, LogStep(cfg, t, log, env, r), env.clock, NextRequest(cfg, t, env, r))
  {
  }

  lemma RedeemHolds(cfg: Config, t: OAuthTables, log: History, env: Env, rq: CodeRequest)
    requires CodeRowsOk(t, log) && CodesLogged(cfg, log)
    ensures RequestOk(cfg, log, env.clock, NextRequest(cfg, t, env, Redeem(rq)))
  {
    RedeemNext(cfg, t, env, rq);
    if NextRequest(cfg, t, env, Redeem(rq)).RedeemChecked? {
      StoredCodeHolds(cfg, t, log, rq, env.clock);
    }
  }

  lemma RedeemNext(cfg: Config, t: OAuthTables, env: Env, rq: CodeRequest)
    ensures var r := NextRequest(cfg, t, env, Redeem(rq));
            && (r.Done? || r.Deleting? || r.RedeemChecked?)
            && (r.RedeemChecked? ==>
                Sha256(rq.code) in t.codes && r == RedeemChecked(rq, t.codes[Sha256(rq.code)], env.clock)
                                     && Proves(cfg, rq, r.code) && env.clock <= r.code.expiresAt)
  {
  }

  lemma NextRefreshOk(cfg: Config, t: OAuthTables, log: History, env: Env, r: Request)
    requires IsRefresh(r) && !r.RefreshUser? && RequestOk(cfg, log, env.clock, r)
    requires GrantRowsOk(cfg, t, log) && UsersKeyed(env.users)
    requires forall gid :: gid in log.renewed ==> log.renewed[gid] <= env.clock
    ensures RequestOk(cfg, log, env.clock, NextRequest(cfg, t, env, r))
  {
    if r.Refresh? {
      RefreshHolds(cfg, t, log, env, r.refreshRequest);
    } else {
      CheckedHolds(cfg, t, log, env, r);
    }
  }

  /** A step that records nothing about its own request. */
  lemma UnloggedOk(cfg: Config, t: OAuthTables, log: History, env: Env, r: Request)
    requires !r.RedeemWon? && !r.RedeemUser? && !r.RefreshUser? && RequestOk(cfg, log, env.clock, r)
    requires CodeRowsOk(t, log) && GrantRowsOk(cfg, t, log) && ConsentRowsOk(t, log) && CodesLogged(cfg, log)
        && UsersKeyed(env.users)
    requires forall gid :: gid in log.renewed ==> log.renewed[gid] <= env.clock
    ensures RequestOk(cfg, log, env.clock, NextRequest(cfg, t, env, r))
  {
    if IsAuthorize(r) {
      NextAuthorizeOk(cfg, t, log, env, r);
    } else if IsExchange(r) {
      NextExchangeOk(cfg, t, log, env, r);
    } else if IsRefresh(r) {
      NextRefreshOk(cfg, t, log, env, r);
    } else {
      NextOtherOk(cfg, t, log, env, r);
    }
  }

  lemma NextOtherOk(cfg: Config, t: OAuthTables, log: History, env: Env, r: Request)
    requires !IsAuthorize(r) && !IsExchange(r) && !IsRefresh(r)
    ensures RequestOk(cfg, log, env.clock, NextRequest(cfg, t, env, r))
  {
  }

  lemma StepRequestOk(cfg: Config, s: State, id: nat, draw: string)
    requires Inv(cfg, s) && id in s.requests && Drawable(s, draw)
    ensures var s' := AdvanceRequest(cfg, s, id, draw); RequestOk(cfg, s'.log, s'.clock, s'.requests[id])
  {
    var r, env := s.requests[id], Env(s.users, s.clock, draw);
    IsReady(cfg, s, id, draw);
    if r.RedeemWon? {
      CreatedHolds(cfg, s.tables, s.log, env, r);
    } else if r.RedeemUser? {
      WonHolds(cfg, s.tables, s.log, env, r);
    } else if r.RefreshUser? {
      RotatedHolds(cfg, s.tables, s.log, env, r);
    } else {
      UnloggedOk(cfg, s.tables, s.log, env, r);
      StepGrows(cfg, s.tables, s.log, env, r);
      RequestStays(cfg, s.log, LogStep(cfg, s.tables, s.log, env, r), s.clock, s.clock,
                   NextRequest(cfg, s.tables, env, r));
    }
  }

  lemma RotatedHolds(cfg: Config, t: OAuthTables, log: History, env: Env, r: Request)
    requires r.RefreshUser? && RequestOk(cfg, log, env.clock, r)
    ensures RequestOk(cfg, LogStep(cfg, t, log, env, r), env.clock, NextRequest(cfg, t, env, r))
  {
  }

  lemma CheckedHolds(cfg: Config, t: OAuthTables, log: History, env: Env, r: Request)
    requires r.RefreshChecked? && RequestOk(cfg, log, env.clock, r) && UsersKeyed(env.users)
    ensures RequestOk(cfg, log, env.clock, NextRequest(cfg, t, env, r))
  {
    NarrowedScopes(r.grant.scopes, r.refreshRequest.scope);
  }

  lemma RefreshHolds(cfg: Config, t: OAuthTables, log: History, env: Env, rq: RefreshRequest)
    requires GrantRowsOk(cfg, t, log)
    requires forall gid :: gid in log.renewed ==> log.renewed[gid] <= env.clock
    ensures var r := NextRequest(cfg, t, env, Refresh(rq));
            r.RefreshChecked? ==> HoldsGrant(cfg, log, r.secret, r.grant, r.now) && r.now <= env.clock
  {
    var parts := ParseRefreshToken(rq.refreshToken);
    if parts.Some? && parts.value.0 in t.grants {
      assert GrantRowOk(cfg, log, parts.value.0, t.grants[parts.value.0]);
    }
  }

  // ---------- every event keeps the invariant ----------

  lemma NextWon(cfg: Config, t: OAuthTables, env: Env, r: Request)
    ensures var r' := NextRequest(cfg, t, env, r); r'.RedeemWon? ==> r.RedeemUser? && r'.gid == env.draw
  {
  }

  /** A grant id recorded as won has been drawn. */
  lemma WonIsDrawn(cfg: Config, s: State)
    requires RequestsOk(cfg, s)
    ensures forall jd :: jd in s.requests && s.requests[jd].RedeemWon? ==> s.requests[jd].gid in s.log.drawn
  {
    forall jd | jd in s.requests && s.requests[jd].RedeemWon?
      ensures s.requests[jd].gid in s.log.drawn
    {
      assert RequestOk(cfg, s.log, s.clock, s.requests[jd]);
    }
  }

  /** The grants created so far, after a step. */
  lemma MintsAfterStep(cfg: Config, s: State, id: nat, draw: string)
    requires id in s.requests
    ensures forall gid :: gid in AdvanceRequest(cfg, s, id, draw).log.mints <==>
              gid in s.log.mints || (s.requests[id].RedeemWon? && gid == s.requests[id].gid)
  {
  }

  lemma StepPending(cfg: Config, s: State, id: nat, draw: string)
    requires PendingOk(s) && RequestsOk(cfg, s) && MintsLogged(cfg, s.log) && id in s.requests && Drawable(s, draw)
    ensures PendingOk(AdvanceRequest(cfg, s, id, draw))
  {
    var r' := NextRequest(cfg, s.tables, Env(s.users, s.clock, draw), s.requests[id]);
    NextWon(cfg, s.tables, Env(s.users, s.clock, draw), s.requests[id]);
    WonIsDrawn(cfg, s);
    MintsAfterStep(cfg, s, id, draw);
    DrawIsUnminted(cfg, s.log, draw);
    PendingAfter(s, AdvanceRequest(cfg, s, id, draw), id, draw);
  }

  lemma DrawIsUnminted(cfg: Config, log: History, draw: string)
    requires MintsLogged(cfg, log) && draw !in log.drawn
    ensures draw !in log.mints
  {
    assert forall gid :: gid in log.mints ==> MintLogged(cfg, log, gid, log.mints[gid]);
  }

  /** Replacing one request by one that has at most just won keeps the pending ones apart. */
  lemma PendingAfter(s: State, s': State, id: nat, draw: string)
    requires PendingOk(s) && id in s.requests && id in s'.requests && draw !in s.log.mints && draw !in s.log.drawn
    requires forall jd :: jd in s.requests && s.requests[jd].RedeemWon? ==> s.requests[jd].gid in s.log.drawn
    requires forall jd :: jd in s'.requests && jd != id ==> jd in s.requests && s'.requests[jd] == s.requests[jd]
    requires s'.requests[id].RedeemWon? ==> s.requests[id].RedeemUser? && s'.requests[id].gid == draw
    requires forall gid :: gid in s'.log.mints ==>
        gid in s.log.mints || (s.requests[id].RedeemWon? && gid == s.requests[id].gid)
    ensures PendingOk(s')
  {
  }

  lemma StepRenewals(cfg: Config, s: State, id: nat, draw: string)
    requires RenewalsOk(s) && RequestsOk(cfg, s) && id in s.requests
    ensures RenewalsOk(AdvanceRequest(cfg, s, id, draw))
  {
    assert RequestOk(cfg, s.log, s.clock, s.requests[id]);
  }

  lemma AdvanceKeepsRequests(cfg: Config, s: State, id: nat, draw: string)
    requires Inv(cfg, s) && id in s.requests && Drawable(s, draw)
    ensures RequestsOk(cfg, AdvanceRequest(cfg, s, id, draw))
  {
    var env := Env(s.users, s.clock, draw);
    IsReady(cfg, s, id, draw);
    StepGrows(cfg, s.tables, s.log, env, s.requests[id]);
    StepRequestOk(cfg, s, id, draw);
    OthersStay(cfg, s, AdvanceRequest(cfg, s, id, draw), id);
  }

  lemma AdvanceKeepsRows(cfg: Config, s: State, id: nat, draw: string)
    requires Inv(cfg, s) && id in s.requests && Drawable(s, draw)
    ensures var s' := AdvanceRequest(cfg, s, id, draw);
            CodeRowsOk(s'.tables, s'.log) && GrantRowsOk(cfg, s'.tables, s'.log) && ConsentRowsOk(s'.tables, s'.log)
  {
    var env := Env(s.users, s.clock, draw);
    IsReady(cfg, s, id, draw);
    StepCodeRows(cfg, s.tables, s.log, env, s.requests[id]);
    StepGrantRows(cfg, s.tables, s.log, env, s.requests[id]);
    StepConsentRows(cfg, s.tables, s.log, env, s.requests[id]);
  }

  lemma AdvanceKeepsInv(cfg: Config, s: State, id: nat, draw: string)
    requires Inv(cfg, s) && id in s.requests && Drawable(s, draw)
    ensures Inv(cfg, AdvanceRequest(cfg, s, id, draw))
  {
    IsReady(cfg, s, id, draw);
    StepLogOk(cfg, s.tables, s.log, Env(s.users, s.clock, draw), s.requests[id]);
    AdvanceKeepsRows(cfg, s, id, draw);
    AdvanceKeepsRequests(cfg, s, id, draw);
    StepPending(cfg, s, id, draw);
    StepRenewals(cfg, s, id, draw);
  }

  /** Deleting rows keeps the invariant. */
  lemma DeletionKeepsInv(cfg: Config, s: State, s': State)
    requires Inv(cfg, s) && s' == s.(tables := s'.tables)
    requires forall h :: h in s'.tables.codes ==> h in s.tables.codes && s'.tables.codes[h] == s.tables.codes[h]
    requires forall g :: g in s'.tables.grants ==> g in s.tables.grants && s'.tables.grants[g] == s.tables.grants[g]
    requires forall k :: k in s'.tables.consents ==>
        k in s.tables.consents && s'.tables.consents[k] == s.tables.consents[k]
    ensures Inv(cfg, s')
  {
    CodeRowsFrame(s.tables, s'.tables, s.log, s.log);
    GrantRowsFrame(cfg, s.tables, s'.tables, s.log, s.log);
    assert ConsentRowsOk(s'.tables, s'.log) by {
      assert forall k :: k in s.tables.consents ==> ConsentRowOk(s.log, k, s.tables.consents[k]);
    }
    RequestsFrame(cfg, s, s');
  }

  lemma RequestsFrame(cfg: Config, s: State, s': State)
    requires RequestsOk(cfg, s) && s.requests == s'.requests && s.log == s'.log && s.clock <= s'.clock
    ensures RequestsOk(cfg, s')
  {
    forall id | id in s'.requests
      ensures RequestOk(cfg, s'.log, s'.clock, s'.requests[id])
    {
      RequestStays(cfg, s.log, s'.log, s.clock, s'.clock, s.requests[id]);
    }
  }

  lemma TickKeepsInv(cfg: Config, s: State, now: int)
    requires Inv(cfg, s) && s.clock <= now
    ensures Inv(cfg, s.(clock := now))
  {
    RequestsFrame(cfg, s, s.(clock := now));
  }

  lemma UsersKeepInv(cfg: Config, s: State, users: map<string, User>)
    requires Inv(cfg, s) && UsersKeyed(users)
    ensures Inv(cfg, s.(users := users))
  {
    RequestsFrame(cfg, s, s.(users := users));
  }

  lemma ValidatedIsRequested(cfg: Config, log: History, q: AuthzRequest)
    requires Validated(cfg, q)
    ensures Requested(cfg, log, q)
  {
    var p :| ParseAuthz(cfg, q.client, p) == Ok(q);
    if DefaultsConfigured(cfg) {
      ResolvedScopesConfigured(cfg, p.scope);
    }
  }

  lemma BeginKeepsLog(cfg: Config, log: History, log': History)
    requires LogOk(cfg, log) && log' == log.(approved := log'.approved) && log.approved <= log'.approved
    ensures LogOk(cfg, log')
  {
    CodesFrame(cfg, log, log');
    BeginKeepsGrants(cfg, log, log');
    TokensFrame(cfg, log, log');
  }

  lemma BeginKeepsGrants(cfg: Config, log: History, log': History)
    requires WinnersLogged(log) && MintsLogged(cfg, log) && ChainsLogged(log) && log' == log.(approved := log'.approved)
    ensures WinnersLogged(log') && MintsLogged(cfg, log') && ChainsLogged(log')
  {
    WinnersFrame(log, log');
    MintsFrame(cfg, log, log');
    ChainsFrame(log, log');
  }

  lemma BeginGrows(log: History, r: Request)
    ensures Grows(log, LogBegin(log, r))
    ensures LogBegin(log, r) == log.(approved := LogBegin(log, r).approved) && log.approved <= LogBegin(log, r).approved
  {
  }

  lemma BeginKeepsRows(cfg: Config, t: OAuthTables, log: History, r: Request)
    requires CodeRowsOk(t, log) && GrantRowsOk(cfg, t, log) && ConsentRowsOk(t, log)
    ensures CodeRowsOk(t, LogBegin(log, r)) && GrantRowsOk(cfg, t, LogBegin(log, r))
        && ConsentRowsOk(t, LogBegin(log, r))
  {
    var log' := LogBegin(log, r);
    CodeRowsFrame(t, t, log, log');
    GrantRowsFrame(cfg, t, t, log, log');
    assert forall k :: k in t.consents ==> ConsentRowOk(log, k, t.consents[k]);
  }

  lemma BeginOk(cfg: Config, s: State, r: Request)
    requires MayBegin(cfg, s, r)
    ensures RequestOk(cfg, LogBegin(s.log, r), s.clock, r)
  {
    if r.Visiting? || r.Approved? {
      ValidatedIsRequested(cfg, LogBegin(s.log, r), r.authz);
    }
  }

  lemma BeginKeepsRequests(cfg: Config, s: State, id: nat, r: Request)
    requires RequestsOk(cfg, s) && id !in s.requests && MayBegin(cfg, s, r)
    ensures RequestsOk(cfg, Apply(cfg, s, Begin(id, r)))
  {
    BeginGrows(s.log, r);
    BeginOk(cfg, s, r);
    RequestAdded(cfg, s, LogBegin(s.log, r), id, r);
  }

  lemma RequestAdded(cfg: Config, s: State, log: History, id: nat, r: Request)
    requires RequestsOk(cfg, s) && id !in s.requests && Grows(s.log, log) && RequestOk(cfg, log, s.clock, r)
    ensures RequestsOk(cfg, s.(requests := s.requests[id := r], log := log))
  {
    OthersStay(cfg, s, s.(requests := s.requests[id := r], log := log), id);
  }

  lemma BeginKeepsPending(cfg: Config, s: State, id: nat, r: Request)
    requires PendingOk(s) && RenewalsOk(s) && !r.RedeemWon?
    ensures PendingOk(Apply(cfg, s, Begin(id, r))) && RenewalsOk(Apply(cfg, s, Begin(id, r)))
  {
    BeginGrows(s.log, r);
  }

  lemma BeginKeepsInv(cfg: Config, s: State, id: nat, r: Request)
    requires Inv(cfg, s) && id !in s.requests && MayBegin(cfg, s, r)
    ensures Inv(cfg, Apply(cfg, s, Begin(id, r)))
  {
    BeginGrows(s.log, r);
    BeginKeepsLog(cfg, s.log, LogBegin(s.log, r));
    BeginKeepsRows(cfg, s.tables, s.log, r);
    BeginKeepsRequests(cfg, s, id, r);
    BeginKeepsPending(cfg, s, id, r);
  }

  /** Every event keeps the invariant. */
  lemma EventKeepsInv(cfg: Config, s: State, e: Event)
    requires Inv(cfg, s) && Enabled(cfg, s, e)
    ensures Inv(cfg, Apply(cfg, s, e))
  {
    match e
    case Tick(now) => TickKeepsInv(cfg, s, now);
    case WriteUser(user) => UsersKeepInv(cfg, s, s.users[user.id := user]);
    case DeleteUser(uid) => DeleteUserKeepsInv(cfg, s, uid);
    case Begin(id, r) => BeginKeepsInv(cfg, s, id, r);
    case Advance(id, draw) => AdvanceKeepsInv(cfg, s, id, draw);
    case _ => SweepKeepsInv(cfg, s, e);
  }

  lemma DeleteUserKeepsInv(cfg: Config, s: State, uid: string)
    requires Inv(cfg, s)
    ensures Inv(cfg, Apply(cfg, s, DeleteUser(uid)))
  {
    UsersKeepInv(cfg, s, s.users - {uid});
    DeletionKeepsInv(cfg, s.(users := s.users - {uid}), Apply(cfg, s, DeleteUser(uid)));
  }

  lemma SweepKeepsInv(cfg: Config, s: State, e: Event)
    requires Inv(cfg, s)
    requires e.SweepCodes? || e.SweepGrants? || e.SweepAssertions? || e.SweepClients? || e.DropClientGrants?
        || e.DropConsent?
    ensures Inv(cfg, Apply(cfg, s, e))
  {
    DeletionKeepsInv(cfg, s, Apply(cfg, s, e));
  }

  lemma StartOk(cfg: Config, users: map<string, User>, clock: int)
    requires UsersKeyed(users)
    ensures Inv(cfg, Start(users, clock))
  {
  }

  lemma {:induction false} RunKeepsInv(cfg: Config, s: State, es: seq<Event>)
    requires Inv(cfg, s) && CanRun(cfg, s, es)
    ensures Inv(cfg, Run(cfg, s, es))
    decreases |es|
  {
    if es != [] {
      EventKeepsInv(cfg, s, es[0]);
      RunKeepsInv(cfg, Apply(cfg, s, es[0]), es[1..]);
    }
  }

  /** The invariant holds in every reachable state. */
  lemma ReachableOk(cfg: Config, s: State)
    requires Reachable(cfg, s)
    ensures Inv(cfg, s)
  {
    var users, clock, es :| UsersKeyed(users) && CanRun(cfg, Start(users, clock), es)
        && s == Run(cfg, Start(users, clock), es);
    StartOk(cfg, users, clock);
    RunKeepsInv(cfg, Start(users, clock), es);
  }

  // ---------- parts of it ----------

  lemma ReachableGrants(cfg: Config, s: State)
    requires Reachable(cfg, s)
    ensures GrantRowsOk(cfg, s.tables, s.log) && RenewalsOk(s) && ChainsLogged(s.log) && MintsLogged(cfg, s.log)
  {
    ReachableOk(cfg, s);
  }

  lemma ReachableCodes(cfg: Config, s: State)
    requires Reachable(cfg, s)
    ensures CodeRowsOk(s.tables, s.log) && CodesLogged(cfg, s.log) && WinnersLogged(s.log) && MintsLogged(cfg, s.log)
  {
    ReachableOk(cfg, s);
  }

  lemma ReachableTokens(cfg: Config, s: State)
    requires Reachable(cfg, s)
    ensures GrantRowsOk(cfg, s.tables, s.log) && TokensLogged(cfg, s.log) && MintsLogged(cfg, s.log)
        && CodesLogged(cfg, s.log)
  {
    ReachableOk(cfg, s);
  }
}
