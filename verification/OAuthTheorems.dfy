/** What the authorization server guarantees over every run. */
module OAuthTheorems {
  import opened Wrappers
  import opened GoStrings
  import opened Entities
  import opened Scopes
  import opened TableOps
  import opened OAuthRules
  import opened OAuthHandlers
  import opened OAuthProtocol
  import opened OAuthInvariants

  // ---------- refresh rotation ----------

  /** Under every interleaving, a grant's refresh hashes are pairwise distinct, and the
      secrets redeemed successfully are all but the last of them, in order and once each. */
  lemma RefreshSecretsRedeemedOnce(cfg: Config, s: State, gid: string)
    requires Reachable(cfg, s) && gid in s.log.chains
    ensures gid in s.log.redeemed
    ensures var chain := s.log.chains[gid];
            && Distinct(chain) && Distinct(s.log.redeemed[gid])
            && s.log.redeemed[gid] == if chain == [] then [] else chain[..|chain| - 1]
  {
    ReachableGrants(cfg, s);
    ChainFacts(cfg, s.log, gid);
  }

  lemma ChainFacts(cfg: Config, log: History, gid: string)
    requires ChainsLogged(log) && MintsLogged(cfg, log) && gid in log.chains
    ensures gid in log.redeemed && Distinct(log.chains[gid]) && Distinct(log.redeemed[gid])
    ensures log.redeemed[gid] == if log.chains[gid] == [] then [] else log.chains[gid][..|log.chains[gid]| - 1]
  {
    assert ChainLogged(log, gid);
  }

  /** A stored grant shows the last two hashes of its chain, and its expiry is one
      refresh lifetime after the clock reading of the handler that installed the last. */
  lemma StoredHashesEndTheChain(cfg: Config, s: State, gid: string)
    requires Reachable(cfg, s) && gid in s.tables.grants
    ensures gid in s.log.chains && gid in s.log.renewed
    ensures var chain, g := s.log.chains[gid], s.tables.grants[gid];
            && g.tokenHash == (if chain == [] then NoDigest else chain[|chain| - 1])
            && g.prevTokenHash == (if |chain| < 2 then NoDigest else chain[|chain| - 2])
            && g.expiresAt == s.log.renewed[gid] + cfg.refreshTokenTTL && s.log.renewed[gid] <= s.clock
  {
    ReachableGrants(cfg, s);
    RowFacts(cfg, s, gid);
  }

  lemma RowFacts(cfg: Config, s: State, gid: string)
    requires GrantRowsOk(cfg, s.tables, s.log) && RenewalsOk(s) && gid in s.tables.grants
    ensures GrantRowOk(cfg, s.log, gid, s.tables.grants[gid]) && s.log.renewed[gid] <= s.clock
  {
  }

  /** No refresh hash ever belongs to two grants. */
  lemma ChainsAreDisjoint(cfg: Config, s: State, gid: string, other: string, d: Digest)
    requires Reachable(cfg, s) && gid in s.log.chains && other in s.log.chains
    requires d in s.log.chains[gid] && d in s.log.chains[other]
    ensures gid == other
  {
    ReachableGrants(cfg, s);
    assert ChainLogged(s.log, gid) && ChainLogged(s.log, other);
  }

  // ---------- authorization codes ----------

  /** At most one grant is ever created from a code; it carries the code's user, client,
      resource and scopes, and its id is the one recorded on the used code. */
  lemma OneGrantPerCode(cfg: Config, s: State, gid: string)
    requires Reachable(cfg, s) && gid in s.log.mints
    ensures var m := s.log.mints[gid];
            && m.code in s.log.codes
            && (forall other :: other in s.log.mints && s.log.mints[other].code == m.code ==> other == gid)
            && (m.code in s.tables.codes ==>
                s.tables.codes[m.code].usedAt.Some? && s.tables.codes[m.code].grantID == gid)
            && var c := s.log.codes[m.code];
               (m.grant.userID, m.grant.clientID, m.grant.resource, m.grant.scopes) == (c.userID, c.clientID,
                       c.resource, c.scopes)
  {
    ReachableCodes(cfg, s);
    assert forall other :: other in s.log.mints ==> MintLogged(cfg, s.log, other, s.log.mints[other]);
    var code := s.log.mints[gid].code;
    assert code in s.tables.codes ==> CodeRowOk(s.log, code, s.tables.codes[code]);
  }

  /** Under every interleaving, each grant was created for a request that presented the secret of
      its code in time, as the code's client, with the verifier of its challenge, and with an agreeing
      redirect URI and resource (section 4.1.3 of RFC 6749, section 4.6 of RFC 7636). */
  lemma GrantsAreProven(cfg: Config, s: State, gid: string)
    requires Reachable(cfg, s) && gid in s.log.mints
    ensures var m := s.log.mints[gid];
            && m.code == Sha256(m.request.code) && m.code in s.log.codes
            && var c := s.log.codes[m.code];
               && m.request.client.id == c.clientID && VerifyS256(cfg, m.request.verifier, c.challenge)
               && (m.request.redirectURI == "" || m.request.redirectURI == c.redirectURI)
               && ResourceAgrees(cfg, m.request.resource, c.resource) && m.grant.createdAt <= c.expiresAt
  {
    ReachableCodes(cfg, s);
    assert MintLogged(cfg, s.log, gid, s.log.mints[gid]);
  }

  /** Under every interleaving, a stored code answers an authorization request that was acceptable:
      its redirect URI is one of the client's, its challenge 43 characters of base64url, its resource
      configured; it carries the request's client, redirect URI, scopes, resource and challenge, and
      expires one code lifetime after it was issued. */
  lemma CodesAreValidated(cfg: Config, s: State, h: Digest)
    requires Reachable(cfg, s) && h in s.tables.codes
    ensures h in s.log.issued
    ensures var c, i := s.tables.codes[h], s.log.issued[h];
            var q := i.authz;
            && MayReturnTo(cfg, q.client, q.redirectURI) && IsChallenge(q.challenge) && q.resource in cfg.resources
            && (q.client.grantTypes == [] || AUTHORIZATION_CODE in q.client.grantTypes)
            && c.codeHash == h && c.clientID == q.client.id && c.userID == i.userID && c.redirectURI == q.redirectURI
            && c.scopes == JoinScopes(q.scopes) && c.resource == q.resource && c.challenge == q.challenge
            && c.expiresAt == i.at + cfg.codeTTL
  {
    ReachableCodes(cfg, s);
    assert CodeRowOk(s.log, h, s.tables.codes[h]);
    assert CodeLogged(cfg, s.log, h, s.log.codes[h]);
    var q := s.log.issued[h].authz;
    var p :| ParseAuthz(cfg, q.client, p) == Ok(q);
    ParseAuthzIff(cfg, q.client, p);
  }

  // ---------- authority ----------

  /** What stands behind an access token: its user approved the request, for its client, on its
      resource, and its scopes are contained in its grant's, its code's, what that user ever approved
      for that client, and - when the default scopes are configured scopes - the configured ones. */
  ghost predicate Authorized(cfg: Config, s: State, t: AccessToken) {
    && t.gid in s.tables.grants && t.gid in s.log.mints && s.log.mints[t.gid].code in s.log.codes
    && var g, c := s.tables.grants[t.gid], s.log.codes[s.log.mints[t.gid].code];
       && t.sub == g.userID == c.userID && t.clientID == g.clientID == c.clientID
       && t.aud == g.resource == c.resource && c.resource in cfg.resources
       && ScopeSet(t.scope) <= ScopeSet(g.scopes) == ScopeSet(c.scopes)
       && (forall sc :: sc in ScopeSet(t.scope) ==> (t.sub, t.clientID, sc) in s.log.approved)
       && (DefaultsConfigured(cfg) ==> ScopeSet(t.scope) <= Elements(cfg.scopes))
  }

  lemma StoredGrantAuthorizes(cfg: Config, s: State, st: Signed)
    requires Reachable(cfg, s) && st in s.log.tokens && GrantAccepts(s.tables, st.token)
    ensures Authorized(cfg, s, st.token)
  {
    ReachableTokens(cfg, s);
    var t := st.token;
    assert TokenLogged(cfg, s.log, st);
    assert GrantRowOk(cfg, s.log, t.gid, s.tables.grants[t.gid]);
    assert MintLogged(cfg, s.log, t.gid, s.log.mints[t.gid]);
    var h := s.log.mints[t.gid].code;
    assert CodeLogged(cfg, s.log, h, s.log.codes[h]);
  }

  /** Every accepted access token acts for the user who approved the request, as the client
      it was approved for, on the resource that was requested, within the approved scopes. */
  lemma EndToEndAuthority(cfg: Config, s: State, st: Signed, resource: string, now: int)
    requires Reachable(cfg, s) && st in s.log.tokens
    requires Validates(cfg, s.tables, s.users, st.token, resource, now)
    ensures Authorized(cfg, s, st.token) && cfg.canonicalResource(resource) == Some(st.token.aud)
  {
    StoredGrantAuthorizes(cfg, s, st);
  }

  /** The same when anything happens between the two reads of the validation: the grant it finds at
      the second read authorizes the token then. */
  lemma AuthorityAcrossReads(cfg: Config, s: State, es: seq<Event>, st: Signed, resource: string, now: int)
    requires Reachable(cfg, s) && st in s.log.tokens && UserAccepts(cfg, s.users, st.token, resource, now)
    requires CanRun(cfg, s, es) && GrantAccepts(Run(cfg, s, es).tables, st.token)
    ensures Authorized(cfg, Run(cfg, s, es), st.token) && cfg.canonicalResource(resource) == Some(st.token.aud)
  {
    ReachableLater(cfg, s, es);
    TokensKept(cfg, s, es, st);
    StoredGrantAuthorizes(cfg, Run(cfg, s, es), st);
  }

  lemma ReachableLater(cfg: Config, s: State, es: seq<Event>)
    requires Reachable(cfg, s) && CanRun(cfg, s, es)
    ensures Reachable(cfg, Run(cfg, s, es))
  {
    var users, clock, fs :| UsersKeyed(users) && CanRun(cfg, Start(users, clock), fs)
        && s == Run(cfg, Start(users, clock), fs);
    RunConcat(cfg, Start(users, clock), fs, es);
  }

  lemma {:induction false} RunConcat(cfg: Config, s: State, es: seq<Event>, fs: seq<Event>)
    ensures Run(cfg, s, es + fs) == Run(cfg, Run(cfg, s, es), fs)
    ensures CanRun(cfg, s, es + fs) <==> CanRun(cfg, s, es) && CanRun(cfg, Run(cfg, s, es), fs)
    decreases |es|
  {
    if es == [] {
      assert es + fs == fs;
    } else {
      assert (es + fs)[1..] == es[1..] + fs;
      RunConcat(cfg, Apply(cfg, s, es[0]), es[1..], fs);
    }
  }

  lemma EventKeepsTokens(cfg: Config, s: State, e: Event, st: Signed)
    requires st in s.log.tokens
    ensures st in Apply(cfg, s, e).log.tokens
  {
  }

  lemma {:induction false} TokensKept(cfg: Config, s: State, es: seq<Event>, st: Signed)
    requires st in s.log.tokens
    ensures st in Run(cfg, s, es).log.tokens
    decreases |es|
  {
    if es != [] {
      EventKeepsTokens(cfg, s, es[0], st);
      TokensKept(cfg, Apply(cfg, s, es[0]), es[1..], st);
    }
  }

  // ---------- revocation is permanent ----------

  /** A redemption has recorded the grant id on its code and has not created the grant yet. */
  ghost predicate Pending(s: State, gid: string) {
    exists id :: id in s.requests && s.requests[id].RedeemWon? && s.requests[id].gid == gid
  }

  /** The grant id has been drawn and names no stored grant. */
  predicate Gone(s: State, gid: string) {
    gid in s.log.drawn && gid !in s.tables.grants
  }

  /** Only a won redemption makes a grant appear. */
  lemma GrantsAppearWon(cfg: Config, t: OAuthTables, env: Env, r: Request, gid: string)
    requires gid !in t.grants && !(r.RedeemWon? && r.gid == gid)
    ensures gid !in NextTables(cfg, t, env, r).grants
  {
  }

  lemma AdvanceKeepsGone(cfg: Config, s: State, id: nat, draw: string, gid: string)
    requires id in s.requests && draw != gid && Gone(s, gid) && !Pending(s, gid)
    ensures Gone(AdvanceRequest(cfg, s, id, draw), gid) && !Pending(AdvanceRequest(cfg, s, id, draw), gid)
  {
    var s', env := AdvanceRequest(cfg, s, id, draw), Env(s.users, s.clock, draw);
    var r := s.requests[id];
    assert r.RedeemWon? ==> r.gid != gid;
    NextWon(cfg, s.tables, env, r);
    GrantsAppearWon(cfg, s.tables, env, r, gid);
    assert forall jd :: jd in s'.requests && jd != id ==> s'.requests[jd] == s.requests[jd];
  }

  lemma EventKeepsGone(cfg: Config, s: State, e: Event, gid: string)
    requires Enabled(cfg, s, e) && Gone(s, gid) && !Pending(s, gid)
    ensures Gone(Apply(cfg, s, e), gid) && !Pending(Apply(cfg, s, e), gid)
  {
    match e
    case Advance(id, draw) => AdvanceKeepsGone(cfg, s, id, draw, gid);
    case Begin(id, r) =>
      assert !r.RedeemWon?;
      var s' := Apply(cfg, s, e);
      assert forall jd :: jd in s'.requests && jd != id ==> s'.requests[jd] == s.requests[jd];
    case _ =>
  }

  lemma {:induction false} GoneForever(cfg: Config, s: State, es: seq<Event>, gid: string)
    requires CanRun(cfg, s, es) && Gone(s, gid) && !Pending(s, gid)
    ensures Gone(Run(cfg, s, es), gid)
    decreases |es|
  {
    if es != [] {
      EventKeepsGone(cfg, s, es[0], gid);
      GoneForever(cfg, Apply(cfg, s, es[0]), es[1..], gid);
    }
  }

  /** There is always a value left to draw. */
  lemma SomethingToDraw(s: State) returns (draw: string)
    ensures Drawable(s, draw)
  {
    draw := "x";
    var seen: set<string> := {};
    while draw in s.log.drawn
      invariant draw != "" && forall c :: c in draw ==> c == 'x'
      invariant seen <= s.log.drawn && forall d :: d in seen ==> |d| < |draw|
      decreases s.log.drawn - seen
    {
      seen := seen + {draw};
      draw := draw + "x";
    }
  }

  /** A deleted grant id can name a stored grant again exactly when a redemption that drew
      it is still about to create its grant. */
  lemma ReappearsIff(cfg: Config, s: State, gid: string)
    requires Reachable(cfg, s) && Gone(s, gid)
    ensures Pending(s, gid) <==> exists es :: CanRun(cfg, s, es) && gid in Run(cfg, s, es).tables.grants
  {
    if Pending(s, gid) {
      var id :| id in s.requests && s.requests[id].RedeemWon? && s.requests[id].gid == gid;
      var draw := SomethingToDraw(s);
      var es := [Advance(id, draw)];
      assert es[1..] == [];
      assert CanRun(cfg, Apply(cfg, s, es[0]), es[1..]);
      assert Run(cfg, s, es) == Run(cfg, Apply(cfg, s, es[0]), es[1..]) == AdvanceRequest(cfg, s, id, draw);
      assert CanRun(cfg, s, es) && gid in Run(cfg, s, es).tables.grants;
    } else {
      forall es | CanRun(cfg, s, es)
        ensures gid !in Run(cfg, s, es).tables.grants
      {
        GoneForever(cfg, s, es, gid);
      }
    }
  }

  // ---------- handlers that run to completion ----------

  /** The events of a request that runs to its answer with nothing in between. */
  function Completion(cfg: Config, s: State, id: nat, draws: nat -> string): seq<Event>
    requires id in s.requests
    decreases Remaining(s.requests[id])
  {
    if s.requests[id].Done? then []
    else
      var e := Advance(id, draws(Remaining(s.requests[id])));
      StepsTerminate(cfg, s.tables, Env(s.users, s.clock, e.draw), s.requests[id]);
      [e] + Completion(cfg, Apply(cfg, s, e), id, draws)
  }

  /** The draws a completing request will make are new and pairwise distinct. */
  ghost predicate NewDraws(s: State, id: nat, draws: nat -> string)
    requires id in s.requests
  {
    && (forall n: nat :: n <= Remaining(s.requests[id]) ==> Drawable(s, draws(n)))
    && (forall n: nat, m: nat :: n < m <= Remaining(s.requests[id]) ==> draws(n) != draws(m))
  }

  lemma RunCons(cfg: Config, s: State, e: Event, es: seq<Event>)
    ensures Run(cfg, s, [e] + es) == Run(cfg, Apply(cfg, s, e), es)
    ensures CanRun(cfg, s, [e] + es) <==> Enabled(cfg, s, e) && CanRun(cfg, Apply(cfg, s, e), es)
  {
    assert ([e] + es)[1..] == es;
  }

  /** What the first of the steps leaves to the others. */
  lemma FirstStep(cfg: Config, s: State, id: nat, draws: nat -> string)
    requires id in s.requests && NewDraws(s, id, draws) && !s.requests[id].Done?
    ensures var e := Advance(id, draws(Remaining(s.requests[id])));
            var s' := Apply(cfg, s, e);
            && Enabled(cfg, s, e) && (s'.users, s'.clock) == (s.users, s.clock)
            && s'.requests.Keys == s.requests.Keys && s'.log.drawn == s.log.drawn + {e.draw}
            && (forall jd :: jd in s.requests && jd != id ==> s'.requests[jd] == s.requests[jd])
            && Remaining(s'.requests[id]) < Remaining(s.requests[id]) && NewDraws(s', id, draws)
            && Complete(cfg, s.tables, s.users, s.clock, draws, s.requests[id]) ==
               Complete(cfg, s'.tables, s.users, s.clock, draws, s'.requests[id])
            && Completion(cfg, s, id, draws) == [e] + Completion(cfg, s', id, draws)
  {
    var r := s.requests[id];
    StepsTerminate(cfg, s.tables, Env(s.users, s.clock, draws(Remaining(r))), r);
  }

  /** Running the steps of a handler one after the other is what `Complete` computes. */
  lemma {:induction false} CompletionRuns(cfg: Config, s: State, id: nat, draws: nat -> string)
    requires id in s.requests && NewDraws(s, id, draws)
    ensures var es := Completion(cfg, s, id, draws);
            var (tables, answer) := Complete(cfg, s.tables, s.users, s.clock, draws, s.requests[id]);
            && CanRun(cfg, s, es)
            && Run(cfg, s, es).tables == tables && id in Run(cfg, s, es).requests
                && Run(cfg, s, es).requests[id] == Done(answer)
            && (forall jd :: jd in s.requests && jd != id ==>
                jd in Run(cfg, s, es).requests && Run(cfg, s, es).requests[jd] == s.requests[jd])
            && (forall jd :: jd in Run(cfg, s, es).requests ==> jd in s.requests)
            && s.log.drawn <= Run(cfg, s, es).log.drawn
    decreases Remaining(s.requests[id])
  {
    if !s.requests[id].Done? {
      var e := Advance(id, draws(Remaining(s.requests[id])));
      var s' := Apply(cfg, s, e);
      FirstStep(cfg, s, id, draws);
      CompletionRuns(cfg, s', id, draws);
      RunCons(cfg, s, e, Completion(cfg, s', id, draws));
    }
  }

  // ---------- replay and reuse ----------

  lemma DeletingCompletes(cfg: Config, t: OAuthTables, users: map<string, User>, clock: int, draws: nat -> string,
      gid: string, answer: Outcome)
    ensures Complete(cfg, t, users, clock, draws, Deleting(gid, answer)) == (DeleteGrant(t, gid), answer)
  {
  }

  /** Replaying a stored used code deletes what was issued from it, whatever else is wrong
      with the request. */
  lemma ReplayDeletes(cfg: Config, t: OAuthTables, users: map<string, User>, clock: int, draws: nat -> string,
                      rq: CodeRequest)
    requires ClientAllows(rq.client, AUTHORIZATION_CODE) && rq.code != "" && Sha256(rq.code) in t.codes
    requires t.codes[Sha256(rq.code)].usedAt.Some? && t.codes[Sha256(rq.code)].grantID != ""
    ensures Complete(cfg, t, users, clock, draws, Redeem(rq)) == (DeleteGrant(t, t.codes[Sha256(rq.code)].grantID),
                                                                  Refused(InvalidGrant))
  {
    var gid := t.codes[Sha256(rq.code)].grantID;
    var env := Env(users, clock, draws(7));
    assert NextRequest(cfg, t, env, Redeem(rq)) == Deleting(gid, Refused(InvalidGrant));
    assert NextTables(cfg, t, env, Redeem(rq)) == t;
    DeletingCompletes(cfg, t, users, clock, draws, gid, Refused(InvalidGrant));
  }

  /** A redemption that lost its code to another one treats it as a replay: it deletes the grant
      recorded on the code, if the code is still there, and is refused. */
  lemma LoserDeletes(cfg: Config, t: OAuthTables, users: map<string, User>, clock: int, draws: nat -> string,
                     rq: CodeRequest)
    ensures Complete(cfg, t, users, clock, draws, RedeemLost(rq)) ==
            (if Sha256(rq.code) in t.codes && t.codes[Sha256(rq.code)].grantID != ""
             then DeleteGrant(t, t.codes[Sha256(rq.code)].grantID) else t,
             Refused(InvalidGrant))
  {
    var env := Env(users, clock, draws(2));
    assert NextTables(cfg, t, env, RedeemLost(rq)) == t;
    if Sha256(rq.code) in t.codes && t.codes[Sha256(rq.code)].grantID != "" {
      DeletingCompletes(cfg, t, users, clock, draws, t.codes[Sha256(rq.code)].grantID, Refused(InvalidGrant));
    }
  }

  /** So does a redemption that passed all its checks and finds its code used when it marks it. */
  lemma LateRedemptionDeletes(cfg: Config, t: OAuthTables, users: map<string, User>, clock: int, draws: nat -> string,
                              rq: CodeRequest, code: Code, now: int, user: User)
    requires code.codeHash == Sha256(rq.code)
    requires code.codeHash in t.codes && t.codes[code.codeHash].usedAt.Some? && t.codes[code.codeHash].grantID != ""
    ensures Complete(cfg, t, users, clock, draws, RedeemUser(rq, code, now, user)) ==
            (DeleteGrant(t, t.codes[code.codeHash].grantID), Refused(InvalidGrant))
  {
    var env := Env(users, clock, draws(5));
    var r := RedeemUser(rq, code, now, user);
    assert NextTables(cfg, t, env, r) == t && NextRequest(cfg, t, env, r) == RedeemLost(rq);
    LoserDeletes(cfg, t, users, clock, draws, rq);
  }

  /** The secret rotated away last was rotated away within the grace period. */
  predicate WithinGrace(cfg: Config, s: State, gid: string, clock: int)
    requires gid in s.log.renewed
  {
    cfg.refreshReuseGrace > 0 && clock - s.log.renewed[gid] <= cfg.refreshReuseGrace
  }

  /** What the owning client gets for presenting one of its grant's refresh secrets out of
      turn: the just-rotated one deletes the grant, unless the handler that rotated it read the clock
      no longer than the grace period ago; an older one is refused and changes nothing. */
  lemma ReuseByAge(cfg: Config, s: State, users: map<string, User>, clock: int, draws: nat -> string,
      rq: RefreshRequest, gid: string, secret: string, i: nat)
    requires Reachable(cfg, s) && gid in s.tables.grants && gid in s.log.chains
    requires ClientAllows(rq.client, REFRESH_TOKEN) && rq.client.id == s.tables.grants[gid].clientID
    requires ParseRefreshToken(rq.refreshToken) == Some((gid, secret))
    requires i < |s.log.chains[gid]| - 1 && s.log.chains[gid][i] == Sha256(secret)
    ensures gid in s.log.renewed
    ensures var (tables, answer) := Complete(cfg, s.tables, users, clock, draws, Refresh(rq));
            && answer == Refused(InvalidGrant)
            && tables == if i == |s.log.chains[gid]| - 2 && !WithinGrace(cfg, s, gid, clock)
                         then DeleteGrant(s.tables, gid) else s.tables
  {
    OldHash(cfg, s, gid, i);
    ReuseVerdict(cfg, s.tables, users, clock, draws, rq, gid, secret);
  }

  lemma OldHash(cfg: Config, s: State, gid: string, i: nat)
    requires Reachable(cfg, s) && gid in s.tables.grants && gid in s.log.chains && i < |s.log.chains[gid]| - 1
    ensures var g, d := s.tables.grants[gid], s.log.chains[gid][i];
            && g.id == gid && g.tokenHash != d && (g.prevTokenHash == d <==> i == |s.log.chains[gid]| - 2)
            && gid in s.log.renewed && g.lastUsedAt == Some(s.log.renewed[gid])
  {
    ReachableGrants(cfg, s);
    RowFacts(cfg, s, gid);
    ChainFacts(cfg, s.log, gid);
    HashesBefore(s.log.chains[gid], i);
  }

  /** In a chain without repetition an element before the last is the last but one or neither. */
  lemma HashesBefore(chain: seq<Digest>, i: nat)
    requires Distinct(chain) && i < |chain| - 1
    ensures chain[|chain| - 1] != chain[i] && (chain[|chain| - 2] == chain[i] <==> i == |chain| - 2)
  {
  }

  lemma ReuseVerdict(cfg: Config, t: OAuthTables, users: map<string, User>, clock: int, draws: nat -> string,
      rq: RefreshRequest, gid: string, secret: string)
    requires gid in t.grants && t.grants[gid].id == gid && t.grants[gid].tokenHash != Sha256(secret)
    requires ClientAllows(rq.client, REFRESH_TOKEN) && rq.client.id == t.grants[gid].clientID
    requires ParseRefreshToken(rq.refreshToken) == Some((gid, secret))
    ensures Complete(cfg, t, users, clock, draws, Refresh(rq)) ==
            (if t.grants[gid].prevTokenHash == Sha256(secret)
             && !(cfg.refreshReuseGrace > 0 && t.grants[gid].lastUsedAt.Some?
                  && clock - t.grants[gid].lastUsedAt.value <= cfg.refreshReuseGrace) then DeleteGrant(t, gid) else t,
             Refused(InvalidGrant))
  {
    var env := Env(users, clock, draws(4));
    assert NextTables(cfg, t, env, Refresh(rq)) == t;
    DeletingCompletes(cfg, t, users, clock, draws, gid, Refused(InvalidGrant));
  }

  /** Once a request that deletes the grant has run to completion with no redemption of the
      grant pending, the grant never comes back and no token minted from it validates. */
  lemma DeletedForGood(cfg: Config, s: State, id: nat, draws: nat -> string, gid: string, later: seq<Event>,
      st: Signed, resource: string, now: int)
    requires Reachable(cfg, s) && id in s.requests && NewDraws(s, id, draws) && gid in s.log.drawn && !Pending(s, gid)
    requires gid !in Complete(cfg, s.tables, s.users, s.clock, draws, s.requests[id]).0.grants
    requires var s' := Run(cfg, s, Completion(cfg, s, id, draws)); CanRun(cfg, s', later)
    ensures var z := Run(cfg, Run(cfg, s, Completion(cfg, s, id, draws)), later);
            gid !in z.tables.grants && (st.token.gid == gid ==>
                                        !Validates(cfg, z.tables, z.users, st.token, resource, now))
  {
    CompletionRuns(cfg, s, id, draws);
    var s' := Run(cfg, s, Completion(cfg, s, id, draws));
    assert !Pending(s', gid);
    GoneForever(cfg, s', later, gid);
  }

  /** Replay of a used code, handled on its own while no redemption of it is unfinished,
      revokes for good. */
  lemma ReplayRevokesForGood(cfg: Config, s: State, id: nat, draws: nat -> string, later: seq<Event>, st: Signed,
      resource: string, now: int)
    requires Reachable(cfg, s) && id in s.requests && s.requests[id].Redeem? && NewDraws(s, id, draws)
    requires var rq := s.requests[id].codeRequest;
             && ClientAllows(rq.client, AUTHORIZATION_CODE) && rq.code != "" && Sha256(rq.code) in s.tables.codes
             && s.tables.codes[Sha256(rq.code)].usedAt.Some? && !Pending(s, s.tables.codes[Sha256(rq.code)].grantID)
    requires CanRun(cfg, Run(cfg, s, Completion(cfg, s, id, draws)), later)
    ensures var gid := s.tables.codes[Sha256(s.requests[id].codeRequest.code)].grantID;
            var z := Run(cfg, Run(cfg, s, Completion(cfg, s, id, draws)), later);
            gid !in z.tables.grants && (st.token.gid == gid ==>
                                        !Validates(cfg, z.tables, z.users, st.token, resource, now))
  {
    var rq := s.requests[id].codeRequest;
    var h := Sha256(rq.code);
    var gid := s.tables.codes[h].grantID;
    UsedCodeFacts(cfg, s, h);
    ReplayDeletes(cfg, s.tables, s.users, s.clock, draws, rq);
    DeletedForGood(cfg, s, id, draws, gid, later, st, resource, now);
  }

  /** A code that a redemption has lost is not there unused: it is used, or it has been deleted. */
  ghost predicate LostIsUsed(s: State, id: nat)
    requires id in s.requests
  {
    s.requests[id].RedeemLost? ==>
      var h := Sha256(s.requests[id].codeRequest.code);
      h in s.log.codes && !CodeIsUnused(s.tables, h)
  }

  ghost predicate LostAreUsed(s: State) {
    forall id :: id in s.requests ==> LostIsUsed(s, id)
  }

  /** A step leaves a code that is there used, or not there at all, in that state. */
  lemma StaysUsed(cfg: Config, t: OAuthTables, env: Env, r: Request, h: Digest)
    requires !CodeIsUnused(t, h) && h != Sha256(env.draw)
    ensures !CodeIsUnused(NextTables(cfg, t, env, r), h)
  {
  }

  lemma LosingStep(cfg: Config, s: State, id: nat, draw: string)
    requires Inv(cfg, s) && id in s.requests && Drawable(s, draw)
    ensures LostIsUsed(AdvanceRequest(cfg, s, id, draw), id)
  {
    var r, env := s.requests[id], Env(s.users, s.clock, draw);
    assert RequestOk(cfg, s.log, s.clock, r);
    LostAfterUser(cfg, s.tables, env, r);
  }

  lemma LostAfterUser(cfg: Config, t: OAuthTables, env: Env, r: Request)
    ensures var r' := NextRequest(cfg, t, env, r);
            r'.RedeemLost? ==>
              && r.RedeemUser? && r'.codeRequest == r.codeRequest
              && !CodeIsUnused(t, r.code.codeHash) && NextTables(cfg, t, env, r) == t
  {
  }

  lemma OtherStaysLost(cfg: Config, s: State, id: nat, draw: string, jd: nat)
    requires LogOk(cfg, s.log) && id in s.requests && jd in s.requests && jd != id && Drawable(s, draw)
    requires LostIsUsed(s, jd)
    ensures LostIsUsed(AdvanceRequest(cfg, s, id, draw), jd)
  {
    DrawIsNew(cfg, s, draw);
    if s.requests[jd].RedeemLost? {
      StaysUsed(cfg, s.tables, Env(s.users, s.clock, draw), s.requests[id], Sha256(s.requests[jd].codeRequest.code));
    }
  }

  lemma EventKeepsLost(cfg: Config, s: State, e: Event)
    requires Inv(cfg, s) && LostAreUsed(s) && Enabled(cfg, s, e)
    ensures LostAreUsed(Apply(cfg, s, e))
  {
    var s' := Apply(cfg, s, e);
    forall jd | jd in s'.requests
      ensures LostIsUsed(s', jd)
    {
      match e
      case Advance(id, draw) =>
        if jd == id {
          LosingStep(cfg, s, id, draw);
        } else {
          OtherStaysLost(cfg, s, id, draw, jd);
        }
      case _ =>
        assert jd in s.requests ==> LostIsUsed(s, jd);
    }
  }

  lemma {:induction false} RunKeepsLost(cfg: Config, s: State, es: seq<Event>)
    requires Inv(cfg, s) && LostAreUsed(s) && CanRun(cfg, s, es)
    ensures LostAreUsed(Run(cfg, s, es))
    decreases |es|
  {
    if es != [] {
      EventKeepsInv(cfg, s, es[0]);
      EventKeepsLost(cfg, s, es[0]);
      RunKeepsLost(cfg, Apply(cfg, s, es[0]), es[1..]);
    }
  }

  lemma ReachableLost(cfg: Config, s: State, id: nat)
    requires Reachable(cfg, s) && id in s.requests
    ensures LostIsUsed(s, id)
  {
    var users, clock, es :| UsersKeyed(users) && CanRun(cfg, Start(users, clock), es)
        && s == Run(cfg, Start(users, clock), es);
    StartOk(cfg, users, clock);
    RunKeepsLost(cfg, Start(users, clock), es);
  }

  /** When two redemptions of one code race, the one that loses ends what the other got: run to
      completion once the grant recorded on the code is no longer pending, it revokes for good. */
  lemma LoserRevokesForGood(cfg: Config, s: State, id: nat, draws: nat -> string, later: seq<Event>, st: Signed,
      resource: string, now: int)
    requires Reachable(cfg, s) && id in s.requests && s.requests[id].RedeemLost? && NewDraws(s, id, draws)
    requires var h := Sha256(s.requests[id].codeRequest.code);
        h in s.tables.codes && !Pending(s, s.tables.codes[h].grantID)
    requires CanRun(cfg, Run(cfg, s, Completion(cfg, s, id, draws)), later)
    ensures var gid := s.tables.codes[Sha256(s.requests[id].codeRequest.code)].grantID;
            var z := Run(cfg, Run(cfg, s, Completion(cfg, s, id, draws)), later);
            gid !in z.tables.grants && (st.token.gid == gid ==>
                                        !Validates(cfg, z.tables, z.users, st.token, resource, now))
  {
    var rq := s.requests[id].codeRequest;
    var h := Sha256(rq.code);
    ReachableLost(cfg, s, id);
    UsedCodeFacts(cfg, s, h);
    LoserDeletes(cfg, s.tables, s.users, s.clock, draws, rq);
    DeletedForGood(cfg, s, id, draws, s.tables.codes[h].grantID, later, st, resource, now);
  }

  lemma UsedCodeFacts(cfg: Config, s: State, h: Digest)
    requires Reachable(cfg, s) && h in s.tables.codes && s.tables.codes[h].usedAt.Some?
    ensures s.tables.codes[h].grantID != "" && s.tables.codes[h].grantID in s.log.drawn
  {
    ReachableCodes(cfg, s);
    assert CodeRowOk(s.log, h, s.tables.codes[h]);
  }

  /** With no grace period, or once it is over, the owning client presenting the just-rotated secret
      revokes for good. */
  lemma ReuseRevokesForGood(cfg: Config, s: State, id: nat, draws: nat -> string, gid: string, secret: string,
      later: seq<Event>, st: Signed, resource: string, now: int)
    requires Reachable(cfg, s) && id in s.requests && s.requests[id].Refresh? && NewDraws(s, id, draws)
    requires gid in s.tables.grants && gid in s.log.renewed && !WithinGrace(cfg, s, gid, s.clock)
    requires var rq := s.requests[id].refreshRequest;
             && ClientAllows(rq.client, REFRESH_TOKEN) && rq.client.id == s.tables.grants[gid].clientID
             && ParseRefreshToken(rq.refreshToken) == Some((gid, secret))
                 && s.tables.grants[gid].prevTokenHash == Sha256(secret)
    requires CanRun(cfg, Run(cfg, s, Completion(cfg, s, id, draws)), later)
    ensures var z := Run(cfg, Run(cfg, s, Completion(cfg, s, id, draws)), later);
            gid !in z.tables.grants && (st.token.gid == gid ==>
                                        !Validates(cfg, z.tables, z.users, st.token, resource, now))
  {
    var rq := s.requests[id].refreshRequest;
    StoredGrantFacts(cfg, s, gid);
    ReuseVerdict(cfg, s.tables, s.users, s.clock, draws, rq, gid, secret);
    DeletedForGood(cfg, s, id, draws, gid, later, st, resource, now);
  }

  lemma StoredGrantFacts(cfg: Config, s: State, gid: string)
    requires Reachable(cfg, s) && gid in s.tables.grants
    ensures gid in s.log.drawn && !Pending(s, gid) && gid in s.log.renewed
    ensures var g := s.tables.grants[gid];
        g.id == gid && (g.prevTokenHash != NoDigest ==>
                          g.prevTokenHash != g.tokenHash && g.lastUsedAt == Some(s.log.renewed[gid]))
  {
    ReachableGrants(cfg, s);
    RowFacts(cfg, s, gid);
    ChainFacts(cfg, s.log, gid);
    assert MintLogged(cfg, s.log, gid, s.log.mints[gid]);
    StoredIsNotPending(cfg, s, gid);
  }

  lemma StoredIsNotPending(cfg: Config, s: State, gid: string)
    requires Reachable(cfg, s) && gid in s.tables.grants
    ensures !Pending(s, gid)
  {
    if Pending(s, gid) {
      EarlyReplayRevokesNothing(cfg, s, gid);
    }
  }

  /** A replay that runs while the redemption is pending finds nothing to delete: the
      grant does not exist yet. */
  lemma EarlyReplayRevokesNothing(cfg: Config, s: State, gid: string)
    requires Reachable(cfg, s) && Pending(s, gid)
    ensures gid !in s.tables.grants && DeleteGrant(s.tables, gid) == s.tables
  {
    ReachableOk(cfg, s);
    PendingUnstored(cfg, s, gid);
  }

  lemma PendingUnstored(cfg: Config, s: State, gid: string)
    requires GrantRowsOk(cfg, s.tables, s.log) && PendingOk(s) && Pending(s, gid)
    ensures gid !in s.tables.grants && DeleteGrant(s.tables, gid) == s.tables
  {
    forall g | g in s.tables.grants
      ensures g in s.log.mints
    {
      assert GrantRowOk(cfg, s.log, g, s.tables.grants[g]);
    }
    assert s.tables.grants - {gid} == s.tables.grants;
  }
}
