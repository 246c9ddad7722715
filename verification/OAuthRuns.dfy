/** Runs of the authorization server that show its limits: a replay that comes too early, an old
    refresh secret that revokes nothing, a token cut off by the sweep. */
module OAuthRuns {
  import opened Wrappers
  import opened GoStrings
  import opened Entities
  import opened Scopes
  import opened TableOps
  import opened OAuthRules
  import opened OAuthHandlers
  import opened OAuthProtocol
  import opened OAuthTheorems
  import opened OAuthOutcomes

  // ---------- following a run without its history ----------

  /** A state without its history, except for the values drawn. */
  datatype View = View(
    tables: OAuthTables, users: map<string, User>, clock: int, requests: map<nat, Request>, drawn: set<string>)

  function ViewOf(s: State): View {
    View(s.tables, s.users, s.clock, s.requests, s.log.drawn)
  }

  ghost predicate May(cfg: Config, v: View, e: Event) {
    match e
    case Tick(now) => now >= v.clock
    case Begin(id, Approved(uid, q)) => id !in v.requests && BAR !in uid && Validated(cfg, q)
    case Begin(id, r) => id !in v.requests && (r.Redeem? || r.Refresh?)
    case Advance(id, draw) => id in v.requests && IsNew(v, draw)
    case SweepGrants(cutoff) => cutoff <= v.clock
    case _ => false
  }

  predicate IsNew(v: View, draw: string) {
    draw != "" && '.' !in draw && draw !in v.drawn
  }

  function After(cfg: Config, v: View, e: Event): View {
    match e
    case Tick(now) => v.(clock := now)
    case Begin(id, r) => v.(requests := v.requests[id := r])
    case Advance(id, draw) =>
      if id !in v.requests then v
      else
        var env := Env(v.users, v.clock, draw);
        View(NextTables(cfg, v.tables, env, v.requests[id]), v.users, v.clock,
             v.requests[id := NextRequest(cfg, v.tables, env, v.requests[id])], v.drawn + {draw})
    case SweepGrants(cutoff) => v.(tables := DeleteExpiredGrants(v.tables, cutoff))
    case _ => v
  }

  /** The views before and after each of the events. */
  ghost predicate Trace(cfg: Config, vs: seq<View>, es: seq<Event>) {
    |vs| == |es| + 1 && forall i :: 0 <= i < |es| ==> May(cfg, vs[i], es[i]) && vs[i + 1] == After(cfg, vs[i], es[i])
  }

  /** The events can happen and lead from the one view to the other. */
  ghost predicate Reaches(cfg: Config, v: View, es: seq<Event>, w: View) {
    exists vs :: Trace(cfg, vs, es) && vs[0] == v && vs[|es|] == w
  }

  lemma EventViewed(cfg: Config, s: State, e: Event)
    requires May(cfg, ViewOf(s), e)
    ensures Enabled(cfg, s, e) && ViewOf(Apply(cfg, s, e)) == After(cfg, ViewOf(s), e)
  {
  }

  /** What the view can follow, the system can run, and they agree. */
  lemma {:induction false} TraceViewed(cfg: Config, s: State, vs: seq<View>, es: seq<Event>)
    requires Trace(cfg, vs, es) && vs[0] == ViewOf(s)
    ensures CanRun(cfg, s, es) && ViewOf(Run(cfg, s, es)) == vs[|es|]
    decreases |es|
  {
    if es != [] {
      EventViewed(cfg, s, es[0]);
      TraceViewed(cfg, Apply(cfg, s, es[0]), vs[1..], es[1..]);
    }
  }

  lemma RunViewed(cfg: Config, s: State, es: seq<Event>, w: View)
    requires Reaches(cfg, ViewOf(s), es, w)
    ensures CanRun(cfg, s, es) && ViewOf(Run(cfg, s, es)) == w
  {
    var vs :| Trace(cfg, vs, es) && vs[0] == ViewOf(s) && vs[|es|] == w;
    TraceViewed(cfg, s, vs, es);
  }

  lemma ReachesStep(cfg: Config, v: View, e: Event)
    requires May(cfg, v, e)
    ensures Reaches(cfg, v, [e], After(cfg, v, e))
  {
    assert Trace(cfg, [v, After(cfg, v, e)], [e]);
  }

  lemma ReachesConcat(cfg: Config, v: View, es: seq<Event>, m: View, fs: seq<Event>, w: View)
    requires Reaches(cfg, v, es, m) && Reaches(cfg, m, fs, w)
    ensures Reaches(cfg, v, es + fs, w)
  {
    var us :| Trace(cfg, us, es) && us[0] == v && us[|es|] == m;
    var vs :| Trace(cfg, vs, fs) && vs[0] == m && vs[|fs|] == w;
    TraceConcat(cfg, us, es, vs, fs);
    var ws := us + vs[1..];
    assert ws[0] == v && ws[|es + fs|] == w;
  }

  lemma TraceConcat(cfg: Config, us: seq<View>, es: seq<Event>, vs: seq<View>, fs: seq<Event>)
    requires Trace(cfg, us, es) && Trace(cfg, vs, fs) && us[|es|] == vs[0]
    ensures Trace(cfg, us + vs[1..], es + fs)
  {
    var ws, gs := us + vs[1..], es + fs;
    forall i | 0 <= i < |gs| ensures May(cfg, ws[i], gs[i]) && ws[i + 1] == After(cfg, ws[i], gs[i]) {
      if i < |es| {
        StepInFirst(cfg, us, es, vs, fs, i);
      } else {
        StepInSecond(cfg, us, es, vs, fs, i - |es|);
      }
    }
  }

  lemma StepInFirst(cfg: Config, us: seq<View>, es: seq<Event>, vs: seq<View>, fs: seq<Event>, i: nat)
    requires Trace(cfg, us, es) && |vs| == |fs| + 1 && i < |es|
    ensures var ws, gs := us + vs[1..], es + fs; May(cfg, ws[i], gs[i]) && ws[i + 1] == After(cfg, ws[i], gs[i])
  {
  }

  lemma StepInSecond(cfg: Config, us: seq<View>, es: seq<Event>, vs: seq<View>, fs: seq<Event>, i: nat)
    requires |us| == |es| + 1 && Trace(cfg, vs, fs) && us[|es|] == vs[0] && i < |fs|
    ensures var ws, gs, k := us + vs[1..], es + fs, |es| + i;
        May(cfg, ws[k], gs[k]) && ws[k + 1] == After(cfg, ws[k], gs[k])
  {
    var ws := us + vs[1..];
    assert ws[|es| + i] == vs[i] && ws[|es| + i + 1] == vs[i + 1];
  }

  // ---------- the store calls of one request ----------

  /** The next store calls of a request, with the given draws. */
  function Calls(id: nat, draws: seq<string>): seq<Event> {
    if draws == [] then [] else [Advance(id, draws[0])] + Calls(id, draws[1..])
  }

  /** One store call takes the request and the tables from the one to the other. */
  predicate Leads(
      cfg: Config, users: map<string, User>, clock: int, draw: string, r: Request, t: OAuthTables, r': Request,
          t': OAuthTables)
  {
    var env := Env(users, clock, draw);
    NextRequest(cfg, t, env, r) == r' && NextTables(cfg, t, env, r) == t'
  }

  ghost predicate NewAndDistinct(v: View, draws: seq<string>) {
    (forall i :: 0 <= i < |draws| ==> IsNew(v, draws[i])) && Distinct(draws)
  }

  /** A request that goes through `rs` over the tables `ts`. */
  ghost predicate Goes(cfg: Config, v: View, id: nat, draws: seq<string>, rs: seq<Request>, ts: seq<OAuthTables>) {
    && |rs| == |ts| == |draws| + 1 && NewAndDistinct(v, draws)
    && id in v.requests && v.requests[id] == rs[0] && v.tables == ts[0]
    && forall i :: 0 <= i < |draws| ==> Leads(cfg, v.users, v.clock, draws[i], rs[i], ts[i], rs[i + 1], ts[i + 1])
  }

  function Moved(v: View, id: nat, draws: seq<string>, r: Request, t: OAuthTables): View {
    View(t, v.users, v.clock, v.requests[id := r], v.drawn + Elements(draws))
  }

  lemma {:induction false} CallsFollow(
      cfg: Config, v: View, id: nat, draws: seq<string>, rs: seq<Request>, ts: seq<OAuthTables>)
    requires Goes(cfg, v, id, draws, rs, ts)
    ensures Reaches(cfg, v, Calls(id, draws), Moved(v, id, draws, rs[|draws|], ts[|draws|]))
    decreases |draws|
  {
    if draws == [] {
      NothingMoved(v, id);
      assert Trace(cfg, [v], []);
    } else {
      FirstCall(cfg, v, id, draws, rs, ts);
      var v' := After(cfg, v, Advance(id, draws[0]));
      CallsFollow(cfg, v', id, draws[1..], rs[1..], ts[1..]);
      ReachesStep(cfg, v, Advance(id, draws[0]));
      MovedInOrder(cfg, v, id, draws, rs[|draws|], ts[|draws|]);
      ReachesConcat(cfg, v, [Advance(id, draws[0])], v', Calls(id, draws[1..]),
                    Moved(v, id, draws, rs[|draws|], ts[|draws|]));
    }
  }

  lemma NothingMoved(v: View, id: nat)
    requires id in v.requests
    ensures Moved(v, id, [], v.requests[id], v.tables) == v
  {
    assert v.drawn + Elements([]) == v.drawn;
    assert v.requests[id := v.requests[id]] == v.requests;
  }

  lemma MovedInOrder(cfg: Config, v: View, id: nat, draws: seq<string>, r: Request, t: OAuthTables)
    requires id in v.requests && draws != []
    ensures Moved(After(cfg, v, Advance(id, draws[0])), id, draws[1..], r, t) == Moved(v, id, draws, r, t)
  {
    DrawnInOrder(v.drawn, draws);
    var v' := After(cfg, v, Advance(id, draws[0]));
    assert v'.requests[id := r] == v.requests[id := r];
  }

  lemma DrawnInOrder(drawn: set<string>, draws: seq<string>)
    requires draws != []
    ensures drawn + {draws[0]} + Elements(draws[1..]) == drawn + Elements(draws)
  {
    assert draws == [draws[0]] + draws[1..];
  }

  lemma FirstCall(cfg: Config, v: View, id: nat, draws: seq<string>, rs: seq<Request>, ts: seq<OAuthTables>)
    requires Goes(cfg, v, id, draws, rs, ts) && draws != []
    ensures May(cfg, v, Advance(id, draws[0]))
    ensures Goes(cfg, After(cfg, v, Advance(id, draws[0])), id, draws[1..], rs[1..], ts[1..])
  {
    var v' := After(cfg, v, Advance(id, draws[0]));
    assert Leads(cfg, v.users, v.clock, draws[0], rs[0], ts[0], rs[1], ts[1]);
    forall i | 0 <= i < |draws[1..]|
      ensures Leads(cfg, v'.users, v'.clock, draws[1..][i], rs[1..][i], ts[1..][i], rs[1..][i + 1], ts[1..][i + 1])
    {
      assert Leads(cfg, v.users, v.clock, draws[i + 1], rs[i + 1], ts[i + 1], rs[i + 2], ts[i + 2]);
    }
  }

  // ---------- whole requests ----------

  /** A request that arrives and makes its store calls. */
  function Arrives(id: nat, r: Request, draws: seq<string>): seq<Event> {
    [Begin(id, r)] + Calls(id, draws)
  }

  lemma ArrivalFollows(cfg: Config, v: View, id: nat, r: Request, draws: seq<string>, rs: seq<Request>,
                       ts: seq<OAuthTables>)
    requires May(cfg, v, Begin(id, r)) && Goes(cfg, v.(requests := v.requests[id := r]), id, draws, rs, ts)
    ensures Reaches(cfg, v, Arrives(id, r, draws), Moved(v, id, draws, rs[|draws|], ts[|draws|]))
  {
    var v' := v.(requests := v.requests[id := r]);
    CallsFollow(cfg, v', id, draws, rs, ts);
    ReachesStep(cfg, v, Begin(id, r));
    assert v.requests[id := r][id := rs[|draws|]] == v.requests[id := rs[|draws|]];
    ReachesConcat(cfg, v, [Begin(id, r)], v', Calls(id, draws), Moved(v, id, draws, rs[|draws|], ts[|draws|]));
  }

  lemma ThreeCalls(
      cfg: Config, v: View, id: nat, a: string, b: string, c: string,
      r0: Request, r1: Request, r2: Request, r3: Request, t1: OAuthTables, t2: OAuthTables, t3: OAuthTables)
    requires May(cfg, v, Begin(id, r0)) && NewAndDistinct(v, [a, b, c])
    requires Leads(cfg, v.users, v.clock, a, r0, v.tables, r1, t1) && Leads(cfg, v.users, v.clock, b, r1, t1, r2, t2)
        && Leads(cfg, v.users, v.clock, c, r2, t2, r3, t3)
    ensures Reaches(cfg, v, Arrives(id, r0, [a, b, c]), Moved(v, id, [a, b, c], r3, t3))
  {
    ThreeGo(cfg, v.(requests := v.requests[id := r0]), id, a, b, c, r1, r2, r3, t1, t2, t3);
    ArrivalFollows(cfg, v, id, r0, [a, b, c], [r0, r1, r2, r3], [v.tables, t1, t2, t3]);
  }

  lemma ThreeGo(
      cfg: Config, v: View, id: nat, a: string, b: string, c: string,
      r1: Request, r2: Request, r3: Request, t1: OAuthTables, t2: OAuthTables, t3: OAuthTables)
    requires id in v.requests && NewAndDistinct(v, [a, b, c])
        && Leads(cfg, v.users, v.clock, a, v.requests[id], v.tables, r1, t1)
    requires Leads(cfg, v.users, v.clock, b, r1, t1, r2, t2) && Leads(cfg, v.users, v.clock, c, r2, t2, r3, t3)
    ensures Goes(cfg, v, id, [a, b, c], [v.requests[id], r1, r2, r3], [v.tables, t1, t2, t3])
  {
    ThreeLead(cfg, v, [a, b, c], [v.requests[id], r1, r2, r3], [v.tables, t1, t2, t3]);
  }

  lemma ThreeLead(cfg: Config, v: View, draws: seq<string>, rs: seq<Request>, ts: seq<OAuthTables>)
    requires |draws| == 3 && |rs| == |ts| == 4
    requires Leads(cfg, v.users, v.clock, draws[0], rs[0], ts[0], rs[1], ts[1])
    requires Leads(cfg, v.users, v.clock, draws[1], rs[1], ts[1], rs[2], ts[2])
    requires Leads(cfg, v.users, v.clock, draws[2], rs[2], ts[2], rs[3], ts[3])
    ensures forall i :: 0 <= i < 3 ==>
                Leads(cfg, v.users, v.clock, draws[i], rs[i], ts[i], rs[i + 1], ts[i + 1])
  {
    forall i | 0 <= i < 3
      ensures Leads(cfg, v.users, v.clock, draws[i], rs[i], ts[i], rs[i + 1], ts[i + 1])
    {
      assert i == 0 || i == 1 || i == 2;
    }
  }

  lemma ApprovalLeads(cfg: Config, v: View, uid: string, q: AuthzRequest, a: string, b: string, secret: string)
    requires GetConsent(v.tables, uid, q.client.id).None?
    ensures var read := ConsentRead(uid, q, q.scopes, v.clock, v.clock);
            var t1 := SaveConsent(v.tables, Consent(uid, q.client.id, JoinScopes(q.scopes), v.clock, v.clock));
            var t2 := CreateCode(t1, NewCode(cfg, uid, q, secret, v.clock));
            && Leads(cfg, v.users, v.clock, a, Approved(uid, q), v.tables, read, v.tables)
            && Leads(cfg, v.users, v.clock, b, read, v.tables, CodeReady(uid, q), t1)
            && Leads(cfg, v.users, v.clock, secret, CodeReady(uid, q), t1, Done(CodeSent(secret)), t2)
  {
  }

  /** The user approves; a code is issued. */
  lemma CodeIssued(cfg: Config, v: View, id: nat, uid: string, q: AuthzRequest, a: string, b: string, secret: string)
    requires May(cfg, v, Begin(id, Approved(uid, q))) && GetConsent(v.tables, uid, q.client.id).None?
    requires NewAndDistinct(v, [a, b, secret])
    ensures var draws := [a, b, secret];
            var consented := SaveConsent(v.tables, Consent(uid, q.client.id, JoinScopes(q.scopes), v.clock, v.clock));
            Reaches(cfg, v, Arrives(id, Approved(uid, q), draws),
               Moved(v, id, draws, Done(CodeSent(secret)),
                     CreateCode(consented, NewCode(cfg, uid, q, secret, v.clock))))
  {
    var t1 := SaveConsent(v.tables, Consent(uid, q.client.id, JoinScopes(q.scopes), v.clock, v.clock));
    var t2 := CreateCode(t1, NewCode(cfg, uid, q, secret, v.clock));
    ApprovalLeads(cfg, v, uid, q, a, b, secret);
    ThreeCalls(cfg, v, id, a, b, secret, Approved(uid, q), ConsentRead(uid, q, q.scopes, v.clock, v.clock),
               CodeReady(uid, q),
               Done(CodeSent(secret)), v.tables, t1, t2);
  }

  lemma RedemptionLeads(cfg: Config, v: View, rq: CodeRequest, a: string, b: string, gid: string)
    requires Redeemable(cfg, v.tables, v.users, v.clock, rq)
        && v.tables.codes[Sha256(rq.code)].codeHash == Sha256(rq.code)
    ensures var code, t := v.tables.codes[Sha256(rq.code)], v.tables;
            var checked, user := RedeemChecked(rq, code, v.clock), RedeemUser(rq, code, v.clock, v.users[code.userID]);
            && Leads(cfg, v.users, v.clock, a, Redeem(rq), t, checked, t)
                && Leads(cfg, v.users, v.clock, b, checked, t, user, t)
            && Leads(cfg, v.users, v.clock, gid, user, t, RedeemWon(rq, code, v.clock, v.users[code.userID], gid),
                     MarkCodeUsed(t, Sha256(rq.code), gid, v.clock))
  {
  }

  /** A redemption up to recording the grant id on the code. */
  lemma CodeWon(cfg: Config, v: View, id: nat, rq: CodeRequest, a: string, b: string, gid: string)
    requires id !in v.requests && Redeemable(cfg, v.tables, v.users, v.clock, rq) && NewAndDistinct(v, [a, b, gid])
    requires v.tables.codes[Sha256(rq.code)].codeHash == Sha256(rq.code)
    ensures var draws, code := [a, b, gid], v.tables.codes[Sha256(rq.code)];
            Reaches(cfg, v, Arrives(id, Redeem(rq), draws),
               Moved(v, id, draws, RedeemWon(rq, code, v.clock, v.users[code.userID], gid),
                     MarkCodeUsed(v.tables, Sha256(rq.code), gid, v.clock)))
  {
    var code, t := v.tables.codes[Sha256(rq.code)], v.tables;
    var user := v.users[code.userID];
    RedemptionLeads(cfg, v, rq, a, b, gid);
    ThreeCalls(cfg, v, id, a, b, gid, Redeem(rq), RedeemChecked(rq, code, v.clock), RedeemUser(rq, code, v.clock, user),
               RedeemWon(rq, code, v.clock, user, gid), t, t, MarkCodeUsed(t, Sha256(rq.code), gid, v.clock));
  }

  /** The rest of the redemption up to signing, for a client that may refresh. */
  lemma GrantCreated(cfg: Config, v: View, id: nat, secret: string, b: string)
    requires id in v.requests && v.requests[id].RedeemWon? && NewAndDistinct(v, [secret, b])
    requires var r := v.requests[id];
        r.codeRequest.client.cimd && IssuesRefresh(cfg, r.codeRequest.client, ScopesOf(r.code.scopes))
    ensures var draws, r := [secret, b], v.requests[id];
            var g := GrantFor(cfg, r.codeRequest, r.code, r.user, r.gid, secret, r.now);
            Reaches(cfg, v, Calls(id, draws),
               Moved(v, id, draws, Signing(r.user, g, ScopesOf(g.scopes), RefreshTokenOf(r.gid, secret), r.now),
                     CreateGrant(v.tables, g)))
  {
    var draws, r := [secret, b], v.requests[id];
    var g := GrantFor(cfg, r.codeRequest, r.code, r.user, r.gid, secret, r.now);
    var refresh := RefreshTokenOf(r.gid, secret);
    var rs := [r, RedeemCreated(r.codeRequest, r.now, r.user, g, refresh),
               Signing(r.user, g, ScopesOf(g.scopes), refresh, r.now)];
    var ts := [v.tables, CreateGrant(v.tables, g), CreateGrant(v.tables, g)];
    assert Leads(cfg, v.users, v.clock, secret, rs[0], ts[0], rs[1], ts[1]);
    assert Leads(cfg, v.users, v.clock, b, rs[1], ts[1], rs[2], ts[2]);
    CallsFollow(cfg, v, id, draws, rs, ts);
  }

  /** The answer: the token is signed with a clock reading of its own. */
  lemma TokenSigned(cfg: Config, v: View, id: nat, a: string)
    requires id in v.requests && v.requests[id].Signing? && NewAndDistinct(v, [a])
    ensures var r := v.requests[id];
            var answer := Tokens(TokenResponse(SignToken(cfg, r.user, r.grant, r.scopes, v.clock), r.refresh,
                                               JoinScopes(r.scopes)));
            Reaches(cfg, v, Calls(id, [a]), Moved(v, id, [a], Done(answer), v.tables))
  {
    var r := v.requests[id];
    var answer := Tokens(TokenResponse(SignToken(cfg, r.user, r.grant, r.scopes, v.clock), r.refresh,
                                       JoinScopes(r.scopes)));
    assert Leads(cfg, v.users, v.clock, a, r, v.tables, Done(answer), v.tables);
    CallsFollow(cfg, v, id, [a], [r, Done(answer)], [v.tables, v.tables]);
  }

  /** A replay of a used code, to its answer. */
  lemma CodeReplayed(cfg: Config, v: View, id: nat, rq: CodeRequest, a: string, b: string)
    requires id !in v.requests && ClientAllows(rq.client, AUTHORIZATION_CODE) && rq.code != ""
        && Sha256(rq.code) in v.tables.codes
    requires v.tables.codes[Sha256(rq.code)].usedAt.Some? && v.tables.codes[Sha256(rq.code)].grantID != ""
    requires NewAndDistinct(v, [a, b])
    ensures var draws, gid := [a, b], v.tables.codes[Sha256(rq.code)].grantID;
            Reaches(cfg, v, Arrives(id, Redeem(rq), draws),
               Moved(v, id, draws, Done(Refused(InvalidGrant)), DeleteGrant(v.tables, gid)))
  {
    var draws, gid := [a, b], v.tables.codes[Sha256(rq.code)].grantID;
    var rs := [Redeem(rq), Deleting(gid, Refused(InvalidGrant)), Done(Refused(InvalidGrant))];
    var ts := [v.tables, v.tables, DeleteGrant(v.tables, gid)];
    assert Leads(cfg, v.users, v.clock, a, rs[0], ts[0], rs[1], ts[1]);
    assert Leads(cfg, v.users, v.clock, b, rs[1], ts[1], rs[2], ts[2]);
    ArrivalFollows(cfg, v, id, Redeem(rq), draws, rs, ts);
  }

  lemma RefreshLeads(cfg: Config, v: View, rq: RefreshRequest, gid: string, secret: string, draw: string)
    requires ParseRefreshToken(rq.refreshToken) == Some((gid, secret))
    requires Refreshable(cfg, v.tables, v.users, v.clock, rq, gid, secret)
    ensures Leads(cfg, v.users, v.clock, draw, Refresh(rq), v.tables,
                  RefreshChecked(rq, secret, v.tables.grants[gid], v.clock), v.tables)
  {
  }

  lemma RefreshUserLeads(cfg: Config, v: View, rq: RefreshRequest, gid: string, secret: string, draw: string)
    requires Refreshable(cfg, v.tables, v.users, v.clock, rq, gid, secret) && ScopesOf(rq.scope) == []
    ensures var g := v.tables.grants[gid];
            Leads(cfg, v.users, v.clock, draw, RefreshChecked(rq, secret, g, v.clock), v.tables,
                  RefreshUser(rq, secret, g, v.clock, v.users[g.userID], ScopesOf(g.scopes)), v.tables)
  {
  }

  lemma SwapLeads(
      cfg: Config, v: View, rq: RefreshRequest, gid: string, secret: string, u: User, scopes: seq<string>,
      newSecret: string)
    requires gid in v.tables.grants && v.tables.grants[gid].id == gid
    requires v.tables.grants[gid].tokenHash == Sha256(secret)
    ensures var g := v.tables.grants[gid];
            Leads(cfg, v.users, v.clock, newSecret, RefreshUser(rq, secret, g, v.clock, u, scopes), v.tables,
                  Signing(u, g, scopes, RefreshTokenOf(gid, newSecret), v.clock),
                  RotateGrant(v.tables, gid, Sha256(secret), Sha256(newSecret), v.clock + cfg.refreshTokenTTL, v.clock))
  {
  }

  /** A successful refresh up to signing. */
  lemma GrantRotated(
      cfg: Config, v: View, id: nat, rq: RefreshRequest, gid: string, secret: string, a: string, b: string,
          newSecret: string)
    requires id !in v.requests && ParseRefreshToken(rq.refreshToken) == Some((gid, secret)) && ScopesOf(rq.scope) == []
    requires Refreshable(cfg, v.tables, v.users, v.clock, rq, gid, secret) && v.tables.grants[gid].id == gid
    requires NewAndDistinct(v, [a, b, newSecret])
    ensures var draws, g := [a, b, newSecret], v.tables.grants[gid];
            Reaches(cfg, v, Arrives(id, Refresh(rq), draws),
               Moved(v, id, draws, Signing(v.users[g.userID], g, ScopesOf(g.scopes), RefreshTokenOf(gid, newSecret),
                                           v.clock),
                     RotateGrant(v.tables, gid, Sha256(secret), Sha256(newSecret), v.clock + cfg.refreshTokenTTL,
                                 v.clock)))
  {
    var t, g, now := v.tables, v.tables.grants[gid], v.clock;
    var u, scopes := v.users[g.userID], ScopesOf(g.scopes);
    RefreshLeads(cfg, v, rq, gid, secret, a);
    RefreshUserLeads(cfg, v, rq, gid, secret, b);
    SwapLeads(cfg, v, rq, gid, secret, u, scopes, newSecret);
    ThreeCalls(cfg, v, id, a, b, newSecret, Refresh(rq), RefreshChecked(rq, secret, g, now),
               RefreshUser(rq, secret, g, now, u, scopes),
               Signing(u, g, scopes, RefreshTokenOf(gid, newSecret), now), t, t,
               RotateGrant(t, gid, Sha256(secret), Sha256(newSecret), now + cfg.refreshTokenTTL, now));
  }

  /** An older secret presented by its client. */
  lemma OldSecretRefused(cfg: Config, v: View, id: nat, rq: RefreshRequest, gid: string, secret: string, a: string)
    requires id !in v.requests && ParseRefreshToken(rq.refreshToken) == Some((gid, secret)) && gid in v.tables.grants
    requires ClientAllows(rq.client, REFRESH_TOKEN) && NewAndDistinct(v, [a])
    requires v.tables.grants[gid].tokenHash != Sha256(secret) && v.tables.grants[gid].prevTokenHash != Sha256(secret)
    ensures Reaches(cfg, v, Arrives(id, Refresh(rq), [a]), Moved(v, id, [a], Done(Refused(InvalidGrant)), v.tables))
  {
    var refused := Done(Refused(InvalidGrant));
    assert Leads(cfg, v.users, v.clock, a, Refresh(rq), v.tables, refused, v.tables);
    ArrivalFollows(cfg, v, id, Refresh(rq), [a], [Refresh(rq), refused], [v.tables, v.tables]);
  }

  // ---------- draws ----------

  /** The k-th value drawn: as many letters. */
  function D(k: nat): (d: string)
    ensures |d| == k && forall c :: c in d ==> c == 'x'
  {
    seq(k, i => 'x')
  }

  /** Only the first n values have been drawn, and only the first m requests have arrived. */
  predicate Fresher(v: View, n: nat, m: nat) {
    (forall d :: d in v.drawn ==> |d| <= n) && (forall id :: id in v.requests ==> id <= m)
  }

  lemma ThreeDraws(v: View, n: nat, m: nat)
    requires Fresher(v, n, m)
    ensures var draws := [D(n + 1), D(n + 2), D(n + 3)];
            NewAndDistinct(v, draws) && forall d :: d in v.drawn + Elements(draws) ==> |d| <= n + 3
  {
  }

  lemma TwoDraws(v: View, n: nat, m: nat)
    requires Fresher(v, n, m)
    ensures var draws := [D(n + 1), D(n + 2)];
            NewAndDistinct(v, draws) && forall d :: d in v.drawn + Elements(draws) ==> |d| <= n + 2
  {
  }

  lemma OneDraw(v: View, n: nat, m: nat)
    requires Fresher(v, n, m)
    ensures NewAndDistinct(v, [D(n + 1)]) && forall d :: d in v.drawn + Elements([D(n + 1)]) ==> |d| <= n + 1
  {
  }

  // ---------- one user, one client ----------

  function Verifier(): string {
    seq(43, i => 'a')
  }

  function Challenge(): string {
    seq(43, i => 'A')
  }

  /** Lifetimes of 60, 10 and 20 seconds for codes, access tokens and grants. */
  function Demo(sc: seq<string>): Config {
    Config(sc, None, ["r"], 60 * SECOND, 10 * SECOND, 20 * SECOND, 0, false,
           (r: string) => Some(r), (registered: seq<string>, u: string) => true, (v: string) => Challenge())
  }

  const CLIENT := ResolvedClient("client", [], [], true)
  const USER := User("u", "", "", false, "", "stamp", "", "", false, false, None, false, 0, false, 0)

  function Authz(sc: seq<string>): AuthzRequest {
    AuthzRequest(CLIENT, "uri", sc, "r", Challenge())
  }

  function Presented(): CodeRequest {
    CodeRequest(CLIENT, D(3), "uri", Verifier(), "")
  }

  /** The code, drawn third. */
  function IssuedCode(sc: seq<string>): Code {
    Code(Sha256(D(3)), "client", "u", "uri", JoinScopes(sc), "r", Challenge(), 60 * SECOND, None, "")
  }

  /** The grant, whose id is drawn sixth, with the k-th value for its secret. */
  function NewGrantOf(sc: seq<string>, k: nat): Grant {
    GrantFor(Demo(sc), Presented(), IssuedCode(sc), USER, D(6), D(k), 0)
  }

  function Beginning(): State {
    Start(map["u" := USER], 0)
  }

  lemma DemoIsValidated(sc: seq<string>)
    ensures Validated(Demo(sc), Authz(sc))
  {
    var p := AuthzParams("code", "uri", "", "", Challenge(), "S256");
    assert ScopesOf(p.scope) == [];
    assert ParseAuthz(Demo(sc), CLIENT, p) == Ok(Authz(sc));
  }

  predicate Base(v: View, n: nat, m: nat, clock: int) {
    v.users == map["u" := USER] && v.clock == clock && Fresher(v, n, m)
  }

  predicate AtBeginning(v: View) {
    v == ViewOf(Beginning())
  }

  /** The code has been issued. */
  predicate AtIssued(sc: seq<string>, v: View) {
    && Base(v, 3, 1, 0) && v.tables.grants == map[]
    && Sha256(D(3)) in v.tables.codes && v.tables.codes[Sha256(D(3))] == IssuedCode(sc)
  }

  /** The redemption has recorded the grant id and not created the grant yet. */
  predicate AtWon(sc: seq<string>, v: View, n: nat, m: nat) {
    && Base(v, n, m, 0) && v.tables.grants == map[]
    && 2 in v.requests && v.requests[2] == RedeemWon(Presented(), IssuedCode(sc), 0, USER, D(6))
    && Sha256(D(3)) in v.tables.codes && v.tables.codes[Sha256(D(3))] == IssuedCode(sc).(usedAt := Some(0),
            grantID := D(6))
  }

  function ReadyToSign(sc: seq<string>, k: nat): Request {
    Signing(USER, NewGrantOf(sc, k), ScopesOf(NewGrantOf(sc, k).scopes), RefreshTokenOf(D(6), D(k)), 0)
  }

  /** The grant has been created; its token is about to be signed. */
  predicate AtGranted(sc: seq<string>, v: View, n: nat, m: nat, clock: int, k: nat) {
    Base(v, n, m, clock) && v.tables.grants == map[D(6) := NewGrantOf(sc, k)] && 2 in v.requests
        && v.requests[2] == ReadyToSign(sc, k)
  }

  /** The answer of the redemption, signed at the given time. */
  function Answered(sc: seq<string>, k: nat, at: int): Outcome {
    var g := NewGrantOf(sc, k);
    Tokens(TokenResponse(SignToken(Demo(sc), USER, g, ScopesOf(g.scopes), at), RefreshTokenOf(D(6), D(k)),
                         JoinScopes(ScopesOf(g.scopes))))
  }

  predicate AtAnswered(sc: seq<string>, v: View, clock: int, k: nat, signedAt: int) {
    && v.users == map["u" := USER] && v.clock == clock && v.tables.grants == map[D(6) := NewGrantOf(sc, k)]
    && 2 in v.requests && v.requests[2] == Done(Answered(sc, k, signedAt))
  }

  function Issue(sc: seq<string>): seq<Event> {
    Arrives(1, Approved("u", Authz(sc)), [D(1), D(2), D(3)])
  }

  function Win(): seq<Event> {
    Arrives(2, Redeem(Presented()), [D(4), D(5), D(6)])
  }

  function Create(n: nat): seq<Event> {
    Calls(2, [D(n + 1), D(n + 2)])
  }

  function Sign(n: nat): seq<Event> {
    Calls(2, [D(n + 1)])
  }

  function IssuedView(sc: seq<string>, v: View): View {
    var q := Authz(sc);
    var consented := SaveConsent(v.tables, Consent("u", q.client.id, JoinScopes(q.scopes), v.clock, v.clock));
    Moved(v, 1, [D(1), D(2), D(3)], Done(CodeSent(D(3))),
          CreateCode(consented, NewCode(Demo(sc), "u", q, D(3), v.clock)))
  }

  lemma IssuedViewIsIssued(sc: seq<string>, v: View)
    requires AtBeginning(v)
    ensures AtIssued(sc, IssuedView(sc, v))
  {
    ThreeDraws(v, 0, 0);
  }

  /** Nothing has happened yet. */
  predicate Blank(v: View) {
    v.requests == map[] && v.tables.consents == map[] && Fresher(v, 0, 0)
  }

  lemma BeginningIsBlank(v: View)
    requires AtBeginning(v)
    ensures Blank(v)
  {
  }

  lemma FirstDraws(v: View)
    requires Blank(v)
    ensures NewAndDistinct(v, [D(1), D(2), D(3)])
  {
    ThreeDraws(v, 0, 0);
  }

  lemma MayApprove(sc: seq<string>, v: View)
    requires Blank(v)
    ensures May(Demo(sc), v, Begin(1, Approved("u", Authz(sc))))
    ensures GetConsent(v.tables, "u", Authz(sc).client.id).None?
  {
    DemoIsValidated(sc);
    assert BAR !in "u";
  }

  lemma IssueReaches(sc: seq<string>, v: View)
    requires Blank(v)
    ensures Reaches(Demo(sc), v, Issue(sc), IssuedView(sc, v))
  {
    MayApprove(sc, v);
    FirstDraws(v);
    CodeIssued(Demo(sc), v, 1, "u", Authz(sc), D(1), D(2), D(3));
  }

  predicate CanRedeem(sc: seq<string>, v: View) {
    2 !in v.requests && Redeemable(Demo(sc), v.tables, v.users, v.clock, Presented())
    && v.tables.codes[Sha256(Presented().code)].codeHash == Sha256(Presented().code)
  }

  function WonView(sc: seq<string>, v: View): View
    requires CanRedeem(sc, v)
  {
    var rq := Presented();
    var code := v.tables.codes[Sha256(rq.code)];
    Moved(v, 2, [D(4), D(5), D(6)], RedeemWon(rq, code, v.clock, v.users[code.userID], D(6)),
          MarkCodeUsed(v.tables, Sha256(rq.code), D(6), v.clock))
  }

  lemma MayRedeem(sc: seq<string>, v: View)
    requires AtIssued(sc, v)
    ensures CanRedeem(sc, v) && NewAndDistinct(v, [D(4), D(5), D(6)])
  {
    ThreeDraws(v, 3, 1);
  }

  lemma WonViewIsWon(sc: seq<string>, v: View)
    requires AtIssued(sc, v) && CanRedeem(sc, v)
    ensures AtWon(sc, WonView(sc, v), 6, 2)
  {
    ThreeDraws(v, 3, 1);
  }

  lemma WinReaches(sc: seq<string>, v: View)
    requires CanRedeem(sc, v) && NewAndDistinct(v, [D(4), D(5), D(6)])
    ensures Reaches(Demo(sc), v, Win(), WonView(sc, v))
  {
    CodeWon(Demo(sc), v, 2, Presented(), D(4), D(5), D(6));
  }

  lemma IssuingAndWinning(sc: seq<string>) returns (w: View)
    ensures Reaches(Demo(sc), ViewOf(Beginning()), Issue(sc) + Win(), w) && AtWon(sc, w, 6, 2)
  {
    var v := IssuedView(sc, ViewOf(Beginning()));
    BeginningIsBlank(ViewOf(Beginning()));
    IssueReaches(sc, ViewOf(Beginning()));
    IssuedViewIsIssued(sc, ViewOf(Beginning()));
    MayRedeem(sc, v);
    w := WonView(sc, v);
    WinReaches(sc, v);
    WonViewIsWon(sc, v);
    ReachesConcat(Demo(sc), ViewOf(Beginning()), Issue(sc), v, Win(), w);
  }

  lemma Creating(sc: seq<string>, v: View, n: nat, m: nat) returns (w: View)
    requires AtWon(sc, v, n, m)
    ensures Reaches(Demo(sc), v, Create(n), w) && AtGranted(sc, w, n + 2, m, 0, n + 1)
        && w.requests == v.requests[2 := ReadyToSign(sc, n + 1)]
  {
    w := Moved(v, 2, [D(n + 1), D(n + 2)], ReadyToSign(sc, n + 1), CreateGrant(v.tables, NewGrantOf(sc, n + 1)));
    TwoDraws(v, n, m);
    GrantCreated(Demo(sc), v, 2, D(n + 1), D(n + 2));
  }

  lemma AnswerSigned(sc: seq<string>, v: View, n: nat, m: nat, clock: int, k: nat) returns (w: View)
    requires AtGranted(sc, v, n, m, clock, k)
    ensures Reaches(Demo(sc), v, Sign(n), w) && AtAnswered(sc, w, clock, k, clock)
        && w.requests == v.requests[2 := Done(Answered(sc, k, clock))]
  {
    w := Moved(v, 2, [D(n + 1)], Done(Answered(sc, k, clock)), v.tables);
    OneDraw(v, n, m);
    TokenSigned(Demo(sc), v, 2, D(n + 1));
  }

  lemma Granting(sc: seq<string>) returns (w: View)
    ensures Reaches(Demo(sc), ViewOf(Beginning()), Issue(sc) + Win() + Create(6), w) && AtGranted(sc, w, 8, 2, 0, 7)
  {
    var v := IssuingAndWinning(sc);
    w := Creating(sc, v, 6, 2);
    ReachesConcat(Demo(sc), ViewOf(Beginning()), Issue(sc) + Win(), v, Create(6), w);
  }

  // ---------- a replay that comes too early ----------

  function Replay(): seq<Event> {
    Arrives(3, Redeem(Presented()), [D(7), D(8)])
  }

  function ReplayedView(v: View): View {
    Moved(v, 3, [D(7), D(8)], Done(Refused(InvalidGrant)), DeleteGrant(v.tables, D(6)))
  }

  lemma ReplayedViewIsWon(sc: seq<string>, v: View)
    requires AtWon(sc, v, 6, 2)
    ensures AtWon(sc, ReplayedView(v), 8, 3)
  {
    TwoDraws(v, 6, 2);
  }

  lemma ReplayReaches(sc: seq<string>, v: View)
    requires AtWon(sc, v, 6, 2)
    ensures Reaches(Demo(sc), v, Replay(), ReplayedView(v))
  {
    TwoDraws(v, 6, 2);
    CodeReplayed(Demo(sc), v, 3, Presented(), D(7), D(8));
  }

  /** The redemption goes on, whatever the other requests are. */
  lemma CreatingAndSigning(sc: seq<string>, v: View) returns (w: View)
    requires AtWon(sc, v, 8, 3)
    ensures Reaches(Demo(sc), v, Create(8) + Sign(10), w) && AtAnswered(sc, w, 0, 9, 0)
    ensures w.requests == v.requests[2 := Done(Answered(sc, 9, 0))]
  {
    var m := Creating(sc, v, 8, 3);
    w := AnswerSigned(sc, m, 10, 3, 0, 9);
    SameSlot(v.requests, 2, ReadyToSign(sc, 9), Done(Answered(sc, 9, 0)));
    ReachesConcat(Demo(sc), v, Create(8), m, Sign(10), w);
  }

  lemma OtherSlot(requests: map<nat, Request>, id: nat, r: Request, other: nat, r': Request)
    requires id != other
    ensures var after := requests[id := r][other := r']; id in after && after[id] == r
  {
  }

  lemma SameSlot(requests: map<nat, Request>, id: nat, r: Request, r': Request)
    ensures requests[id := r][id := r'] == requests[id := r']
  {
  }

  lemma ReplayingThenCreating(sc: seq<string>, v: View) returns (w: View)
    requires AtWon(sc, v, 6, 2)
    ensures Reaches(Demo(sc), v, Replay() + (Create(8) + Sign(10)), w) && AtAnswered(sc, w, 0, 9, 0)
    ensures 3 in w.requests && w.requests[3] == Done(Refused(InvalidGrant))
  {
    ReplayReaches(sc, v);
    ReplayedViewIsWon(sc, v);
    w := CreatingAndSigning(sc, ReplayedView(v));
    OtherSlot(v.requests, 3, Done(Refused(InvalidGrant)), 2, Done(Answered(sc, 9, 0)));
    ReachesConcat(Demo(sc), v, Replay(), ReplayedView(v), Create(8) + Sign(10), w);
  }

  /** A run in which a code is replayed while its redemption is pending: the replay is refused and
      deletes nothing, and the redemption goes on to create its grant and answer with a token that validates. */
  lemma EarlyReplayExample(sc: seq<string>)
    ensures var first, rest, gid := Issue(sc) + Win(), Replay() + (Create(8) + Sign(10)), D(6);
            && CanRun(Demo(sc), Beginning(), first)
            && var p := Run(Demo(sc), Beginning(), first);
               && Pending(p, gid) && CanRun(Demo(sc), p, rest)
               && var z := Run(Demo(sc), p, rest);
                  && 3 in z.requests && z.requests[3] == Done(Refused(InvalidGrant)) && gid in z.tables.grants
                  && 2 in z.requests && z.requests[2].Done? && z.requests[2].outcome.Tokens?
                  && Validates(Demo(sc), z.tables, z.users, z.requests[2].outcome.response.accessToken, "r", z.clock)
  {
    var v := IssuingAndWinning(sc);
    RunViewed(Demo(sc), Beginning(), Issue(sc) + Win(), v);
    var p := Run(Demo(sc), Beginning(), Issue(sc) + Win());
    WonIsPending(sc, p);
    var w := ReplayingThenCreating(sc, v);
    RunViewed(Demo(sc), p, Replay() + (Create(8) + Sign(10)), w);
    AnsweredValidates(sc, w, 0, 9, 0);
  }

  lemma WonIsPending(sc: seq<string>, p: State)
    requires AtWon(sc, ViewOf(p), 6, 2)
    ensures Pending(p, D(6))
  {
    assert 2 in p.requests && p.requests[2].RedeemWon?;
  }

  lemma AnsweredValidates(sc: seq<string>, v: View, clock: int, k: nat, signedAt: int)
    requires AtAnswered(sc, v, clock, k, signedAt) && 0 <= signedAt <= clock < signedAt + 10 * SECOND
        && signedAt % SECOND == 0
    ensures Validates(Demo(sc), v.tables, v.users, Answered(sc, k, signedAt).response.accessToken, "r", clock)
  {
  }

  // ---------- an old refresh secret ----------

  function RefreshWith(k: nat): RefreshRequest {
    RefreshRequest(CLIENT, RefreshTokenOf(D(6), D(k)), "", "")
  }

  /** The demonstration grant with the k-th value for its secret, after the one it had before. */
  predicate AtHolding(v: View, n: nat, m: nat, k: nat, before: Digest) {
    && Base(v, n, m, 0) && v.tables.grants.Keys == {D(6)}
    && var g := v.tables.grants[D(6)];
       && g.id == D(6) && g.userID == "u" && g.clientID == "client" && g.resource == "r" && g.securityStamp == "stamp"
       && g.expiresAt == 20 * SECOND && g.tokenHash == Sha256(D(k)) && g.prevTokenHash == before
  }

  function Rotate(id: nat, n: nat, k: nat): seq<Event> {
    Arrives(id, Refresh(RefreshWith(k)), [D(n + 1), D(n + 2), D(n + 3)])
  }

  lemma ParsesBack(k: nat)
    requires k > 0
    ensures ParseRefreshToken(RefreshWith(k).refreshToken) == Some((D(6), D(k))) && ScopesOf(RefreshWith(k).scope) == []
  {
    RefreshTokenRoundTrip(D(6), D(k));
    assert ScopesOf("") == [];
  }

  function RotatedView(v: View, n: nat, m: nat, k: nat): View
    requires D(6) in v.tables.grants
  {
    var g := v.tables.grants[D(6)];
    Moved(v, m + 1, [D(n + 1), D(n + 2), D(n + 3)],
          Signing(USER, g, ScopesOf(g.scopes), RefreshTokenOf(D(6), D(n + 3)), 0),
          RotateGrant(v.tables, D(6), Sha256(D(k)), Sha256(D(n + 3)), 20 * SECOND, 0))
  }

  lemma RotatedHolds(sc: seq<string>, v: View, n: nat, m: nat, k: nat, before: Digest)
    requires AtHolding(v, n, m, k, before)
    ensures Refreshable(Demo(sc), v.tables, v.users, v.clock, RefreshWith(k), D(6), D(k))
    ensures AtHolding(RotatedView(v, n, m, k), n + 3, m + 1, n + 3, Sha256(D(k)))
  {
    assert ScopesOf("") == [];
    ThreeDraws(v, n, m);
  }

  lemma Rotating(sc: seq<string>, v: View, n: nat, m: nat, k: nat, before: Digest) returns (w: View)
    requires AtHolding(v, n, m, k, before) && k > 0
    ensures Reaches(Demo(sc), v, Rotate(m + 1, n, k), w) && AtHolding(w, n + 3, m + 1, n + 3, Sha256(D(k)))
  {
    w := RotatedView(v, n, m, k);
    ParsesBack(k);
    ThreeDraws(v, n, m);
    RotatedHolds(sc, v, n, m, k, before);
    GrantRotated(Demo(sc), v, m + 1, RefreshWith(k), D(6), D(k), D(n + 1), D(n + 2), D(n + 3));
  }

  /** The first secret again, by the fifth request. */
  function Old(): seq<Event> {
    Arrives(5, Refresh(RefreshWith(7)), [D(15)])
  }

  /** The fifth request was refused; the grant shows its third and its second secret. */
  predicate AtRefused(v: View) {
    && 5 in v.requests && v.requests[5] == Done(Refused(InvalidGrant)) && D(6) in v.tables.grants
    && v.tables.grants[D(6)].tokenHash == Sha256(D(14)) && v.tables.grants[D(6)].prevTokenHash == Sha256(D(11))
  }

  lemma Refusing(sc: seq<string>, v: View) returns (w: View)
    requires AtHolding(v, 14, 4, 14, Sha256(D(11)))
    ensures Reaches(Demo(sc), v, Old(), w) && AtRefused(w)
  {
    w := Moved(v, 5, [D(15)], Done(Refused(InvalidGrant)), v.tables);
    ParsesBack(7);
    OneDraw(v, 14, 4);
    OldSecretRefused(Demo(sc), v, 5, RefreshWith(7), D(6), D(7), D(15));
  }

  lemma RotatingThenRefusing(sc: seq<string>, v: View) returns (w: View)
    requires AtHolding(v, 11, 3, 11, Sha256(D(7)))
    ensures Reaches(Demo(sc), v, Rotate(4, 11, 11) + Old(), w) && AtRefused(w)
  {
    var m := Rotating(sc, v, 11, 3, 11, Sha256(D(7)));
    w := Refusing(sc, m);
    ReachesConcat(Demo(sc), v, Rotate(4, 11, 11), m, Old(), w);
  }

  lemma RotatingTwice(sc: seq<string>, v: View) returns (w: View)
    requires AtHolding(v, 8, 2, 7, NoDigest)
    ensures Reaches(Demo(sc), v, Rotate(3, 8, 7) + (Rotate(4, 11, 11) + Old()), w) && AtRefused(w)
  {
    var m := Rotating(sc, v, 8, 2, 7, NoDigest);
    w := RotatingThenRefusing(sc, m);
    ReachesConcat(Demo(sc), v, Rotate(3, 8, 7), m, Rotate(4, 11, 11) + Old(), w);
  }

  lemma GrantedHolds(sc: seq<string>, v: View)
    requires AtGranted(sc, v, 8, 2, 0, 7)
    ensures AtHolding(v, 8, 2, 7, NoDigest)
  {
  }

  /** A run with two rotations, after which the client presents the first secret: it is refused, and
      the grant stays. */
  lemma OldSecretExample(sc: seq<string>)
    ensures var es, gid := Issue(sc) + Win() + Create(6) + (Rotate(3, 8, 7) + (Rotate(4, 11, 11) + Old())), D(6);
            && CanRun(Demo(sc), Beginning(), es)
            && var z := Run(Demo(sc), Beginning(), es);
               && 5 in z.requests && z.requests[5] == Done(Refused(InvalidGrant)) && gid in z.tables.grants
               && z.tables.grants[gid].tokenHash == Sha256(D(14)) && z.tables.grants[gid].prevTokenHash == Sha256(D(11))
  {
    var v := Granting(sc);
    GrantedHolds(sc, v);
    var w := RotatingTwice(sc, v);
    var rest := Rotate(3, 8, 7) + (Rotate(4, 11, 11) + Old());
    ReachesConcat(Demo(sc), ViewOf(Beginning()), Issue(sc) + Win() + Create(6), v, rest, w);
    RunViewed(Demo(sc), Beginning(), Issue(sc) + Win() + Create(6) + rest, w);
  }

  // ---------- a token signed late ----------

  const LATE := 15 * SECOND
  const SWEEP_AT := 21 * SECOND

  function SignLate(): seq<Event> {
    [Tick(LATE)] + (Sign(8) + [Tick(SWEEP_AT)])
  }

  lemma SigningLate(sc: seq<string>, v: View) returns (w: View)
    requires AtGranted(sc, v, 8, 2, 0, 7)
    ensures Reaches(Demo(sc), v, SignLate(), w) && AtAnswered(sc, w, SWEEP_AT, 7, LATE)
  {
    var v1 := v.(clock := LATE);
    ReachesStep(Demo(sc), v, Tick(LATE));
    var v2 := AnswerSigned(sc, v1, 8, 2, LATE, 7);
    w := v2.(clock := SWEEP_AT);
    ReachesStep(Demo(sc), v2, Tick(SWEEP_AT));
    ReachesConcat(Demo(sc), v1, Sign(8), v2, [Tick(SWEEP_AT)], w);
    ReachesConcat(Demo(sc), v, [Tick(LATE)], v1, Sign(8) + [Tick(SWEEP_AT)], w);
  }

  /** A run in which a token is signed 15 seconds after its handler read the clock, with lifetimes of
      10 seconds for tokens and 20 for grants: at 21 seconds it validates, and a sweep then ends it. */
  lemma LateTokenExample(sc: seq<string>)
    ensures var es := Issue(sc) + Win() + Create(6) + SignLate();
            && CanRun(Demo(sc), Beginning(), es)
            && var z := Run(Demo(sc), Beginning(), es);
               && z.clock == SWEEP_AT && Enabled(Demo(sc), z, SweepGrants(SWEEP_AT))
               && 2 in z.requests && z.requests[2].Done? && z.requests[2].outcome.Tokens?
               && var at := z.requests[2].outcome.response.accessToken;
                  && Validates(Demo(sc), z.tables, z.users, at, "r", SWEEP_AT)
                  && !Validates(Demo(sc), Apply(Demo(sc), z, SweepGrants(SWEEP_AT)).tables, z.users, at, "r", SWEEP_AT)
  {
    var v := Granting(sc);
    var w := SigningLate(sc, v);
    ReachesConcat(Demo(sc), ViewOf(Beginning()), Issue(sc) + Win() + Create(6), v, SignLate(), w);
    RunViewed(Demo(sc), Beginning(), Issue(sc) + Win() + Create(6) + SignLate(), w);
    LateTokenEnds(sc, w);
  }

  lemma LateTokenEnds(sc: seq<string>, v: View)
    requires AtAnswered(sc, v, SWEEP_AT, 7, LATE)
    ensures var at := Answered(sc, 7, LATE).response.accessToken;
            && Validates(Demo(sc), v.tables, v.users, at, "r", SWEEP_AT)
            && !Validates(Demo(sc), DeleteExpiredGrants(v.tables, SWEEP_AT), v.users, at, "r", SWEEP_AT)
  {
    AnsweredValidates(sc, v, SWEEP_AT, 7, LATE);
  }
}
