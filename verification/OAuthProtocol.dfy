/** The authorization server as a state machine: any number of requests in flight over one
    store, interleaved at store calls with each other, with the expiry sweeps, with
    revocations and with changes to the users. Assumptions, stated once: random ids and
    secrets are never drawn twice, the clock does not go back, store calls do not fail,
    and an access token whose signature verifies was signed by this server. */
module OAuthProtocol {
  import opened Wrappers
  import opened GoStrings
  import opened Entities
  import opened Scopes
  import opened TableOps
  import opened OAuthRules
  import opened OAuthHandlers

  /** A signed access token with the clock readings behind it: `since` is the first reading
      of the handler that signed it, `at` the one it was signed with. */
  datatype Signed = Signed(token: AccessToken, since: int, at: int)

  /** The code a grant was created from, the grant as it was created, and the request that redeemed the code. */
  datatype Mint = Mint(code: Digest, grant: Grant, request: CodeRequest)

  /** A code issued: for whom, for which request, and when. */
  datatype Issue = Issue(userID: string, authz: AuthzRequest, at: int)

  /** What has happened so far. Entries are only ever added; nothing here influences the system.
      - drawn: every random value drawn;
      - codes: every authorization code, as created;
      - issued: for each of them, the authorization request it was created for;
      - winners: for each redeemed code, the grant id its redemption drew;
      - mints: every grant created;
      - chains: for each grant, the refresh hashes it has had, oldest first;
      - redeemed: for each grant, the hashes of the secrets redeemed successfully, in order;
      - versions: for each refresh hash, the grant row it was installed with;
      - renewed: for each grant, the clock reading behind its current expiry;
      - approved: every (user, client, scope) some user has approved;
      - tokens: every access token signed. */
  datatype History = History(
    drawn: set<string>,
    codes: map<Digest, Code>,
    issued: map<Digest, Issue>,
    winners: map<Digest, string>,
    mints: map<string, Mint>,
    chains: map<string, seq<Digest>>,
    redeemed: map<string, seq<Digest>>,
    versions: map<Digest, Grant>,
    renewed: map<string, int>,
    approved: set<(string, string, string)>,
    tokens: set<Signed>)

  datatype State = State(
    tables: OAuthTables,
    users: map<string, User>,
    clock: int,
    requests: map<nat, Request>,
    log: History)

  datatype Event =
    | Tick(now: int)
    | WriteUser(user: User)
    | DeleteUser(userID: string)
    | Begin(id: nat, request: Request)
    | Advance(id: nat, draw: string)
    | SweepCodes(cutoff: int)
    | SweepGrants(cutoff: int)
    | SweepAssertions(cutoff: int)
    | SweepClients(cutoff: int)
    | DropClientGrants(userID: string, clientID: string)
    | DropConsent(userID: string, clientID: string)

  const EMPTY_LOG := History({}, map[], map[], map[], map[], map[], map[], map[], map[], {}, {})

  function Start(users: map<string, User>, clock: int): State {
    State(OAuthTables(map[], map[], map[], map[], map[]), users, clock, map[], EMPTY_LOG)
  }

  // ---------- the history ----------

  function Approvals(userID: string, q: AuthzRequest): set<(string, string, string)> {
    set sc | sc in ScopeSet(JoinScopes(q.scopes)) :: (userID, q.client.id, sc)
  }

  function LogBegin(log: History, r: Request): History {
    match r
    case Approved(uid, q) => log.(approved := log.approved + Approvals(uid, q))
    case _ => log
  }

  /** The step swaps the grant's refresh hash. */
  predicate Rotates(t: OAuthTables, r: Request) {
    r.RefreshUser? && HashMatches(t, r.grant.id, r.grant.tokenHash)
  }

  /** The step redeems its code. */
  predicate Wins(t: OAuthTables, r: Request) {
    r.RedeemUser? && CodeIsUnused(t, r.code.codeHash)
  }

  function MintedGrant(cfg: Config, env: Env, r: Request): Grant
    requires r.RedeemWon?
  {
    GrantFor(cfg, r.codeRequest, r.code, r.user, r.gid, env.draw, r.now)
  }

  function HashesOf(chains: map<string, seq<Digest>>, gid: string): seq<Digest> {
    if gid in chains then chains[gid] else []
  }

  function CodesAfter(cfg: Config, log: History, env: Env, r: Request): map<Digest, Code> {
    if r.CodeReady? then log.codes[Sha256(env.draw) := NewCode(cfg, r.userID, r.authz, env.draw, env.clock)]
        else log.codes
  }

  function IssuedAfter(log: History, env: Env, r: Request): map<Digest, Issue> {
    if r.CodeReady? then log.issued[Sha256(env.draw) := Issue(r.userID, r.authz, env.clock)] else log.issued
  }

  function WinnersAfter(t: OAuthTables, log: History, env: Env, r: Request): map<Digest, string> {
    if Wins(t, r) then log.winners[r.code.codeHash := env.draw] else log.winners
  }

  function MintsAfter(cfg: Config, log: History, env: Env, r: Request): map<string, Mint> {
    if r.RedeemWon? then log.mints[r.gid := Mint(r.code.codeHash, MintedGrant(cfg, env, r), r.codeRequest)]
        else log.mints
  }

  function ChainsAfter(cfg: Config, t: OAuthTables, log: History, env: Env, r: Request): map<string, seq<Digest>> {
    if r.RedeemWon? then
      var hash := MintedGrant(cfg, env, r).tokenHash;
      log.chains[r.gid := if hash == NoDigest then [] else [hash]]
    else if Rotates(t, r) then log.chains[r.grant.id := HashesOf(log.chains, r.grant.id) + [Sha256(env.draw)]]
    else log.chains
  }

  function RedeemedAfter(t: OAuthTables, log: History, r: Request): map<string, seq<Digest>> {
    if r.RedeemWon? then log.redeemed[r.gid := []]
    else if Rotates(t, r) then log.redeemed[r.grant.id := HashesOf(log.redeemed, r.grant.id) + [Sha256(r.secret)]]
    else log.redeemed
  }

  function VersionsAfter(cfg: Config, t: OAuthTables, log: History, env: Env, r: Request): map<Digest, Grant> {
    if r.RedeemWon? then
      var g := MintedGrant(cfg, env, r);
      if g.tokenHash == NoDigest then log.versions else log.versions[g.tokenHash := g]
    else if Rotates(t, r) then log.versions[Sha256(env.draw) := RotatedRow(cfg, t, env, r)]
    else log.versions
  }

  function RotatedRow(cfg: Config, t: OAuthTables, env: Env, r: Request): Grant
    requires Rotates(t, r)
  {
    NextTables(cfg, t, env, r).grants[r.grant.id]
  }

  function RenewedAfter(t: OAuthTables, log: History, r: Request): map<string, int> {
    if r.RedeemWon? then log.renewed[r.gid := r.now]
    else if Rotates(t, r) then log.renewed[r.grant.id := r.now]
    else log.renewed
  }

  function TokensAfter(cfg: Config, log: History, env: Env, r: Request): set<Signed> {
    if r.Signing? then log.tokens + {Signed(SignToken(cfg, r.user, r.grant, r.scopes, env.clock), r.now, env.clock)}
    else log.tokens
  }

  /** What a step of a request adds to the history. */
  function LogStep(cfg: Config, t: OAuthTables, log: History, env: Env, r: Request): History {
    History(log.drawn + {env.draw}, CodesAfter(cfg, log, env, r), IssuedAfter(log, env, r),
            WinnersAfter(t, log, env, r), MintsAfter(cfg, log, env, r),
            ChainsAfter(cfg, t, log, env, r), RedeemedAfter(t, log, r), VersionsAfter(cfg, t, log, env, r),
            RenewedAfter(t, log, r), log.approved, TokensAfter(cfg, log, env, r))
  }

  // ---------- the transitions ----------

  /** What a new request may be. An authorization request has been validated; a user id is
      the random id given at sign-up, which holds no '|'; a presented access token verifies. */
  ghost predicate MayBegin(cfg: Config, s: State, r: Request) {
    match r
    case Visiting(uid, q) => BAR !in uid && Validated(cfg, q)
    case Approved(uid, q) => BAR !in uid && Validated(cfg, q)
    case Redeem(_) => true
    case Refresh(_) => true
    case RevokeToken(_, AccessForm(token)) => exists st :: st in s.log.tokens && st.token == token
    case RevokeToken(_, RefreshForm(_, _)) => true
    case RevokeOwn(_, _) => true
    case _ => false
  }

  ghost predicate Validated(cfg: Config, q: AuthzRequest) {
    exists p :: ParseAuthz(cfg, q.client, p) == Ok(q)
  }

  predicate Drawable(s: State, draw: string) {
    draw != "" && '.' !in draw && draw !in s.log.drawn
  }

  ghost predicate Enabled(cfg: Config, s: State, e: Event) {
    match e
    case Tick(now) => now >= s.clock
    case Begin(id, r) => id !in s.requests && MayBegin(cfg, s, r)
    case Advance(id, draw) => id in s.requests && Drawable(s, draw)
    case SweepCodes(cutoff) => cutoff <= s.clock
    case SweepGrants(cutoff) => cutoff <= s.clock
    case SweepAssertions(cutoff) => cutoff <= s.clock
    case _ => true
  }

  function Apply(cfg: Config, s: State, e: Event): State {
    match e
    case Tick(now) => s.(clock := now)
    case WriteUser(user) => s.(users := s.users[user.id := user])
    case DeleteUser(uid) => s.(users := s.users - {uid}, tables := CascadeOAuth(s.tables, {uid}))
    case Begin(id, r) => s.(requests := s.requests[id := r], log := LogBegin(s.log, r))
    case Advance(id, draw) => if id in s.requests then AdvanceRequest(cfg, s, id, draw) else s
    case SweepCodes(cutoff) => s.(tables := DeleteExpiredCodes(s.tables, cutoff))
    case SweepGrants(cutoff) => s.(tables := DeleteExpiredGrants(s.tables, cutoff))
    case SweepAssertions(cutoff) => s.(tables := DeleteExpiredAssertions(s.tables, cutoff))
    case SweepClients(cutoff) => s.(tables := DeleteStaleClients(s.tables, cutoff))
    case DropClientGrants(uid, cid) => s.(tables := DeleteUserClientGrants(s.tables, uid, cid))
    case DropConsent(uid, cid) => s.(tables := DeleteConsent(s.tables, uid, cid))
  }

  function AdvanceRequest(cfg: Config, s: State, id: nat, draw: string): State
    requires id in s.requests
  {
    var env := Env(s.users, s.clock, draw);
    var r := s.requests[id];
    State(NextTables(cfg, s.tables, env, r), s.users, s.clock,
          s.requests[id := NextRequest(cfg, s.tables, env, r)], LogStep(cfg, s.tables, s.log, env, r))
  }

  function Run(cfg: Config, s: State, es: seq<Event>): State
    decreases |es|
  {
    if es == [] then s else Run(cfg, Apply(cfg, s, es[0]), es[1..])
  }

  ghost predicate CanRun(cfg: Config, s: State, es: seq<Event>)
    decreases |es|
  {
    es == [] || (Enabled(cfg, s, es[0]) && CanRun(cfg, Apply(cfg, s, es[0]), es[1..]))
  }

  /** The states some run from an empty store leads to. */
  ghost predicate Reachable(cfg: Config, s: State) {
    exists users, clock, es ::
      UsersKeyed(users) && CanRun(cfg, Start(users, clock), es) && s == Run(cfg, Start(users, clock), es)
  }

  ghost predicate UsersKeyed(users: map<string, User>) {
    forall id :: id in users ==> users[id].id == id
  }
}
