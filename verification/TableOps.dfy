/** What each store call does to the tables, as functions on their contents, and the
    algebra of those functions. */
module TableOps {
  import opened Wrappers
  import opened GoStrings
  import opened Entities

  // ---------- keys ----------

  const BAR: char := '|'
  const INTERNAL_PROVIDER := "[go-idento]"

  function TokenKey(userID: string, provider: string, name: string): string {
    userID + [BAR] + provider + [BAR] + name
  }

  function LoginKey(provider: string, key: string): string {
    provider + [BAR] + key
  }

  function ConsentKey(userID: string, clientID: string): string {
    userID + [BAR] + clientID
  }

  // ---------- the OAuth tables ----------

  datatype OAuthTables = OAuthTables(
    clients: map<string, Client>,
    codes: map<Digest, Code>,
    consents: map<string, Consent>,
    grants: map<string, Grant>,
    jtis: map<(string, string), int>)

  function CreateCode(t: OAuthTables, c: Code): OAuthTables {
    t.(codes := t.codes[c.codeHash := c])
  }

  predicate CodeIsUnused(t: OAuthTables, hash: Digest) {
    hash in t.codes && t.codes[hash].usedAt.None?
  }

  /** Marks the code, when it is present and unused. */
  function MarkCodeUsed(t: OAuthTables, hash: Digest, grantID: string, at: int): OAuthTables {
    if CodeIsUnused(t, hash) then
      t.(codes := t.codes[hash := t.codes[hash].(usedAt := Some(at), grantID := grantID)])
    else t
  }

  function GetConsent(t: OAuthTables, userID: string, clientID: string): Option<Consent> {
    var k := ConsentKey(userID, clientID);
    if k in t.consents then Some(t.consents[k]) else None
  }

  /** Upserts the consent row; an existing row keeps its creation time. */
  function SaveConsent(t: OAuthTables, c: Consent): OAuthTables {
    var k := ConsentKey(c.userID, c.clientID);
    var row := if k in t.consents then c.(createdAt := t.consents[k].createdAt) else c;
    t.(consents := t.consents[k := row])
  }

  function DeleteConsent(t: OAuthTables, userID: string, clientID: string): OAuthTables {
    t.(consents := t.consents - {ConsentKey(userID, clientID)})
  }

  function CreateGrant(t: OAuthTables, g: Grant): OAuthTables {
    t.(grants := t.grants[g.id := g])
  }

  function DeleteGrant(t: OAuthTables, id: string): OAuthTables {
    t.(grants := t.grants - {id})
  }

  predicate HashMatches(t: OAuthTables, id: string, hash: Digest) {
    id in t.grants && t.grants[id].tokenHash == hash
  }

  /** Compare-and-swap on the refresh hash. */
  function RotateGrant(t: OAuthTables, id: string, oldHash: Digest, newHash: Digest, expiresAt: int,
                       usedAt: int): OAuthTables {
    if HashMatches(t, id, oldHash) then
      t.(grants := t.grants[id := t.grants[id].(
        prevTokenHash := oldHash, tokenHash := newHash, expiresAt := expiresAt, lastUsedAt := Some(usedAt))])
    else t
  }

  function DeleteUserClientGrants(t: OAuthTables, userID: string, clientID: string): OAuthTables {
    t.(grants := map id | id in t.grants && !(t.grants[id].userID == userID
                                              && t.grants[id].clientID == clientID) :: t.grants[id])
  }

  function DeleteExpiredCodes(t: OAuthTables, before: int): OAuthTables {
    t.(codes := map h | h in t.codes && t.codes[h].expiresAt >= before :: t.codes[h])
  }

  function DeleteExpiredGrants(t: OAuthTables, before: int): OAuthTables {
    t.(grants := map id | id in t.grants && t.grants[id].expiresAt >= before :: t.grants[id])
  }

  function DeleteExpiredAssertions(t: OAuthTables, before: int): OAuthTables {
    t.(jtis := map k | k in t.jtis && t.jtis[k] >= before :: t.jtis[k])
  }

  /** `PurgeExpired`: the three sweeps with one cutoff. */
  function Purged(t: OAuthTables, cutoff: int): OAuthTables {
    DeleteExpiredAssertions(DeleteExpiredGrants(DeleteExpiredCodes(t, cutoff), cutoff), cutoff)
  }

  /** `RevokeClient`: the user's grants of the client and the remembered consent. */
  function Disconnected(t: OAuthTables, userID: string, clientID: string): OAuthTables {
    DeleteConsent(DeleteUserClientGrants(t, userID, clientID), userID, clientID)
  }

  /** Records an assertion id unless the pair is already recorded. */
  function UseAssertion(t: OAuthTables, clientID: string, jti: string, expiresAt: int): OAuthTables {
    if (clientID, jti) in t.jtis then t else t.(jtis := t.jtis[(clientID, jti) := expiresAt])
  }

  function TouchClient(t: OAuthTables, clientID: string, at: int): OAuthTables {
    if clientID in t.clients then
      t.(clients := t.clients[clientID := t.clients[clientID].(lastUsedAt := Some(at))])
    else t
  }

  /** A registration older than the cutoff, not used since, and holding no grant. */
  predicate IsStale(t: OAuthTables, id: string, before: int)
    requires id in t.clients
  {
    var c := t.clients[id];
    && c.createdAt < before
    && (c.lastUsedAt.None? || c.lastUsedAt.value < before)
    && forall g :: g in t.grants.Values ==> g.clientID != id
  }

  function DeleteStaleClients(t: OAuthTables, before: int): OAuthTables {
    t.(clients := map id | id in t.clients && !IsStale(t, id, before) :: t.clients[id])
  }

  /** The sweeps of expired rows delete exactly what expired before the cutoff, from three tables, and
      change no row they leave. */
  lemma SweepsAreExact(t: OAuthTables, cutoff: int)
    ensures var z := Purged(t, cutoff);
            && (forall h :: h in z.codes <==> h in t.codes && !(t.codes[h].expiresAt < cutoff))
            && (forall h :: h in z.codes ==> z.codes[h] == t.codes[h])
            && (forall gid :: gid in z.grants <==> gid in t.grants && !(t.grants[gid].expiresAt < cutoff))
            && (forall gid :: gid in z.grants ==> z.grants[gid] == t.grants[gid])
            && (forall k :: k in z.jtis <==> k in t.jtis && !(t.jtis[k] < cutoff))
            && (forall k :: k in z.jtis ==> z.jtis[k] == t.jtis[k])
            && z.clients == t.clients && z.consents == t.consents
    ensures DeleteExpiredCodes(t, cutoff) == t.(codes := Purged(t, cutoff).codes)
    ensures DeleteExpiredGrants(t, cutoff) == t.(grants := Purged(t, cutoff).grants)
    ensures DeleteExpiredAssertions(t, cutoff) == t.(jtis := Purged(t, cutoff).jtis)
  {
  }

  /** The sweep of registrations deletes a client exactly when it is older than the cutoff, was not
      used since, and no grant names it; it changes nothing else. */
  lemma StaleClientsExact(t: OAuthTables, before: int, id: string)
    ensures var z := DeleteStaleClients(t, before);
            && z == t.(clients := z.clients)
            && (id in z.clients <==>
                  && id in t.clients
                  && (t.clients[id].createdAt >= before
                      || (t.clients[id].lastUsedAt.Some? && t.clients[id].lastUsedAt.value >= before)
                      || exists gid :: gid in t.grants && t.grants[gid].clientID == id))
            && (id in z.clients ==> z.clients[id] == t.clients[id])
  {
    if id in t.clients && !IsStale(t, id, before) && t.clients[id].createdAt < before
       && (t.clients[id].lastUsedAt.None? || t.clients[id].lastUsedAt.value < before) {
      var g :| g in t.grants.Values && g.clientID == id;
    }
  }

  // ---------- the identity tables ----------

  datatype Tables = Tables(
    users: map<string, User>,
    roles: map<string, Role>,
    userRoles: map<string, set<string>>,
    userClaims: map<string, seq<Claim>>,
    roleClaims: map<string, seq<Claim>>,
    tokens: map<string, string>,
    logins: map<string, LoginInfo>,
    loginUser: map<string, string>,
    apiKeys: map<string, APIKey>,
    refreshTokens: map<string, RefreshToken>)

  /** Optimistic concurrency: the stamp the caller read must still be the stored one,
      and a successful write replaces it. */
  function UpdateUser(users: map<string, User>, u: User, freshStamp: string): Result<User, StoreError> {
    if u.id !in users then Err(NotFound)
    else if users[u.id].concurrencyStamp != u.concurrencyStamp then Err(ConcurrencyFailure)
    else Ok(u.(concurrencyStamp := freshStamp))
  }

  function UpdateRole(roles: map<string, Role>, r: Role, freshStamp: string): Result<Role, StoreError> {
    if r.id !in roles then Err(NotFound)
    else if roles[r.id].concurrencyStamp != r.concurrencyStamp then Err(ConcurrencyFailure)
    else Ok(r.(concurrencyStamp := freshStamp))
  }

  /** A missing token reads as the empty string. */
  function TokenValue(tokens: map<string, string>, key: string): string {
    if key in tokens then tokens[key] else ""
  }

  /** A session row is overwritten only while it exists. */
  function UpdateSession(sessions: map<string, RefreshToken>, rt: RefreshToken): map<string, RefreshToken> {
    if rt.sessionID in sessions then sessions[rt.sessionID := rt] else sessions
  }

  predicate TokenPrefixed(k: string, ids: set<string>) {
    exists id :: id in ids && HasPrefix(k, id + [BAR])
  }

  function DropTokens(tokens: map<string, string>, ids: set<string>): map<string, string> {
    map k | k in tokens && !TokenPrefixed(k, ids) :: tokens[k]
  }

  function DropLogins(logins: map<string, LoginInfo>, loginUser: map<string, string>,
                      ids: set<string>): map<string, LoginInfo> {
    map k | k in logins && !(k in loginUser && loginUser[k] in ids) :: logins[k]
  }

  function DropLoginUsers(loginUser: map<string, string>, ids: set<string>): map<string, string> {
    map k | k in loginUser && loginUser[k] !in ids :: loginUser[k]
  }

  function DropKeys(apiKeys: map<string, APIKey>, ids: set<string>): map<string, APIKey> {
    map k | k in apiKeys && apiKeys[k].userID !in ids :: apiKeys[k]
  }

  function DropSessions(sessions: map<string, RefreshToken>, ids: set<string>): map<string, RefreshToken> {
    map k | k in sessions && sessions[k].userID !in ids :: sessions[k]
  }

  function UnexpiredSessions(sessions: map<string, RefreshToken>, before: int): map<string, RefreshToken> {
    map sid | sid in sessions && sessions[sid].expiresAt >= before :: sessions[sid]
  }

  function UserSessions(sessions: map<string, RefreshToken>, userID: string): set<string> {
    set sid | sid in sessions && sessions[sid].userID == userID
  }

  /** Session rows are filed under their own ids. */
  predicate SessionsKeyed(sessions: map<string, RefreshToken>) {
    forall sid :: sid in sessions ==> sessions[sid].sessionID == sid
  }

  predicate DistinctIDs(rows: seq<RefreshToken>) {
    forall i, j :: 0 <= i < j < |rows| ==> rows[i].sessionID != rows[j].sessionID
  }

  function SessionIDs(rows: seq<RefreshToken>): set<string> {
    set rt | rt in rows :: rt.sessionID
  }

  function DropCodes(codes: map<Digest, Code>, ids: set<string>): map<Digest, Code> {
    map h | h in codes && codes[h].userID !in ids :: codes[h]
  }

  function DropConsents(consents: map<string, Consent>, ids: set<string>): map<string, Consent> {
    map k | k in consents && consents[k].userID !in ids :: consents[k]
  }

  function DropGrants(grants: map<string, Grant>, ids: set<string>): map<string, Grant> {
    map id | id in grants && grants[id].userID !in ids :: grants[id]
  }

  function CascadeOAuth(t: OAuthTables, ids: set<string>): OAuthTables {
    OAuthTables(t.clients, DropCodes(t.codes, ids), DropConsents(t.consents, ids), DropGrants(t.grants, ids), t.jtis)
  }

  /** Deleting the given users and every satellite row, as the store finds those rows. */
  function CascadeDelete(t: Tables, ids: set<string>): Tables {
    Tables(t.users - ids, t.roles, t.userRoles - ids, t.userClaims - ids, t.roleClaims, DropTokens(t.tokens, ids),
           DropLogins(t.logins, t.loginUser, ids), DropLoginUsers(t.loginUser, ids), DropKeys(t.apiKeys, ids),
           DropSessions(t.refreshTokens, ids))
  }

  /** The guests created before the cutoff. */
  function StaleGuests(users: map<string, User>, createdBefore: int): set<string> {
    set id | id in users && users[id].isAnonymous && users[id].createdAt < createdBefore
  }

  lemma NoCascade(t: Tables, o: OAuthTables)
    ensures CascadeDelete(t, {}) == t && CascadeOAuth(o, {}) == o
  {
    assert forall k :: !TokenPrefixed(k, {});
    assert DropTokens(t.tokens, {}) == t.tokens;
  }

  lemma DropTokensComposes(m: map<string, string>, ids: set<string>, more: set<string>)
    ensures DropTokens(DropTokens(m, ids), more) == DropTokens(m, ids + more)
  {
    forall k
      ensures TokenPrefixed(k, ids + more) <==> TokenPrefixed(k, ids) || TokenPrefixed(k, more)
    {
      if id :| id in ids + more && HasPrefix(k, id + [BAR]) {
        assert id in ids || id in more;
      }
    }
  }

  lemma DropLoginsComposes(t: Tables, ids: set<string>, more: set<string>)
    ensures DropLogins(DropLogins(t.logins, t.loginUser, ids), DropLoginUsers(t.loginUser, ids),
                       more) == DropLogins(t.logins, t.loginUser, ids + more)
    ensures DropLoginUsers(DropLoginUsers(t.loginUser, ids), more) == DropLoginUsers(t.loginUser, ids + more)
  {
  }

  lemma DropUserRowsComposes(t: Tables, ids: set<string>, more: set<string>)
    ensures t.users - ids - more == t.users - (ids + more)
    ensures t.userRoles - ids - more == t.userRoles - (ids + more)
    ensures t.userClaims - ids - more == t.userClaims - (ids + more)
  {
  }

  lemma DropSessionsComposes(t: Tables, ids: set<string>, more: set<string>)
    ensures DropSessions(DropSessions(t.refreshTokens, ids), more) == DropSessions(t.refreshTokens, ids + more)
    ensures DropKeys(DropKeys(t.apiKeys, ids), more) == DropKeys(t.apiKeys, ids + more)
  {
  }

  lemma CascadeOAuthComposes(t: OAuthTables, ids: set<string>, more: set<string>)
    ensures CascadeOAuth(CascadeOAuth(t, ids), more) == CascadeOAuth(t, ids + more)
  {
    DropOAuthComposes(t, ids, more);
  }

  lemma DropOAuthComposes(t: OAuthTables, ids: set<string>, more: set<string>)
    ensures DropCodes(DropCodes(t.codes, ids), more) == DropCodes(t.codes, ids + more)
    ensures DropConsents(DropConsents(t.consents, ids), more) == DropConsents(t.consents, ids + more)
    ensures DropGrants(DropGrants(t.grants, ids), more) == DropGrants(t.grants, ids + more)
  {
  }

  /** Cascades compose: deleting users one by one or together is the same. */
  lemma CascadeComposes(t: Tables, ids: set<string>, more: set<string>)
    ensures CascadeDelete(CascadeDelete(t, ids), more) == CascadeDelete(t, ids + more)
  {
    DropUserRowsComposes(t, ids, more);
    DropTokensComposes(t.tokens, ids, more);
    DropLoginsComposes(t, ids, more);
    DropSessionsComposes(t, ids, more);
  }
}
