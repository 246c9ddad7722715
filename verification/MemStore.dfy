/** The in-memory store: one object whose maps every store view updates in place.
    Each method is one critical section of the store's mutex. */
module MemStore {
  import opened Wrappers
  import opened GoStrings
  import opened Entities
  import opened TableOps

  /** The deletion loop of the sweeps: visits every key, deletes the matching rows and counts them. */
  method DeleteMatching<K(==), V>(m: map<K, V>, drop: (K, V) -> bool) returns (kept: map<K, V>, n: nat)
    ensures kept == map k | k in m && !drop(k, m[k]) :: m[k]
    ensures n == |m| - |kept|
  {
    kept, n := m, 0;
    var todo := m.Keys;
    while todo != {}
      invariant todo <= m.Keys
      invariant kept == map k | k in m && (k in todo || !drop(k, m[k])) :: m[k]
      invariant n == |m| - |kept|
    {
      var k :| k in todo;
      if drop(k, m[k]) {
        assert kept.Keys - {k} == (kept - {k}).Keys;
        kept := kept - {k};
        n := n + 1;
      }
      todo := todo - {k};
    }
  }

  // ---------- the loops of the cascade ----------

  method SweepTokens(tokens: map<string, string>, id: string) returns (kept: map<string, string>)
    ensures kept == DropTokens(tokens, {id})
  {
    var n;
    kept, n := DeleteMatching(tokens, (k: string, v: string) => HasPrefix(k, id + [BAR]));
    assert forall k :: TokenPrefixed(k, {id}) <==> HasPrefix(k, id + [BAR]);
  }

  /** The loop over the login index, which deletes from both login maps. */
  method SweepLogins(logins: map<string, LoginInfo>, loginUser: map<string, string>, id: string)
    returns (keptLogins: map<string, LoginInfo>, keptUsers: map<string, string>)
    ensures keptLogins == DropLogins(logins, loginUser, {id})
    ensures keptUsers == DropLoginUsers(loginUser, {id})
  {
    keptLogins, keptUsers := logins, loginUser;
    var todo := loginUser.Keys;
    while todo != {}
      invariant todo <= loginUser.Keys
      invariant keptUsers == map k | k in loginUser && (k in todo || loginUser[k] != id) :: loginUser[k]
      invariant keptLogins == map k | k in logins && !(k in loginUser && k !in todo && loginUser[k] == id) :: logins[k]
    {
      var k :| k in todo;
      if loginUser[k] == id {
        keptUsers := keptUsers - {k};
        keptLogins := keptLogins - {k};
      }
      todo := todo - {k};
    }
  }

  method SweepKeys(apiKeys: map<string, APIKey>, id: string) returns (kept: map<string, APIKey>)
    ensures kept == DropKeys(apiKeys, {id})
  {
    var n;
    kept, n := DeleteMatching(apiKeys, (kid: string, k: APIKey) => k.userID == id);
  }

  method SweepSessions(sessions: map<string, RefreshToken>, id: string) returns (kept: map<string, RefreshToken>)
    ensures kept == DropSessions(sessions, {id})
  {
    var n;
    kept, n := DeleteMatching(sessions, (sid: string, rt: RefreshToken) => rt.userID == id);
  }

  method SweepCodes(codes: map<Digest, Code>, id: string) returns (kept: map<Digest, Code>)
    ensures kept == DropCodes(codes, {id})
  {
    var n;
    kept, n := DeleteMatching(codes, (h: Digest, c: Code) => c.userID == id);
  }

  method SweepConsents(consents: map<string, Consent>, id: string) returns (kept: map<string, Consent>)
    ensures kept == DropConsents(consents, {id})
  {
    var n;
    kept, n := DeleteMatching(consents, (k: string, c: Consent) => c.userID == id);
  }

  method SweepGrants(grants: map<string, Grant>, id: string) returns (kept: map<string, Grant>)
    ensures kept == DropGrants(grants, {id})
  {
    var n;
    kept, n := DeleteMatching(grants, (gid: string, g: Grant) => g.userID == id);
  }

  // ---------- the order of a listing ----------

  predicate BySessionID(rows: seq<RefreshToken>) {
    forall i, j :: 0 <= i < j < |rows| ==> StringLeq(rows[i].sessionID, rows[j].sessionID)
  }

  predicate RowsOf(rows: seq<RefreshToken>, sessions: map<string, RefreshToken>) {
    forall i :: 0 <= i < |rows| ==> rows[i].sessionID in sessions && sessions[rows[i].sessionID] == rows[i]
  }

  method InsertBySessionID(rows: seq<RefreshToken>, row: RefreshToken) returns (r: seq<RefreshToken>, ghost p: nat)
    requires BySessionID(rows)
    ensures p <= |rows| && r == rows[..p] + [row] + rows[p..] && BySessionID(r)
  {
    var n := 0;
    while n < |rows| && StringLeq(rows[n].sessionID, row.sessionID)
      invariant n <= |rows|
      invariant forall i :: 0 <= i < n ==> StringLeq(rows[i].sessionID, row.sessionID)
    {
      n := n + 1;
    }
    forall i | n <= i < |rows|
      ensures StringLeq(row.sessionID, rows[i].sessionID)
    {
      StringLeqTotal(row.sessionID, rows[n].sessionID);
      if i > n {
        StringLeqTransitive(row.sessionID, rows[n].sessionID, rows[i].sessionID);
      }
    }
    r, p := rows[..n] + [row] + rows[n..], n;
    OrderedInsert(rows, n, row);
  }

  lemma OrderedInsert(rows: seq<RefreshToken>, p: nat, row: RefreshToken)
    requires p <= |rows| && BySessionID(rows)
    requires forall i :: 0 <= i < p ==> StringLeq(rows[i].sessionID, row.sessionID)
    requires forall i :: p <= i < |rows| ==> StringLeq(row.sessionID, rows[i].sessionID)
    ensures BySessionID(rows[..p] + [row] + rows[p..])
  {
    var r := rows[..p] + [row] + rows[p..];
    forall i, j | 0 <= i < j < |r|
      ensures StringLeq(r[i].sessionID, r[j].sessionID)
    {
      assert r[i] == if i < p then rows[i] else if i == p then row else rows[i - 1];
      assert r[j] == if j < p then rows[j] else if j == p then row else rows[j - 1];
    }
  }

  /** Inserting a row of its own id adds that id and nothing else. */
  lemma RowInserted(rows: seq<RefreshToken>, p: nat, row: RefreshToken, sessions: map<string, RefreshToken>)
    requires p <= |rows| && RowsOf(rows, sessions) && DistinctIDs(rows) && row.sessionID !in SessionIDs(rows)
    requires row.sessionID in sessions && sessions[row.sessionID] == row
    ensures var r := rows[..p] + [row] + rows[p..];
            SessionIDs(r) == SessionIDs(rows) + {row.sessionID} && RowsOf(r, sessions) && DistinctIDs(r)
  {
    InsertedIDs(rows, p, row);
    InsertedDistinct(rows, p, row);
  }

  lemma InsertedIDs(rows: seq<RefreshToken>, p: nat, row: RefreshToken)
    requires p <= |rows|
    ensures SessionIDs(rows[..p] + [row] + rows[p..]) == SessionIDs(rows) + {row.sessionID}
  {
    var r := rows[..p] + [row] + rows[p..];
    forall x
      ensures x in r <==> x in rows || x == row
    {
      assert rows == rows[..p] + rows[p..];
    }
  }

  lemma InsertedDistinct(rows: seq<RefreshToken>, p: nat, row: RefreshToken)
    requires p <= |rows| && DistinctIDs(rows) && row.sessionID !in SessionIDs(rows)
    ensures DistinctIDs(rows[..p] + [row] + rows[p..])
  {
    var r := rows[..p] + [row] + rows[p..];
    forall i | 0 <= i < |rows|
      ensures rows[i].sessionID != row.sessionID
    {
      assert rows[i] in rows;
    }
    forall i, j | 0 <= i < j < |r|
      ensures r[i].sessionID != r[j].sessionID
    {
      assert r[i] == if i < p then rows[i] else if i == p then row else rows[i - 1];
      assert r[j] == if j < p then rows[j] else if j == p then row else rows[j - 1];
    }
  }

  /** The maps of the store, grouped into the identity tables and the OAuth tables. */
  class Store {
    var db: Tables
    var oauth: OAuthTables

    constructor ()
      ensures db == Tables(map[], map[], map[], map[], map[], map[], map[], map[], map[], map[])
      ensures oauth == OAuthTables(map[], map[], map[], map[], map[])
    {
      db := Tables(map[], map[], map[], map[], map[], map[], map[], map[], map[], map[]);
      oauth := OAuthTables(map[], map[], map[], map[], map[]);
    }

    // ---------- users and roles ----------

    /** Optimistic concurrency: the stamp the caller read must still be the stored one,
        and a successful write replaces it. */
    method UpdateUser(u: User, freshStamp: string) returns (r: Result<User, StoreError>)
      modifies this`db
      ensures r == TableOps.UpdateUser(old(db).users, u, freshStamp)
      ensures db == if r.Ok? then old(db).(users := old(db).users[u.id := r.value]) else old(db)
    {
      if u.id !in db.users {
        return Err(NotFound);
      }
      var cur := db.users[u.id];
      if cur.concurrencyStamp != u.concurrencyStamp {
        return Err(ConcurrencyFailure);
      }
      var written := u.(concurrencyStamp := freshStamp);
      db := db.(users := db.users[u.id := written]);
      return Ok(written);
    }

    method FindUser(id: string) returns (r: Result<User, StoreError>)
      ensures r == if id in db.users then Ok(db.users[id]) else Err(NotFound)
    {
      if id !in db.users {
        return Err(NotFound);
      }
      return Ok(db.users[id]);
    }

    method UpdateRole(role: Role, freshStamp: string) returns (r: Result<Role, StoreError>)
      modifies this`db
      ensures r == TableOps.UpdateRole(old(db).roles, role, freshStamp)
      ensures db == if r.Ok? then old(db).(roles := old(db).roles[role.id := r.value]) else old(db)
    {
      if role.id !in db.roles {
        return Err(NotFound);
      }
      if db.roles[role.id].concurrencyStamp != role.concurrencyStamp {
        return Err(ConcurrencyFailure);
      }
      var written := role.(concurrencyStamp := freshStamp);
      db := db.(roles := db.roles[role.id := written]);
      return Ok(written);
    }

    method DeleteUser(u: User)
      modifies this
      ensures db == CascadeDelete(old(db), {u.id})
      ensures oauth == CascadeOAuth(old(oauth), {u.id})
    {
      CascadeDeleteLocked(u.id);
    }

    /** Removes a user and its satellite rows, table by table. */
    method CascadeDeleteLocked(id: string)
      modifies this
      ensures db == CascadeDelete(old(db), {id})
      ensures oauth == CascadeOAuth(old(oauth), {id})
    {
      db := db.(users := db.users - {id});
      db := db.(userRoles := db.userRoles - {id});
      db := db.(userClaims := db.userClaims - {id});
      var tokens := SweepTokens(db.tokens, id);
      var logins, loginUser := SweepLogins(db.logins, db.loginUser, id);
      var apiKeys := SweepKeys(db.apiKeys, id);
      var sessions := SweepSessions(db.refreshTokens, id);
      db := db.(tokens := tokens, logins := logins, loginUser := loginUser, apiKeys := apiKeys,
                refreshTokens := sessions);
      var codes := SweepCodes(oauth.codes, id);
      var consents := SweepConsents(oauth.consents, id);
      var grants := SweepGrants(oauth.grants, id);
      oauth := oauth.(codes := codes, consents := consents, grants := grants);
    }

    /** Collects the stale guests, then cascades over them one by one. */
    method PurgeAnonymousUsers(createdBefore: int) returns (n: nat)
      modifies this
      ensures n == |StaleGuests(old(db).users, createdBefore)|
      ensures db == CascadeDelete(old(db), StaleGuests(old(db).users, createdBefore))
      ensures oauth == CascadeOAuth(old(oauth), StaleGuests(old(db).users, createdBefore))
    {
      var ids := StaleGuests(db.users, createdBefore);
      var todo := ids;
      ghost var db0, oauth0, done: set<string> := db, oauth, {};
      NoCascade(db0, oauth0);
      while todo != {}
        invariant todo <= ids && done == ids - todo
        invariant db == CascadeDelete(db0, done) && oauth == CascadeOAuth(oauth0, done)
      {
        var id :| id in todo;
        CascadeComposes(db0, done, {id});
        CascadeOAuthComposes(oauth0, done, {id});
        CascadeDeleteLocked(id);
        todo, done := todo - {id}, done + {id};
      }
      assert done == ids;
      return |ids|;
    }

    // ---------- user tokens and logins ----------

    method GetToken(userID: string, provider: string, name: string) returns (value: string)
      ensures value == TokenValue(db.tokens, TokenKey(userID, provider, name))
    {
      var k := TokenKey(userID, provider, name);
      value := if k in db.tokens then db.tokens[k] else "";
    }

    method SetToken(userID: string, provider: string, name: string, value: string)
      modifies this`db
      ensures db == old(db).(tokens := old(db).tokens[TokenKey(userID, provider, name) := value])
    {
      db := db.(tokens := db.tokens[TokenKey(userID, provider, name) := value]);
    }

    method RemoveToken(userID: string, provider: string, name: string)
      modifies this`db
      ensures db == old(db).(tokens := old(db).tokens - {TokenKey(userID, provider, name)})
    {
      db := db.(tokens := db.tokens - {TokenKey(userID, provider, name)});
    }

    /** A login bound to one account is never re-bound to another. */
    method AddLogin(userID: string, login: LoginInfo) returns (r: Result<(), StoreError>)
      modifies this`db
      ensures var k := LoginKey(login.loginProvider, login.providerKey);
              if k in old(db).loginUser then r == Err(LoginAlreadyUsed) && db == old(db)
              else r == Ok(()) && db == old(db).(logins := old(db).logins[k := login],
                                                 loginUser := old(db).loginUser[k := userID])
    {
      var k := LoginKey(login.loginProvider, login.providerKey);
      if k in db.loginUser {
        return Err(LoginAlreadyUsed);
      }
      db := db.(logins := db.logins[k := login]);
      db := db.(loginUser := db.loginUser[k := userID]);
      return Ok(());
    }

    method RemoveLogin(provider: string, key: string)
      modifies this`db
      ensures db == old(db).(logins := old(db).logins - {LoginKey(provider, key)},
                             loginUser := old(db).loginUser - {LoginKey(provider, key)})
    {
      var k := LoginKey(provider, key);
      db := db.(logins := db.logins - {k});
      db := db.(loginUser := db.loginUser - {k});
    }

    method FindByLogin(provider: string, key: string) returns (r: Result<User, StoreError>)
      ensures var k := LoginKey(provider, key);
              r == if k in db.loginUser && db.loginUser[k] in db.users then Ok(db.users[db.loginUser[k]])
                  else Err(NotFound)
    {
      var k := LoginKey(provider, key);
      if k !in db.loginUser {
        return Err(NotFound);
      }
      r := FindUser(db.loginUser[k]);
    }

    // ---------- refresh sessions ----------

    method CreateRefreshToken(rt: RefreshToken)
      modifies this`db
      ensures db == old(db).(refreshTokens := old(db).refreshTokens[rt.sessionID := rt])
    {
      db := db.(refreshTokens := db.refreshTokens[rt.sessionID := rt]);
    }

    method GetRefreshTokenBySession(sid: string) returns (r: Result<RefreshToken, StoreError>)
      ensures r == if sid in db.refreshTokens then Ok(db.refreshTokens[sid]) else Err(NotFound)
    {
      if sid !in db.refreshTokens {
        return Err(NotFound);
      }
      return Ok(db.refreshTokens[sid]);
    }

    /** Updates the row only if it is still there. */
    method UpdateRefreshToken(rt: RefreshToken) returns (r: Result<(), StoreError>)
      modifies this`db
      ensures r == if rt.sessionID in old(db).refreshTokens then Ok(()) else Err(NotFound)
      ensures db == old(db).(refreshTokens := UpdateSession(old(db).refreshTokens, rt))
    {
      if rt.sessionID !in db.refreshTokens {
        return Err(NotFound);
      }
      db := db.(refreshTokens := db.refreshTokens[rt.sessionID := rt]);
      return Ok(());
    }

    method DeleteRefreshToken(sid: string)
      modifies this`db
      ensures db == old(db).(refreshTokens := old(db).refreshTokens - {sid})
    {
      db := db.(refreshTokens := db.refreshTokens - {sid});
    }

    method DeleteUserRefreshTokens(userID: string) returns (n: nat)
      modifies this`db
      ensures db == old(db).(refreshTokens := DropSessions(old(db).refreshTokens, {userID}))
      ensures n == |old(db).refreshTokens| - |db.refreshTokens|
    {
      var kept;
      kept, n := DeleteMatching(db.refreshTokens, (sid: string, rt: RefreshToken) => rt.userID == userID);
      assert kept == DropSessions(db.refreshTokens, {userID});
      db := db.(refreshTokens := kept);
    }

    method DeleteExpiredRefreshTokens(before: int) returns (n: nat)
      modifies this`db
      ensures db == old(db).(refreshTokens := UnexpiredSessions(old(db).refreshTokens, before))
      ensures n == |old(db).refreshTokens| - |db.refreshTokens|
    {
      var kept;
      kept, n := DeleteMatching(db.refreshTokens, (sid: string, rt: RefreshToken) => rt.expiresAt < before);
      assert kept == UnexpiredSessions(db.refreshTokens, before);
      db := db.(refreshTokens := kept);
    }

    /** The user's rows, each listed once, in the order of their session ids. */
    method ListUserRefreshTokens(userID: string) returns (rows: seq<RefreshToken>)
      requires SessionsKeyed(db.refreshTokens)
      ensures SessionIDs(rows) == UserSessions(db.refreshTokens, userID) && BySessionID(rows)
      ensures forall i :: 0 <= i < |rows| ==>
          rows[i].sessionID in db.refreshTokens && db.refreshTokens[rows[i].sessionID] == rows[i]
      ensures DistinctIDs(rows)
    {
      var sessions := db.refreshTokens;
      rows := [];
      var todo := sessions.Keys;
      while todo != {}
        invariant todo <= sessions.Keys
        invariant SessionIDs(rows) == set sid | sid in sessions && sid !in todo && sessions[sid].userID == userID
        invariant BySessionID(rows) && RowsOf(rows, sessions)
        invariant DistinctIDs(rows)
      {
        var sid :| sid in todo;
        if sessions[sid].userID == userID {
          assert sid !in SessionIDs(rows);
          ghost var p;
          ghost var before := rows;
          rows, p := InsertBySessionID(rows, sessions[sid]);
          RowInserted(before, p, sessions[sid], sessions);
        }
        todo := todo - {sid};
      }
    }

    // ---------- OAuth: clients ----------

    method TouchClient(clientID: string, at: int)
      modifies this`oauth
      ensures oauth == TableOps.TouchClient(old(oauth), clientID, at)
    {
      if clientID in oauth.clients {
        oauth := oauth.(clients := oauth.clients[clientID := oauth.clients[clientID].(lastUsedAt := Some(at))]);
      }
    }

    /** First collects the clients that hold grants, then deletes the stale others. */
    method DeleteStaleClients(before: int) returns (n: nat)
      modifies this`oauth
      ensures oauth == TableOps.DeleteStaleClients(old(oauth), before)
      ensures n == |old(oauth).clients| - |oauth.clients|
    {
      var inUse := set id | id in oauth.grants :: oauth.grants[id].clientID;
      var drop := (id: string, c: Client) =>
        c.createdAt < before && (c.lastUsedAt.None? || c.lastUsedAt.value < before) && id !in inUse;
      assert forall id :: id in oauth.clients ==> (drop(id, oauth.clients[id]) <==> IsStale(oauth, id, before));
      var kept;
      kept, n := DeleteMatching(oauth.clients, drop);
      oauth := oauth.(clients := kept);
    }

    // ---------- OAuth: codes, consents, grants, assertions ----------

    method CreateCode(c: Code)
      modifies this`oauth
      ensures oauth == TableOps.CreateCode(old(oauth), c)
    {
      oauth := oauth.(codes := oauth.codes[c.codeHash := c]);
    }

    method GetCode(hash: Digest) returns (r: Result<Code, StoreError>)
      ensures r == if hash in oauth.codes then Ok(oauth.codes[hash]) else Err(NotFound)
    {
      if hash !in oauth.codes {
        return Err(NotFound);
      }
      return Ok(oauth.codes[hash]);
    }

    method MarkCodeUsed(hash: Digest, grantID: string, at: int) returns (won: bool)
      modifies this`oauth
      ensures won == CodeIsUnused(old(oauth), hash)
      ensures oauth == TableOps.MarkCodeUsed(old(oauth), hash, grantID, at)
    {
      if hash !in oauth.codes || oauth.codes[hash].usedAt.Some? {
        return false;
      }
      var c := oauth.codes[hash];
      oauth := oauth.(codes := oauth.codes[hash := c.(usedAt := Some(at), grantID := grantID)]);
      return true;
    }

    method DeleteExpiredCodes(before: int) returns (n: nat)
      modifies this`oauth
      ensures oauth == TableOps.DeleteExpiredCodes(old(oauth), before)
      ensures n == |old(oauth).codes| - |oauth.codes|
    {
      var kept;
      kept, n := DeleteMatching(oauth.codes, (h: Digest, c: Code) => c.expiresAt < before);
      oauth := oauth.(codes := kept);
    }

    method GetConsent(userID: string, clientID: string) returns (r: Option<Consent>)
      ensures r == TableOps.GetConsent(oauth, userID, clientID)
    {
      var k := ConsentKey(userID, clientID);
      return if k in oauth.consents then Some(oauth.consents[k]) else None;
    }

    /** Upserts the consent row; an existing row keeps its creation time. */
    method SaveConsent(c: Consent)
      modifies this`oauth
      ensures oauth == TableOps.SaveConsent(old(oauth), c)
    {
      var k := ConsentKey(c.userID, c.clientID);
      var row := c;
      if k in oauth.consents {
        row := row.(createdAt := oauth.consents[k].createdAt);
      }
      oauth := oauth.(consents := oauth.consents[k := row]);
    }

    method DeleteConsent(userID: string, clientID: string)
      modifies this`oauth
      ensures oauth == TableOps.DeleteConsent(old(oauth), userID, clientID)
    {
      oauth := oauth.(consents := oauth.consents - {ConsentKey(userID, clientID)});
    }

    method CreateGrant(g: Grant)
      modifies this`oauth
      ensures oauth == TableOps.CreateGrant(old(oauth), g)
    {
      oauth := oauth.(grants := oauth.grants[g.id := g]);
    }

    method GetGrant(id: string) returns (r: Result<Grant, StoreError>)
      ensures r == if id in oauth.grants then Ok(oauth.grants[id]) else Err(NotFound)
    {
      if id !in oauth.grants {
        return Err(NotFound);
      }
      return Ok(oauth.grants[id]);
    }

    /** Compare-and-swap on the refresh hash. */
    method RotateGrant(id: string, oldHash: Digest, newHash: Digest, expiresAt: int, usedAt: int) returns (ok: bool)
      modifies this`oauth
      ensures ok == HashMatches(old(oauth), id, oldHash)
      ensures oauth == TableOps.RotateGrant(old(oauth), id, oldHash, newHash, expiresAt, usedAt)
    {
      if id !in oauth.grants || oauth.grants[id].tokenHash != oldHash {
        return false;
      }
      var g := oauth.grants[id].(prevTokenHash := oldHash, tokenHash := newHash, expiresAt := expiresAt,
                                 lastUsedAt := Some(usedAt));
      oauth := oauth.(grants := oauth.grants[id := g]);
      return true;
    }

    method DeleteGrant(id: string)
      modifies this`oauth
      ensures oauth == TableOps.DeleteGrant(old(oauth), id)
    {
      oauth := oauth.(grants := oauth.grants - {id});
    }

    method DeleteUserClientGrants(userID: string, clientID: string) returns (n: nat)
      modifies this`oauth
      ensures oauth == TableOps.DeleteUserClientGrants(old(oauth), userID, clientID)
      ensures n == |old(oauth).grants| - |oauth.grants|
    {
      var kept;
      kept, n := DeleteMatching(oauth.grants, (id: string, g: Grant) => g.userID == userID && g.clientID == clientID);
      oauth := oauth.(grants := kept);
    }

    method DeleteExpiredGrants(before: int) returns (n: nat)
      modifies this`oauth
      ensures oauth == TableOps.DeleteExpiredGrants(old(oauth), before)
      ensures n == |old(oauth).grants| - |oauth.grants|
    {
      var kept;
      kept, n := DeleteMatching(oauth.grants, (id: string, g: Grant) => g.expiresAt < before);
      oauth := oauth.(grants := kept);
    }

    /** Records an assertion id unless the pair is already recorded. */
    method UseClientAssertion(clientID: string, jti: string, expiresAt: int) returns (isNew: bool)
      modifies this`oauth
      ensures isNew == ((clientID, jti) !in old(oauth).jtis)
      ensures oauth == UseAssertion(old(oauth), clientID, jti, expiresAt)
    {
      if (clientID, jti) in oauth.jtis {
        return false;
      }
      oauth := oauth.(jtis := oauth.jtis[(clientID, jti) := expiresAt]);
      return true;
    }

    method DeleteExpiredClientAssertions(before: int) returns (n: nat)
      modifies this`oauth
      ensures oauth == DeleteExpiredAssertions(old(oauth), before)
      ensures n == |old(oauth).jtis| - |oauth.jtis|
    {
      var kept;
      kept, n := DeleteMatching(oauth.jtis, (k: (string, string), exp: int) => exp < before);
      oauth := oauth.(jtis := kept);
    }
  }
}
