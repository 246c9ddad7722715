/** The session service: refresh sessions, one row per device, and the older single slot. */
module Sessions {
  import opened Wrappers
  import opened GoStrings
  import opened Entities
  import opened TableOps
  import opened MemStore

  const SLOT_PROVIDER := "GoIdentity"
  const SLOT_NAME := "RefreshToken"
  const DEFAULT_TTL: int := 7 * 24 * 3600 * SECOND
  const MAX_SESSION_ID := 64

  datatype TokenError = InvalidToken

  /** An access token for the user, as of the given security stamp, and a refresh token. */
  datatype Pair = Pair(userID: string, stamp: string, refreshToken: string)

  function SessionToken(sid: string, secret: string): string {
    sid + ['.'] + secret
  }

  // ---------- the single slot: "hash:expiry" ----------

  function SlotKey(userID: string): string {
    TokenKey(userID, SLOT_PROVIDER, SLOT_NAME)
  }

  function SlotValue(hash: string -> string, secret: string, expiresAt: int): string {
    hash(secret) + [':'] + FormatInt(Unix(expiresAt))
  }

  /** The check on the stored text; text without a separator or with a malformed expiry is refused. */
  predicate SlotAccepts(hash: string -> string, stored: string, token: string, now: int) {
    match Cut(stored, ':')
    case None => false
    case Some((hashPart, expPart)) =>
      match ParseInt(expPart)
      case Err(_) => false
      case Ok(exp) => now <= exp * SECOND && hashPart == hash(token)
  }

  /** A stored text admits a token exactly when it is the token's hash, a ':', and a number of seconds
      that has not passed. */
  lemma SlotAcceptsIff(hash: string -> string, stored: string, token: string, now: int)
    requires ':' !in hash(token)
    ensures SlotAccepts(hash, stored, token, now) <==>
            exists expiry :: stored == hash(token) + [':'] + expiry && ParseInt(expiry).Ok?
                && now <= ParseInt(expiry).value * SECOND
  {
    CutSplits(stored, ':');
    forall expiry | stored == hash(token) + [':'] + expiry
      ensures Cut(stored, ':') == Some((hash(token), expiry))
    {
      CutOfConcat(hash(token), expiry, ':');
    }
  }

  /** A slot admits exactly the secret it was written for, until its expiry in whole seconds. */
  lemma SlotRoundTrip(hash: string -> string, secret: string, expiresAt: int, token: string, now: int)
    requires ':' !in hash(secret) && MIN_INT64 <= Unix(expiresAt) <= MAX_INT64
    ensures SlotAccepts(hash, SlotValue(hash, secret, expiresAt), token, now)
            <==> hash(token) == hash(secret) && now <= Unix(expiresAt) * SECOND
  {
    CutOfConcat(hash(secret), FormatInt(Unix(expiresAt)), ':');
    ParseOfFormat(Unix(expiresAt));
  }

  // ---------- eviction ----------

  /** The rows are those of the user, each listed once. */
  predicate Lists(rows: seq<RefreshToken>, sessions: map<string, RefreshToken>, userID: string) {
    && SessionIDs(rows) == UserSessions(sessions, userID) && DistinctIDs(rows)
    && forall i :: 0 <= i < |rows| ==> rows[i].sessionID in sessions && sessions[rows[i].sessionID] == rows[i]
  }

  /** The ids among the first rows, without the one to keep. */
  function Prefix(rows: seq<RefreshToken>, n: nat, keepID: string): set<string>
    requires n <= |rows|
  {
    if n == 0 then {}
    else if rows[n - 1].sessionID == keepID then Prefix(rows, n - 1, keepID)
    else Prefix(rows, n - 1, keepID) + {rows[n - 1].sessionID}
  }

  /** The tables without the session rows of that prefix. */
  function Dropped(db: Tables, rows: seq<RefreshToken>, n: nat, keepID: string): Tables
    requires n <= |rows|
  {
    db.(refreshTokens := db.refreshTokens - Prefix(rows, n, keepID))
  }

  lemma {:induction false} CountIDs(rows: seq<RefreshToken>)
    ensures |SessionIDs(rows)| <= |rows|
    ensures |SessionIDs(rows)| == |rows| <==> DistinctIDs(rows)
  {
    if rows != [] {
      var init, last := rows[..|rows| - 1], rows[|rows| - 1];
      CountIDs(init);
      assert rows == init + [last];
      assert SessionIDs(rows) == SessionIDs(init) + {last.sessionID};
      assert last.sessionID in SessionIDs(init) <==> exists i :: 0 <= i < |init| && init[i].sessionID == last.sessionID;
    }
  }

  predicate ByExpiry(rows: seq<RefreshToken>) {
    forall i, j :: 0 <= i < j < |rows| ==> rows[i].expiresAt <= rows[j].expiresAt
  }

  /** Sorting by expiry, oldest first; the order of equal expiries is left open. */
  method SortByExpiry(rows: seq<RefreshToken>) returns (sorted: seq<RefreshToken>)
    ensures multiset(sorted) == multiset(rows) && ByExpiry(sorted)
  {
    sorted := [];
    for n := 0 to |rows|
      invariant multiset(sorted) == multiset(rows[..n]) && ByExpiry(sorted)
    {
      assert rows[..n + 1] == rows[..n] + [rows[n]];
      sorted := InsertByExpiry(sorted, rows[n]);
    }
    assert rows[..|rows|] == rows;
  }

  method InsertByExpiry(rows: seq<RefreshToken>, row: RefreshToken) returns (r: seq<RefreshToken>)
    requires ByExpiry(rows)
    ensures multiset(r) == multiset(rows) + multiset{row} && ByExpiry(r)
  {
    var p := 0;
    while p < |rows| && rows[p].expiresAt <= row.expiresAt
      invariant p <= |rows| && (p > 0 ==> rows[p - 1].expiresAt <= row.expiresAt)
    {
      p := p + 1;
    }
    InsertedAt(rows, p, row);
    SameElements(rows, p, row);
    return rows[..p] + [row] + rows[p..];
  }

  lemma InsertedAt(rows: seq<RefreshToken>, p: nat, row: RefreshToken)
    requires p <= |rows| && ByExpiry(rows)
    requires p > 0 ==> rows[p - 1].expiresAt <= row.expiresAt
    requires p < |rows| ==> row.expiresAt <= rows[p].expiresAt
    ensures ByExpiry(rows[..p] + [row] + rows[p..])
  {
    ByExpiryConcat(rows[..p], [row], row.expiresAt);
    ByExpiryConcat(rows[..p] + [row], rows[p..], row.expiresAt);
  }

  lemma ByExpiryConcat(a: seq<RefreshToken>, b: seq<RefreshToken>, pivot: int)
    requires ByExpiry(a) && ByExpiry(b)
    requires forall i :: 0 <= i < |a| ==> a[i].expiresAt <= pivot
    requires forall i :: 0 <= i < |b| ==> pivot <= b[i].expiresAt
    ensures ByExpiry(a + b)
  {
  }

  lemma SameElements(rows: seq<RefreshToken>, p: nat, row: RefreshToken)
    requires p <= |rows|
    ensures multiset(rows[..p] + [row] + rows[p..]) == multiset(rows) + multiset{row}
  {
    assert rows[..p] + rows[p..] == rows;
  }

  /** What evicting beyond the limit may do: it removes the excess and nothing else, only rows of the
      user, never the one to keep, and none that expires later than a row it leaves. */
  ghost predicate EvictedTo(max: int, before: map<string, RefreshToken>, after: map<string, RefreshToken>,
      userID: string, keepID: string) {
    var gone, n := before.Keys - after.Keys, |UserSessions(before, userID)|;
    && after == before - gone && gone <= UserSessions(before, userID) - {keepID}
    && |gone| == (if max <= 0 || n <= max then 0 else n - max)
    && forall e, k :: e in gone && k in UserSessions(after, userID) && k != keepID ==>
        before[e].expiresAt <= after[k].expiresAt
  }

  /** A new session: its row is created, the expired rows are swept, and the excess is evicted. */
  ghost predicate Issued(max: int, before: map<string, RefreshToken>, after: map<string, RefreshToken>,
      row: RefreshToken, now: int) {
    EvictedTo(max, UnexpiredSessions(before[row.sessionID := row], now), after, row.userID, row.sessionID)
  }

  /** A new session survives its own sweep and eviction. */
  lemma IssuedIsThere(max: int, before: map<string, RefreshToken>, after: map<string, RefreshToken>, row: RefreshToken,
                      now: int)
    requires Issued(max, before, after, row, now) && row.expiresAt >= now && SessionsKeyed(before)
    ensures row.sessionID in after && after[row.sessionID] == row && SessionsKeyed(after)
  {
    var swept := UnexpiredSessions(before[row.sessionID := row], now);
    assert row.sessionID in swept;
    assert row.sessionID !in swept.Keys - after.Keys;
  }

  function NewSession(userID: string, sid: string, secret: string, now: int, ttl: int): RefreshToken {
    RefreshToken(sid, userID, Sha256(secret), now + ttl, now, None)
  }

  function Rotated(row: RefreshToken, secret: string, now: int, ttl: int): RefreshToken {
    row.(tokenHash := Sha256(secret), expiresAt := now + ttl, lastUsedAt := Some(now))
  }

  /** The session admits this user with this secret now. */
  predicate Admits(sessions: map<string, RefreshToken>, sid: string, userID: string, secret: string, now: int) {
    && 0 < |sid| <= MAX_SESSION_ID && sid in sessions
    && sessions[sid].userID == userID && now <= sessions[sid].expiresAt && sessions[sid].tokenHash == Sha256(secret)
  }

  // ---------- the service ----------

  /** `hash` is the text of a secret's hash in the slot; session rows hold an ideal hash. */
  class TokenService {
    const store: Store
    const multi: bool
    const maxSessions: int
    const configuredTTL: int
    const hash: string -> string

    constructor (store: Store, multi: bool, maxSessions: int, configuredTTL: int, hash: string -> string)
      ensures this.store == store && this.multi == multi && this.maxSessions == maxSessions
      ensures this.configuredTTL == configuredTTL && this.hash == hash
    {
      this.store, this.multi, this.maxSessions, this.configuredTTL, this.hash := store, multi, maxSessions,
          configuredTTL, hash;
    }

    function TTL(): (ttl: int)
      ensures ttl > 0
    {
      if configuredTTL > 0 then configuredTTL else DEFAULT_TTL
    }

    method EnforceMaxSessions(userID: string, keepID: string)
      requires SessionsKeyed(store.db.refreshTokens)
      modifies store`db
      ensures store.db == old(store.db).(refreshTokens := store.db.refreshTokens)
      ensures EvictedTo(maxSessions, old(store.db).refreshTokens, store.db.refreshTokens, userID, keepID)
    {
      if maxSessions <= 0 {
        return;
      }
      var listed := store.ListUserRefreshTokens(userID);
      CountIDs(listed);
      if |listed| > maxSessions {
        EvictOldest(listed, userID, keepID);
      }
    }

    /** Sorts the listed rows and evicts the excess. */
    method EvictOldest(listed: seq<RefreshToken>, userID: string, keepID: string)
      requires 0 < maxSessions < |listed| && Lists(listed, store.db.refreshTokens, userID)
      modifies store`db
      ensures store.db == old(store.db).(refreshTokens := store.db.refreshTokens)
      ensures EvictedTo(maxSessions, old(store.db).refreshTokens, store.db.refreshTokens, userID, keepID)
    {
      ghost var before := store.db.refreshTokens;
      var rows := SortByExpiry(listed);
      SameRows(listed, rows, before, userID);
      ghost var i := EvictInOrder(rows, |rows| - maxSessions, keepID);
      PrefixEvicted(maxSessions, rows, i, before, userID, keepID);
    }

    /** The eviction loop: deletes rows in order, sparing the one to keep, until the excess is gone. */
    method EvictInOrder(rows: seq<RefreshToken>, toEvict: int, keepID: string) returns (ghost i: nat)
      requires 0 < toEvict < |rows| && DistinctIDs(rows)
      modifies store`db
      ensures i <= |rows| && |Prefix(rows, i, keepID)| == toEvict
      ensures store.db == Dropped(old(store.db), rows, i, keepID)
    {
      var excess := toEvict;
      var n := 0;
      NoneDropped(store.db, rows, keepID);
      while n < |rows|
        invariant n <= |rows| && excess >= 0 && Others(rows, n, keepID) == toEvict - excess
        invariant store.db == Dropped(old(store.db), rows, n, keepID)
      {
        if excess == 0 {
          break;
        }
        var evicted := EvictUnlessKept(rows, n, keepID, old(store.db));
        if evicted {
          excess := excess - 1;
        }
        n := n + 1;
      }
      PrefixCount(rows, n, keepID);
      OthersBound(rows, n, keepID);
      i := n;
    }

    /** One round of the eviction loop. */
    method EvictUnlessKept(rows: seq<RefreshToken>, n: nat, keepID: string,
                           ghost before: Tables) returns (evicted: bool)
      requires n < |rows| && DistinctIDs(rows) && store.db == Dropped(before, rows, n, keepID)
      modifies store`db
      ensures evicted == (rows[n].sessionID != keepID)
      ensures store.db == Dropped(before, rows, n + 1, keepID)
    {
      NextID(rows, n, keepID);
      if rows[n].sessionID == keepID {
        return false;
      }
      DropOne(before.refreshTokens, Prefix(rows, n, keepID), rows[n].sessionID);
      store.DeleteRefreshToken(rows[n].sessionID);
      return true;
    }

    /** Creates a session for the user and returns its token "sid.secret". */
    method NewSessionRefresh(userID: string, sid: string, secret: string, now: int) returns (token: string)
      requires SessionsKeyed(store.db.refreshTokens)
      modifies store`db
      ensures token == SessionToken(sid, secret)
      ensures store.db == old(store.db).(refreshTokens := store.db.refreshTokens)
      ensures SessionsKeyed(store.db.refreshTokens)
      ensures var row := RefreshToken(sid, userID, Sha256(secret), now + TTL(), now, None);
              && Issued(maxSessions, old(store.db).refreshTokens, store.db.refreshTokens, row, now)
              && sid in store.db.refreshTokens && store.db.refreshTokens[sid] == row
    {
      ghost var before := store.db.refreshTokens;
      store.CreateRefreshToken(NewSession(userID, sid, secret, now, TTL()));
      var swept := store.DeleteExpiredRefreshTokens(now);
      EnforceMaxSessions(userID, sid);
      IssuedIsThere(maxSessions, before, store.db.refreshTokens, NewSession(userID, sid, secret, now, TTL()), now);
      return SessionToken(sid, secret);
    }

    method IssuePair(u: User, sid: string, secret: string, now: int) returns (pair: Pair)
      requires SessionsKeyed(store.db.refreshTokens)
      modifies store`db
      ensures SessionsKeyed(store.db.refreshTokens)
      ensures multi ==> store.db == old(store.db).(refreshTokens := store.db.refreshTokens)
                        && pair == Pair(u.id, u.securityStamp, SessionToken(sid, secret))
                        && Issued(maxSessions, old(store.db).refreshTokens, store.db.refreshTokens,
                                  RefreshToken(sid, u.id, Sha256(secret), now + TTL(), now, None), now)
      ensures !multi ==> store.db == old(store.db).(tokens := old(store.db).tokens[SlotKey(u.id) := SlotValue(hash,
              secret, now + TTL())])
                         && pair == Pair(u.id, u.securityStamp, secret)
    {
      if multi {
        var refresh := NewSessionRefresh(u.id, sid, secret, now);
        return Pair(u.id, u.securityStamp, refresh);
      }
      store.SetToken(u.id, SLOT_PROVIDER, SLOT_NAME, SlotValue(hash, secret, now + TTL()));
      return Pair(u.id, u.securityStamp, secret);
    }

    method ValidateLegacySlot(userID: string, token: string, now: int) returns (ok: bool)
      ensures ok == SlotAccepts(hash, TokenValue(store.db.tokens, SlotKey(userID)), token, now)
    {
      var stored := store.GetToken(userID, SLOT_PROVIDER, SLOT_NAME);
      if stored == "" {
        return false;
      }
      var parts := Cut(stored, ':');
      if parts.None? {
        return false;
      }
      var exp := ParseInt(parts.value.1);
      if exp.Err? || now > exp.value * SECOND {
        return false;
      }
      return parts.value.0 == hash(token);
    }

    /** Rotates one session in place, with nothing in between its two store calls. */
    method RefreshSession(u: User, sid: string, secret: string, newSecret: string, now: int) returns (r: Result<Pair,
            TokenError>)
      requires SessionsKeyed(store.db.refreshTokens)
      modifies store`db
      ensures SessionsKeyed(store.db.refreshTokens)
      ensures var rows := old(store.db).refreshTokens;
              if Admits(rows, sid, u.id, secret, now) then
                && r == Ok(Pair(u.id, u.securityStamp, SessionToken(sid, newSecret)))
                && store.db == old(store.db).(refreshTokens := rows[sid := Rotated(rows[sid], newSecret, now, TTL())])
              else r == Err(InvalidToken) && store.db == old(store.db)
    {
      if sid == "" || |sid| > MAX_SESSION_ID {
        return Err(InvalidToken);
      }
      var found := store.GetRefreshTokenBySession(sid);
      if found.Err? {
        return Err(InvalidToken);
      }
      var rt := found.value;
      if rt.userID != u.id || now > rt.expiresAt {
        return Err(InvalidToken);
      }
      if rt.tokenHash != Sha256(secret) {
        return Err(InvalidToken);
      }
      rt := rt.(tokenHash := Sha256(newSecret));
      rt := rt.(expiresAt := now + TTL());
      rt := rt.(lastUsedAt := Some(now));
      var updated := store.UpdateRefreshToken(rt);
      return Ok(Pair(u.id, u.securityStamp, SessionToken(rt.sessionID, newSecret)));
    }

    /** Swaps a refresh token for a new pair. A token without a '.' is looked up in the slot;
        with sessions enabled it is moved into a session of its own and the slot is retired. */
    method Refresh(u: User, token: string, sid: string, secret: string, now: int) returns (r: Result<Pair, TokenError>)
      requires SessionsKeyed(store.db.refreshTokens)
      modifies store`db
      ensures SessionsKeyed(store.db.refreshTokens)
      ensures multi && Cut(token, '.').Some? ==>
                var (oldSid, oldSecret) := Cut(token, '.').value;
                (r.Ok? <==> Admits(old(store.db).refreshTokens, oldSid, u.id, oldSecret, now))
      ensures !(multi && Cut(token, '.').Some?) ==>
                (r.Ok? <==> SlotAccepts(hash, TokenValue(old(store.db).tokens, SlotKey(u.id)), token, now))
      ensures r.Err? ==> store.db == old(store.db)
      ensures r.Ok? && multi && Cut(token, '.').None? ==>
                && store.db == old(store.db).(refreshTokens := store.db.refreshTokens,
                                              tokens := old(store.db).tokens - {SlotKey(u.id)})
                && Issued(maxSessions, old(store.db).refreshTokens, store.db.refreshTokens,
                          RefreshToken(sid, u.id, Sha256(secret), now + TTL(), now, None), now)
      ensures r.Ok? && !multi ==>
                store.db == old(store.db).(tokens := old(store.db).tokens[SlotKey(u.id) := SlotValue(hash, secret,
                        now + TTL())])
      ensures r.Ok? ==> r.value.userID == u.id && r.value.stamp == u.securityStamp &&
                        r.value.refreshToken == (if !multi then secret
                                                 else if Cut(token, '.').Some? then SessionToken(Cut(token,
                                                         '.').value.0, secret)
                                                 else SessionToken(sid, secret))
    {
      if multi && Cut(token, '.').Some? {
        var (oldSid, oldSecret) := Cut(token, '.').value;
        r := RefreshSession(u, oldSid, oldSecret, secret, now);
        return;
      }
      var ok := ValidateLegacySlot(u.id, token, now);
      if !ok {
        return Err(InvalidToken);
      }
      var pair := IssuePair(u, sid, secret, now);
      if multi {
        store.RemoveToken(u.id, SLOT_PROVIDER, SLOT_NAME);
      }
      return Ok(pair);
    }

    /** Ends the slot and every session of the user, and nothing else. */
    method Revoke(u: User)
      modifies store`db
      ensures store.db == old(store.db).(
                tokens := old(store.db).tokens - {SlotKey(u.id)},
                refreshTokens := if multi then DropSessions(old(store.db).refreshTokens, {u.id})
                    else old(store.db).refreshTokens)
    {
      store.RemoveToken(u.id, SLOT_PROVIDER, SLOT_NAME);
      if multi {
        var n := store.DeleteUserRefreshTokens(u.id);
      }
    }

    /** Ends the one session a token belongs to - whatever its secret, but only for its user -
        or the slot. */
    method RevokeSession(u: User, token: string) returns (r: Result<(), TokenError>)
      modifies store`db
      ensures multi && Cut(token, '.').Some? ==>
                var sid, rows := Cut(token, '.').value.0, old(store.db).refreshTokens;
                && r == (if sid in rows && rows[sid].userID != u.id then Err(InvalidToken) else Ok(()))
                && store.db == old(store.db).(refreshTokens := if sid in rows
                                              && rows[sid].userID == u.id then rows - {sid} else rows)
      ensures !(multi && Cut(token, '.').Some?) ==>
                r == Ok(()) && store.db == old(store.db).(tokens := old(store.db).tokens - {SlotKey(u.id)})
    {
      if multi && Cut(token, '.').Some? {
        var sid := Cut(token, '.').value.0;
        var found := store.GetRefreshTokenBySession(sid);
        if found.Err? {
          return Ok(());
        }
        if found.value.userID != u.id {
          return Err(InvalidToken);
        }
        store.DeleteRefreshToken(sid);
        return Ok(());
      }
      store.RemoveToken(u.id, SLOT_PROVIDER, SLOT_NAME);
      return Ok(());
    }
  }

  // ---------- the eviction loop ----------

  lemma NoneDropped(db: Tables, rows: seq<RefreshToken>, keepID: string)
    ensures Dropped(db, rows, 0, keepID) == db
  {
    assert db.refreshTokens - {} == db.refreshTokens;
  }

  lemma DropOne(sessions: map<string, RefreshToken>, gone: set<string>, sid: string)
    ensures sessions - gone - {sid} == sessions - (gone + {sid})
  {
  }

  /** Sorting keeps the listing. */
  lemma SameRows(listed: seq<RefreshToken>, rows: seq<RefreshToken>, sessions: map<string, RefreshToken>,
                 userID: string)
    requires multiset(rows) == multiset(listed) && Lists(listed, sessions, userID)
    ensures |rows| == |listed| && Lists(rows, sessions, userID) && |UserSessions(sessions, userID)| == |rows|
  {
    assert |multiset(rows)| == |rows| && |multiset(listed)| == |listed|;
    assert forall rt :: rt in rows <==> rt in multiset(rows);
    assert forall rt :: rt in listed <==> rt in multiset(listed);
    assert SessionIDs(rows) == SessionIDs(listed);
    CountIDs(listed);
    CountIDs(rows);
    forall i | 0 <= i < |rows|
      ensures rows[i].sessionID in sessions && sessions[rows[i].sessionID] == rows[i]
    {
      assert rows[i] in listed;
    }
  }

  /** One more row: its id is new. */
  lemma NextID(rows: seq<RefreshToken>, n: nat, keepID: string)
    requires n < |rows| && DistinctIDs(rows)
    ensures rows[n].sessionID !in Prefix(rows, n, keepID)
  {
    PrefixMembers(rows, n, keepID);
  }

  /** How many of the first rows are not the one to keep. */
  function Others(rows: seq<RefreshToken>, n: nat, keepID: string): nat
    requires n <= |rows|
  {
    if n == 0 then 0 else Others(rows, n - 1, keepID) + if rows[n - 1].sessionID == keepID then 0 else 1
  }

  lemma {:induction false} PrefixMembers(rows: seq<RefreshToken>, n: nat, keepID: string)
    requires n <= |rows|
    ensures forall id :: id in Prefix(rows, n, keepID) <==>
                id != keepID && exists i :: 0 <= i < n && rows[i].sessionID == id
  {
    if n > 0 {
      PrefixMembers(rows, n - 1, keepID);
    }
  }

  lemma {:induction false} PrefixCount(rows: seq<RefreshToken>, n: nat, keepID: string)
    requires n <= |rows| && DistinctIDs(rows)
    ensures |Prefix(rows, n, keepID)| == Others(rows, n, keepID)
  {
    if n > 0 {
      PrefixCount(rows, n - 1, keepID);
      NextID(rows, n - 1, keepID);
    }
  }

  /** At most one of the rows is the one to keep. */
  lemma {:induction false} OthersBound(rows: seq<RefreshToken>, n: nat, keepID: string)
    requires n <= |rows| && DistinctIDs(rows)
    ensures n - 1 <= Others(rows, n, keepID)
    ensures (forall i :: 0 <= i < n ==> rows[i].sessionID != keepID) ==> Others(rows, n, keepID) == n
  {
    if n > 0 {
      OthersBound(rows, n - 1, keepID);
    }
  }

  /** Dropping the excess from the front of the sorted rows is what eviction may do. */
  lemma PrefixEvicted(max: int, rows: seq<RefreshToken>, i: nat, before: map<string, RefreshToken>, userID: string,
                      keepID: string)
    requires i <= |rows| && ByExpiry(rows) && Lists(rows, before, userID)
    requires 0 < max < |rows| == |UserSessions(before, userID)| && |Prefix(rows, i, keepID)| == |rows| - max
    ensures EvictedTo(max, before, before - Prefix(rows, i, keepID), userID, keepID)
  {
    EvictedPrefix(rows, i, before, userID, keepID);
    PrefixMembers(rows, i, keepID);
  }

  /** Dropping a prefix of the sorted rows leaves none that expires earlier. */
  lemma EvictedPrefix(rows: seq<RefreshToken>, i: nat, before: map<string, RefreshToken>, userID: string,
                      keepID: string)
    requires i <= |rows| && ByExpiry(rows) && Lists(rows, before, userID)
    ensures var gone := Prefix(rows, i, keepID);
            && before.Keys - (before - gone).Keys == gone && gone <= UserSessions(before, userID)
            && forall e, k :: e in gone && k in UserSessions(before - gone, userID) && k != keepID
                 ==> before[e].expiresAt <= (before - gone)[k].expiresAt
  {
    var gone := Prefix(rows, i, keepID);
    PrefixMembers(rows, i, keepID);
    forall e | e in gone
      ensures e in SessionIDs(rows) && exists a :: 0 <= a < i && rows[a].sessionID == e && before[e] == rows[a]
    {
      var a :| 0 <= a < i && rows[a].sessionID == e;
      assert rows[a] in rows;
    }
    forall k | k in UserSessions(before - gone, userID) && k != keepID
      ensures exists b :: i <= b < |rows| && rows[b].sessionID == k && before[k] == rows[b]
    {
      assert k in SessionIDs(rows);
      var rt :| rt in rows && rt.sessionID == k;
      var b :| 0 <= b < |rows| && rows[b] == rt;
      assert b >= i;
    }
  }
}
