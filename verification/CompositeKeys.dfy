/** String-encoded composite keys: for user ids and provider names without a '|' they behave
    as tuples, and deleting a user is exact. */
module CompositeKeys {
  import opened Wrappers
  import opened GoStrings
  import opened Entities
  import opened TableOps

  // ---------- keys ----------

  lemma TokenKeyInjective(u: string, p: string, n: string, u': string, p': string, n': string)
    requires BAR !in u && BAR !in u' && BAR !in p && BAR !in p'
    ensures TokenKey(u, p, n) == TokenKey(u', p', n') <==> (u, p, n) == (u', p', n')
  {
    if TokenKey(u, p, n) == TokenKey(u', p', n') {
      assert TokenKey(u, p, n) == u + [BAR] + (p + [BAR] + n);
      assert TokenKey(u', p', n') == u' + [BAR] + (p' + [BAR] + n');
      ConcatInjective(u, p + [BAR] + n, u', p' + [BAR] + n', BAR);
      ConcatInjective(p, n, p', n', BAR);
    }
  }

  lemma LoginKeyInjective(p: string, k: string, p': string, k': string)
    requires BAR !in p && BAR !in p'
    ensures LoginKey(p, k) == LoginKey(p', k') <==> (p, k) == (p', k')
  {
    if LoginKey(p, k) == LoginKey(p', k') {
      ConcatInjective(p, k, p', k', BAR);
    }
  }

  /** A consent belongs to its user and client: saving or deleting one never touches another's. */
  lemma ConsentsAreSeparate(t: OAuthTables, c: Consent, u: string, client: string)
    requires BAR !in u && BAR !in c.userID && (u, client) != (c.userID, c.clientID)
    ensures GetConsent(SaveConsent(t, c), u, client) == GetConsent(t, u, client)
    ensures GetConsent(DeleteConsent(t, c.userID, c.clientID), u, client) == GetConsent(t, u, client)
  {
    if ConsentKey(u, client) == ConsentKey(c.userID, c.clientID) {
      ConcatInjective(u, client, c.userID, c.clientID, BAR);
      assert false;
    }
  }

  /** The token rows of a user start with the user's id and a '|': of a user without a '|'
      exactly that user's. */
  lemma PrefixIsOwner(id: string, u: string, p: string, n: string)
    requires BAR !in id && BAR !in u
    ensures HasPrefix(TokenKey(u, p, n), id + [BAR]) <==> u == id
  {
    var key := TokenKey(u, p, n);
    assert key == u + [BAR] + (p + [BAR] + n);
    assert key[..|u| + 1] == u + [BAR];
    if HasPrefix(key, id + [BAR]) {
      var rest := key[|id| + 1..];
      assert key == id + [BAR] + rest;
      ConcatInjective(u, p + [BAR] + n, id, rest, BAR);
    }
  }

  // ---------- the string-keyed maps refine tuple-keyed ones ----------

  datatype Op =
    | SetToken(userID: string, provider: string, name: string, value: string)
    | GetToken(userID: string, provider: string, name: string)
    | RemoveToken(userID: string, provider: string, name: string)
    | AddLogin(userID: string, provider: string, key: string)
    | FindByLogin(provider: string, key: string)
    | RemoveLogin(provider: string, key: string)
    | DeleteUsers(ids: set<string>)

  datatype Answer = Value(text: string) | Bound(userID: Option<string>) | Added(ok: bool) | Nothing

  datatype Strings = Strings(tokens: map<string, string>, logins: map<string, string>)

  datatype Tuples = Tuples(tokens: map<(string, string, string), string>, logins: map<(string, string), string>)

  predicate Legal(op: Op) {
    match op
    case SetToken(u, p, _, _) => BAR !in u && BAR !in p
    case GetToken(u, p, _) => BAR !in u && BAR !in p
    case RemoveToken(u, p, _) => BAR !in u && BAR !in p
    case AddLogin(_, p, _) => BAR !in p
    case FindByLogin(p, _) => BAR !in p
    case RemoveLogin(p, _) => BAR !in p
    case DeleteUsers(ids) => forall id :: id in ids ==> BAR !in id
  }

  /** The store as it is: string keys, and the prefix test of the cascade. */
  function StringStep(s: Strings, op: Op): (Strings, Answer) {
    match op
    case SetToken(u, p, n, v) => (s.(tokens := s.tokens[TokenKey(u, p, n) := v]), Nothing)
    case GetToken(u, p, n) => (s, Value(TokenValue(s.tokens, TokenKey(u, p, n))))
    case RemoveToken(u, p, n) => (s.(tokens := s.tokens - {TokenKey(u, p, n)}), Nothing)
    case AddLogin(u, p, k) =>
      if LoginKey(p, k) in s.logins then (s, Added(false))
          else (s.(logins := s.logins[LoginKey(p, k) := u]), Added(true))
    case FindByLogin(p, k) => (s, Bound(if LoginKey(p, k) in s.logins then Some(s.logins[LoginKey(p, k)]) else None))
    case RemoveLogin(p, k) => (s.(logins := s.logins - {LoginKey(p, k)}), Nothing)
    case DeleteUsers(ids) => (Strings(DropTokens(s.tokens, ids), DropLoginUsers(s.logins, ids)), Nothing)
  }

  /** The store as it is meant: keys are tuples, and a token belongs to its first component. */
  function TupleStep(t: Tuples, op: Op): (Tuples, Answer) {
    match op
    case SetToken(u, p, n, v) => (t.(tokens := t.tokens[(u, p, n) := v]), Nothing)
    case GetToken(u, p, n) => (t, Value(if (u, p, n) in t.tokens then t.tokens[(u, p, n)] else ""))
    case RemoveToken(u, p, n) => (t.(tokens := t.tokens - {(u, p, n)}), Nothing)
    case AddLogin(u, p, k) => if (p, k) in t.logins then (t, Added(false))
        else (t.(logins := t.logins[(p, k) := u]), Added(true))
    case FindByLogin(p, k) => (t, Bound(if (p, k) in t.logins then Some(t.logins[(p, k)]) else None))
    case RemoveLogin(p, k) => (t.(logins := t.logins - {(p, k)}), Nothing)
    case DeleteUsers(ids) =>
      (Tuples(map k | k in t.tokens && k.0 !in ids :: t.tokens[k], map k | k in t.logins
              && t.logins[k] !in ids :: t.logins[k]), Nothing)
  }

  function RunStrings(s: Strings, ops: seq<Op>): seq<Answer>
    decreases |ops|
  {
    if ops == [] then [] else [StringStep(s, ops[0]).1] + RunStrings(StringStep(s, ops[0]).0, ops[1..])
  }

  function RunTuples(t: Tuples, ops: seq<Op>): seq<Answer>
    decreases |ops|
  {
    if ops == [] then [] else [TupleStep(t, ops[0]).1] + RunTuples(TupleStep(t, ops[0]).0, ops[1..])
  }

  ghost predicate TokensAgree(s: map<string, string>, t: map<(string, string, string), string>) {
    && (forall u, p, n :: (u, p, n) in t ==> BAR !in u && BAR !in p)
    && forall u, p, n :: BAR !in u && BAR !in p ==>
         (TokenKey(u, p, n) in s <==> (u, p, n) in t) && ((u, p, n) in t ==> s[TokenKey(u, p, n)] == t[(u, p, n)])
  }

  ghost predicate LoginsAgree(s: map<string, string>, t: map<(string, string), string>) {
    forall p, k :: BAR !in p ==>
        (LoginKey(p, k) in s <==> (p, k) in t) && ((p, k) in t ==> s[LoginKey(p, k)] == t[(p, k)])
  }

  lemma SetTokenAgrees(s: map<string, string>, t: map<(string, string, string), string>, u: string, p: string,
      n: string, v: string)
    requires TokensAgree(s, t) && BAR !in u && BAR !in p
    ensures TokensAgree(s[TokenKey(u, p, n) := v], t[(u, p, n) := v])
    ensures TokensAgree(s - {TokenKey(u, p, n)}, t - {(u, p, n)})
  {
    forall u', p', n' | BAR !in u' && BAR !in p'
      ensures TokenKey(u', p', n') == TokenKey(u, p, n) <==> (u', p', n') == (u, p, n)
    {
      TokenKeyInjective(u', p', n', u, p, n);
    }
  }

  lemma LoginAgrees(s: map<string, string>, t: map<(string, string), string>, p: string, k: string, u: string)
    requires LoginsAgree(s, t) && BAR !in p
    ensures LoginsAgree(s[LoginKey(p, k) := u], t[(p, k) := u])
    ensures LoginsAgree(s - {LoginKey(p, k)}, t - {(p, k)})
  {
    forall p', k' | BAR !in p'
      ensures LoginKey(p', k') == LoginKey(p, k) <==> (p', k') == (p, k)
    {
      LoginKeyInjective(p', k', p, k);
    }
  }

  lemma DropTokensAgrees(s: map<string, string>, t: map<(string, string, string), string>, ids: set<string>)
    requires TokensAgree(s, t) && forall id :: id in ids ==> BAR !in id
    ensures TokensAgree(DropTokens(s, ids), map k | k in t && k.0 !in ids :: t[k])
  {
    forall u, p, n | BAR !in u && BAR !in p
      ensures TokenPrefixed(TokenKey(u, p, n), ids) <==> u in ids
    {
      TokenPrefixedIff(ids, u, p, n);
    }
  }

  lemma TokenPrefixedIff(ids: set<string>, u: string, p: string, n: string)
    requires BAR !in u && forall id :: id in ids ==> BAR !in id
    ensures TokenPrefixed(TokenKey(u, p, n), ids) <==> u in ids
  {
    if id :| id in ids && HasPrefix(TokenKey(u, p, n), id + [BAR]) {
      PrefixIsOwner(id, u, p, n);
    }
    PrefixIsOwner(u, u, p, n);
  }

  lemma StepAgrees(s: Strings, t: Tuples, op: Op)
    requires TokensAgree(s.tokens, t.tokens) && LoginsAgree(s.logins, t.logins) && Legal(op)
    ensures StringStep(s, op).1 == TupleStep(t, op).1
    ensures TokensAgree(StringStep(s, op).0.tokens, TupleStep(t, op).0.tokens)
    ensures LoginsAgree(StringStep(s, op).0.logins, TupleStep(t, op).0.logins)
  {
    match op
    case SetToken(u, p, n, v) => SetTokenAgrees(s.tokens, t.tokens, u, p, n, v);
    case GetToken(u, p, n) =>
    case RemoveToken(u, p, n) => SetTokenAgrees(s.tokens, t.tokens, u, p, n, "");
    case AddLogin(u, p, k) => LoginAgrees(s.logins, t.logins, p, k, u);
    case FindByLogin(p, k) =>
    case RemoveLogin(p, k) => LoginAgrees(s.logins, t.logins, p, k, "");
    case DeleteUsers(ids) => DropTokensAgrees(s.tokens, t.tokens, ids);
  }

  lemma {:induction false} AgreeingRuns(s: Strings, t: Tuples, ops: seq<Op>)
    requires TokensAgree(s.tokens, t.tokens) && LoginsAgree(s.logins, t.logins)
    requires forall op :: op in ops ==> Legal(op)
    ensures RunStrings(s, ops) == RunTuples(t, ops)
    decreases |ops|
  {
    if ops != [] {
      StepAgrees(s, t, ops[0]);
      AgreeingRuns(StringStep(s, ops[0]).0, TupleStep(t, ops[0]).0, ops[1..]);
    }
  }

  /** From empty tables, no sequence of calls with '|'-free user ids and provider names can
      tell the string-keyed store from a tuple-keyed one. */
  lemma StringKeysRefineTuples(ops: seq<Op>)
    requires forall op :: op in ops ==> Legal(op)
    ensures RunStrings(Strings(map[], map[]), ops) == RunTuples(Tuples(map[], map[]), ops)
  {
    AgreeingRuns(Strings(map[], map[]), Tuples(map[], map[]), ops);
  }

  /** With a '|' in a user id or provider name it can: one user reads another's token. */
  lemma StringKeysCollide(v: string)
    requires v != ""
    ensures var ops := [SetToken("a|b", "c", "n", v), GetToken("a", "b|c", "n")];
            && RunStrings(Strings(map[], map[]), ops) == [Nothing, Value(v)]
            && RunTuples(Tuples(map[], map[]), ops) == [Nothing, Value("")]
  {
    var first, second := SetToken("a|b", "c", "n", v), GetToken("a", "b|c", "n");
    assert TokenKey("a|b", "c", "n") == "a|b|c|n" == TokenKey("a", "b|c", "n");
    assert [first, second][1..] == [second];
    var s := StringStep(Strings(map[], map[]), first).0;
    var t := TupleStep(Tuples(map[], map[]), first).0;
    assert RunStrings(s, [second]) == [Value(v)] + RunStrings(s, []);
    assert RunTuples(t, [second]) == [Value("")] + RunTuples(t, []);
  }

  // ---------- cascade delete ----------

  /** The rows of one user in each of the ten tables the cascade touches. */
  datatype Rows = Rows(
    users: map<string, User>,
    roles: map<string, set<string>>,
    claims: map<string, seq<Claim>>,
    tokens: map<string, string>,
    logins: map<string, LoginInfo>,
    apiKeys: map<string, APIKey>,
    sessions: map<string, RefreshToken>,
    codes: map<Digest, Code>,
    consents: map<string, Consent>,
    grants: map<string, Grant>)

  const NO_ROWS := Rows(map[], map[], map[], map[], map[], map[], map[], map[], map[], map[])

  function TokensOf(tokens: map<string, string>, u: string): map<string, string> {
    map k | k in tokens && HasPrefix(k, u + [BAR]) :: tokens[k]
  }

  function LoginsOf(logins: map<string, LoginInfo>, loginUser: map<string, string>, u: string): map<string, LoginInfo> {
    map k | k in logins && k in loginUser && loginUser[k] == u :: logins[k]
  }

  function KeysOf(apiKeys: map<string, APIKey>, u: string): map<string, APIKey> {
    map k | k in apiKeys && apiKeys[k].userID == u :: apiKeys[k]
  }

  function SessionsOf(sessions: map<string, RefreshToken>, u: string): map<string, RefreshToken> {
    map k | k in sessions && sessions[k].userID == u :: sessions[k]
  }

  function CodesOf(codes: map<Digest, Code>, u: string): map<Digest, Code> {
    map k | k in codes && codes[k].userID == u :: codes[k]
  }

  function ConsentsOf(consents: map<string, Consent>, u: string): map<string, Consent> {
    map k | k in consents && consents[k].userID == u :: consents[k]
  }

  function GrantsOf(grants: map<string, Grant>, u: string): map<string, Grant> {
    map k | k in grants && grants[k].userID == u :: grants[k]
  }

  /** The row filed under the user's own id. */
  function RowOf<V>(m: map<string, V>, u: string): map<string, V> {
    map k | k in m && k == u :: m[k]
  }

  function RowsOf(t: Tables, o: OAuthTables, u: string): Rows {
    Rows(RowOf(t.users, u), RowOf(t.userRoles, u), RowOf(t.userClaims, u), TokensOf(t.tokens, u),
         LoginsOf(t.logins, t.loginUser, u),
         KeysOf(t.apiKeys, u), SessionsOf(t.refreshTokens, u), CodesOf(o.codes, u), ConsentsOf(o.consents, u),
             GrantsOf(o.grants, u))
  }

  lemma IdRowsLeft(t: Tables, ids: set<string>, u: string)
    ensures RowOf(t.users - ids, u) == (if u in ids then map[] else RowOf(t.users, u))
    ensures RowOf(t.userRoles - ids, u) == (if u in ids then map[] else RowOf(t.userRoles, u))
    ensures RowOf(t.userClaims - ids, u) == (if u in ids then map[] else RowOf(t.userClaims, u))
  {
  }

  /** Two strings that a third one starts with: one starts with the other. */
  lemma SharedPrefix(k: string, a: string, b: string)
    requires HasPrefix(k, a) && HasPrefix(k, b)
    ensures HasPrefix(a, b) || HasPrefix(b, a)
  {
    if |a| <= |b| {
      assert b[..|a|] == k[..|b|][..|a|] == a;
    } else {
      assert a[..|b|] == k[..|a|][..|b|] == b;
    }
  }

  /** The ids overlap as prefixes: one of "id|" and "u|" starts with the other. */
  predicate Overlap(id: string, u: string) {
    HasPrefix(id + [BAR], u + [BAR]) || HasPrefix(u + [BAR], id + [BAR])
  }

  lemma NoOverlap(id: string, u: string)
    requires BAR !in id && BAR !in u && id != u
    ensures !Overlap(id, u)
  {
    var a, b := id + [BAR], u + [BAR];
    if |id| < |u| {
      assert a[|id|] == BAR && b[|id|] == u[|id|];
    } else if |u| < |id| {
      assert b[|u|] == BAR && a[|u|] == id[|u|];
    } else {
      assert a[..|id|] == id && b[..|u|] == u;
    }
  }

  lemma TokenRowsLeft(tokens: map<string, string>, ids: set<string>, u: string)
    requires BAR !in u && forall id :: id in ids ==> BAR !in id
    ensures TokensOf(DropTokens(tokens, ids), u) == if u in ids then map[] else TokensOf(tokens, u)
  {
    forall k | HasPrefix(k, u + [BAR])
      ensures TokenPrefixed(k, ids) <==> u in ids
    {
      if id :| id in ids && HasPrefix(k, id + [BAR]) {
        SharedPrefix(k, id + [BAR], u + [BAR]);
        if id != u {
          NoOverlap(id, u);
        }
      }
    }
  }

  lemma LoginRowsLeft(t: Tables, ids: set<string>, u: string)
    ensures LoginsOf(DropLogins(t.logins, t.loginUser, ids), DropLoginUsers(t.loginUser, ids), u)
            == if u in ids then map[] else LoginsOf(t.logins, t.loginUser, u)
  {
  }

  lemma KeyRowsLeft(t: Tables, ids: set<string>, u: string)
    ensures KeysOf(DropKeys(t.apiKeys, ids), u) == (if u in ids then map[] else KeysOf(t.apiKeys, u))
    ensures SessionsOf(DropSessions(t.refreshTokens, ids), u) == (if u in ids then map[]
                                                                  else SessionsOf(t.refreshTokens, u))
  {
  }

  lemma OAuthRowsLeft(o: OAuthTables, ids: set<string>, u: string)
    ensures CodesOf(DropCodes(o.codes, ids), u) == (if u in ids then map[] else CodesOf(o.codes, u))
    ensures ConsentsOf(DropConsents(o.consents, ids), u) == (if u in ids then map[] else ConsentsOf(o.consents, u))
    ensures GrantsOf(DropGrants(o.grants, ids), u) == (if u in ids then map[] else GrantsOf(o.grants, u))
  {
  }

  /** For '|'-free ids, a cascade leaves a deleted user no row in any of the ten tables, every
      other user all of theirs, and the tables that hold no user rows as they were. With the
      stale guests for `ids` this is the anonymous purge. */
  lemma CascadeIsExact(t: Tables, o: OAuthTables, ids: set<string>, u: string)
    requires BAR !in u && forall id :: id in ids ==> BAR !in id
    ensures RowsOf(CascadeDelete(t, ids), CascadeOAuth(o, ids), u) == if u in ids then NO_ROWS else RowsOf(t, o, u)
    ensures var t', o' := CascadeDelete(t, ids), CascadeOAuth(o, ids);
            && t'.roles == t.roles && t'.roleClaims == t.roleClaims && o'.clients == o.clients && o'.jtis == o.jtis
            && (forall k :: k in t'.logins <==> k in t.logins && !(k in t.loginUser && t.loginUser[k] in ids))
            && (forall k :: k in t'.loginUser <==> k in t.loginUser && t.loginUser[k] !in ids)
  {
    IdRowsLeft(t, ids, u);
    TokenRowsLeft(t.tokens, ids, u);
    LoginRowsLeft(t, ids, u);
    KeyRowsLeft(t, ids, u);
    OAuthRowsLeft(o, ids, u);
  }

  /** The purge is exact on guests: after it a user is there exactly when they were there and
      are not a stale guest. */
  lemma PurgeIsExact(t: Tables, o: OAuthTables, createdBefore: int, u: string)
    requires forall id :: id in t.users ==> BAR !in id
    requires u in t.users
    ensures var ids := StaleGuests(t.users, createdBefore);
            RowsOf(CascadeDelete(t, ids), CascadeOAuth(o, ids), u) ==
            if t.users[u].isAnonymous && t.users[u].createdAt < createdBefore then NO_ROWS else RowsOf(t, o, u)
  {
    CascadeIsExact(t, o, StaleGuests(t.users, createdBefore), u);
  }

  /** For arbitrary ids: deleting one user spares every possible token of another exactly when
      the ids do not overlap as prefixes. */
  lemma TokensSparedIff(id: string, u: string)
    ensures (forall tokens: map<string, string> :: TokensOf(DropTokens(tokens, {id}), u) == TokensOf(tokens, u)) <==>
        !Overlap(id, u)
  {
    if Overlap(id, u) {
      var k := if HasPrefix(id + [BAR], u + [BAR]) then id + [BAR] else u + [BAR];
      var tokens: map<string, string> := map[k := ""];
      assert TokenPrefixed(k, {id});
      assert k in TokensOf(tokens, u) && k !in TokensOf(DropTokens(tokens, {id}), u);
    } else {
      forall tokens: map<string, string>
        ensures TokensOf(DropTokens(tokens, {id}), u) == TokensOf(tokens, u)
      {
        forall k | HasPrefix(k, u + [BAR])
          ensures !TokenPrefixed(k, {id})
        {
          if HasPrefix(k, id + [BAR]) {
            SharedPrefix(k, id + [BAR], u + [BAR]);
          }
        }
      }
    }
  }
}
