/** The authorization endpoint: what a visit and an approval achieve on their own, what is remembered
    of an approval, and for how long. */
module OAuthConsents {
  import opened Wrappers
  import opened GoStrings
  import opened Entities
  import opened Scopes
  import opened TableOps
  import opened OAuthRules
  import opened OAuthHandlers
  import opened OAuthProtocol

  // ---------- what is remembered ----------

  /** The scopes remembered for the user and the client; none without a row. */
  function Remembered(t: OAuthTables, userID: string, clientID: string): set<string> {
    var k := userID + "|" + clientID;
    if k in t.consents then ScopeSet(t.consents[k].scopes) else {}
  }

  predicate Consented(t: OAuthTables, userID: string, clientID: string) {
    userID + "|" + clientID in t.consents
  }

  /** The code issued for a request, with its columns. */
  function IssuedCode(cfg: Config, userID: string, q: AuthzRequest, secret: string, at: int): Code {
    Code(Sha256(secret), q.client.id, userID, q.redirectURI, JoinScopes(q.scopes), q.resource, q.challenge,
         at + cfg.codeTTL, None, "")
  }

  // ---------- a visit ----------

  lemma CodeReadyAnswers(cfg: Config, t: OAuthTables, users: map<string, User>, clock: int, draws: nat -> string,
      userID: string, q: AuthzRequest)
    ensures Complete(cfg, t, users, clock, draws, CodeReady(userID, q)) ==
            (t.(codes := t.codes[Sha256(draws(1)) := IssuedCode(cfg, userID, q, draws(1), clock)]),
             CodeSent(draws(1)))
  {
  }

  /** A visit skips the consent page exactly when the user's remembered consent for the client holds
      every scope asked for; then it issues a code for the request, and otherwise changes nothing. */
  lemma VisitAnswers(cfg: Config, t: OAuthTables, users: map<string, User>, clock: int, draws: nat -> string,
      userID: string, q: AuthzRequest)
    ensures Complete(cfg, t, users, clock, draws, Visiting(userID, q)) ==
            if Consented(t, userID, q.client.id)
               && forall sc :: sc in q.scopes ==> sc in Remembered(t, userID, q.client.id)
            then (t.(codes := t.codes[Sha256(draws(1)) := IssuedCode(cfg, userID, q, draws(1), clock)]),
                  CodeSent(draws(1)))
            else (t, ConsentPage)
  {
    var env := Env(users, clock, draws(2));
    assert NextTables(cfg, t, env, Visiting(userID, q)) == t;
    assert ConsentKey(userID, q.client.id) == userID + "|" + q.client.id;
    assert (forall sc :: sc in q.scopes ==> sc in Remembered(t, userID, q.client.id))
           <==> Elements(q.scopes) <= Remembered(t, userID, q.client.id);
    CodeReadyAnswers(cfg, t, users, clock, draws, userID, q);
  }

  // ---------- an approval ----------

  /** The consent row after an approval. */
  function ConsentAfter(t: OAuthTables, userID: string, q: AuthzRequest, clock: int): Consent {
    match GetConsent(t, userID, q.client.id)
    case None => Consent(userID, q.client.id, JoinScopes(q.scopes), clock, clock)
    case Some(prev) =>
      Consent(userID, q.client.id, JoinScopes(Union(ScopesOf(prev.scopes), q.scopes)), prev.createdAt, clock)
  }

  lemma ApprovalCompletes(cfg: Config, t: OAuthTables, users: map<string, User>, clock: int, draws: nat -> string,
      userID: string, q: AuthzRequest)
    ensures var (tables, answer) := Complete(cfg, t, users, clock, draws, Approved(userID, q));
            && answer == CodeSent(draws(1))
            && tables == t.(
                 codes := t.codes[Sha256(draws(1)) := IssuedCode(cfg, userID, q, draws(1), clock)],
                 consents := t.consents[ConsentKey(userID, q.client.id) := ConsentAfter(t, userID, q, clock)])
  {
    var env3, env2 := Env(users, clock, draws(3)), Env(users, clock, draws(2));
    var r := NextRequest(cfg, t, env3, Approved(userID, q));
    assert NextTables(cfg, t, env3, Approved(userID, q)) == t;
    var t' := NextTables(cfg, t, env2, r);
    assert NextRequest(cfg, t, env2, r) == CodeReady(userID, q);
    CodeReadyAnswers(cfg, t', users, clock, draws, userID, q);
  }

  /** An approval issues a code for the request and remembers its scopes next to those remembered
      before, for this user and client alone; the row keeps its first creation time. */
  lemma ApprovalAnswers(cfg: Config, t: OAuthTables, users: map<string, User>, clock: int, draws: nat -> string,
      userID: string, q: AuthzRequest)
    ensures var (z, answer) := Complete(cfg, t, users, clock, draws, Approved(userID, q));
            var k := userID + "|" + q.client.id;
            && answer == CodeSent(draws(1))
            && z.codes == t.codes[Sha256(draws(1)) := IssuedCode(cfg, userID, q, draws(1), clock)]
            && (z.clients, z.grants, z.jtis) == (t.clients, t.grants, t.jtis)
            && k in z.consents && z.consents - {k} == t.consents - {k}
            && Remembered(z, userID, q.client.id) ==
               Remembered(t, userID, q.client.id) + ScopeSet(JoinScopes(q.scopes))
            && var row := z.consents[k];
               && row.userID == userID && row.clientID == q.client.id && row.updatedAt == clock
               && row.createdAt == if k in t.consents then t.consents[k].createdAt else clock
  {
    ApprovalCompletes(cfg, t, users, clock, draws, userID, q);
    assert ConsentKey(userID, q.client.id) == userID + "|" + q.client.id;
    MergedScopes(t, userID, q, clock);
  }

  lemma MergedScopes(t: OAuthTables, userID: string, q: AuthzRequest, clock: int)
    ensures ScopeSet(ConsentAfter(t, userID, q, clock).scopes) ==
            Remembered(t, userID, q.client.id) + ScopeSet(JoinScopes(q.scopes))
  {
    assert ConsentKey(userID, q.client.id) == userID + "|" + q.client.id;
    var c := GetConsent(t, userID, q.client.id);
    if c.Some? {
      var had := ScopesOf(c.value.scopes);
      ParseIsCanonical(c.value.scopes);
      ParseIsCanonical(JoinScopes(had) + SPACE + JoinScopes(q.scopes));
      UnionIsSetUnion(had, q.scopes);
    }
  }

  /** After an approval, a visit for the same client skips the page exactly when each of its scopes has
      been approved, then or before. */
  lemma ApprovalIsRemembered(cfg: Config, t: OAuthTables, users: map<string, User>, clock: int, draws: nat -> string,
      userID: string, q: AuthzRequest, later: AuthzRequest, at: int)
    requires later.client.id == q.client.id
    ensures var z := Complete(cfg, t, users, clock, draws, Approved(userID, q)).0;
            Complete(cfg, z, users, at, draws, Visiting(userID, later)).1.CodeSent? <==>
            forall sc :: sc in later.scopes ==>
                sc in Remembered(t, userID, q.client.id) || sc in ScopeSet(JoinScopes(q.scopes))
  {
    ApprovalAnswers(cfg, t, users, clock, draws, userID, q);
    VisitAnswers(cfg, Complete(cfg, t, users, clock, draws, Approved(userID, q)).0, users, at, draws, userID, later);
  }

  // ---------- forgetting ----------

  /** Disconnecting a client forgets the user's consent for it and no other, and deletes the user's
      grants of it and no others. */
  lemma DisconnectForgets(cfg: Config, t: OAuthTables, users: map<string, User>, clock: int, draws: nat -> string,
      userID: string, clientID: string, otherUser: string, q: AuthzRequest, gid: string)
    requires BAR !in userID && BAR !in otherUser
    ensures var z := Disconnected(t, userID, clientID);
            && Complete(cfg, z, users, clock, draws, Visiting(otherUser, q)).1 ==
               (if (otherUser, q.client.id) == (userID, clientID) then ConsentPage
                else Complete(cfg, t, users, clock, draws, Visiting(otherUser, q)).1)
            && (gid in z.grants <==>
                  gid in t.grants && !(t.grants[gid].userID == userID && t.grants[gid].clientID == clientID))
            && (gid in z.grants ==> z.grants[gid] == t.grants[gid])
            && (z.clients, z.codes, z.jtis) == (t.clients, t.codes, t.jtis)
  {
    var z := Disconnected(t, userID, clientID);
    VisitAnswers(cfg, z, users, clock, draws, otherUser, q);
    VisitAnswers(cfg, t, users, clock, draws, otherUser, q);
    assert ConsentKey(userID, clientID) == userID + "|" + clientID;
    if (otherUser, q.client.id) != (userID, clientID) {
      if otherUser + "|" + q.client.id == userID + "|" + clientID {
        ConcatInjective(otherUser, q.client.id, userID, clientID, BAR);
      }
    }
  }

  /** Whatever happens, a remembered consent keeps the time it was first given: two approvals that
      interleave agree on it. */
  lemma ConsentBirthKept(cfg: Config, s: State, e: Event, k: string)
    requires k in s.tables.consents && k in Apply(cfg, s, e).tables.consents
    ensures Apply(cfg, s, e).tables.consents[k].createdAt == s.tables.consents[k].createdAt
  {
    if e.Advance? && e.id in s.requests {
      StepKeepsBirth(cfg, s.tables, Env(s.users, s.clock, e.draw), s.requests[e.id], k);
    }
  }

  lemma StepKeepsBirth(cfg: Config, t: OAuthTables, env: Env, r: Request, k: string)
    requires k in t.consents
    ensures k in NextTables(cfg, t, env, r).consents
    ensures NextTables(cfg, t, env, r).consents[k].createdAt == t.consents[k].createdAt
  {
  }
}
