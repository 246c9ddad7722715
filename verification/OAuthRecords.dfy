/** The history of the authorization server says what happened: the approvals in it are those that
    users gave, and every access token answered with is in it. */
module OAuthRecords {
  import opened Entities
  import opened Scopes
  import opened TableOps
  import opened OAuthRules
  import opened OAuthHandlers
  import opened OAuthProtocol

  // ---------- approvals ----------

  /** The event is the user approving, on the consent page, a request of the client with this scope. */
  predicate Approves(e: Event, userID: string, clientID: string, sc: string) {
    && e.Begin? && e.request.Approved? && e.request.userID == userID && e.request.authz.client.id == clientID
    && sc in ScopeSet(JoinScopes(e.request.authz.scopes))
  }

  lemma ApprovedByStep(cfg: Config, s: State, e: Event, userID: string, clientID: string, sc: string)
    ensures (userID, clientID, sc) in Apply(cfg, s, e).log.approved
            <==> (userID, clientID, sc) in s.log.approved || Approves(e, userID, clientID, sc)
  {
    match e
    case Begin(id, r) => ApprovedByBegin(s.log, r, userID, clientID, sc);
    case Advance(id, draw) => StepApprovesNothing(cfg, s, id, draw);
    case _ =>
  }

  lemma ApprovedByBegin(log: History, r: Request, userID: string, clientID: string, sc: string)
    ensures (userID, clientID, sc) in LogBegin(log, r).approved
            <==> (userID, clientID, sc) in log.approved || Approves(Begin(0, r), userID, clientID, sc)
  {
  }

  lemma StepApprovesNothing(cfg: Config, s: State, id: nat, draw: string)
    ensures Apply(cfg, s, Advance(id, draw)).log.approved == s.log.approved
  {
  }

  /** A scope is recorded as approved exactly when its user approved it for its client in the run. */
  lemma {:induction false} ApprovedIff(cfg: Config, s: State, es: seq<Event>, userID: string, clientID: string,
                                       sc: string)
    ensures (userID, clientID, sc) in Run(cfg, s, es).log.approved
            <==> (userID, clientID, sc) in s.log.approved
                 || exists i :: 0 <= i < |es| && Approves(es[i], userID, clientID, sc)
    decreases |es|
  {
    if es != [] {
      ApprovedByStep(cfg, s, es[0], userID, clientID, sc);
      ApprovedIff(cfg, Apply(cfg, s, es[0]), es[1..], userID, clientID, sc);
      assert forall i :: 0 <= i < |es[1..]| ==> es[1..][i] == es[i + 1];
      if i :| 0 <= i < |es| && Approves(es[i], userID, clientID, sc) {
        assert i > 0 ==> es[i] == es[1..][i - 1];
      }
    }
  }

  // ---------- tokens ----------

  ghost predicate Known(log: History, at: AccessToken) {
    exists st :: st in log.tokens && st.token == at
  }

  /** The token of an answer has been recorded; a deletion on the way to an answer never ends in one. */
  ghost predicate AnswerKnown(log: History, r: Request) {
    match r
    case Done(Tokens(response)) => Known(log, response.accessToken)
    case Deleting(_, answer) => !answer.Tokens?
    case _ => true
  }

  ghost predicate AnswersKnown(s: State) {
    forall id :: id in s.requests ==> AnswerKnown(s.log, s.requests[id])
  }

  lemma StepAnswers(cfg: Config, t: OAuthTables, log: History, env: Env, r: Request)
    requires AnswerKnown(log, r)
    ensures AnswerKnown(LogStep(cfg, t, log, env, r), NextRequest(cfg, t, env, r))
  {
    var log' := LogStep(cfg, t, log, env, r);
    if r.Signing? {
      assert Signed(SignToken(cfg, r.user, r.grant, r.scopes, env.clock), r.now, env.clock) in log'.tokens;
    } else if r.Done? {
      AnswerStays(log, log', r);
    }
  }

  lemma AnswerStays(log: History, log': History, r: Request)
    requires AnswerKnown(log, r) && log.tokens <= log'.tokens
    ensures AnswerKnown(log', r)
  {
  }

  lemma EventKeepsAnswers(cfg: Config, s: State, e: Event)
    requires AnswersKnown(s) && Enabled(cfg, s, e)
    ensures AnswersKnown(Apply(cfg, s, e))
  {
    var s' := Apply(cfg, s, e);
    forall id | id in s'.requests
      ensures AnswerKnown(s'.log, s'.requests[id])
    {
      if e.Advance? && id == e.id {
        StepAnswers(cfg, s.tables, s.log, Env(s.users, s.clock, e.draw), s.requests[id]);
      } else if id in s.requests {
        AnswerStays(s.log, s'.log, s.requests[id]);
      }
    }
  }

  lemma {:induction false} RunKeepsAnswers(cfg: Config, s: State, es: seq<Event>)
    requires AnswersKnown(s) && CanRun(cfg, s, es)
    ensures AnswersKnown(Run(cfg, s, es))
    decreases |es|
  {
    if es != [] {
      EventKeepsAnswers(cfg, s, es[0]);
      RunKeepsAnswers(cfg, Apply(cfg, s, es[0]), es[1..]);
    }
  }

  /** In every reachable state, every access token some request was answered with is recorded. */
  lemma AnswersAreRecorded(cfg: Config, s: State, id: nat)
    requires Reachable(cfg, s) && id in s.requests && s.requests[id].Done? && s.requests[id].outcome.Tokens?
    ensures exists st :: st in s.log.tokens && st.token == s.requests[id].outcome.response.accessToken
  {
    var users, clock, es :| UsersKeyed(users) && CanRun(cfg, Start(users, clock), es)
        && s == Run(cfg, Start(users, clock), es);
    RunKeepsAnswers(cfg, Start(users, clock), es);
    assert AnswerKnown(s.log, s.requests[id]);
  }
}
