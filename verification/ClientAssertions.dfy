/** Client assertions (sections 3 and 5 of RFC 7523): the checks of `authenticateAssertion`,
    and replay protection when its store call interleaves with the sweep of recorded ids. */
module ClientAssertions {
  import opened Wrappers
  import opened Entities
  import opened TableOps
  import opened MemStore

  const LEEWAY: int := 30 * SECOND
  const MAX_JTI_LEN := 256
  const JWT_BEARER := "urn:ietf:params:oauth:client-assertion-type:jwt-bearer"

  /** The claims of a JWT; `signed` stands for a signature by one of the client's keys with an
      accepted algorithm. */
  datatype Assertion = Assertion(
    iss: string, sub: string, aud: seq<string>, exp: Option<int>, iat: Option<int>, nbf: Option<int>, jti: string,
        signed: bool)

  datatype Presented = Missing | Malformed | Jwt(assertion: Assertion)

  datatype Form = Form(assertionType: string, clientID: string, presented: Presented)

  datatype AssertionError = InvalidClient | InvalidRequest

  /** What the checks need to know about the server: its issuer, its token endpoint and
      the furthest an assertion may expire in the future. */
  datatype Setup = Setup(issuer: string, tokenURL: string, maxLifetime: int)

  // ---------- the checks ----------

  /** The claims that are checked before the signature. `privateKeyJWT` says whether the
      client resolves to one registered for that method. */
  function CheckForm(form: Form, privateKeyJWT: bool): Result<Assertion, AssertionError> {
    if form.assertionType != JWT_BEARER then Err(InvalidClient)
    else match form.presented
      case Missing => Err(InvalidRequest)
      case Malformed => Err(InvalidClient)
      case Jwt(a) =>
        if a.sub == "" || a.iss != a.sub then Err(InvalidClient)
        else if form.clientID != "" && form.clientID != a.sub then Err(InvalidClient)
        else if !privateKeyJWT then Err(InvalidClient)
        else Ok(a)
  }

  predicate NotBefore(claim: Option<int>, now: int) {
    claim.Some? ==> claim.value - LEEWAY <= now
  }

  /** Signature, audience and time claims. */
  predicate Verifies(setup: Setup, endpoint: string, a: Assertion, now: int) {
    && a.signed
    && (setup.issuer in a.aud || setup.tokenURL in a.aud || endpoint in a.aud)
    && a.exp.Some? && now < a.exp.value + LEEWAY
    && NotBefore(a.iat, now) && NotBefore(a.nbf, now)
  }

  /** The lifetime limit, on a clock reading of its own, and the id. */
  predicate WithinLimits(setup: Setup, a: Assertion, now: int)
    requires a.exp.Some?
  {
    a.exp.value - now <= setup.maxLifetime && 0 < |a.jti| <= MAX_JTI_LEN
  }

  class Authenticator {
    const setup: Setup
    const store: Store

    constructor (setup: Setup, store: Store)
      ensures this.setup == setup && this.store == store
    {
      this.setup, this.store := setup, store;
    }

    /** Authenticates a client; `now` and `later` are the two clock readings. On success the
        assertion was acceptable and its id was unrecorded and now is; on failure nothing changes. */
    method Authenticate(endpoint: string, form: Form, privateKeyJWT: bool, now: int, later: int)
      returns (r: Result<string, AssertionError>)
      modifies store`oauth
      ensures r.Ok? <==>
                && form.assertionType == JWT_BEARER && form.presented.Jwt? && privateKeyJWT
                && var a := form.presented.assertion;
                   && a.sub != "" && a.iss == a.sub && (form.clientID == "" || form.clientID == a.sub)
                   && a.signed && (setup.issuer in a.aud || setup.tokenURL in a.aud || endpoint in a.aud)
                   && a.exp.Some? && now < a.exp.value + LEEWAY && a.exp.value - later <= setup.maxLifetime
                   && (a.iat.Some? ==> a.iat.value <= now + LEEWAY) && (a.nbf.Some? ==> a.nbf.value <= now + LEEWAY)
                   && 1 <= |a.jti| <= MAX_JTI_LEN && (a.sub, a.jti) !in old(store.oauth).jtis
      ensures r.Ok? ==> form.presented.Jwt? &&
                        var a := form.presented.assertion;
                        && r.value == a.sub && a.exp.Some?
                        && store.oauth == old(store.oauth).(jtis := old(store.oauth).jtis[(a.sub,
                                a.jti) := a.exp.value + LEEWAY])
      ensures r.Err? ==> store.oauth == old(store.oauth)
      ensures r == Err(InvalidRequest) <==> form.assertionType == JWT_BEARER && form.presented.Missing?
    {
      var checked := CheckForm(form, privateKeyJWT);
      if checked.Err? {
        return Err(checked.error);
      }
      var a := checked.value;
      if !Verifies(setup, endpoint, a, now) {
        return Err(InvalidClient);
      }
      if a.exp.value - later > setup.maxLifetime {
        return Err(InvalidClient);
      }
      if a.jti == "" || |a.jti| > MAX_JTI_LEN {
        return Err(InvalidClient);
      }
      var isNew := store.UseClientAssertion(a.sub, a.jti, a.exp.value + LEEWAY);
      if !isNew {
        return Err(InvalidClient);
      }
      return Ok(a.sub);
    }
  }

  // ---------- requests in flight ----------

  /** A request between its checks and its answer. `since` is the clock reading the
      assertion was verified at, `endpoint` where it was presented. */
  datatype Handler =
    | Verified(assertion: Assertion, endpoint: string, since: int)
    | Limited(assertion: Assertion, endpoint: string, since: int)
    | Answered(accepted: bool)

  /** An accepted assertion: where it was presented, when it was verified and recorded, and how many
      sweeps came before. */
  datatype Acceptance = Acceptance(
    clientID: string, jti: string, exp: int, since: int, at: int, sweepsBefore: nat, assertion: Assertion,
    endpoint: string)

  /** The store, the clock, the requests, and the history: the acceptances and the cutoffs
      of the sweeps, in order. */
  datatype State = State(
    tables: OAuthTables, clock: int, handlers: map<nat, Handler>, accepted: seq<Acceptance>, sweeps: seq<int>)

  datatype Event =
    | Tick(now: int)
    | Arrive(id: nat, endpoint: string, form: Form, privateKeyJWT: bool)
    | Limit(id: nat)
    | Record(id: nat)
    | Sweep(cutoff: int)

  predicate Enabled(s: State, e: Event) {
    match e
    case Tick(now) => now >= s.clock
    case Arrive(id, _, _, _) => id !in s.handlers
    case Limit(id) => id in s.handlers && s.handlers[id].Verified?
    case Record(id) => id in s.handlers && s.handlers[id].Limited?
    case Sweep(cutoff) => cutoff <= s.clock
  }

  function ArriveStep(setup: Setup, clock: int, endpoint: string, form: Form, privateKeyJWT: bool): Handler {
    match CheckForm(form, privateKeyJWT)
    case Err(_) => Answered(false)
    case Ok(a) => if Verifies(setup, endpoint, a, clock) then Verified(a, endpoint, clock) else Answered(false)
  }

  function LimitStep(setup: Setup, clock: int, h: Handler): Handler {
    if h.Verified? && h.assertion.exp.Some? && WithinLimits(setup, h.assertion, clock)
    then Limited(h.assertion, h.endpoint, h.since) else Answered(false)
  }

  predicate Recordable(s: State, id: nat) {
    id in s.handlers && s.handlers[id].Limited? && s.handlers[id].assertion.exp.Some?
  }

  /** The handler's record step finds its id unrecorded. */
  predicate Accepts(s: State, id: nat) {
    Recordable(s, id) && (s.handlers[id].assertion.sub, s.handlers[id].assertion.jti) !in s.tables.jtis
  }

  function AcceptanceOf(s: State, id: nat): Acceptance
    requires Recordable(s, id)
  {
    var h := s.handlers[id];
    Acceptance(h.assertion.sub, h.assertion.jti, h.assertion.exp.value, h.since, s.clock, |s.sweeps|, h.assertion,
               h.endpoint)
  }

  function RecordStep(s: State, id: nat): State {
    if !Recordable(s, id) then s
    else
      var a := s.handlers[id].assertion;
      State(UseAssertion(s.tables, a.sub, a.jti, a.exp.value + LEEWAY), s.clock,
            s.handlers[id := Answered(Accepts(s, id))],
            if Accepts(s, id) then s.accepted + [AcceptanceOf(s, id)] else s.accepted, s.sweeps)
  }

  function Apply(setup: Setup, s: State, e: Event): State {
    match e
    case Tick(now) => s.(clock := now)
    case Arrive(id, endpoint, form, pk) => s.(handlers := s.handlers[id := ArriveStep(setup, s.clock, endpoint, form,
            pk)])
    case Limit(id) => if id in s.handlers then s.(handlers := s.handlers[id := LimitStep(setup, s.clock,
            s.handlers[id])]) else s
    case Record(id) => RecordStep(s, id)
    case Sweep(cutoff) => s.(tables := DeleteExpiredAssertions(s.tables, cutoff), sweeps := s.sweeps + [cutoff])
  }

  function Run(setup: Setup, s: State, es: seq<Event>): State
    decreases |es|
  {
    if es == [] then s else Run(setup, Apply(setup, s, es[0]), es[1..])
  }

  predicate CanRun(setup: Setup, s: State, es: seq<Event>)
    decreases |es|
  {
    es == [] || (Enabled(s, es[0]) && CanRun(setup, Apply(setup, s, es[0]), es[1..]))
  }

  function Start(clock: int): State {
    State(OAuthTables(map[], map[], map[], map[], map[]), clock, map[], [], [])
  }

  // ---------- the invariant ----------

  predicate SameKey(a: Acceptance, b: Acceptance) {
    a.clientID == b.clientID && a.jti == b.jti
  }

  /** No acceptance of the same id is younger. */
  ghost predicate Latest(s: State, i: nat)
    requires i < |s.accepted|
  {
    forall j :: i < j < |s.accepted| ==> !SameKey(s.accepted[i], s.accepted[j])
  }

  /** Some sweep since the acceptance had a cutoff past the end of its validity. */
  predicate SweptAway(s: State, a: Acceptance) {
    exists k :: a.sweepsBefore <= k < |s.sweeps| && s.sweeps[k] > a.exp + LEEWAY
  }

  /** The id of the youngest acceptance is recorded until a sweep removes it. */
  ghost predicate RowsExact(s: State) {
    forall i :: 0 <= i < |s.accepted| && Latest(s, i) ==>
      var a := s.accepted[i];
      if SweptAway(s, a) then (a.clientID, a.jti) !in s.tables.jtis
      else (a.clientID, a.jti) in s.tables.jtis && s.tables.jtis[(a.clientID, a.jti)] == a.exp + LEEWAY
  }

  ghost predicate ReadingsOk(s: State) {
    && (forall i :: 0 <= i < |s.accepted| ==>
          var a := s.accepted[i];
          a.since < a.exp + LEEWAY && a.since <= a.at <= s.clock && a.sweepsBefore <= |s.sweeps|)
    && (forall k :: 0 <= k < |s.sweeps| ==> s.sweeps[k] <= s.clock)
  }

  ghost predicate HandlerOk(clock: int, h: Handler) {
    !h.Answered? ==> h.assertion.exp.Some? && h.since < h.assertion.exp.value + LEEWAY && h.since <= clock
  }

  ghost predicate HandlersOk(s: State) {
    forall id :: id in s.handlers ==> HandlerOk(s.clock, s.handlers[id])
  }

  /** A second acceptance of an id comes after the validity of the first, leeway included. */
  ghost predicate Separated(s: State) {
    forall i, j :: 0 <= i < j < |s.accepted| && SameKey(s.accepted[i], s.accepted[j]) ==>
      s.accepted[j].at > s.accepted[i].exp + LEEWAY
  }

  ghost predicate Inv(s: State) {
    RowsExact(s) && ReadingsOk(s) && HandlersOk(s) && Separated(s)
  }

  lemma LatestExists(s: State, i: nat) returns (j: nat)
    requires i < |s.accepted|
    ensures i <= j < |s.accepted| && SameKey(s.accepted[i], s.accepted[j]) && Latest(s, j)
    decreases |s.accepted| - i
  {
    j := i;
    if !Latest(s, i) {
      var k :| i < k < |s.accepted| && SameKey(s.accepted[i], s.accepted[k]);
      j := LatestExists(s, k);
    }
  }

  lemma SweepKeepsRows(setup: Setup, s: State, cutoff: int)
    requires Inv(s) && cutoff <= s.clock
    ensures RowsExact(Apply(setup, s, Sweep(cutoff)))
  {
    var s' := Apply(setup, s, Sweep(cutoff));
    forall i | 0 <= i < |s'.accepted| && Latest(s', i)
      ensures var a := s'.accepted[i];
              if SweptAway(s', a) then (a.clientID, a.jti) !in s'.tables.jtis
              else (a.clientID, a.jti) in s'.tables.jtis && s'.tables.jtis[(a.clientID, a.jti)] == a.exp + LEEWAY
    {
      var a := s.accepted[i];
      assert Latest(s, i);
      assert s'.sweeps[|s.sweeps|] == cutoff;
      assert SweptAway(s', a) <==> SweptAway(s, a) || cutoff > a.exp + LEEWAY by {
        if k :| a.sweepsBefore <= k < |s.sweeps| && s.sweeps[k] > a.exp + LEEWAY {
          assert s'.sweeps[k] == s.sweeps[k];
        }
        if k :| a.sweepsBefore <= k < |s'.sweeps| && s'.sweeps[k] > a.exp + LEEWAY {
          assert k < |s.sweeps| ==> s.sweeps[k] == s'.sweeps[k];
        }
      }
    }
  }

  /** A swept acceptance is past its validity. */
  lemma SweptIsPast(s: State, i: nat)
    requires ReadingsOk(s) && i < |s.accepted| && SweptAway(s, s.accepted[i])
    ensures s.clock > s.accepted[i].exp + LEEWAY
  {
  }

  /** When the record step accepts, every earlier acceptance of the id is past its validity. */
  lemma AcceptedIsPast(s: State, id: nat, i: nat)
    requires Inv(s) && Accepts(s, id) && i < |s.accepted| && SameKey(s.accepted[i], AcceptanceOf(s, id))
    ensures s.clock > s.accepted[i].exp + LEEWAY
  {
    var j := LatestExists(s, i);
    SweptIsPast(s, j);
  }

  lemma RecordKeepsRows(s: State, id: nat)
    requires Inv(s) && Accepts(s, id)
    ensures RowsExact(RecordStep(s, id))
  {
    var s' := RecordStep(s, id);
    var n := |s.accepted|;
    forall i | 0 <= i < |s'.accepted| && Latest(s', i)
      ensures var a := s'.accepted[i];
              if SweptAway(s', a) then (a.clientID, a.jti) !in s'.tables.jtis
              else (a.clientID, a.jti) in s'.tables.jtis && s'.tables.jtis[(a.clientID, a.jti)] == a.exp + LEEWAY
    {
      if i < n {
        assert !SameKey(s'.accepted[i], s'.accepted[n]);
        assert forall j :: i < j < n ==> s'.accepted[j] == s.accepted[j];
        assert Latest(s, i);
      }
    }
  }

  lemma RecordKeepsInv(s: State, id: nat)
    requires Inv(s) && Recordable(s, id)
    ensures Inv(RecordStep(s, id))
  {
    if Accepts(s, id) {
      RecordKeepsRows(s, id);
      forall i | 0 <= i < |s.accepted| && SameKey(s.accepted[i], AcceptanceOf(s, id))
        ensures s.clock > s.accepted[i].exp + LEEWAY
      {
        AcceptedIsPast(s, id, i);
      }
    } else {
      assert RecordStep(s, id).tables == s.tables;
      assert forall i :: 0 <= i < |s.accepted| ==> (Latest(RecordStep(s, id), i) <==> Latest(s, i));
    }
  }

  lemma EventKeepsInv(setup: Setup, s: State, e: Event)
    requires Inv(s) && Enabled(s, e)
    ensures Inv(Apply(setup, s, e))
  {
    var s' := Apply(setup, s, e);
    match e
    case Record(id) => RecordKeepsInv(s, id);
    case Sweep(cutoff) => SweepKeepsRows(setup, s, cutoff);
    case _ =>
      assert s'.tables == s.tables && s'.accepted == s.accepted && s'.sweeps == s.sweeps;
      assert forall i :: 0 <= i < |s.accepted| ==> (Latest(s', i) <==> Latest(s, i));
  }

  lemma {:induction false} RunKeepsInv(setup: Setup, s: State, es: seq<Event>)
    requires Inv(s) && CanRun(setup, s, es)
    ensures Inv(Run(setup, s, es))
    decreases |es|
  {
    if es != [] {
      EventKeepsInv(setup, s, es[0]);
      RunKeepsInv(setup, Apply(setup, s, es[0]), es[1..]);
    }
  }

  ghost predicate Reachable(setup: Setup, s: State) {
    exists clock, es :: CanRun(setup, Start(clock), es) && s == Run(setup, Start(clock), es)
  }

  lemma ReachableOk(setup: Setup, s: State)
    requires Reachable(setup, s)
    ensures Inv(s)
  {
    var clock, es :| CanRun(setup, Start(clock), es) && s == Run(setup, Start(clock), es);
    RunKeepsInv(setup, Start(clock), es);
  }

  // ---------- replay protection ----------

  /** Under every interleaving with the sweeps, a client's assertion id is accepted a second
      time only after the first assertion's validity, leeway included, although each was
      verified within its own. */
  lemma SecondAcceptanceIsLate(setup: Setup, s: State, i: nat, j: nat)
    requires Reachable(setup, s) && i < j < |s.accepted| && SameKey(s.accepted[i], s.accepted[j])
    ensures s.accepted[j].at > s.accepted[i].exp + LEEWAY
    ensures s.accepted[i].since < s.accepted[i].exp + LEEWAY && s.accepted[j].since < s.accepted[j].exp + LEEWAY
  {
    ReachableOk(setup, s);
  }

  /** So when every handler records before the validity of its assertion ends, no assertion
      (same client, id and expiry) is accepted twice. */
  lemma AcceptedAtMostOnce(setup: Setup, s: State, i: nat, j: nat)
    requires Reachable(setup, s) && i < |s.accepted| && j < |s.accepted|
    requires forall k :: 0 <= k < |s.accepted| ==> s.accepted[k].at <= s.accepted[k].exp + LEEWAY
    requires SameKey(s.accepted[i], s.accepted[j]) && s.accepted[i].exp == s.accepted[j].exp
    ensures i == j
  {
    if i < j {
      SecondAcceptanceIsLate(setup, s, i, j);
    } else if j < i {
      SecondAcceptanceIsLate(setup, s, j, i);
    }
  }

  /** A handler about to record an id that was accepted before succeeds exactly when a sweep
      since the last acceptance had a cutoff past its validity. */
  lemma AcceptsAgainIff(setup: Setup, s: State, id: nat, i: nat)
    requires Reachable(setup, s) && Recordable(s, id) && i < |s.accepted| && Latest(s, i)
    requires SameKey(s.accepted[i], AcceptanceOf(s, id))
    ensures Accepts(s, id) <==> SweptAway(s, s.accepted[i])
  {
    ReachableOk(setup, s);
  }

  /** A handler holding an already accepted assertion can have it accepted again, without the
      clock moving on, exactly when the validity of the assertion has ended while it stalled. */
  lemma StalledReplayIff(setup: Setup, s: State, id: nat, i: nat)
    requires Reachable(setup, s) && Recordable(s, id) && i < |s.accepted| && Latest(s, i)
    requires SameKey(s.accepted[i], AcceptanceOf(s, id))
    ensures s.clock > s.accepted[i].exp + LEEWAY
            <==> exists cutoff :: cutoff <= s.clock && Accepts(Apply(setup, s, Sweep(cutoff)), id)
  {
    ReachableOk(setup, s);
    var a := s.accepted[i];
    if s.clock > a.exp + LEEWAY {
      SweepUnlocks(setup, s, id, s.clock, i);
      assert Accepts(Apply(setup, s, Sweep(s.clock)), id);
    }
    forall cutoff | cutoff <= s.clock && Accepts(Apply(setup, s, Sweep(cutoff)), id)
      ensures s.clock > a.exp + LEEWAY
    {
      var s' := Apply(setup, s, Sweep(cutoff));
      EventKeepsInv(setup, s, Sweep(cutoff));
      assert Latest(s', i);
      SweptIsPast(s', i);
    }
  }

  lemma SweepUnlocks(setup: Setup, s: State, id: nat, cutoff: int, i: nat)
    requires Inv(s) && Recordable(s, id) && i < |s.accepted| && Latest(s, i)
    requires SameKey(s.accepted[i], AcceptanceOf(s, id)) && s.accepted[i].exp + LEEWAY < cutoff <= s.clock
    ensures Accepts(Apply(setup, s, Sweep(cutoff)), id)
  {
  }

  // ---------- what is accepted ----------

  /** The assertion names its client as issuer and subject, is signed by it, is meant for this server,
      and neither expired nor lies in the future at `since`, give or take half a minute. */
  predicate Acceptable(setup: Setup, a: Assertion, endpoint: string, since: int) {
    && a.signed && a.iss == a.sub && a.sub != ""
    && (setup.issuer in a.aud || setup.tokenURL in a.aud || endpoint in a.aud)
    && a.exp.Some? && since < a.exp.value + 30 * SECOND
    && (a.iat.Some? ==> a.iat.value <= since + 30 * SECOND) && (a.nbf.Some? ==> a.nbf.value <= since + 30 * SECOND)
  }

  predicate Bounded(setup: Setup, a: Assertion, clock: int) {
    a.exp.Some? && a.exp.value - clock <= setup.maxLifetime && 1 <= |a.jti| <= 256
  }

  predicate HandlerSound(setup: Setup, clock: int, h: Handler) {
    && (!h.Answered? ==> Acceptable(setup, h.assertion, h.endpoint, h.since))
    && (h.Limited? ==> Bounded(setup, h.assertion, clock))
  }

  predicate AcceptanceSound(setup: Setup, a: Acceptance) {
    && a.clientID == a.assertion.sub && a.jti == a.assertion.jti && a.assertion.exp == Some(a.exp)
    && Acceptable(setup, a.assertion, a.endpoint, a.since) && Bounded(setup, a.assertion, a.at)
  }

  ghost predicate Sound(setup: Setup, s: State) {
    && (forall id :: id in s.handlers ==> HandlerSound(setup, s.clock, s.handlers[id]))
    && forall i :: 0 <= i < |s.accepted| ==> AcceptanceSound(setup, s.accepted[i])
  }

  lemma EventKeepsSound(setup: Setup, s: State, e: Event)
    requires Sound(setup, s) && Enabled(s, e)
    ensures Sound(setup, Apply(setup, s, e))
  {
    var s' := Apply(setup, s, e);
    forall id | id in s'.handlers
      ensures HandlerSound(setup, s'.clock, s'.handlers[id])
    {
      assert id in s.handlers ==> HandlerSound(setup, s.clock, s.handlers[id]);
    }
    if e.Record? && Accepts(s, e.id) {
      assert HandlerSound(setup, s.clock, s.handlers[e.id]);
    }
  }

  lemma {:induction false} RunKeepsSound(setup: Setup, s: State, es: seq<Event>)
    requires Sound(setup, s) && CanRun(setup, s, es)
    ensures Sound(setup, Run(setup, s, es))
    decreases |es|
  {
    if es != [] {
      EventKeepsSound(setup, s, es[0]);
      RunKeepsSound(setup, Apply(setup, s, es[0]), es[1..]);
    }
  }

  /** In every reachable state, every assertion ever accepted was signed by the client it names, meant
      for this server and within its time when it was verified, and had a bounded lifetime and id when it
      was recorded. */
  lemma AcceptedWasValid(setup: Setup, s: State, i: nat)
    requires Reachable(setup, s) && i < |s.accepted|
    ensures var a := s.accepted[i];
            && a.clientID == a.assertion.sub && a.jti == a.assertion.jti && a.assertion.exp == Some(a.exp)
            && Acceptable(setup, a.assertion, a.endpoint, a.since)
            && a.exp - a.at <= setup.maxLifetime && 1 <= |a.jti| <= 256
  {
    var clock, es :| CanRun(setup, Start(clock), es) && s == Run(setup, Start(clock), es);
    RunKeepsSound(setup, Start(clock), es);
  }

  // ---------- a run that accepts one assertion twice ----------

  /** The whole life of a request that is never held up. */
  function Prompt(id: nat, form: Form): seq<Event> {
    [Arrive(id, "token", form, true), Limit(id), Record(id)]
  }

  /** A request that is held up before its store call, while the clock moves on and a sweep runs. */
  function Stalled(id: nat, form: Form, late: int): seq<Event> {
    [Arrive(id, "token", form, true), Limit(id), Tick(late), Sweep(late), Record(id)]
  }

  /** One assertion presented twice: the second handler verifies it in time, stalls past its
      validity, and records it after a sweep. Both are accepted. */
  lemma StalledReplayExample(a: Assertion)
    requires a.iss == a.sub != "" && a.jti == "j" && a.signed && a.exp == Some(SECOND) && a.iat == a.nbf == None
        && "issuer" in a.aud
    ensures var setup, form, late := Setup("issuer", "token", SECOND), Form(JWT_BEARER, "", Jwt(a)),
        SECOND + LEEWAY + 1;
            var es := Prompt(1, form) + Stalled(2, form, late);
            && CanRun(setup, Start(0), es)
            && Run(setup, Start(0), es).accepted ==
               [Acceptance(a.sub, "j", SECOND, 0, 0, 0, a, "token"),
                Acceptance(a.sub, "j", SECOND, 0, late, 1, a, "token")]
  {
    var setup, form, late := Setup("issuer", "token", SECOND), Form(JWT_BEARER, "", Jwt(a)), SECOND + LEEWAY + 1;
    assert Verifies(setup, "token", a, 0) && WithinLimits(setup, a, 0);
    PromptRuns(setup, Start(0), 1, form, a);
    StalledRuns(setup, Run(setup, Start(0), Prompt(1, form)), 2, form, a, late);
    RunConcat(setup, Start(0), Prompt(1, form), Stalled(2, form, late));
  }

  lemma {:induction false} RunConcat(setup: Setup, s: State, es: seq<Event>, fs: seq<Event>)
    ensures Run(setup, s, es + fs) == Run(setup, Run(setup, s, es), fs)
    ensures CanRun(setup, s, es + fs) <==> CanRun(setup, s, es) && CanRun(setup, Run(setup, s, es), fs)
    decreases |es|
  {
    if es == [] {
      assert es + fs == fs;
    } else {
      assert (es + fs)[1..] == es[1..] + fs;
      RunConcat(setup, Apply(setup, s, es[0]), es[1..], fs);
    }
  }

  lemma RunStep(setup: Setup, s: State, e: Event, es: seq<Event>)
    ensures Run(setup, s, [e] + es) == Run(setup, Apply(setup, s, e), es)
    ensures CanRun(setup, s, [e] + es) <==> Enabled(s, e) && CanRun(setup, Apply(setup, s, e), es)
  {
    assert ([e] + es)[1..] == es;
  }

  lemma PromptRuns(setup: Setup, s: State, id: nat, form: Form, a: Assertion)
    requires CheckForm(form, true) == Ok(a) && Verifies(setup, "token", a, s.clock) && WithinLimits(setup, a, s.clock)
    requires id !in s.handlers && (a.sub, a.jti) !in s.tables.jtis
    ensures CanRun(setup, s, Prompt(id, form))
    ensures Run(setup, s, Prompt(id, form)) ==
            State(s.tables.(jtis := s.tables.jtis[(a.sub, a.jti) := a.exp.value + LEEWAY]), s.clock,
                  s.handlers[id := Answered(true)],
                  s.accepted + [Acceptance(a.sub, a.jti, a.exp.value, s.clock, s.clock, |s.sweeps|, a, "token")],
                  s.sweeps)
  {
    var arrive, limit, record := Arrive(id, "token", form, true), Limit(id), Record(id);
    var s1 := Apply(setup, s, arrive);
    var s2 := Apply(setup, s1, limit);
    assert s1.handlers[id] == Verified(a, "token", s.clock) && s2.handlers[id] == Limited(a, "token", s.clock);
    assert Prompt(id, form) == [arrive] + ([limit] + ([record] + []));
    RunStep(setup, s, arrive, [limit] + ([record] + []));
    RunStep(setup, s1, limit, [record] + []);
    RunStep(setup, s2, record, []);
    assert Apply(setup, s2, record).handlers == s.handlers[id := Answered(true)];
  }

  lemma StalledRuns(setup: Setup, s: State, id: nat, form: Form, a: Assertion, late: int)
    requires CheckForm(form, true) == Ok(a) && Verifies(setup, "token", a, s.clock) && WithinLimits(setup, a, s.clock)
    requires id !in s.handlers && (a.sub, a.jti) in s.tables.jtis && s.tables.jtis[(a.sub, a.jti)] < late
        && s.clock <= late
    ensures CanRun(setup, s, Stalled(id, form, late))
    ensures Run(setup, s, Stalled(id, form, late)).accepted ==
            s.accepted + [Acceptance(a.sub, a.jti, a.exp.value, s.clock, late, |s.sweeps| + 1, a, "token")]
  {
    var arrive, limit, tick, sweep, record := Arrive(id, "token", form, true), Limit(id), Tick(late), Sweep(late),
        Record(id);
    var s1 := Apply(setup, s, arrive);
    var s2 := Apply(setup, s1, limit);
    var s3 := Apply(setup, s2, tick);
    var s4 := Apply(setup, s3, sweep);
    assert s1.handlers[id] == Verified(a, "token", s.clock) && s2.handlers[id] == Limited(a, "token", s.clock);
    assert Accepts(s4, id);
    assert Stalled(id, form, late) == [arrive] + ([limit] + ([tick] + ([sweep] + ([record] + []))));
    RunStep(setup, s, arrive, [limit] + ([tick] + ([sweep] + ([record] + []))));
    RunStep(setup, s1, limit, [tick] + ([sweep] + ([record] + [])));
    RunStep(setup, s2, tick, [sweep] + ([record] + []));
    RunStep(setup, s3, sweep, [record] + []);
    RunStep(setup, s4, record, []);
  }
}
