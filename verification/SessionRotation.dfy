/** Rotation of refresh sessions when its two store calls - read the row, overwrite it if it
    is still there - interleave with other rotations and with revocation. Session ids and
    secrets are never drawn twice. */
module SessionRotation {
  import opened Wrappers
  import opened Entities
  import opened Scopes
  import opened TableOps
  import opened Sessions

  /** A rotation in flight: the row it read and how many rotations had been committed then,
      or the pair it answered with. */
  datatype Rotation =
    | Holding(user: User, row: RefreshToken, secret: string, now: int, before: nat, seen: nat)
    | Finished(sid: string, pair: Option<Pair>)

  /** A committed rotation: the hash it redeemed, at which place of the session's hashes, how
      many hashes the session had then, and how many rotations were committed when it read the row. */
  datatype Redemption = Redemption(sid: string, hash: Digest, index: nat, length: nat, before: nat)

  /** The rows and the rotations in flight, and the history: every session as created, the
      hashes each has had, the committed rotations, and the secrets drawn. */
  datatype State = State(
    sessions: map<string, RefreshToken>,
    clock: int,
    rotations: map<nat, Rotation>,
    born: map<string, RefreshToken>,
    chains: map<string, seq<Digest>>,
    redeemed: seq<Redemption>,
    drawn: set<string>)

  datatype Event =
    | Tick(now: int)
    | Create(userID: string, sid: string, secret: string)
    | Read(id: nat, user: User, sid: string, secret: string)
    | Commit(id: nat, secret: string)
    | Delete(sid: string)
    | DeleteUser(userID: string)
    | Sweep(cutoff: int)

  predicate Enabled(s: State, e: Event) {
    match e
    case Tick(now) => now >= s.clock
    case Create(_, sid, secret) => sid !in s.born && sid !in s.chains && secret !in s.drawn
    case Read(id, _, _, _) => id !in s.rotations
    case Commit(id, secret) => id in s.rotations && s.rotations[id].Holding? && secret !in s.drawn
    case _ => true
  }

  function Length(s: State, sid: string): nat {
    if sid in s.chains then |s.chains[sid]| else 0
  }

  function ReadStep(s: State, user: User, sid: string, secret: string): Rotation {
    if Admits(s.sessions, sid, user.id, secret, s.clock)
    then Holding(user, s.sessions[sid], secret, s.clock, |s.redeemed|, Length(s, sid))
    else Finished(sid, None)
  }

  /** The second store call: there is no comparison with the row that was read. */
  function CommitStep(s: State, ttl: int, id: nat, h: Rotation, secret: string): State
    requires h.Holding?
  {
    var sid := h.row.sessionID;
    var sessions := UpdateSession(s.sessions, Rotated(h.row, secret, h.now, ttl));
    if sid !in s.sessions then s.(sessions := sessions, rotations := s.rotations[id := Finished(sid, None)])
    else
      State(sessions, s.clock,
            s.rotations[id := Finished(sid, Some(Pair(h.user.id, h.user.securityStamp, SessionToken(sid, secret))))],
            s.born, s.chains[sid := (if sid in s.chains then s.chains[sid] else []) + [Sha256(secret)]],
            s.redeemed + [Redemption(sid, h.row.tokenHash, if h.seen > 0 then h.seen - 1
                                     else 0, Length(s, sid), h.before)],
            s.drawn + {secret})
  }

  function CreateStep(s: State, ttl: int, userID: string, sid: string, secret: string): State {
    var row := NewSession(userID, sid, secret, s.clock, ttl);
    State(s.sessions[sid := row], s.clock, s.rotations, s.born[sid := row], s.chains[sid := [Sha256(secret)]],
          s.redeemed, s.drawn + {secret})
  }

  function Apply(ttl: int, s: State, e: Event): State {
    match e
    case Tick(now) => s.(clock := now)
    case Create(uid, sid, secret) => CreateStep(s, ttl, uid, sid, secret)
    case Read(id, user, sid, secret) => s.(rotations := s.rotations[id := ReadStep(s, user, sid, secret)])
    case Commit(id, secret) =>
      if id in s.rotations && s.rotations[id].Holding? then CommitStep(s, ttl, id, s.rotations[id], secret) else s
    case Delete(sid) => s.(sessions := s.sessions - {sid})
    case DeleteUser(uid) => s.(sessions := DropSessions(s.sessions, {uid}))
    case Sweep(cutoff) => s.(sessions := UnexpiredSessions(s.sessions, cutoff))
  }

  function Run(ttl: int, s: State, es: seq<Event>): State
    decreases |es|
  {
    if es == [] then s else Run(ttl, Apply(ttl, s, es[0]), es[1..])
  }

  predicate CanRun(ttl: int, s: State, es: seq<Event>)
    decreases |es|
  {
    es == [] || (Enabled(s, es[0]) && CanRun(ttl, Apply(ttl, s, es[0]), es[1..]))
  }

  function Start(clock: int): State {
    State(map[], clock, map[], map[], map[], [], {})
  }

  ghost predicate Reachable(ttl: int, s: State) {
    exists clock, es :: CanRun(ttl, Start(clock), es) && s == Run(ttl, Start(clock), es)
  }

  // ---------- the invariant ----------

  /** The columns of a session that never change. */
  predicate SameSession(a: RefreshToken, b: RefreshToken) {
    a.sessionID == b.sessionID && a.userID == b.userID && a.createdAt == b.createdAt
  }

  /** A session's hashes are distinct and drawn. */
  ghost predicate ChainOk(s: State, sid: string)
    requires sid in s.chains
  {
    && s.chains[sid] != [] && Distinct(s.chains[sid])
    && forall i :: 0 <= i < |s.chains[sid]| ==> s.chains[sid][i].Sha256? && s.chains[sid][i].secret in s.drawn
  }

  ghost predicate ChainsOk(s: State) {
    && (forall sid :: sid in s.born <==> sid in s.chains)
    && (forall sid :: sid in s.born ==> s.born[sid].sessionID == sid)
    && forall sid :: sid in s.chains ==> ChainOk(s, sid)
  }

  /** A stored row shows the last of its session's hashes. */
  ghost predicate RowsOk(s: State) {
    forall sid :: sid in s.sessions ==>
      && sid in s.born && sid in s.chains && s.chains[sid] != [] && SameSession(s.sessions[sid], s.born[sid])
      && s.sessions[sid].tokenHash == s.chains[sid][|s.chains[sid]| - 1]
  }

  ghost predicate RedemptionOk(s: State, r: Redemption) {
    && r.sid in s.chains && r.index < r.length < |s.chains[r.sid]| && s.chains[r.sid][r.index] == r.hash
  }

  /** A later reading of a session lies beyond every earlier commit. */
  ghost predicate RedemptionsOk(s: State) {
    && (forall i :: 0 <= i < |s.redeemed| ==> RedemptionOk(s, s.redeemed[i]) && s.redeemed[i].before <= i)
    && forall i, j :: 0 <= i < j < |s.redeemed| && s.redeemed[i].sid == s.redeemed[j].sid && i < s.redeemed[j].before
         ==> s.redeemed[i].length <= s.redeemed[j].index
  }

  /** Another rotation of the session was committed after the one in flight read its row. */
  predicate Overtaken(s: State, h: Rotation)
    requires h.Holding?
  {
    exists k :: h.before <= k < |s.redeemed| && s.redeemed[k].sid == h.row.sessionID
  }

  ghost predicate HoldingOk(s: State, h: Rotation)
    requires h.Holding?
  {
    var sid := h.row.sessionID;
    && sid in s.chains && sid in s.born && SameSession(h.row, s.born[sid]) && h.before <= |s.redeemed|
    && 0 < h.seen <= |s.chains[sid]| && s.chains[sid][h.seen - 1] == h.row.tokenHash == Sha256(h.secret)
    && (forall i :: 0 <= i < h.before && s.redeemed[i].sid == sid ==> s.redeemed[i].length < h.seen)
    && (h.seen < |s.chains[sid]| <==> Overtaken(s, h))
  }

  ghost predicate RotationsOk(s: State) {
    forall id :: id in s.rotations && s.rotations[id].Holding? ==> HoldingOk(s, s.rotations[id])
  }

  ghost predicate Inv(s: State) {
    ChainsOk(s) && RowsOk(s) && RedemptionsOk(s) && RotationsOk(s)
  }

  lemma CreateKeepsChains(ttl: int, s: State, uid: string, sid: string, secret: string)
    requires ChainsOk(s) && Enabled(s, Create(uid, sid, secret))
    ensures ChainsOk(CreateStep(s, ttl, uid, sid, secret))
  {
    var s' := CreateStep(s, ttl, uid, sid, secret);
    forall x | x in s'.chains
      ensures ChainOk(s', x)
    {
      if x != sid {
        ChainStays(s, s', x);
      }
    }
  }

  lemma CreateKeepsRows(ttl: int, s: State, uid: string, sid: string, secret: string)
    requires RowsOk(s) && Enabled(s, Create(uid, sid, secret))
    ensures RowsOk(CreateStep(s, ttl, uid, sid, secret))
  {
  }

  lemma ChainStays(s: State, s': State, sid: string)
    requires sid in s.chains && ChainOk(s, sid) && s.drawn <= s'.drawn
    requires sid in s'.chains && s'.chains[sid] == s.chains[sid]
    ensures ChainOk(s', sid)
  {
  }

  lemma ChainExtends(s: State, s': State, sid: string, secret: string)
    requires sid in s.chains && ChainOk(s, sid) && secret !in s.drawn && s'.drawn == s.drawn + {secret}
    requires sid in s'.chains && s'.chains[sid] == s.chains[sid] + [Sha256(secret)]
    ensures ChainOk(s', sid)
  {
    var chain, chain' := s.chains[sid], s'.chains[sid];
    assert forall i :: 0 <= i < |chain| ==> chain'[i] == chain[i] && chain[i] != Sha256(secret);
  }

  lemma CreateKeepsRedemptions(ttl: int, s: State, uid: string, sid: string, secret: string)
    requires ChainsOk(s) && RedemptionsOk(s) && Enabled(s, Create(uid, sid, secret))
    ensures RedemptionsOk(CreateStep(s, ttl, uid, sid, secret))
  {
    var s' := CreateStep(s, ttl, uid, sid, secret);
    assert forall i :: 0 <= i < |s.redeemed| ==> RedemptionOk(s, s.redeemed[i]) && RedemptionOk(s', s.redeemed[i]);
  }

  lemma CreateKeepsInv(ttl: int, s: State, uid: string, sid: string, secret: string)
    requires Inv(s) && Enabled(s, Create(uid, sid, secret))
    ensures Inv(CreateStep(s, ttl, uid, sid, secret))
  {
    var s' := CreateStep(s, ttl, uid, sid, secret);
    CreateKeepsChains(ttl, s, uid, sid, secret);
    CreateKeepsRows(ttl, s, uid, sid, secret);
    CreateKeepsRedemptions(ttl, s, uid, sid, secret);
    forall id | id in s'.rotations && s'.rotations[id].Holding?
      ensures HoldingOk(s', s'.rotations[id])
    {
      assert HoldingOk(s, s.rotations[id]);
      assert Overtaken(s', s.rotations[id]) <==> Overtaken(s, s.rotations[id]);
    }
  }

  lemma ReadKeepsInv(ttl: int, s: State, id: nat, user: User, sid: string, secret: string)
    requires Inv(s) && Enabled(s, Read(id, user, sid, secret))
    ensures Inv(Apply(ttl, s, Read(id, user, sid, secret)))
  {
    var s' := Apply(ttl, s, Read(id, user, sid, secret));
    assert forall x :: x in s.chains ==> ChainOk(s, x) && ChainOk(s', x);
    assert forall i :: 0 <= i < |s.redeemed| ==> RedemptionOk(s, s.redeemed[i]) && RedemptionOk(s', s.redeemed[i]);
    forall jd | jd in s'.rotations && s'.rotations[jd].Holding?
      ensures HoldingOk(s', s'.rotations[jd])
    {
      if jd != id {
        assert HoldingOk(s, s.rotations[jd]);
        assert Overtaken(s', s.rotations[jd]) <==> Overtaken(s, s.rotations[jd]);
      }
    }
  }

  /** The history after a commit, apart from the rotations in flight. */
  lemma CommitKeepsChains(ttl: int, s: State, id: nat, h: Rotation, secret: string)
    requires ChainsOk(s) && RowsOk(s) && h.Holding? && HoldingOk(s, h) && secret !in s.drawn
    ensures ChainsOk(CommitStep(s, ttl, id, h, secret))
  {
    var s' := CommitStep(s, ttl, id, h, secret);
    var own := h.row.sessionID;
    forall x | x in s'.chains
      ensures ChainOk(s', x)
    {
      assert ChainOk(s, x);
      if x == own && own in s.sessions {
        ChainExtends(s, s', x, secret);
      } else {
        ChainStays(s, s', x);
      }
    }
  }

  lemma CommitKeepsRows(ttl: int, s: State, id: nat, h: Rotation, secret: string)
    requires RowsOk(s) && h.Holding? && HoldingOk(s, h)
    ensures RowsOk(CommitStep(s, ttl, id, h, secret))
  {
  }

  lemma CommitKeepsRedemptions(ttl: int, s: State, id: nat, h: Rotation, secret: string)
    requires RedemptionsOk(s) && h.Holding? && HoldingOk(s, h)
    ensures RedemptionsOk(CommitStep(s, ttl, id, h, secret))
  {
    var s' := CommitStep(s, ttl, id, h, secret);
    forall i | 0 <= i < |s'.redeemed|
      ensures RedemptionOk(s', s'.redeemed[i]) && s'.redeemed[i].before <= i
    {
      if i < |s.redeemed| {
        assert RedemptionOk(s, s.redeemed[i]);
      }
    }
  }

  lemma CommitKeepsOther(ttl: int, s: State, id: nat, h: Rotation, secret: string, g: Rotation)
    requires h.Holding? && HoldingOk(s, h) && g.Holding? && HoldingOk(s, g)
    ensures HoldingOk(CommitStep(s, ttl, id, h, secret), g)
  {
    var s' := CommitStep(s, ttl, id, h, secret);
    assert |s'.redeemed| > |s.redeemed| ==> s'.redeemed[|s.redeemed|].sid == h.row.sessionID;
    if Overtaken(s, g) {
      var k :| g.before <= k < |s.redeemed| && s.redeemed[k].sid == g.row.sessionID;
      assert s'.redeemed[k] == s.redeemed[k];
    }
    if Overtaken(s', g) {
      var k :| g.before <= k < |s'.redeemed| && s'.redeemed[k].sid == g.row.sessionID;
      assert k < |s.redeemed| ==> s'.redeemed[k] == s.redeemed[k];
    }
  }

  lemma CommitKeepsInv(ttl: int, s: State, id: nat, secret: string)
    requires Inv(s) && Enabled(s, Commit(id, secret))
    ensures Inv(Apply(ttl, s, Commit(id, secret)))
  {
    var h := s.rotations[id];
    var s' := CommitStep(s, ttl, id, h, secret);
    CommitKeepsChains(ttl, s, id, h, secret);
    CommitKeepsRows(ttl, s, id, h, secret);
    CommitKeepsRedemptions(ttl, s, id, h, secret);
    forall jd | jd in s'.rotations && s'.rotations[jd].Holding?
      ensures HoldingOk(s', s'.rotations[jd])
    {
      CommitKeepsOther(ttl, s, id, h, secret, s.rotations[jd]);
    }
  }

  lemma DeletionKeepsInv(s: State, s': State)
    requires Inv(s) && s' == s.(sessions := s'.sessions, clock := s'.clock)
    requires forall sid :: sid in s'.sessions ==> sid in s.sessions && s'.sessions[sid] == s.sessions[sid]
    ensures Inv(s')
  {
    assert forall x :: x in s.chains ==> ChainOk(s, x) && ChainOk(s', x);
    assert forall i :: 0 <= i < |s.redeemed| ==> RedemptionOk(s, s.redeemed[i]) && RedemptionOk(s', s.redeemed[i]);
    forall id | id in s'.rotations && s'.rotations[id].Holding?
      ensures HoldingOk(s', s'.rotations[id])
    {
      assert HoldingOk(s, s.rotations[id]);
      assert Overtaken(s', s.rotations[id]) <==> Overtaken(s, s.rotations[id]);
    }
  }

  lemma EventKeepsInv(ttl: int, s: State, e: Event)
    requires Inv(s) && Enabled(s, e)
    ensures Inv(Apply(ttl, s, e))
  {
    match e
    case Create(uid, sid, secret) => CreateKeepsInv(ttl, s, uid, sid, secret);
    case Read(id, user, sid, secret) => ReadKeepsInv(ttl, s, id, user, sid, secret);
    case Commit(id, secret) => CommitKeepsInv(ttl, s, id, secret);
    case _ => DeletionKeepsInv(s, Apply(ttl, s, e));
  }

  lemma {:induction false} RunKeepsInv(ttl: int, s: State, es: seq<Event>)
    requires Inv(s) && CanRun(ttl, s, es)
    ensures Inv(Run(ttl, s, es))
    decreases |es|
  {
    if es != [] {
      EventKeepsInv(ttl, s, es[0]);
      RunKeepsInv(ttl, Apply(ttl, s, es[0]), es[1..]);
    }
  }

  lemma ReachableOk(ttl: int, s: State)
    requires Reachable(ttl, s)
    ensures Inv(s)
  {
    var clock, es :| CanRun(ttl, Start(clock), es) && s == Run(ttl, Start(clock), es);
    RunKeepsInv(ttl, Start(clock), es);
  }

  /** A rotation that reads and commits with nothing in between is the one the service performs
      in a single call. */
  lemma ReadThenCommit(ttl: int, s: State, id: nat, user: User, sid: string, secret: string, newSecret: string)
    requires id !in s.rotations && SessionsKeyed(s.sessions)
    ensures var z := Apply(ttl, Apply(ttl, s, Read(id, user, sid, secret)), Commit(id, newSecret));
            && id in z.rotations
            && if Admits(s.sessions, sid, user.id, secret, s.clock) then
                 && z.sessions == s.sessions[sid := Rotated(s.sessions[sid], newSecret, s.clock, ttl)]
                 && z.rotations[id] == Finished(sid,
                                                Some(Pair(user.id, user.securityStamp, SessionToken(sid, newSecret))))
               else z.sessions == s.sessions && z.rotations[id] == Finished(sid, None)
  {
  }

  // ---------- single use ----------

  /** A session secret is redeemed a second time only by a rotation that had read the row
      before the first one was committed. */
  lemma SecondUseOverlaps(ttl: int, s: State, i: nat, j: nat)
    requires Reachable(ttl, s) && i < j < |s.redeemed|
    requires s.redeemed[i].sid == s.redeemed[j].sid && s.redeemed[i].hash == s.redeemed[j].hash
    ensures s.redeemed[j].before <= i
  {
    ReachableOk(ttl, s);
    var sid := s.redeemed[i].sid;
    assert RedemptionOk(s, s.redeemed[i]) && RedemptionOk(s, s.redeemed[j]) && ChainOk(s, sid);
  }

  /** One rotation after the other - each reads when all earlier ones are committed - every
      secret is redeemed at most once. */
  lemma SequentialSingleUse(ttl: int, s: State, i: nat, j: nat)
    requires Reachable(ttl, s) && i < |s.redeemed| && j < |s.redeemed|
    requires forall k :: 0 <= k < |s.redeemed| ==> s.redeemed[k].before == k
    requires s.redeemed[i].sid == s.redeemed[j].sid && s.redeemed[i].hash == s.redeemed[j].hash
    ensures i == j
  {
    if i < j {
      SecondUseOverlaps(ttl, s, i, j);
    } else if j < i {
      SecondUseOverlaps(ttl, s, j, i);
    }
  }

  /** A rotation about to commit overwrites a hash other than the one it checked exactly when
      another rotation of the session has been committed since it read the row. */
  lemma OverwritesOtherIff(ttl: int, s: State, id: nat)
    requires Reachable(ttl, s) && id in s.rotations && s.rotations[id].Holding?
        && s.rotations[id].row.sessionID in s.sessions
    ensures s.sessions[s.rotations[id].row.sessionID].tokenHash != s.rotations[id].row.tokenHash <==>
        Overtaken(s, s.rotations[id])
  {
    ReachableOk(ttl, s);
    var h := s.rotations[id];
    assert HoldingOk(s, h) && ChainOk(s, h.row.sessionID);
  }

  /** Two rotations of one session that both read before either commits both succeed with the same secret. */
  lemma DoubleUseExample(ttl: int, u: User)
    requires ttl > 0
    ensures var es := [Create(u.id, "sid", "a"), Read(1, u, "sid", "a"), Read(2, u, "sid", "a"), Commit(1, "b"),
                       Commit(2, "c")];
            && CanRun(ttl, Start(0), es)
            && var z := Run(ttl, Start(0), es);
               && z.redeemed == [Redemption("sid", Sha256("a"), 0, 1, 0), Redemption("sid", Sha256("a"), 0, 2, 0)]
               && 1 in z.rotations && z.rotations[1] == Finished("sid",
                                                                 Some(Pair(u.id, u.securityStamp,
                                                                         SessionToken("sid", "b"))))
               && 2 in z.rotations && z.rotations[2] == Finished("sid",
                                                                 Some(Pair(u.id, u.securityStamp,
                                                                         SessionToken("sid", "c"))))
  {
    var create, read1, read2, commit1, commit2 := Create(u.id, "sid", "a"), Read(1, u, "sid", "a"),
        Read(2, u, "sid", "a"), Commit(1, "b"), Commit(2, "c");
    var s1 := Apply(ttl, Start(0), create);
    var s2 := Apply(ttl, s1, read1);
    var s3 := Apply(ttl, s2, read2);
    var s4 := Apply(ttl, s3, commit1);
    RunStep(ttl, Start(0), create, [read1] + ([read2] + ([commit1] + ([commit2] + []))));
    RunStep(ttl, s1, read1, [read2] + ([commit1] + ([commit2] + [])));
    RunStep(ttl, s2, read2, [commit1] + ([commit2] + []));
    RunStep(ttl, s3, commit1, [commit2] + []);
    RunStep(ttl, s4, commit2, []);
    assert [create, read1, read2, commit1,
            commit2] == [create] + ([read1] + ([read2] + ([commit1] + ([commit2] + []))));
  }

  lemma RunStep(ttl: int, s: State, e: Event, es: seq<Event>)
    ensures Run(ttl, s, [e] + es) == Run(ttl, Apply(ttl, s, e), es)
    ensures CanRun(ttl, s, [e] + es) <==> Enabled(s, e) && CanRun(ttl, Apply(ttl, s, e), es)
  {
    assert ([e] + es)[1..] == es;
  }

  // ---------- revocation is permanent ----------

  /** No rotation of the session has been committed, or answered with a pair, between `s` and `z`. */
  predicate NoNewPair(s: State, z: State, sid: string) {
    && s.redeemed <= z.redeemed
    && (forall k :: |s.redeemed| <= k < |z.redeemed| ==> z.redeemed[k].sid != sid)
    && NoNewAnswer(s.rotations, z.rotations, sid)
  }

  predicate NoNewAnswer(before: map<nat, Rotation>, after: map<nat, Rotation>, sid: string) {
    forall id :: id in after && after[id].Finished? && after[id].sid == sid && after[id].pair.Some?
      ==> id in before && before[id] == after[id]
  }

  lemma EventKeepsGone(ttl: int, s: State, e: Event, sid: string)
    requires Enabled(s, e) && sid in s.born && sid !in s.sessions && SessionsKeyed(s.sessions)
    ensures var z := Apply(ttl, s, e);
            sid in z.born && sid !in z.sessions && NoNewPair(s, z, sid)
  {
    EventExtends(ttl, s, e);
  }

  /** An event only adds to the committed rotations. */
  lemma EventExtends(ttl: int, s: State, e: Event)
    ensures s.redeemed <= Apply(ttl, s, e).redeemed
  {
  }

  lemma NoNewPairTrans(s: State, m: State, z: State, sid: string)
    requires NoNewPair(s, m, sid) && NoNewPair(m, z, sid)
    ensures NoNewPair(s, z, sid)
  {
    assert forall k :: 0 <= k < |m.redeemed| ==> z.redeemed[k] == m.redeemed[k];
    NoNewAnswerTrans(s.rotations, m.rotations, z.rotations, sid);
  }

  lemma NoNewAnswerTrans(a: map<nat, Rotation>, b: map<nat, Rotation>, c: map<nat, Rotation>, sid: string)
    requires NoNewAnswer(a, b, sid) && NoNewAnswer(b, c, sid)
    ensures NoNewAnswer(a, c, sid)
  {
  }

  /** Once a session's row is gone - revoked, evicted or swept - no rotation, in flight or
      later, brings it back or returns a pair for it. */
  lemma RevokedForGood(ttl: int, s: State, es: seq<Event>, sid: string)
    requires Reachable(ttl, s) && CanRun(ttl, s, es) && sid in s.born && sid !in s.sessions
    ensures var z := Run(ttl, s, es); sid !in z.sessions && NoNewPair(s, z, sid)
  {
    ReachableOk(ttl, s);
    StaysGone(ttl, s, es, sid);
  }

  lemma {:induction false} StaysGone(ttl: int, s: State, es: seq<Event>, sid: string)
    requires Inv(s) && CanRun(ttl, s, es) && sid in s.born && sid !in s.sessions
    ensures sid !in Run(ttl, s, es).sessions && NoNewPair(s, Run(ttl, s, es), sid)
    decreases |es|
  {
    if es != [] {
      var m := Apply(ttl, s, es[0]);
      GoneStep(ttl, s, es[0], sid);
      StaysGone(ttl, m, es[1..], sid);
      NoNewPairTrans(s, m, Run(ttl, m, es[1..]), sid);
    }
  }

  lemma GoneStep(ttl: int, s: State, e: Event, sid: string)
    requires Inv(s) && Enabled(s, e) && sid in s.born && sid !in s.sessions
    ensures var m := Apply(ttl, s, e);
            Inv(m) && sid in m.born && sid !in m.sessions && NoNewPair(s, m, sid)
  {
    RowsAreKeyed(s);
    EventKeepsGone(ttl, s, e, sid);
    EventKeepsInv(ttl, s, e);
  }

  lemma RowsAreKeyed(s: State)
    requires RowsOk(s) && ChainsOk(s)
    ensures SessionsKeyed(s.sessions)
  {
  }

  // ---------- isolation ----------

  /** Committing a rotation changes no row but its own, and of that one only the hash, the
      expiry and the time of use. */
  lemma CommitIsIsolated(ttl: int, s: State, id: nat, secret: string)
    requires Reachable(ttl, s) && Enabled(s, Commit(id, secret))
    ensures var z, own := Apply(ttl, s, Commit(id, secret)), s.rotations[id].row.sessionID;
            && z.sessions.Keys == s.sessions.Keys
            && (forall sid :: sid in s.sessions && sid != own ==> z.sessions[sid] == s.sessions[sid])
            && (own in s.sessions ==>
                  z.sessions[own] == s.sessions[own].(tokenHash := Sha256(secret),
                                                      expiresAt := s.rotations[id].now + ttl,
                                                      lastUsedAt := Some(s.rotations[id].now)))
  {
    ReachableOk(ttl, s);
    assert HoldingOk(s, s.rotations[id]);
  }

  /** Over any run, a row that is still there belongs to the user it was created for. */
  lemma OwnerKept(ttl: int, s: State, sid: string)
    requires Reachable(ttl, s) && sid in s.sessions
    ensures sid in s.born && SameSession(s.sessions[sid], s.born[sid]) && s.sessions[sid].sessionID == sid
  {
    ReachableOk(ttl, s);
  }
}
