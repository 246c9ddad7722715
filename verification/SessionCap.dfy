/** The session cap: what issuing does to the rows, one operation after the other. */
module SessionCap {
  import opened Entities
  import opened TableOps
  import opened Sessions

  /** One operation of the service on the session rows. */
  datatype Op =
    | Issue(userID: string, sid: string, secret: string, now: int)
    | Rotate(sid: string, secret: string, now: int)
    | End(sid: string)
    | EndUser(userID: string)
    | Sweep(before: int)

  /** What the operation may make of the rows; a session id is drawn once. */
  ghost predicate StepOf(max: int, ttl: int, before: map<string, RefreshToken>, op: Op,
                         after: map<string, RefreshToken>) {
    match op
    case Issue(uid, sid, secret, now) => sid !in before
        && Issued(max, before, after, NewSession(uid, sid, secret, now, ttl), now)
    case Rotate(sid, secret, now) => sid in before && after == before[sid := Rotated(before[sid], secret, now, ttl)]
    case End(sid) => after == before - {sid}
    case EndUser(uid) => after == DropSessions(before, {uid})
    case Sweep(t) => after == UnexpiredSessions(before, t)
  }

  /** The rows after each of the operations, from an empty table. */
  ghost predicate Trace(max: int, ttl: int, states: seq<map<string, RefreshToken>>, ops: seq<Op>) {
    && |states| == |ops| + 1 && states[0] == map[]
    && forall i :: 0 <= i < |ops| ==> StepOf(max, ttl, states[i], ops[i], states[i + 1])
  }

  lemma SubsetCount(a: set<string>, b: set<string>)
    requires a <= b
    ensures |a| <= |b| && |b - a| == |b| - |a|
  {
    assert b == a + (b - a);
  }

  /** The rows just before the eviction: the unexpired ones and the new one. */
  lemma SweptRows(before: map<string, RefreshToken>, row: RefreshToken, now: int)
    requires row.sessionID !in before && row.expiresAt >= now
    ensures var swept := UnexpiredSessions(before[row.sessionID := row], now);
            && row.sessionID in swept && swept[row.sessionID] == row
            && UserSessions(swept, row.userID) == UserSessions(UnexpiredSessions(before, now),
                                                               row.userID) + {row.sessionID}
            && forall sid :: sid in before ==>
                (sid in swept <==> before[sid].expiresAt >= now) && (sid in swept ==> swept[sid] == before[sid])
  {
  }

  /** What an eviction leaves to the user. */
  lemma EvictionLeaves(max: int, before: map<string, RefreshToken>, after: map<string, RefreshToken>, userID: string,
      keepID: string)
    requires EvictedTo(max, before, after, userID, keepID)
    ensures var mine, kept := UserSessions(before, userID), UserSessions(after, userID);
            && kept <= mine && |kept| == (if max <= 0 || |mine| <= max then |mine| else max)
            && mine - kept == before.Keys - after.Keys
  {
    var gone := before.Keys - after.Keys;
    UserRowsLeft(before, gone, userID);
    Remainder(UserSessions(before, userID), gone);
  }

  lemma UserRowsLeft(before: map<string, RefreshToken>, gone: set<string>, userID: string)
    ensures UserSessions(before - gone, userID) == UserSessions(before, userID) - gone
  {
  }

  lemma Remainder(a: set<string>, b: set<string>)
    requires b <= a
    ensures |a - b| == |a| - |b| && a - (a - b) == b
  {
  }

  /** An eviction spares the session to keep and everyone else's. */
  lemma EvictionSpares(max: int, before: map<string, RefreshToken>, after: map<string, RefreshToken>, userID: string,
      keepID: string, sid: string)
    requires EvictedTo(max, before, after, userID, keepID)
    ensures sid in before && (sid == keepID || before[sid].userID != userID) ==> sid in after
    ensures sid in after ==> sid in before && after[sid] == before[sid]
  {
    assert sid in before.Keys - after.Keys <==> sid in before && sid !in after;
  }

  /** What issuing leaves: the new session, as many of the user's unexpired sessions as the
      cap allows. */
  lemma IssueExact(max: int, before: map<string, RefreshToken>, after: map<string, RefreshToken>, row: RefreshToken,
                   now: int)
    requires Issued(max, before, after, row, now) && row.sessionID !in before && row.expiresAt >= now
    ensures var mine := UserSessions(UnexpiredSessions(before, now), row.userID);
            var kept := UserSessions(after, row.userID);
            && row.sessionID in after && after[row.sessionID] == row
            && kept <= mine + {row.sessionID}
            && |kept| == (if max <= 0 || |mine| + 1 <= max then |mine| + 1 else max)
  {
    var swept := UnexpiredSessions(before[row.sessionID := row], now);
    var mine := UserSessions(UnexpiredSessions(before, now), row.userID);
    SweptRows(before, row, now);
    EvictionLeaves(max, swept, after, row.userID, row.sessionID);
    EvictionSpares(max, swept, after, row.userID, row.sessionID, row.sessionID);
    assert row.sessionID !in mine;
  }

  /** Every session of the user evicted by issuing expires no later than every older one left. */
  lemma EvictsOldest(max: int, before: map<string, RefreshToken>, after: map<string, RefreshToken>,
      row: RefreshToken, now: int, e: string, k: string)
    requires Issued(max, before, after, row, now) && row.sessionID !in before && row.expiresAt >= now
    requires e in before && before[e].userID == row.userID && before[e].expiresAt >= now && e !in after
    requires k in UserSessions(after, row.userID) && k != row.sessionID
    ensures k in before && after[k] == before[k] && before[e].expiresAt <= before[k].expiresAt
  {
    var swept := UnexpiredSessions(before[row.sessionID := row], now);
    SweptRows(before, row, now);
    EvictionSpares(max, swept, after, row.userID, row.sessionID, k);
    assert e in swept.Keys - after.Keys;
  }

  lemma IssueSparesOthers(max: int, before: map<string, RefreshToken>, after: map<string, RefreshToken>,
      row: RefreshToken, now: int, sid: string)
    requires Issued(max, before, after, row, now) && row.sessionID !in before && row.expiresAt >= now
    requires sid in before && before[sid].userID != row.userID
    ensures sid in after <==> before[sid].expiresAt >= now
    ensures sid in after ==> after[sid] == before[sid]
  {
    SweptRows(before, row, now);
    EvictionSpares(max, UnexpiredSessions(before[row.sessionID := row], now), after, row.userID, row.sessionID, sid);
  }

  /** Someone else's sessions are at most those there were. */
  lemma IssueAddsNone(max: int, before: map<string, RefreshToken>, after: map<string, RefreshToken>,
      row: RefreshToken, now: int, userID: string)
    requires Issued(max, before, after, row, now) && userID != row.userID
    ensures UserSessions(after, userID) <= UserSessions(before, userID)
  {
  }

  lemma IssueKeepsCap(max: int, ttl: int, before: map<string, RefreshToken>, op: Op,
      after: map<string, RefreshToken>, userID: string)
    requires max > 0 && ttl > 0 && op.Issue? && StepOf(max, ttl, before, op, after)
        && |UserSessions(before, userID)| <= max
    ensures |UserSessions(after, userID)| <= max
  {
    var row := NewSession(op.userID, op.sid, op.secret, op.now, ttl);
    if userID == op.userID {
      IssueExact(max, before, after, row, op.now);
    } else {
      IssueAddsNone(max, before, after, row, op.now, userID);
      SubsetCount(UserSessions(after, userID), UserSessions(before, userID));
    }
  }

  lemma StepKeepsCap(max: int, ttl: int, before: map<string, RefreshToken>, op: Op, after: map<string, RefreshToken>,
      userID: string)
    requires max > 0 && ttl > 0 && StepOf(max, ttl, before, op, after) && |UserSessions(before, userID)| <= max
    ensures |UserSessions(after, userID)| <= max
  {
    if op.Issue? {
      IssueKeepsCap(max, ttl, before, op, after, userID);
    } else {
      SubsetCount(UserSessions(after, userID), UserSessions(before, userID));
    }
  }

  lemma StepAt(max: int, ttl: int, states: seq<map<string, RefreshToken>>, ops: seq<Op>, i: nat)
    requires Trace(max, ttl, states, ops) && i < |ops|
    ensures StepOf(max, ttl, states[i], ops[i], states[i + 1])
  {
  }

  /** With a cap, no user ever has more sessions than it, whatever the operations. */
  lemma {:induction false} SessionsCapped(max: int, ttl: int, states: seq<map<string, RefreshToken>>, ops: seq<Op>,
      i: nat, userID: string)
    requires Trace(max, ttl, states, ops) && max > 0 && ttl > 0 && i < |states|
    ensures |UserSessions(states[i], userID)| <= max
  {
    if i == 0 {
      assert UserSessions(states[0], userID) == {};
    } else {
      SessionsCapped(max, ttl, states, ops, i - 1, userID);
      StepAt(max, ttl, states, ops, i - 1);
      StepKeepsCap(max, ttl, states[i - 1], ops[i - 1], states[i], userID);
    }
  }

  /** A session just issued admits its user with its secret until the lifetime ends, and nobody and
      nothing else; one with an id that is empty or too long admits nobody. */
  lemma IssuedAdmits(max: int, before: map<string, RefreshToken>, after: map<string, RefreshToken>, userID: string,
      sid: string, secret: string, now: int, ttl: int, someone: string, presented: string, later: int)
    requires sid !in before && ttl > 0
    requires Issued(max, before, after, NewSession(userID, sid, secret, now, ttl), now)
    ensures Admits(after, sid, someone, presented, later) <==>
            1 <= |sid| <= 64 && someone == userID && presented == secret && later <= now + ttl
  {
    IssueExact(max, before, after, NewSession(userID, sid, secret, now, ttl), now);
  }

  /** Rotating a session replaces its secret, whether or not the old one would still have been in time,
      and starts its lifetime anew; its user stays the same. */
  lemma RotatedAdmits(rows: map<string, RefreshToken>, sid: string, userID: string, secret: string, now: int,
      newSecret: string, ttl: int, someone: string, presented: string, later: int)
    requires Admits(rows, sid, userID, secret, now)
    ensures Admits(rows[sid := Rotated(rows[sid], newSecret, now, ttl)], sid, someone, presented, later) <==>
            someone == userID && presented == newSecret && later <= now + ttl
  {
  }
}
