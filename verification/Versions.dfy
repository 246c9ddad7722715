/** Optimistic concurrency on users and roles: which writes commit. Concurrency stamps are
    never drawn twice. */
module Versions {
  import opened Wrappers
  import opened Entities
  import opened TableOps

  // ---------- users and roles alike ----------

  /** What a row holds besides its id and its stamp. */
  datatype Body = UserBody(user: User) | RoleBody(role: Role)

  datatype Row = Row(id: string, stamp: string, body: Body)

  function RowOfUser(u: User): Row {
    Row(u.id, u.concurrencyStamp, UserBody(u.(concurrencyStamp := "")))
  }

  function RowOfRole(r: Role): Row {
    Row(r.id, r.concurrencyStamp, RoleBody(r.(concurrencyStamp := "")))
  }

  /** The update of either table, on rows. */
  function Update(rows: map<string, Row>, r: Row, newStamp: string): Result<Row, StoreError> {
    if r.id !in rows then Err(NotFound)
    else if rows[r.id].stamp != r.stamp then Err(ConcurrencyFailure)
    else Ok(r.(stamp := newStamp))
  }

  /** A table of users or roles and its update, seen as rows. */
  lemma SameUpdate(users: map<string, User>, roles: map<string, Role>, u: User, r: Role, newStamp: string)
    ensures var rows, result := map id | id in users :: RowOfUser(users[id]), UpdateUser(users, u, newStamp);
            Update(rows, RowOfUser(u), newStamp) == match result case Ok(v) => Ok(RowOfUser(v)) case Err(e) => Err(e)
    ensures var rows, result := map id | id in roles :: RowOfRole(roles[id]), UpdateRole(roles, r, newStamp);
            Update(rows, RowOfRole(r), newStamp) == match result case Ok(v) => Ok(RowOfRole(v)) case Err(e) => Err(e)
  {
  }

  // ---------- writers ----------

  /** A committed version, and the copy its writer had loaded and changed. */
  datatype Commit = Commit(loaded: Row, written: Row)

  /** The versions of a row in order of commit, the first one as created, and the commits. */
  datatype History = History(versions: seq<Row>, commits: seq<Commit>)

  /** The table, the copies held by writers, the history of each row, and the stamps drawn. */
  datatype State = State(rows: map<string, Row>, held: map<nat, Row>, log: map<string, History>, drawn: set<string>)

  datatype Event =
    | Create(row: Row)
    | Load(writer: nat, id: string)
    | Write(writer: nat, body: Body, stamp: string)

  predicate Enabled(s: State, e: Event) {
    match e
    case Create(r) => r.id !in s.rows && r.id !in s.log && r.stamp !in s.drawn
    case Load(_, id) => id in s.rows
    case Write(w, _, stamp) => w in s.held && stamp !in s.drawn
  }

  /** A writer may have changed anything in its copy but the id and the stamp it loaded. */
  function Changed(loaded: Row, body: Body): Row {
    loaded.(body := body)
  }

  function LogAfter(log: map<string, History>, id: string, c: Commit): map<string, History> {
    if id in log then log[id := History(log[id].versions + [c.written], log[id].commits + [c])] else log
  }

  function WriteStep(s: State, w: nat, body: Body, stamp: string): State
    requires w in s.held
  {
    match Update(s.rows, Changed(s.held[w], body), stamp)
    case Err(_) => s.(drawn := s.drawn + {stamp})
    case Ok(r) => State(s.rows[r.id := r], s.held[w := r], LogAfter(s.log, r.id, Commit(s.held[w], r)),
                        s.drawn + {stamp})
  }

  function Apply(s: State, e: Event): State {
    match e
    case Create(r) => State(s.rows[r.id := r], s.held, s.log[r.id := History([r], [])], s.drawn + {r.stamp})
    case Load(w, id) => if id in s.rows then s.(held := s.held[w := s.rows[id]]) else s
    case Write(w, body, stamp) => if w in s.held then WriteStep(s, w, body, stamp) else s
  }

  function Run(s: State, es: seq<Event>): State
    decreases |es|
  {
    if es == [] then s else Run(Apply(s, es[0]), es[1..])
  }

  predicate CanRun(s: State, es: seq<Event>)
    decreases |es|
  {
    es == [] || (Enabled(s, es[0]) && CanRun(Apply(s, es[0]), es[1..]))
  }

  const EMPTY := State(map[], map[], map[], {})

  ghost predicate Reachable(s: State) {
    exists es :: CanRun(EMPTY, es) && s == Run(EMPTY, es)
  }

  // ---------- the invariant ----------

  /** The versions of a row carry pairwise different drawn stamps, each commit replaced the
      version its writer had loaded, and the last version is the stored row. */
  ghost predicate ChainOk(id: string, row: Row, h: History, drawn: set<string>) {
    && |h.versions| == |h.commits| + 1
    && (forall i :: 0 <= i < |h.versions| ==> h.versions[i].id == id && h.versions[i].stamp in drawn)
    && (forall i, j :: 0 <= i < j < |h.versions| ==> h.versions[i].stamp != h.versions[j].stamp)
    && (forall i :: 0 <= i < |h.commits| ==>
        h.commits[i].loaded == h.versions[i] && h.commits[i].written == h.versions[i + 1])
    && row == h.versions[|h.versions| - 1]
  }

  ghost predicate ChainsOk(s: State) {
    && (forall id :: id in s.rows <==> id in s.log)
    && forall id :: id in s.rows && id in s.log ==> ChainOk(id, s.rows[id], s.log[id], s.drawn)
  }

  /** A writer holds some version of its row. */
  ghost predicate HeldOk(log: map<string, History>, r: Row) {
    r.id in log && r in log[r.id].versions
  }

  ghost predicate HoldersOk(s: State) {
    forall w :: w in s.held ==> HeldOk(s.log, s.held[w])
  }

  ghost predicate Inv(s: State) {
    ChainsOk(s) && HoldersOk(s)
  }

  /** A copy with the stamp of the stored row is that row as stored. */
  lemma HeldIsCurrent(s: State, r: Row)
    requires ChainsOk(s) && HeldOk(s.log, r) && r.id in s.rows && s.rows[r.id].stamp == r.stamp
    ensures s.rows[r.id] == r
  {
    assert ChainOk(r.id, s.rows[r.id], s.log[r.id], s.drawn);
  }

  lemma ChainExtends(id: string, row: Row, h: History, drawn: set<string>, written: Row)
    requires ChainOk(id, row, h, drawn) && written.id == id && written.stamp !in drawn
    ensures ChainOk(id, written, History(h.versions + [written], h.commits + [Commit(row, written)]),
                    drawn + {written.stamp})
  {
  }

  lemma ChainStays(id: string, row: Row, h: History, drawn: set<string>, drawn': set<string>)
    requires ChainOk(id, row, h, drawn) && drawn <= drawn'
    ensures ChainOk(id, row, h, drawn')
  {
  }

  lemma ChainsStay(s: State, drawn': set<string>)
    requires ChainsOk(s) && s.drawn <= drawn'
    ensures ChainsOk(s.(drawn := drawn'))
  {
    forall id | id in s.rows && id in s.log
      ensures ChainOk(id, s.rows[id], s.log[id], drawn')
    {
      ChainStays(id, s.rows[id], s.log[id], s.drawn, drawn');
    }
  }

  lemma CommitKeepsInv(s: State, w: nat, body: Body, stamp: string)
    requires Inv(s) && Enabled(s, Write(w, body, stamp)) && Update(s.rows, Changed(s.held[w], body), stamp).Ok?
    ensures Inv(WriteStep(s, w, body, stamp))
  {
    var s' := WriteStep(s, w, body, stamp);
    var own := s.held[w];
    HeldIsCurrent(s, own);
    forall id | id in s'.rows && id in s'.log
      ensures ChainOk(id, s'.rows[id], s'.log[id], s'.drawn)
    {
      if id == own.id {
        ChainExtends(id, own, s.log[id], s.drawn, s'.rows[id]);
      } else {
        ChainStays(id, s.rows[id], s.log[id], s.drawn, s'.drawn);
      }
    }
    forall x | x in s'.held
      ensures HeldOk(s'.log, s'.held[x])
    {
      if x == w {
        assert s'.log[own.id].versions[|s.log[own.id].versions|] == s'.held[x];
      } else {
        assert HeldOk(s.log, s.held[x]);
      }
    }
  }

  lemma CreateKeepsInv(s: State, r: Row)
    requires Inv(s) && Enabled(s, Create(r))
    ensures Inv(Apply(s, Create(r)))
  {
    var s' := Apply(s, Create(r));
    forall id | id in s'.rows && id in s'.log
      ensures ChainOk(id, s'.rows[id], s'.log[id], s'.drawn)
    {
      if id != r.id {
        ChainStays(id, s.rows[id], s.log[id], s.drawn, s'.drawn);
      }
    }
    HoldersStay(s, s');
  }

  lemma HoldersStay(s: State, s': State)
    requires HoldersOk(s) && s'.held == s.held
    requires forall id :: id in s.log ==> id in s'.log && s'.log[id] == s.log[id]
    ensures HoldersOk(s')
  {
    forall w | w in s'.held
      ensures HeldOk(s'.log, s'.held[w])
    {
      assert HeldOk(s.log, s.held[w]);
    }
  }

  lemma LoadKeepsInv(s: State, w: nat, id: string)
    requires Inv(s) && Enabled(s, Load(w, id))
    ensures Inv(Apply(s, Load(w, id)))
  {
    assert ChainOk(id, s.rows[id], s.log[id], s.drawn);
  }

  lemma EventKeepsInv(s: State, e: Event)
    requires Inv(s) && Enabled(s, e)
    ensures Inv(Apply(s, e))
  {
    match e
    case Create(r) => CreateKeepsInv(s, r);
    case Load(w, id) => LoadKeepsInv(s, w, id);
    case Write(w, body, stamp) =>
      if Update(s.rows, Changed(s.held[w], body), stamp).Ok? {
        CommitKeepsInv(s, w, body, stamp);
      } else {
        ChainsStay(s, s.drawn + {stamp});
      }
  }

  lemma {:induction false} RunKeepsInv(s: State, es: seq<Event>)
    requires Inv(s) && CanRun(s, es)
    ensures Inv(Run(s, es))
    decreases |es|
  {
    if es != [] {
      EventKeepsInv(s, es[0]);
      RunKeepsInv(Apply(s, es[0]), es[1..]);
    }
  }

  lemma ReachableOk(s: State)
    requires Reachable(s)
    ensures Inv(s)
  {
    var es :| CanRun(EMPTY, es) && s == Run(EMPTY, es);
    RunKeepsInv(EMPTY, es);
  }

  // ---------- no lost updates ----------

  /** The committed versions of a row form a chain: each was written by a writer that had
      loaded exactly the one before, and the last is the stored row. */
  lemma VersionsChain(s: State, id: string)
    requires Reachable(s) && id in s.rows
    ensures id in s.log
    ensures var vs, cs := s.log[id].versions, s.log[id].commits;
            && |vs| == |cs| + 1 && s.rows[id] == vs[|vs| - 1]
            && forall i :: 0 <= i < |cs| ==> cs[i].loaded == vs[i] && cs[i].written == vs[i + 1]
  {
    ReachableOk(s);
    assert ChainOk(id, s.rows[id], s.log[id], s.drawn);
  }

  /** So of all writers that loaded one version, at most one commits. */
  lemma OneCommitPerVersion(s: State, id: string, i: nat, j: nat)
    requires Reachable(s) && id in s.log && i < |s.log[id].commits| && j < |s.log[id].commits|
    requires s.log[id].commits[i].loaded == s.log[id].commits[j].loaded
    ensures i == j
  {
    ReachableOk(s);
    assert ChainOk(id, s.rows[id], s.log[id], s.drawn);
  }

  /** A write commits exactly when its writer holds the stored version; otherwise the table
      stays as it is. */
  lemma WriteCommitsIff(s: State, w: nat, body: Body, stamp: string)
    requires Reachable(s) && Enabled(s, Write(w, body, stamp))
    ensures var own, s' := s.held[w], Apply(s, Write(w, body, stamp));
            && (Update(s.rows, Changed(own, body), stamp).Ok? <==> own.id in s.rows && s.rows[own.id] == own)
            && s'.rows == if own.id in s.rows && s.rows[own.id] == own then s.rows[own.id := Row(own.id, stamp, body)]
                else s.rows
  {
    ReachableOk(s);
    var own := s.held[w];
    assert HeldOk(s.log, own);
    if own.id in s.rows && s.rows[own.id].stamp == own.stamp {
      HeldIsCurrent(s, own);
    }
  }
}
