/** Account lockout: the sign-in paths that feed the failure counter, and how many guesses
    it lets through. */
module Lockout {
  import opened Wrappers
  import opened Entities
  import opened TableOps
  import opened MemStore
  import opened Accounts

  datatype Policy = Policy(maxFailedAccessAttempts: int, defaultLockoutDuration: int)

  datatype SignInResult = Succeeded | RequiresTwoFactor | IsLockedOut | IsNotAllowed | Failed

  /** What is checked: a password (`allowed` says whether the account may sign in at all), an
      authenticator or SMS code, or a recovery code. */
  datatype Factor = Password(lockoutOnFailure: bool, allowed: bool) | SecondFactor | RecoveryCode

  /** A sign-in: the outcome of its credential check, made at `at`, between the clock readings
      of the lockout check and of the counter update. */
  datatype Attempt = Attempt(factor: Factor, ok: bool, checkAt: int, at: int, recordAt: int)

  // ---------- the counter ----------

  /** A failure adds to the counter; reaching the limit locks the account and resets it. */
  function FailureRecorded(p: Policy, u: User, now: int): User {
    var count := u.accessFailedCount + 1;
    if count >= p.maxFailedAccessAttempts then u.(lockoutEnd := Some(now + p.defaultLockoutDuration),
                                                  accessFailedCount := 0)
    else u.(accessFailedCount := count)
  }

  /** The credential of the attempt is looked at. */
  predicate Checked(u: User, a: Attempt) {
    !u.IsLockedOut(a.checkAt) && (a.factor.Password? ==> a.factor.allowed)
  }

  /** A failed check is counted, except for recovery codes and where the caller opts out. */
  predicate Counts(f: Factor) {
    match f
    case Password(lockoutOnFailure, _) => lockoutOnFailure
    case SecondFactor => true
    case RecoveryCode => false
  }

  predicate CountedFailure(u: User, a: Attempt) {
    Checked(u, a) && !a.ok && Counts(a.factor)
  }

  predicate Success(u: User, a: Attempt) {
    Checked(u, a) && a.ok
  }

  function After(p: Policy, u: User, a: Attempt): User {
    if Success(u, a) then u.(accessFailedCount := 0)
    else if CountedFailure(u, a) then FailureRecorded(p, u, a.recordAt)
    else u
  }

  lemma Unchanged(db: Tables, u: User)
    requires u.id in db.users && db.users[u.id] == u
    ensures db.(users := db.users[u.id := u]) == db
  {
    assert db.users[u.id := u] == db.users;
  }

  // ---------- the managers ----------

  class SignInManager {
    const store: Store
    const policy: Policy

    constructor (store: Store, policy: Policy)
      ensures this.store == store && this.policy == policy
    {
      this.store, this.policy := store, policy;
    }

    method AccessFailed(account: Account, now: int, stamp: string)
      modifies account, store`db
      ensures account.user == FailureRecorded(policy, old(account.user),
                                              now).(concurrencyStamp := account.user.concurrencyStamp)
      ensures old(InStep(store, account.user)) ==>
                InStep(store, account.user)
                    && store.db == old(store.db).(users := old(store.db).users[account.user.id := account.user])
    {
      account.user := account.user.(accessFailedCount := account.user.accessFailedCount + 1);
      if account.user.accessFailedCount >= policy.maxFailedAccessAttempts {
        account.user := account.user.(lockoutEnd := Some(now + policy.defaultLockoutDuration));
        account.user := account.user.(accessFailedCount := 0);
      }
      var saved := Save(store, account, stamp);
    }

    method ResetAccessFailedCount(account: Account, stamp: string)
      modifies account, store`db
      ensures account.user == old(account.user).(accessFailedCount := 0,
                                                 concurrencyStamp := account.user.concurrencyStamp)
      ensures old(InStep(store, account.user)) ==>
                InStep(store, account.user)
                    && store.db == old(store.db).(users := old(store.db).users[account.user.id := account.user])
    {
      if account.user.accessFailedCount == 0 {
        if InStep(store, account.user) {
          Unchanged(store.db, account.user);
        }
        return;
      }
      account.user := account.user.(accessFailedCount := 0);
      var saved := Save(store, account, stamp);
    }

    /** What every sign-in promises: the account follows the counter, and so does its row. */
    twostate predicate Follows(account: Account, a: Attempt)
      reads account, store
    {
      && account.user == After(policy, old(account.user), a).(concurrencyStamp := account.user.concurrencyStamp)
      && (old(InStep(store, account.user)) ==>
            InStep(store, account.user)
                && store.db == old(store.db).(users := old(store.db).users[account.user.id := account.user]))
    }

    /** `PasswordSignIn` for a found user; `correct` is the outcome of the password check. */
    method PasswordSignIn(account: Account, a: Attempt, answerAt: int, stamp: string) returns (r: SignInResult)
      requires a.factor.Password?
      modifies account, store`db
      ensures Follows(account, a)
      ensures r == if old(account.user).IsLockedOut(a.checkAt) then IsLockedOut
                   else if !a.factor.allowed then IsNotAllowed
                   else if a.ok then (if account.user.twoFactorEnabled then RequiresTwoFactor else Succeeded)
                   else if a.factor.lockoutOnFailure && account.user.IsLockedOut(answerAt) then IsLockedOut else Failed
    {
      if InStep(store, account.user) {
        Unchanged(store.db, account.user);
      }
      if account.user.IsLockedOut(a.checkAt) {
        return IsLockedOut;
      }
      if !a.factor.allowed {
        return IsNotAllowed;
      }
      if a.ok {
        ResetAccessFailedCount(account, stamp);
        return if account.user.twoFactorEnabled then RequiresTwoFactor else Succeeded;
      }
      if a.factor.lockoutOnFailure {
        AccessFailed(account, a.recordAt, stamp);
        if account.user.IsLockedOut(answerAt) {
          return IsLockedOut;
        }
      }
      return Failed;
    }

    /** The second step with an authenticator or SMS code. */
    method SecondFactorSignIn(account: Account, a: Attempt, answerAt: int, stamp: string) returns (r: SignInResult)
      requires a.factor.SecondFactor?
      modifies account, store`db
      ensures Follows(account, a)
      ensures r == if old(account.user).IsLockedOut(a.checkAt) then IsLockedOut
                   else if a.ok then Succeeded
                   else if account.user.IsLockedOut(answerAt) then IsLockedOut else Failed
    {
      if InStep(store, account.user) {
        Unchanged(store.db, account.user);
      }
      if account.user.IsLockedOut(a.checkAt) {
        return IsLockedOut;
      }
      if a.ok {
        ResetAccessFailedCount(account, stamp);
        return Succeeded;
      }
      AccessFailed(account, a.recordAt, stamp);
      return if account.user.IsLockedOut(answerAt) then IsLockedOut else Failed;
    }

    /** The second step with a recovery code: a miss is not counted. */
    method RecoveryCodeSignIn(account: Account, a: Attempt, stamp: string) returns (r: SignInResult)
      requires a.factor.RecoveryCode?
      modifies account, store`db
      ensures Follows(account, a)
      ensures r == if old(account.user).IsLockedOut(a.checkAt) then IsLockedOut else if a.ok then Succeeded else Failed
    {
      if InStep(store, account.user) {
        Unchanged(store.db, account.user);
      }
      if account.user.IsLockedOut(a.checkAt) {
        return IsLockedOut;
      }
      if a.ok {
        ResetAccessFailedCount(account, stamp);
        return Succeeded;
      }
      return Failed;
    }
  }

  // ---------- sequences of sign-ins ----------

  /** Sign-ins one after the other. */
  ghost predicate Sequential(attempts: seq<Attempt>) {
    && (forall i :: 0 <= i < |attempts| ==> attempts[i].checkAt <= attempts[i].at <= attempts[i].recordAt)
    && forall i, j :: 0 <= i < j < |attempts| ==> attempts[i].recordAt <= attempts[j].checkAt
  }

  predicate Within(a: Attempt, start: int, length: int) {
    start <= a.at < start + length
  }

  function Run(p: Policy, u: User, attempts: seq<Attempt>): User
    decreases |attempts|
  {
    if attempts == [] then u else Run(p, After(p, u, attempts[0]), attempts[1..])
  }

  /** The counted failures whose check falls into the window. */
  function Failures(p: Policy, u: User, attempts: seq<Attempt>, start: int): nat
    decreases |attempts|
  {
    if attempts == [] then 0
    else
      var a := attempts[0];
      (if CountedFailure(u, a) && Within(a, start, p.defaultLockoutDuration) then 1 else 0)
      + Failures(p, After(p, u, a), attempts[1..], start)
  }

  /** No successful check falls into the window. */
  predicate NoSuccess(p: Policy, u: User, attempts: seq<Attempt>, start: int)
    decreases |attempts|
  {
    attempts == []
    || (var a := attempts[0];
        !(Success(u, a) && Within(a, start, p.defaultLockoutDuration))
            && NoSuccess(p, After(p, u, a), attempts[1..], start))
  }

  /** Past the window nothing counts. */
  lemma {:induction false} NothingAfter(p: Policy, u: User, attempts: seq<Attempt>, start: int)
    requires forall i :: 0 <= i < |attempts| ==> attempts[i].at >= start + p.defaultLockoutDuration
    ensures Failures(p, u, attempts, start) == 0
    decreases |attempts|
  {
    if attempts != [] {
      NothingAfter(p, After(p, u, attempts[0]), attempts[1..], start);
    }
  }

  /** While locked out until the end of the window, nothing is checked in it. */
  lemma {:induction false} NothingWhileLocked(p: Policy, u: User, attempts: seq<Attempt>, start: int)
    requires Sequential(attempts) && u.lockoutEnabled
    requires u.lockoutEnd.Some? && u.lockoutEnd.value >= start + p.defaultLockoutDuration
    ensures Failures(p, u, attempts, start) == 0
    decreases |attempts|
  {
    if attempts != [] {
      var a := attempts[0];
      if a.at < start + p.defaultLockoutDuration {
        assert After(p, u, a) == u;
        NothingWhileLocked(p, u, attempts[1..], start);
      } else {
        assert forall i :: 0 < i < |attempts| ==> attempts[0].recordAt <= attempts[i].checkAt;
        NothingAfter(p, u, attempts, start);
      }
    }
  }

  /** Inside the window the counter leaves room for what is missing to the limit. */
  lemma {:induction false} RoomLeft(p: Policy, u: User, attempts: seq<Attempt>, start: int)
    requires Sequential(attempts) && u.lockoutEnabled && NoSuccess(p, u, attempts, start)
    requires forall i :: 0 <= i < |attempts| ==> attempts[i].at >= start
    ensures Failures(p, u, attempts, start) <= AtLeastOne(p.maxFailedAccessAttempts - u.accessFailedCount)
    decreases |attempts|
  {
    if attempts != [] {
      var a := attempts[0];
      var u' := After(p, u, a);
      if a.at >= start + p.defaultLockoutDuration {
        assert forall i :: 0 < i < |attempts| ==> attempts[0].recordAt <= attempts[i].checkAt;
        NothingAfter(p, u, attempts, start);
      } else if CountedFailure(u, a) && u.accessFailedCount + 1 >= p.maxFailedAccessAttempts {
        NothingWhileLocked(p, u', attempts[1..], start);
      } else {
        RoomLeft(p, u', attempts[1..], start);
      }
    }
  }

  /** In any half-open window as long as the lockout duration that holds no successful check,
      at most the configured number of failed checks - and at least one - is let through. */
  lemma {:induction false} LockoutBound(p: Policy, u: User, attempts: seq<Attempt>, start: int)
    requires Sequential(attempts) && u.lockoutEnabled && u.accessFailedCount >= 0 && NoSuccess(p, u, attempts, start)
    ensures Failures(p, u, attempts, start) <= AtLeastOne(p.maxFailedAccessAttempts)
    decreases |attempts|
  {
    if attempts == [] {
    } else if attempts[0].at >= start {
      assert forall i :: 0 < i < |attempts| ==> attempts[0].recordAt <= attempts[i].checkAt;
      RoomLeft(p, u, attempts, start);
    } else {
      LockoutBound(p, After(p, u, attempts[0]), attempts[1..], start);
    }
  }

  /** The attempt reaches its credential check, fails it, and is of a kind that counts. */
  predicate CountedMiss(u: User, a: Attempt) {
    && (a.factor == Password(true, true) || a.factor.SecondFactor?) && !a.ok
    && !(u.lockoutEnabled && u.lockoutEnd.Some? && a.checkAt < u.lockoutEnd.value)
  }

  /** The bound is reached: wrong passwords and codes in quick succession are let through exactly up to
      the limit, and then the account is locked until a lockout duration after the last of them. */
  lemma {:induction false} LocksAtTheLimit(p: Policy, u: User, attempts: seq<Attempt>, start: int)
    requires Sequential(attempts) && u.lockoutEnabled && 0 <= u.accessFailedCount < p.maxFailedAccessAttempts
    requires |attempts| == p.maxFailedAccessAttempts - u.accessFailedCount
    requires forall i :: 0 <= i < |attempts| ==>
               CountedMiss(u, attempts[i]) && Within(attempts[i], start, p.defaultLockoutDuration)
    ensures Failures(p, u, attempts, start) == |attempts|
    ensures Run(p, u, attempts) == u.(accessFailedCount := 0,
                                      lockoutEnd := Some(attempts[|attempts| - 1].recordAt + p.defaultLockoutDuration))
    ensures forall t :: Run(p, u, attempts).IsLockedOut(t) <==>
                t < attempts[|attempts| - 1].recordAt + p.defaultLockoutDuration
    decreases |attempts|
  {
    var u' := After(p, u, attempts[0]);
    assert CountedFailure(u, attempts[0]);
    if |attempts| == 1 {
      assert attempts[1..] == [];
    } else {
      assert u' == u.(accessFailedCount := u.accessFailedCount + 1);
      LocksAtTheLimit(p, u', attempts[1..], start);
    }
  }

  /** Fewer counted failures than are missing to the limit only add to the counter. */
  lemma {:induction false} BelowTheLimit(p: Policy, u: User, attempts: seq<Attempt>)
    requires u.accessFailedCount + |attempts| < p.maxFailedAccessAttempts
    requires forall i :: 0 <= i < |attempts| ==> CountedMiss(u, attempts[i])
    ensures Run(p, u, attempts) == u.(accessFailedCount := u.accessFailedCount + |attempts|)
    decreases |attempts|
  {
    if attempts != [] {
      var u' := After(p, u, attempts[0]);
      assert u' == u.(accessFailedCount := u.accessFailedCount + 1);
      BelowTheLimit(p, u', attempts[1..]);
    }
  }

  /** A successful check starts the count over: after it, whatever the counter was, it takes the full
      number of counted failures to lock the account, and one fewer leaves it open. */
  lemma SuccessStartsOver(p: Policy, u: User, a: Attempt, attempts: seq<Attempt>, start: int)
    requires Sequential(attempts) && u.lockoutEnabled && p.maxFailedAccessAttempts >= 1
    requires a.ok && !u.IsLockedOut(a.checkAt) && (a.factor.Password? ==> a.factor.allowed)
    requires |attempts| <= p.maxFailedAccessAttempts
    requires forall i :: 0 <= i < |attempts| ==>
               CountedMiss(u, attempts[i]) && Within(attempts[i], start, p.defaultLockoutDuration)
    ensures Run(p, u, [a] + attempts) ==
            if |attempts| < p.maxFailedAccessAttempts then u.(accessFailedCount := |attempts|)
            else u.(accessFailedCount := 0,
                    lockoutEnd := Some(attempts[|attempts| - 1].recordAt + p.defaultLockoutDuration))
  {
    var u' := u.(accessFailedCount := 0);
    assert After(p, u, a) == u' && ([a] + attempts)[1..] == attempts;
    if |attempts| < p.maxFailedAccessAttempts {
      BelowTheLimit(p, u', attempts);
    } else {
      LocksAtTheLimit(p, u', attempts, start);
    }
  }

  /** What is never counted: a failed recovery code, a password of an account that may not sign in, a
      wrong password where the caller opts out, and anything tried while the account is locked. */
  predicate Uncounted(u: User, a: Attempt) {
    || (a.factor.RecoveryCode? && !a.ok)
    || (a.factor.Password? && !a.factor.allowed)
    || (a.factor.Password? && !a.factor.lockoutOnFailure && !a.ok)
    || (u.lockoutEnabled && u.lockoutEnd.Some? && a.checkAt < u.lockoutEnd.value)
  }

  /** However many of those there are, the account stays as it was. */
  lemma {:induction false} UncountedAttempts(p: Policy, u: User, attempts: seq<Attempt>)
    requires forall i :: 0 <= i < |attempts| ==> Uncounted(u, attempts[i])
    ensures Run(p, u, attempts) == u
    decreases |attempts|
  {
    if attempts != [] {
      assert After(p, u, attempts[0]) == u;
      UncountedAttempts(p, u, attempts[1..]);
    }
  }

  /** In particular failed recovery codes are never counted. */
  lemma RecoveryMissesUncounted(p: Policy, u: User, attempts: seq<Attempt>)
    requires forall i :: 0 <= i < |attempts| ==> attempts[i].factor.RecoveryCode? && !attempts[i].ok
    ensures Run(p, u, attempts) == u
  {
    UncountedAttempts(p, u, attempts);
  }

  /** The counter stays between zero and the limit. */
  lemma {:induction false} CounterRange(p: Policy, u: User, attempts: seq<Attempt>)
    requires 0 <= u.accessFailedCount < AtLeastOne(p.maxFailedAccessAttempts)
    ensures 0 <= Run(p, u, attempts).accessFailedCount < AtLeastOne(p.maxFailedAccessAttempts)
    decreases |attempts|
  {
    if attempts != [] {
      CounterRange(p, After(p, u, attempts[0]), attempts[1..]);
    }
  }
}
