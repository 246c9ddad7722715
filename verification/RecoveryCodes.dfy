/** Recovery codes: one stored text of hashes joined by ';', consumed one at a time. */
module RecoveryCodes {
  import opened GoStrings
  import opened Entities
  import opened TableOps
  import opened MemStore

  const RECOVERY_CODES := "RecoveryCodes"
  const SEMICOLON: char := ';'

  // ---------- the list behind the text ----------

  /** The hashes a stored text lists. */
  function Listed(stored: string): seq<string> {
    if stored == "" then [] else Split(stored, SEMICOLON)
  }

  /** The parts that can be told apart in a text: not empty, and without the separator. */
  predicate IsPart(s: string) {
    s != "" && SEMICOLON !in s
  }

  predicate AllParts(xs: seq<string>) {
    forall x :: x in xs ==> IsPart(x)
  }

  /** Reading back what was joined, down to the empty list. */
  lemma ListedOfJoin(xs: seq<string>)
    requires AllParts(xs)
    ensures Listed(Join(xs, SEMICOLON)) == xs
  {
    JoinEmpty(xs, SEMICOLON);
    if xs != [] {
      SplitOfJoin(xs, SEMICOLON);
    }
  }

  /** The parts without the first occurrence of the target and without empty parts. */
  function Without(parts: seq<string>, target: string): seq<string> {
    if parts == [] then []
    else
      var init, last := parts[..|parts| - 1], parts[|parts| - 1];
      if last == "" || (last == target && target !in init) then Without(init, target)
          else Without(init, target) + [last]
  }

  lemma ProperInit(parts: seq<string>)
    requires AllParts(parts) && parts != []
    ensures AllParts(parts[..|parts| - 1]) && IsPart(parts[|parts| - 1])
    ensures parts == parts[..|parts| - 1] + [parts[|parts| - 1]]
  {
  }

  lemma Append(xs: seq<string>, x: string)
    ensures multiset(xs + [x]) == multiset(xs) + multiset{x}
    ensures AllParts(xs) && IsPart(x) ==> AllParts(xs + [x])
  {
  }

  /** On proper parts, consuming removes exactly one occurrence, and nothing when there is none. */
  lemma {:induction false} WithoutOne(parts: seq<string>, target: string)
    requires AllParts(parts)
    ensures AllParts(Without(parts, target))
    ensures multiset(Without(parts, target)) == multiset(parts) - multiset{target}
  {
    if parts != [] {
      var init, last := parts[..|parts| - 1], parts[|parts| - 1];
      ProperInit(parts);
      WithoutOne(init, target);
      Append(init, last);
      Append(Without(init, target), last);
      OneLess(multiset(init), target, last);
      assert target in init <==> target in multiset(init);
    }
  }

  /** It is the first occurrence, and the other parts keep their order. */
  lemma {:induction false} WithoutFirst(parts: seq<string>, target: string, i: nat)
    requires AllParts(parts) && i <= |parts| && target !in parts[..i] && (i < |parts| ==> parts[i] == target)
    ensures Without(parts, target) == if i < |parts| then parts[..i] + parts[i + 1..] else parts
    decreases |parts|
  {
    if parts != [] {
      var n := |parts| - 1;
      var init := parts[..n];
      ProperInit(parts);
      if i < n {
        assert init[..i] == parts[..i];
        WithoutFirst(init, target, i);
        assert init[i] in init;
        assert parts[i + 1..] == init[i + 1..] + [parts[n]];
      } else {
        assert init[..n] == parts[..n];
        assert i == n || parts[n] in parts[..i];
        WithoutFirst(init, target, n);
      }
    }
  }

  lemma OneLess(m: multiset<string>, target: string, x: string)
    ensures m + multiset{x} - multiset{target} == if x == target && target !in m then m - multiset{target}
        else m - multiset{target} + multiset{x}
  {
  }

  /** The redemption loop. */
  method Consume(parts: seq<string>, target: string) returns (found: bool, remaining: seq<string>)
    ensures found == (target in parts)
    ensures remaining == Without(parts, target)
  {
    found, remaining := false, [];
    for i := 0 to |parts|
      invariant found == (target in parts[..i]) && remaining == Without(parts[..i], target)
    {
      var p := parts[i];
      assert parts[..i + 1][..i] == parts[..i];
      if !found && p == target {
        found := true;
        continue;
      }
      if p != "" {
        remaining := remaining + [p];
      }
    }
    assert parts[..|parts|] == parts;
  }

  // ---------- the manager ----------

  /** `hash` is the text of a code's hash. */
  class RecoveryCodeManager {
    const store: Store
    const hash: string -> string

    constructor (store: Store, hash: string -> string)
      ensures this.store == store && this.hash == hash
    {
      this.store, this.hash := store, hash;
    }

    /** Replaces the user's codes by n new ones; `draws` are the random codes. */
    method GenerateRecoveryCodes(userID: string, n: nat, draws: nat -> string) returns (codes: array<string>)
      modifies store`db
      ensures codes.Length == n && fresh(codes) && forall i :: 0 <= i < n ==> codes[i] == draws(i)
      ensures store.db == old(store.db).(tokens := old(store.db).tokens[
                TokenKey(userID, INTERNAL_PROVIDER,
                         RECOVERY_CODES) := Join(seq(n, i requires i >= 0 => hash(draws(i))), SEMICOLON)])
    {
      codes := new string[n];
      var hashed := new string[n];
      for i := 0 to n
        invariant forall j :: 0 <= j < i ==> codes[j] == draws(j) && hashed[j] == hash(draws(j))
        invariant store.db == old(store.db)
      {
        codes[i] := draws(i);
        hashed[i] := hash(codes[i]);
      }
      assert hashed[..] == seq(n, i requires i >= 0 => hash(draws(i)));
      store.SetToken(userID, INTERNAL_PROVIDER, RECOVERY_CODES, Join(hashed[..], SEMICOLON));
    }

    /** Consumes a code: succeeds exactly when its hash is among the stored parts, and then
        leaves the others. */
    method RedeemRecoveryCode(userID: string, code: string) returns (ok: bool)
      modifies store`db
      ensures var key, before := TokenKey(userID, INTERNAL_PROVIDER, RECOVERY_CODES), old(store.db);
              var stored, target := TokenValue(before.tokens, key), hash(TrimSpace(code));
              && ok == (target in Listed(stored))
              && store.db == if ok then before.(tokens := before.tokens[key := Join(Without(Listed(stored), target),
                      SEMICOLON)]) else before
    {
      var stored := store.GetToken(userID, INTERNAL_PROVIDER, RECOVERY_CODES);
      if stored == "" {
        return false;
      }
      var target := hash(TrimSpace(code));
      var parts := Split(stored, SEMICOLON);
      var found, remaining := Consume(parts, target);
      if !found {
        return false;
      }
      store.SetToken(userID, INTERNAL_PROVIDER, RECOVERY_CODES, Join(remaining, SEMICOLON));
      return true;
    }

    method CountRecoveryCodes(userID: string) returns (n: nat)
      ensures n == |Listed(TokenValue(store.db.tokens, TokenKey(userID, INTERNAL_PROVIDER, RECOVERY_CODES)))|
    {
      var stored := store.GetToken(userID, INTERNAL_PROVIDER, RECOVERY_CODES);
      if stored == "" {
        return 0;
      }
      return |Split(stored, SEMICOLON)|;
    }
  }

  // ---------- guesses one after the other ----------

  /** The stored text after a guess at the given hash. */
  function Next(stored: string, target: string): string {
    if target in Listed(stored) then Join(Without(Listed(stored), target), SEMICOLON) else stored
  }

  /** The value reached by the first i steps. */
  function Iterate(next: (string, string) -> string, s: string, ts: seq<string>, i: nat): string
    requires i <= |ts|
  {
    if i == 0 then s else next(Iterate(next, s, ts, i - 1), ts[i - 1])
  }

  /** How many of the first i steps started with the condition. */
  function Hits(next: (string, string) -> string, ok: (string, string) -> bool, s: string, ts: seq<string>, i: nat): nat
    requires i <= |ts|
  {
    if i == 0 then 0
    else Hits(next, ok, s, ts, i - 1) + if ok(Iterate(next, s, ts, i - 1), ts[i - 1]) then 1 else 0
  }

  /** The stored text that the i-th guess finds. */
  function Before(stored: string, targets: seq<string>, i: nat): string
    requires i <= |targets|
  {
    Iterate(Next, stored, targets, i)
  }

  predicate IsListed(stored: string, target: string) {
    target in Listed(stored)
  }

  predicate Succeeds(stored: string, targets: seq<string>, i: nat)
    requires i < |targets|
  {
    IsListed(Before(stored, targets, i), targets[i])
  }

  /** How many of the first i guesses succeeded. */
  function Successes(stored: string, targets: seq<string>, i: nat): nat
    requires i <= |targets|
  {
    Hits(Next, IsListed, stored, targets, i)
  }

  /** A text that lists proper parts and nothing else. */
  predicate Canonical(stored: string) {
    AllParts(Listed(stored)) && stored == Join(Listed(stored), SEMICOLON)
  }

  /** A successful guess removes exactly one occurrence of its hash from the stored codes; a
      failed one changes nothing. */
  lemma GuessConsumes(hashes: seq<string>, target: string)
    requires AllParts(hashes)
    ensures var next := Listed(Next(Join(hashes, SEMICOLON), target));
            && AllParts(next) && Next(Join(hashes, SEMICOLON), target) == Join(next, SEMICOLON)
            && multiset(next) == (if target in hashes then multiset(hashes) - multiset{target} else multiset(hashes))
            && |next| == |hashes| - if target in hashes then 1 else 0
  {
    ListedOfJoin(hashes);
    if target in hashes {
      WithoutOne(hashes, target);
      ListedOfJoin(Without(hashes, target));
      assert |multiset(Without(hashes, target))| == |Without(hashes, target)|;
    }
  }

  /** The codes a stored text holds, with their multiplicity. */
  function Codes(stored: string): multiset<string> {
    multiset(Listed(stored))
  }

  /** One guess takes its hash away from the stored codes, once, and nothing else. */
  lemma NextConserves(stored: string, target: string)
    requires Canonical(stored)
    ensures Canonical(Next(stored, target)) && Codes(Next(stored, target)) == Codes(stored) - multiset{target}
    ensures |Codes(Next(stored, target))| == |Codes(stored)| - if IsListed(stored, target) then 1 else 0
  {
    GuessConsumes(Listed(stored), target);
    assert target in Listed(stored) <==> target in Codes(stored);
  }

  /** Steps that each take one element away take all of them away. */
  lemma {:induction false} AllTakenAway(
      next: (string, string) -> string, held: string -> multiset<string>, inv: string -> bool, s: string,
          ts: seq<string>, i: nat)
    requires i <= |ts| && inv(s)
    requires forall x, t :: inv(x) ==> inv(next(x, t)) && held(next(x, t)) == held(x) - multiset{t}
    ensures inv(Iterate(next, s, ts, i)) && held(Iterate(next, s, ts, i)) == held(s) - FirstOf(ts, i)
  {
    if i > 0 {
      AllTakenAway(next, held, inv, s, ts, i - 1);
      OneAfterTheOther(held(s), FirstOf(ts, i - 1), ts[i - 1]);
    }
  }

  /** The first i elements, with their multiplicity. */
  function FirstOf(ts: seq<string>, i: nat): multiset<string>
    requires i <= |ts|
  {
    if i == 0 then multiset{} else FirstOf(ts, i - 1) + multiset{ts[i - 1]}
  }

  lemma {:induction false} FirstOfIsPrefix(ts: seq<string>, i: nat)
    requires i <= |ts|
    ensures FirstOf(ts, i) == multiset(ts[..i])
  {
    if i > 0 {
      FirstOfIsPrefix(ts, i - 1);
      NextOfPrefix(ts, i - 1);
    }
  }

  lemma NextOfPrefix(ts: seq<string>, i: nat)
    requires i < |ts|
    ensures multiset(ts[..i + 1]) == multiset(ts[..i]) + multiset{ts[i]}
  {
    assert ts[..i + 1] == ts[..i] + [ts[i]];
  }

  lemma OneAfterTheOther(all: multiset<string>, taken: multiset<string>, x: string)
    ensures all - taken - multiset{x} == all - (taken + multiset{x})
  {
  }

  /** Steps that each lower a count by one on the condition lower it by the hits. */
  lemma {:induction false} AllCounted(
      next: (string, string) -> string, ok: (string, string) -> bool, count: string -> int, inv: string -> bool,
      s: string, ts: seq<string>, i: nat)
    requires i <= |ts| && inv(s)
    requires forall x, t :: inv(x) ==> inv(next(x, t)) && count(next(x, t)) == count(x) - if ok(x, t) then 1 else 0
    ensures inv(Iterate(next, s, ts, i)) && count(Iterate(next, s, ts, i)) == count(s) - Hits(next, ok, s, ts, i)
  {
    if i > 0 {
      AllCounted(next, ok, count, inv, s, ts, i - 1);
    }
  }

  /** What a run of guesses leaves stored: the codes less those guessed. */
  lemma CodesLeft(stored: string, targets: seq<string>, i: nat)
    requires Canonical(stored) && i <= |targets|
    ensures Codes(Before(stored, targets, i)) == Codes(stored) - multiset(targets[..i])
  {
    forall x, t | Canonical(x)
      ensures Canonical(Next(x, t)) && Codes(Next(x, t)) == Codes(x) - multiset{t}
    {
      NextConserves(x, t);
    }
    AllTakenAway(Next, Codes, Canonical, stored, targets, i);
    FirstOfIsPrefix(targets, i);
  }

  /** In every run of guesses the count goes down by the successes. */
  lemma CountLeft(stored: string, targets: seq<string>, i: nat)
    requires Canonical(stored) && i <= |targets|
    ensures |Codes(Before(stored, targets, i))| == |Codes(stored)| - Successes(stored, targets, i)
  {
    forall x, t | Canonical(x)
      ensures Canonical(Next(x, t)) && |Codes(Next(x, t))| == |Codes(x)| - if IsListed(x, t) then 1 else 0
    {
      NextConserves(x, t);
    }
    AllCounted(Next, IsListed, x => |Codes(x)|, Canonical, stored, targets, i);
  }

  /** After generating codes, every run of guesses keeps the count equal to the codes generated
      less the successes, and the stored codes are the generated ones less those guessed. */
  lemma CodesConserved(hashes: seq<string>, targets: seq<string>, i: nat)
    requires AllParts(hashes) && i <= |targets|
    ensures var start := Join(hashes, SEMICOLON);
            && |Listed(Before(start, targets, i))| == |hashes| - Successes(start, targets, i)
            && multiset(Listed(Before(start, targets, i))) == multiset(hashes) - multiset(targets[..i])
  {
    ListedOfJoin(hashes);
    CountLeft(Join(hashes, SEMICOLON), targets, i);
    CodesLeft(Join(hashes, SEMICOLON), targets, i);
  }

  /** Exactly which guesses succeed: the hash was generated more often than it was guessed before. */
  lemma SucceedsIff(hashes: seq<string>, targets: seq<string>, i: nat)
    requires AllParts(hashes) && i < |targets|
    ensures Succeeds(Join(hashes, SEMICOLON), targets, i) <==>
        multiset(hashes)[targets[i]] > multiset(targets[..i])[targets[i]]
  {
    CodesConserved(hashes, targets, i);
    var listed := Listed(Before(Join(hashes, SEMICOLON), targets, i));
    assert targets[i] in listed <==> targets[i] in multiset(listed);
  }
}
