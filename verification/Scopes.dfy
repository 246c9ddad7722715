/** The scope algebra of the authorization server: a scope set travels as one
    space-separated string and is compared as a set. */
module Scopes {
  import opened GoStrings

  // ---------- definitions ----------

  /** Keeps the first occurrence of every element. */
  function Dedup(xs: seq<string>): seq<string> {
    if xs == [] then []
    else
      var init := xs[..|xs| - 1];
      var last := xs[|xs| - 1];
      if last in init then Dedup(init) else Dedup(init) + [last]
  }

  function ScopesOf(s: string): seq<string> {
    Dedup(Fields(s))
  }

  function JoinScopes(xs: seq<string>): string {
    Join(xs, ' ')
  }

  function Union(a: seq<string>, b: seq<string>): seq<string> {
    ScopesOf(JoinScopes(a) + SPACE + JoinScopes(b))
  }

  function Elements(xs: seq<string>): set<string> {
    set x | x in xs
  }

  /** The set of scopes a stored scope string stands for. */
  function ScopeSet(s: string): set<string> {
    Elements(ScopesOf(s))
  }

  ghost predicate Distinct<T>(xs: seq<T>) {
    forall i, j :: 0 <= i < j < |xs| ==> xs[i] != xs[j]
  }

  ghost predicate AllTokens(xs: seq<string>) {
    forall x :: x in xs ==> IsToken(x)
  }

  // ---------- the loops of the source ----------

  /** The parsing loop: walks the fields once, with the set of those already seen. */
  method ParseScopes(s: string) returns (out: seq<string>)
    ensures out == ScopesOf(s)
    ensures Distinct(out) && AllTokens(out)
  {
    var fields := Fields(s);
    out := [];
    var seen: set<string> := {};
    for i := 0 to |fields|
      invariant out == Dedup(fields[..i])
      invariant seen == Elements(fields[..i])
    {
      var sc := fields[i];
      assert fields[..i + 1][..i] == fields[..i];
      if sc !in seen {
        seen := seen + {sc};
        out := out + [sc];
      }
    }
    assert fields[..|fields|] == fields;
    DedupFacts(fields);
  }

  method ContainsAll(have: seq<string>, want: seq<string>) returns (r: bool)
    ensures r <==> Elements(want) <= Elements(have)
  {
    var held: set<string> := {};
    for i := 0 to |have|
      invariant held == Elements(have[..i])
    {
      held := held + {have[i]};
    }
    assert have[..|have|] == have;
    for i := 0 to |want|
      invariant forall j :: 0 <= j < i ==> want[j] in held
    {
      if want[i] !in held {
        assert want[i] in Elements(want);
        return false;
      }
    }
    return true;
  }

  // ---------- deduplication ----------

  lemma {:induction false} DedupFacts(xs: seq<string>)
    ensures Distinct(Dedup(xs))
    ensures forall x :: x in Dedup(xs) <==> x in xs
  {
    if xs != [] {
      var init := xs[..|xs| - 1];
      DedupFacts(init);
      assert xs == init + [xs[|xs| - 1]];
    }
  }

  lemma {:induction false} DedupOfDistinct(xs: seq<string>)
    requires Distinct(xs)
    ensures Dedup(xs) == xs
  {
    if xs != [] {
      var init := xs[..|xs| - 1];
      DedupOfDistinct(init);
      assert xs == init + [xs[|xs| - 1]];
    }
  }

  function FirstIndex(xs: seq<string>, x: string): (i: nat)
    requires x in xs
    ensures i < |xs| && xs[i] == x && x !in xs[..i]
  {
    if xs[0] == x then 0 else 1 + FirstIndex(xs[1..], x)
  }

  lemma FirstIndexUnique(xs: seq<string>, i: nat, x: string)
    requires i < |xs| && xs[i] == x
    requires forall k :: 0 <= k < i ==> xs[k] != x
    ensures FirstIndex(xs, x) == i
  {
    var j := FirstIndex(xs, x);
    assert forall k :: 0 <= k < j ==> xs[k] in xs[..j];
  }

  lemma FirstIndexOfPrefix(xs: seq<string>, n: nat, x: string)
    requires n <= |xs| && x in xs[..n]
    ensures x in xs && FirstIndex(xs[..n], x) == FirstIndex(xs, x)
  {
    var i := FirstIndex(xs[..n], x);
    assert forall k :: 0 <= k < i ==> xs[k] in xs[..n][..i];
    FirstIndexUnique(xs, i, x);
  }

  /** First-occurrence order is kept. */
  lemma {:induction false} DedupKeepsOrder(xs: seq<string>, i: nat, j: nat)
    requires i < j < |Dedup(xs)|
    ensures Dedup(xs)[i] in xs && Dedup(xs)[j] in xs
    ensures FirstIndex(xs, Dedup(xs)[i]) < FirstIndex(xs, Dedup(xs)[j])
  {
    DedupFacts(xs);
    var n := |xs| - 1;
    var init := xs[..n];
    var x, y := Dedup(xs)[i], Dedup(xs)[j];
    DedupFacts(init);
    assert x in init;
    FirstIndexOfPrefix(xs, n, x);
    if j < |Dedup(init)| {
      DedupKeepsOrder(init, i, j);
      FirstIndexOfPrefix(xs, n, y);
    } else {
      assert forall k :: 0 <= k < n ==> xs[k] in init;
      FirstIndexUnique(xs, n, y);
    }
  }

  // ---------- printing and parsing ----------

  /** The fields of every element, concatenated. */
  function Flatten(xs: seq<string>): seq<string> {
    if xs == [] then [] else Fields(xs[0]) + Flatten(xs[1..])
  }

  lemma {:induction false} FieldsOfJoin(xs: seq<string>)
    ensures Fields(JoinScopes(xs)) == Flatten(xs)
  {
    if |xs| == 1 {
      assert Flatten(xs[1..]) == [];
    } else if |xs| > 1 {
      FieldsOfJoin(xs[1..]);
      FieldsOfConcat(xs[0], JoinScopes(xs[1..]));
    }
  }

  lemma {:induction false} FlattenOfTokens(xs: seq<string>)
    requires AllTokens(xs)
    ensures Flatten(xs) == xs
  {
    if xs != [] {
      FieldsOfToken(xs[0]);
      FlattenOfTokens(xs[1..]);
    }
  }

  lemma {:induction false} FlattenElements(xs: seq<string>)
    ensures forall t :: t in Flatten(xs) <==> exists x :: x in xs && t in Fields(x)
  {
    if xs != [] {
      FlattenElements(xs[1..]);
      assert xs[0] in xs;
      forall t
        ensures t in Flatten(xs) <==> exists x :: x in xs && t in Fields(x)
      {
        if x :| x in xs && t in Fields(x) {
          assert x == xs[0] || x in xs[1..];
        }
      }
    }
  }

  /** Parsing undoes printing on duplicate-free lists of tokens. */
  lemma ParseOfPrint(xs: seq<string>)
    requires Distinct(xs) && AllTokens(xs)
    ensures ScopesOf(JoinScopes(xs)) == xs
  {
    FieldsOfJoin(xs);
    FlattenOfTokens(xs);
    DedupOfDistinct(xs);
  }

  /** A parsed list is one on which parsing undoes printing, so printing it and
      parsing again changes nothing. */
  lemma ParseIsCanonical(s: string)
    ensures Distinct(ScopesOf(s)) && AllTokens(ScopesOf(s))
    ensures ScopesOf(JoinScopes(ScopesOf(s))) == ScopesOf(s)
  {
    DedupFacts(Fields(s));
    ParseOfPrint(ScopesOf(s));
  }

  /** Exactly which lists survive a round trip. */
  lemma RoundTripIff(xs: seq<string>)
    ensures ScopesOf(JoinScopes(xs)) == xs <==> Distinct(xs) && AllTokens(xs)
  {
    ParseIsCanonical(JoinScopes(xs));
    if Distinct(xs) && AllTokens(xs) {
      ParseOfPrint(xs);
    }
  }

  /** The scopes a printed list stands for are the white-space-free pieces of its elements. */
  lemma PrintedScopes(xs: seq<string>)
    ensures forall t :: t in ScopeSet(JoinScopes(xs)) <==> exists x :: x in xs && t in Fields(x)
  {
    FieldsOfJoin(xs);
    FlattenElements(xs);
    DedupFacts(Flatten(xs));
  }

  /** On token lists it lists the first before the second, each scope once. */
  lemma UnionInOrder(a: seq<string>, b: seq<string>)
    requires AllTokens(a) && AllTokens(b)
    ensures Union(a, b) == Dedup(a + b)
  {
    FieldsOfConcat(JoinScopes(a), JoinScopes(b));
    FieldsOfJoin(a);
    FieldsOfJoin(b);
    FlattenOfTokens(a);
    FlattenOfTokens(b);
  }

  /** `unionScopes` is set union on token lists, and never invents a scope on any list. */
  lemma UnionIsSetUnion(a: seq<string>, b: seq<string>)
    ensures Elements(Union(a, b)) == ScopeSet(JoinScopes(a)) + ScopeSet(JoinScopes(b))
    ensures AllTokens(a) && AllTokens(b) ==> Elements(Union(a, b)) == Elements(a) + Elements(b)
  {
    var fa, fb := Fields(JoinScopes(a)), Fields(JoinScopes(b));
    FieldsOfConcat(JoinScopes(a), JoinScopes(b));
    DedupFacts(fa + fb);
    DedupFacts(fa);
    DedupFacts(fb);
    FieldsOfJoin(a);
    FieldsOfJoin(b);
    if AllTokens(a) && AllTokens(b) {
      FlattenOfTokens(a);
      FlattenOfTokens(b);
    }
  }
}
