/** The parts of Go's `strings` and `strconv` packages that the identity code uses to
    encode structured values in strings. A Go string is modelled as a sequence of
    code points. */
module GoStrings {
  import opened Wrappers

  const SPACE: string := " "

  // ---------- strings.Join, strings.Split, strings.Cut ----------

  function Join(xs: seq<string>, sep: char): string {
    if |xs| == 0 then ""
    else if |xs| == 1 then xs[0]
    else xs[0] + [sep] + Join(xs[1..], sep)
  }

  function Split(s: string, sep: char): (parts: seq<string>)
    ensures |parts| >= 1
  {
    if |s| == 0 then [""]
    else
      var rest := Split(s[1..], sep);
      if s[0] == sep then [""] + rest
      else [[s[0]] + rest[0]] + rest[1..]
  }

  lemma {:induction false} SplitOfConcat(a: string, b: string, sep: char)
    requires sep !in a
    ensures Split(a + [sep] + b, sep) == [a] + Split(b, sep)
  {
    if |a| == 0 {
      assert (a + [sep] + b)[1..] == b;
    } else {
      assert (a + [sep] + b)[1..] == a[1..] + [sep] + b;
      SplitOfConcat(a[1..], b, sep);
      assert [a[0]] + a[1..] == a;
    }
  }

  lemma {:induction false} SplitOfAtom(a: string, sep: char)
    requires sep !in a
    ensures Split(a, sep) == [a]
  {
    if |a| > 0 {
      SplitOfAtom(a[1..], sep);
      assert [a[0]] + a[1..] == a;
    }
  }

  /** Splitting undoes joining, for a non-empty list of separator-free parts. */
  lemma {:induction false} SplitOfJoin(xs: seq<string>, sep: char)
    requires |xs| >= 1
    requires forall x :: x in xs ==> sep !in x
    ensures Split(Join(xs, sep), sep) == xs
  {
    if |xs| == 1 {
      SplitOfAtom(xs[0], sep);
    } else {
      SplitOfJoin(xs[1..], sep);
      SplitOfConcat(xs[0], Join(xs[1..], sep), sep);
      assert [xs[0]] + xs[1..] == xs;
    }
  }

  /** A list of non-empty strings joins to the empty string exactly when it is empty. */
  lemma JoinEmpty(xs: seq<string>, sep: char)
    requires forall x :: x in xs ==> x != ""
    ensures Join(xs, sep) == "" <==> xs == []
  {
    if |xs| >= 1 {
      assert xs[0] in xs;
    }
  }

  /** `strings.Cut`: the text before and after the first separator. */
  function Cut(s: string, sep: char): Option<(string, string)> {
    if |s| == 0 then None
    else if s[0] == sep then Some(("", s[1..]))
    else match Cut(s[1..], sep)
      case None => None
      case Some((a, b)) => Some(([s[0]] + a, b))
  }

  lemma {:induction false} CutOfConcat(a: string, b: string, sep: char)
    requires sep !in a
    ensures Cut(a + [sep] + b, sep) == Some((a, b))
  {
    if |a| == 0 {
      assert (a + [sep] + b)[1..] == b;
    } else {
      assert (a + [sep] + b)[1..] == a[1..] + [sep] + b;
      CutOfConcat(a[1..], b, sep);
      assert [a[0]] + a[1..] == a;
    }
  }

  /** Cutting succeeds exactly on a text with the separator, and splits it at the first one. */
  lemma {:induction false} CutSplits(s: string, sep: char)
    ensures Cut(s, sep).Some? <==> sep in s
    ensures Cut(s, sep).Some? ==> var (a, b) := Cut(s, sep).value; sep !in a && s == a + [sep] + b
  {
    if s != "" && s[0] != sep {
      CutSplits(s[1..], sep);
      assert s == [s[0]] + s[1..];
    }
  }

  /** A separator-free first component is determined by the concatenation. */
  lemma ConcatInjective(a: string, x: string, b: string, y: string, sep: char)
    requires sep !in a && sep !in b
    requires a + [sep] + x == b + [sep] + y
    ensures a == b && x == y
  {
    CutOfConcat(a, x, sep);
    CutOfConcat(b, y, sep);
  }

  predicate HasPrefix(s: string, prefix: string) {
    prefix <= s
  }

  // ---------- the order of strings ----------

  predicate StringLeq(a: string, b: string) {
    a == "" || (b != "" && if a[0] == b[0] then StringLeq(a[1..], b[1..]) else a[0] < b[0])
  }

  lemma {:induction false} StringLeqTotal(a: string, b: string)
    ensures StringLeq(a, b) || StringLeq(b, a)
  {
    if a != "" && b != "" && a[0] == b[0] {
      StringLeqTotal(a[1..], b[1..]);
    }
  }

  lemma {:induction false} StringLeqTransitive(a: string, b: string, c: string)
    requires StringLeq(a, b) && StringLeq(b, c)
    ensures StringLeq(a, c)
  {
    if a != "" && a[0] == b[0] && b[0] == c[0] {
      StringLeqTransitive(a[1..], b[1..], c[1..]);
    }
  }

  // ---------- white space: strings.Fields, strings.TrimSpace ----------

  /** `unicode.IsSpace`. */
  predicate IsSpace(c: char) {
    || '\t' <= c <= '\r' || c == ' ' || c == '\U{0085}' || c == '\U{00A0}' || c == '\U{1680}'
    || '\U{2000}' <= c <= '\U{200A}' || c == '\U{2028}' || c == '\U{2029}' || c == '\U{202F}'
    || c == '\U{205F}' || c == '\U{3000}'
  }

  /** The code points of the Unicode white space characters. */
  lemma SpaceCodes(c: char)
    ensures var n := c as int;
            IsSpace(c) <==> 9 <= n <= 13 || 8192 <= n <= 8202
                            || n in {32, 133, 160, 5760, 8232, 8233, 8239, 8287, 12288}
  {
  }

  /** A non-empty string without white space. */
  predicate IsToken(s: string) {
    s != "" && forall c :: c in s ==> !IsSpace(c)
  }

  /** Length of the leading run of non-space characters. */
  function TokenEnd(s: string): (n: nat)
    ensures n <= |s|
    ensures forall i :: 0 <= i < n ==> !IsSpace(s[i])
    ensures n < |s| ==> IsSpace(s[n])
  {
    if |s| == 0 || IsSpace(s[0]) then 0 else 1 + TokenEnd(s[1..])
  }

  /** `strings.Fields`: the maximal white-space-free pieces. */
  function Fields(s: string): (r: seq<string>)
    ensures forall x :: x in r ==> IsToken(x)
  {
    if |s| == 0 then []
    else if IsSpace(s[0]) then Fields(s[1..])
    else
      var n := TokenEnd(s);
      assert IsToken(s[..n]);
      [s[..n]] + Fields(s[n..])
  }

  lemma FieldsOfToken(t: string)
    requires IsToken(t)
    ensures Fields(t) == [t]
  {
    assert !IsSpace(t[0]);
    assert forall i :: 0 <= i < |t| ==> t[i] in t && !IsSpace(t[i]);
    assert t[..|t|] == t;
    assert Fields(t[|t|..]) == [];
  }

  /** A space between two texts separates their fields. */
  lemma {:induction false} FieldsOfConcat(a: string, b: string)
    ensures Fields(a + SPACE + b) == Fields(a) + Fields(b)
    decreases |a|
  {
    var s := a + SPACE + b;
    if |a| == 0 {
      assert s[1..] == b;
    } else if IsSpace(a[0]) {
      assert s[1..] == a[1..] + SPACE + b;
      FieldsOfConcat(a[1..], b);
    } else {
      var n := TokenEnd(a);
      FirstField(a, b);
      FieldsOfConcat(a[n..], b);
    }
  }

  /** The first field of the text is the first field of what comes before the space. */
  lemma FirstField(a: string, b: string)
    requires |a| > 0 && !IsSpace(a[0])
    ensures var s, n := a + SPACE + b, TokenEnd(a);
            n > 0 && Fields(a) == [a[..n]] + Fields(a[n..]) && Fields(s) == [a[..n]] + Fields(a[n..] + SPACE + b)
  {
    var s, n := a + SPACE + b, TokenEnd(a);
    TokenEndOfPrefix(a, SPACE + b);
    assert a + (SPACE + b) == s;
    assert s[0] == a[0];
    assert s[..n] == a[..n];
    assert s[n..] == a[n..] + SPACE + b;
  }

  lemma {:induction false} TokenEndOfPrefix(a: string, b: string)
    requires |b| > 0 && IsSpace(b[0])
    ensures TokenEnd(a + b) == TokenEnd(a)
  {
    if |a| == 0 {
      assert a + b == b;
    } else if !IsSpace(a[0]) {
      assert (a + b)[1..] == a[1..] + b;
      TokenEndOfPrefix(a[1..], b);
    }
  }

  /** `strings.TrimSpace`. */
  function TrimSpace(s: string): (r: string)
    ensures r != "" ==> !IsSpace(r[0]) && !IsSpace(r[|r| - 1])
    decreases |s|
  {
    if |s| == 0 then ""
    else if IsSpace(s[0]) then TrimSpace(s[1..])
    else if IsSpace(s[|s| - 1]) then TrimSpace(s[..|s| - 1])
    else s
  }

  /** Trimming takes white space off both ends, and nothing else: with the contract of `TrimSpace`
      this determines the result. */
  lemma {:induction false} TrimSpaceTrims(s: string) returns (i: nat, j: nat)
    ensures i <= j <= |s| && TrimSpace(s) == s[i..j]
    ensures forall k :: (0 <= k < i || j <= k < |s|) ==> IsSpace(s[k])
    decreases |s|
  {
    if |s| > 0 && IsSpace(s[0]) {
      i, j := TrimSpaceTrims(s[1..]);
      assert s[1..][i..j] == s[i + 1..j + 1];
      i, j := i + 1, j + 1;
    } else if |s| > 0 && IsSpace(s[|s| - 1]) {
      i, j := TrimSpaceTrims(s[..|s| - 1]);
      assert s[..|s| - 1][i..j] == s[i..j];
    } else {
      i, j := 0, |s|;
      assert s[0..|s|] == s;
    }
  }

  // ---------- strconv.FormatInt, strconv.ParseInt ----------

  const MAX_INT64: int := 0x7FFF_FFFF_FFFF_FFFF
  const MIN_INT64: int := -0x8000_0000_0000_0000

  function Digit(d: nat): char
    requires d < 10
  {
    '0' + d as char
  }

  predicate IsDigit(c: char) {
    '0' <= c <= '9'
  }

  function FormatNat(n: nat): (s: string)
    ensures |s| >= 1 && forall c :: c in s ==> IsDigit(c)
  {
    if n < 10 then [Digit(n)] else FormatNat(n / 10) + [Digit(n % 10)]
  }

  /** Decimal representation of an integer. */
  function FormatInt(n: int): string {
    if n < 0 then "-" + FormatNat(-n) else FormatNat(n)
  }

  predicate AllDigits(s: string) {
    s != "" && forall c :: c in s ==> IsDigit(c)
  }

  function DigitOf(c: char): (d: nat)
    requires IsDigit(c)
    ensures d < 10 && Digit(d) == c
  {
    (c - '0') as nat
  }

  function DigitsValue(s: string): nat
    requires forall c :: c in s ==> IsDigit(c)
  {
    if |s| == 0 then 0
    else
      assert s[|s| - 1] in s;
      10 * DigitsValue(s[..|s| - 1]) + DigitOf(s[|s| - 1])
  }

  datatype ParseError = Syntax | Range(clamped: int)

  /** `strconv.ParseInt(s, 10, 64)`; a range error carries the clamped value Go returns with it. */
  function ParseInt(s: string): Result<int, ParseError> {
    var negative := s != "" && s[0] == '-';
    var digits := if s != "" && (s[0] == '-' || s[0] == '+') then s[1..] else s;
    if !AllDigits(digits) then Err(Syntax)
    else
      var v: int := if negative then 0 - DigitsValue(digits) else DigitsValue(digits);
      if v < MIN_INT64 then Err(Range(MIN_INT64))
      else if v > MAX_INT64 then Err(Range(MAX_INT64))
      else Ok(v)
  }

  lemma {:induction false} DigitsValueOfFormat(n: nat)
    ensures DigitsValue(FormatNat(n)) == n
  {
    var s := FormatNat(n);
    if n < 10 {
      assert s[..|s| - 1] == "";
    } else {
      DigitsValueOfFormat(n / 10);
      assert s[..|s| - 1] == FormatNat(n / 10);
    }
  }

  /** Parsing undoes printing for every 64-bit integer, and clamps every other; a plus sign may be added. */
  lemma ParseOfFormat(n: int)
    ensures ParseInt(FormatInt(n)) == Clamped(n)
    ensures n >= 0 ==> ParseInt("+" + FormatNat(n)) == Clamped(n)
  {
    if n >= 0 {
      PlusSign(n);
    }
    var m := if n < 0 then -n else n;
    DigitsValueOfFormat(m);
    var s := FormatInt(n);
    if n < 0 {
      assert s[1..] == FormatNat(m);
    } else {
      assert s[0] in s;
    }
  }

  /** The integer, or the end of the 64-bit range it lies beyond. */
  function Clamped(n: int): Result<int, ParseError> {
    if n < MIN_INT64 then Err(Range(MIN_INT64)) else if n > MAX_INT64 then Err(Range(MAX_INT64)) else Ok(n)
  }

  lemma PlusSign(n: nat)
    ensures ParseInt("+" + FormatNat(n)) == Clamped(n)
  {
    var s := "+" + FormatNat(n);
    DigitsValueOfFormat(n);
    assert s[1..] == FormatNat(n);
  }

  /** A text with a character that is neither a digit nor a sign is no number. */
  lemma ParseOfOther(s: string, i: nat)
    requires i < |s| && !IsDigit(s[i]) && s[i] != '-' && s[i] != '+'
    ensures ParseInt(s) == Err(Syntax)
  {
    if i > 0 {
      assert s[1..][i - 1] == s[i];
    }
  }

  /** A printed integer holds only digits and a sign. */
  lemma FormatIntAlphabet(n: int, c: char)
    requires !IsDigit(c) && c != '-'
    ensures c !in FormatInt(n)
  {
  }
}
