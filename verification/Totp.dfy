/** Time-based one-time passwords: the HOTP value of section 5.3 of RFC 4226 in 32-bit
    arithmetic, and the window of sections 4.2 and 5.2 of RFC 6238 in 64-bit arithmetic. */
module Totp {
  import opened Wrappers
  import opened GoStrings
  import opened Entities

  const TWO_32: int := 0x1_0000_0000
  const TWO_64: int := 0x1_0000_0000_0000_0000
  const DEFAULT_DIGITS := 6
  const DEFAULT_PERIOD: int := 30 * SECOND

  /** Conversion to `uint64`. */
  function ToUint64(n: int): (r: nat)
    ensures r < TWO_64
  {
    n % TWO_64
  }

  // ---------- the truncated value ----------

  /** The output of HMAC-SHA-1. */
  predicate IsMac(sum: seq<int>) {
    |sum| == 20 && forall i :: 0 <= i < 20 ==> 0 <= sum[i] < 256
  }

  /** Dynamic truncation: 31 bits read at the offset given by the low four bits of the last byte. */
  function Truncated(sum: seq<int>): (v: nat)
    requires IsMac(sum)
    ensures v < TWO_32 / 2
  {
    var offset := sum[19] % 16;
    (sum[offset] % 128) * 0x100_0000 + sum[offset + 1] * 0x1_0000 + sum[offset + 2] * 0x100 + sum[offset + 3]
  }

  function Pow10(d: nat): (p: nat)
    ensures p >= 1
  {
    if d == 0 then 1 else 10 * Pow10(d - 1)
  }

  /** The modulus as the loop computes it, in 32 bits. */
  function Modulus(digits: int): nat {
    if digits <= 0 then 1 else Pow10(digits) % TWO_32
  }

  function Repeat(c: char, n: int): string {
    if n <= 0 then "" else [c] + Repeat(c, n - 1)
  }

  /** `%0*d`: zeros on the left, or blanks on the right for a negative width. */
  function Padded(text: string, width: int): string {
    if width < 0 then text + Repeat(' ', -width - |text|) else Repeat('0', width - |text|) + text
  }

  function HotpValue(sum: seq<int>, digits: int): string
    requires IsMac(sum) && Modulus(digits) != 0
  {
    Padded(FormatNat(Truncated(sum) % Modulus(digits)), digits)
  }

  // ---------- the modulus ----------

  function Pow(b: nat, e: nat): nat {
    if e == 0 then 1 else b * Pow(b, e - 1)
  }

  lemma {:induction false} PowSum(b: nat, m: nat, n: nat)
    ensures Pow(b, m + n) == Pow(b, m) * Pow(b, n)
  {
    if m > 0 {
      PowSum(b, m - 1, n);
      Reassociate(b, Pow(b, m - 1), Pow(b, n));
    }
  }

  lemma {:induction false} Pow5IsOdd(d: nat)
    ensures Pow(5, d) % 2 == 1
  {
    if d > 0 {
      Pow5IsOdd(d - 1);
    }
  }

  lemma {:induction false} Pow2IsPositive(d: nat)
    ensures Pow(2, d) > 0
  {
    if d > 0 {
      Pow2IsPositive(d - 1);
    }
  }

  lemma {:induction false} Pow10Splits(d: nat)
    ensures Pow10(d) == Pow(2, d) * Pow(5, d)
  {
    if d > 0 {
      Pow10Splits(d - 1);
      TenTimes(Pow(2, d - 1), Pow(5, d - 1));
    }
  }

  lemma TenTimes(p: int, q: int)
    ensures 10 * (p * q) == (2 * p) * (5 * q)
  {
  }

  lemma Pow2Of32()
    ensures Pow(2, 32) == TWO_32
  {
    assert Pow(2, 8) == 256;
    PowSum(2, 8, 8);
    PowSum(2, 16, 16);
  }

  /** Ten to the d, kept in 32 bits, is zero exactly from 32 digits on; there the division of
      the source fails. */
  lemma ModulusZeroIff(digits: int)
    ensures Modulus(digits) == 0 <==> digits >= 32
  {
    if digits >= 32 {
      AMultiple(digits);
    } else if digits > 0 {
      NotAMultiple(digits);
    }
  }

  lemma AMultiple(d: nat)
    requires d >= 32
    ensures Pow10(d) % TWO_32 == 0
  {
    Pow10Splits(d);
    PowSum(2, 32, d - 32);
    Pow2Of32();
    Reassociate(TWO_32, Pow(2, d - 32), Pow(5, d));
    SameResidue(0, Pow(2, d - 32) * Pow(5, d), TWO_32);
  }

  /** Below 32 digits a power of two is missing: what is left of ten to the d is odd. */
  lemma NotAMultiple(d: nat)
    requires 0 < d < 32
    ensures Pow10(d) % TWO_32 != 0
  {
    var m, p, rest := Pow10(d) / TWO_32, Pow(2, d), Pow(2, 32 - d);
    Pow10Splits(d);
    PowSum(2, d, 32 - d);
    Pow2Of32();
    Pow2IsPositive(d);
    Pow5IsOdd(d);
    EvenMultiple(Pow(2, 31 - d), m);
    if Pow10(d) % TWO_32 == 0 {
      Reassociate(p, rest, m);
      Cancel(p, Pow(5, d), rest * m);
    }
  }

  lemma EvenMultiple(half: int, m: int)
    ensures (2 * half * m) % 2 == 0
  {
    Reassociate(2, half, m);
  }

  lemma Reassociate(a: int, b: int, c: int)
    ensures a * b * c == a * (b * c)
  {
  }

  lemma {:induction false} MulAtLeast(m: int, d: int)
    requires m > 0 && d >= 1
    ensures m * d >= m
    decreases d
  {
    if d > 1 {
      MulAtLeast(m, d - 1);
      assert m * d == m * (d - 1) + m;
    }
  }

  lemma MulGap(m: int, q: int, q': int)
    requires m > 0 && q < q'
    ensures m * q + m <= m * q'
  {
    MulAtLeast(m, q' - q);
    assert m * q' == m * q + m * (q' - q);
  }

  lemma Cancel(p: int, a: int, b: int)
    requires p > 0 && p * a == p * b
    ensures a == b
  {
    if a < b {
      MulGap(p, a, b);
    } else if b < a {
      MulGap(p, b, a);
    }
  }

  lemma SameResidue(a: int, k: int, m: int)
    requires m > 0
    ensures (a + m * k) % m == a % m
  {
    var q, q' := a / m, (a + m * k) / m;
    assert m * (q + k) == m * q + m * k;
    if q + k < q' {
      MulGap(m, q + k, q');
    } else if q' < q + k {
      MulGap(m, q', q + k);
    }
  }

  // ---------- the code ----------

  /** A TOTP configuration; zero stands for the default. */
  datatype TOTP = TOTP(digits: int, period: int, skew: int) {
    function Digits(): int {
      if digits == 0 then DEFAULT_DIGITS else digits
    }

    /** The step in whole seconds. */
    function Step(): int {
      (if period == 0 then DEFAULT_PERIOD else period) / SECOND
    }

    function Skew(): int {
      if skew == 0 then 1 else skew
    }

    /** The source divides by the step and by the modulus. */
    predicate Usable() {
      Step() >= 1 && Digits() < 32
    }

    function Counter(at: int): (c: nat)
      requires Step() >= 1
      ensures c < TWO_64
    {
      DivBound(ToUint64(Unix(at)), Step());
      ToUint64(Unix(at)) / Step()
    }
  }

  lemma DivBound(n: nat, d: int)
    requires d >= 1
    ensures 0 <= n / d <= n
  {
  }

  /** `decode` is the base-32 decoder and `mac` HMAC-SHA-1 of the counter's eight bytes. */
  class Authenticator {
    const totp: TOTP
    const decode: string -> Option<string>
    const mac: (string, nat) -> seq<int>

    ghost predicate Valid() {
      totp.Usable() && forall key, c :: IsMac(mac(key, c))
    }

    constructor (totp: TOTP, decode: string -> Option<string>, mac: (string, nat) -> seq<int>)
      ensures this.totp == totp && this.decode == decode && this.mac == mac
    {
      this.totp, this.decode, this.mac := totp, decode, mac;
    }

    method Hotp(key: string, counter: nat, digits: int) returns (code: string)
      requires Valid() && digits < 32
      ensures Modulus(digits) != 0 && code == HotpValue(mac(key, counter), digits)
    {
      var sum := mac(key, counter);
      ModulusZeroIff(digits);
      var m := 1;
      var i := 0;
      while i < digits
        invariant 0 <= i && (i <= digits || i == 0)
        invariant m == Pow10(i) % TWO_32
      {
        TimesTen(Pow10(i));
        m := (m * 10) % TWO_32;
        i := i + 1;
      }
      return Padded(FormatNat(Truncated(sum) % m), digits);
    }

    /** Fails exactly for a secret that does not decode. */
    method Code(secret: string, at: int) returns (r: Option<string>)
      requires Valid()
      ensures Modulus(totp.Digits()) != 0
      ensures r == if decode(secret).None? then None
                   else Some(HotpValue(mac(decode(secret).value, totp.Counter(at)), totp.Digits()))
    {
      ModulusZeroIff(totp.Digits());
      var key := decode(secret);
      if key.None? {
        return None;
      }
      var code := Hotp(key.value, totp.Counter(at), totp.Digits());
      return Some(code);
    }

    /** Accepts exactly the HOTP values of the counters at most `skew` steps away. */
    method Validate(secret: string, code: string, now: int) returns (ok: bool)
      requires Valid()
      ensures ok <==> (decode(secret).Some? &&
                       exists i :: -totp.Skew() <= i <= totp.Skew()
                           && Matches(totp, mac, decode(secret).value, code, totp.Counter(now), i))
    {
      var key := decode(secret);
      if key.None? {
        return false;
      }
      var counter, k := totp.Counter(now), totp.Skew();
      ModulusZeroIff(totp.Digits());
      var i := -k;
      while i <= k
        invariant i <= k + 1 || i == -k
        invariant forall j :: -k <= j < i ==> !Matches(totp, mac, key.value, code, counter, j)
      {
        var c := if i < 0 then ToUint64(counter - ToUint64(-i)) else ToUint64(counter + ToUint64(i));
        WrapsOnce(counter, i);
        var expected := Hotp(key.value, c, totp.Digits());
        if expected == code {
          assert Matches(totp, mac, key.value, code, counter, i);
          return true;
        }
        i := i + 1;
      }
      return false;
    }
  }

  lemma TimesTen(p: nat)
    ensures ((p % TWO_32) * 10) % TWO_32 == (10 * p) % TWO_32
  {
    var q, r := p / TWO_32, p % TWO_32;
    assert 10 * p == TWO_32 * (10 * q) + 10 * r;
    SameResidue(10 * r, 10 * q, TWO_32);
  }

  /** Converting an offset to 64 bits before adding it changes nothing. */
  lemma WrapsOnce(counter: nat, i: int)
    ensures (if i < 0 then ToUint64(counter - ToUint64(-i))
             else ToUint64(counter + ToUint64(i))) == ToUint64(counter + i)
  {
    if i < 0 {
      var q := (-i) / TWO_64;
      assert counter - ToUint64(-i) == counter + i + TWO_64 * q;
      SameResidue(counter + i, q, TWO_64);
    } else {
      var q := i / TWO_64;
      assert counter + ToUint64(i) == counter + i + TWO_64 * (-q);
      SameResidue(counter + i, -q, TWO_64);
    }
  }

  /** The code is the HOTP value of the counter i steps away, modulo 2^64. */
  ghost predicate Matches(totp: TOTP, mac: (string, nat) -> seq<int>, key: string, code: string, counter: nat, i: int) {
    var sum := mac(key, ToUint64(counter + i));
    IsMac(sum) && Modulus(totp.Digits()) != 0 && code == HotpValue(sum, totp.Digits())
  }

  // ---------- the window ----------

  /** Counters of times at most k steps apart differ by at most k. */
  lemma CountersClose(u: nat, v: nat, step: int, k: nat)
    requires step >= 1 && u <= v <= u + k * step
    ensures u / step <= v / step <= u / step + k
  {
    var a, b := u / step, v / step;
    assert step * (a + k) == step * a + k * step;
    if b > a + k {
      MulGap(step, a + k, b);
    }
    if b < a {
      MulGap(step, b, a);
    }
  }

  lemma UnixClose(t: int, t': int, seconds: nat)
    requires t <= t' <= t + seconds * SECOND
    ensures Unix(t) <= Unix(t') <= Unix(t) + seconds
  {
  }

  /** Times in the range of `time.Time.Unix`. */
  predicate Representable(t: int) {
    MIN_INT64 <= Unix(t) <= MAX_INT64
  }

  lemma Uint64Close(u: int, v: int, n: nat)
    requires MIN_INT64 <= u <= v <= MAX_INT64 && v <= u + n && (u < 0 <==> v < 0)
    ensures ToUint64(u) <= ToUint64(v) <= ToUint64(u) + n
  {
    if u < 0 {
      SameResidue(u, 1, TWO_64);
      SameResidue(v, 1, TWO_64);
    }
  }

  lemma CountersOrdered(totp: TOTP, t: int, t': int, k: nat)
    requires totp.Usable() && Representable(t) && Representable(t') && (t < 0 <==> t' < 0)
    requires t <= t' <= t + k * totp.Step() * SECOND
    ensures totp.Counter(t) <= totp.Counter(t') <= totp.Counter(t) + k
  {
    UnixClose(t, t', k * totp.Step());
    Uint64Close(Unix(t), Unix(t'), k * totp.Step());
    CountersClose(ToUint64(Unix(t)), ToUint64(Unix(t')), totp.Step(), k);
  }

  lemma CountersInWindow(totp: TOTP, t: int, t': int)
    requires totp.Usable() && totp.Skew() >= 1 && Representable(t) && Representable(t') && (t < 0 <==> t' < 0)
    requires -(totp.Skew() * totp.Step() * SECOND) <= t' - t <= totp.Skew() * totp.Step() * SECOND
    ensures -totp.Skew() <= totp.Counter(t) - totp.Counter(t') <= totp.Skew()
  {
    if t <= t' {
      CountersOrdered(totp, t, t', totp.Skew());
    } else {
      CountersOrdered(totp, t', t, totp.Skew());
    }
  }

  /** A code made at t validates at every time at most `skew` steps away, as long as both
      times lie on the same side of the epoch. */
  lemma WindowAccepts(totp: TOTP, mac: (string, nat) -> seq<int>, key: string, t: int, t': int)
    requires totp.Usable() && totp.Skew() >= 1 && Representable(t) && Representable(t') && (t < 0 <==> t' < 0)
    requires -(totp.Skew() * totp.Step() * SECOND) <= t' - t <= totp.Skew() * totp.Step() * SECOND
    requires IsMac(mac(key, totp.Counter(t))) && Modulus(totp.Digits()) != 0
    ensures var i := totp.Counter(t) - totp.Counter(t');
            && -totp.Skew() <= i <= totp.Skew()
            && Matches(totp, mac, key, HotpValue(mac(key, totp.Counter(t)), totp.Digits()), totp.Counter(t'), i)
  {
    CountersInWindow(totp, t, t');
    BackToCounter(totp.Counter(t'), totp.Counter(t));
  }

  /** A time's counter is the number of whole steps in its Unix time, taken modulo 2^64. */
  lemma CounterCounts(totp: TOTP, t: int)
    requires totp.Usable() && Representable(t)
    ensures var seconds := if t < 0 then Unix(t) + TWO_64 else Unix(t);
            totp.Step() * totp.Counter(t) <= seconds < totp.Step() * (totp.Counter(t) + 1)
  {
    if t < 0 {
      SameResidue(Unix(t), 1, TWO_64);
    }
    var seconds := ToUint64(Unix(t));
    assert totp.Step() * (seconds / totp.Step()) + seconds % totp.Step() == seconds;
    assert totp.Step() * (totp.Counter(t) + 1) == totp.Step() * totp.Counter(t) + totp.Step();
  }

  /** At a time more than `skew` full steps away, no counter of the window is the one the code was
      made for. */
  lemma WindowEnds(totp: TOTP, t: int, t': int, i: int)
    requires totp.Usable() && 1 <= totp.Skew() <= MAX_INT64
    requires Representable(t) && Representable(t') && t >= 0 && t' >= 0
    requires t' - t >= (totp.Skew() + 1) * totp.Step() * SECOND || t - t' >= (totp.Skew() + 1) * totp.Step() * SECOND
    requires -totp.Skew() <= i <= totp.Skew()
    ensures ToUint64(totp.Counter(t') + i) != totp.Counter(t)
  {
    CounterBelow(totp, t);
    CounterBelow(totp, t');
    if t <= t' {
      CountersApart(totp, t, t', totp.Skew() + 1);
    } else {
      CountersApart(totp, t', t, totp.Skew() + 1);
    }
  }

  lemma CounterBelow(totp: TOTP, t: int)
    requires totp.Usable() && Representable(t) && t >= 0
    ensures totp.Counter(t) <= MAX_INT64
  {
    DivBound(ToUint64(Unix(t)), totp.Step());
  }

  lemma CountersApart(totp: TOTP, t: int, t': int, k: nat)
    requires totp.Usable() && Representable(t) && Representable(t') && 0 <= t && t + k * totp.Step() * SECOND <= t'
    ensures totp.Counter(t) + k <= totp.Counter(t')
  {
    var step, u, v := totp.Step(), Unix(t), Unix(t');
    UnixApart(t, t', k * step);
    CounterCounts(totp, t);
    CounterCounts(totp, t');
    assert step * (totp.Counter(t) + k) == step * totp.Counter(t) + k * step;
    if totp.Counter(t') < totp.Counter(t) + k {
      AtMost(step, totp.Counter(t') + 1, totp.Counter(t) + k);
    }
  }

  lemma AtMost(m: int, a: int, b: int)
    requires m > 0 && a <= b
    ensures m * a <= m * b
  {
    if a < b {
      MulGap(m, a, b);
    }
  }

  lemma UnixApart(t: int, t': int, seconds: nat)
    requires t + seconds * SECOND <= t'
    ensures Unix(t) + seconds <= Unix(t')
  {
  }

  /** What a configuration left at zero stands for: six digits, half a minute, one step either way. */
  lemma DefaultsStandFor(digits: int, period: int, skew: int)
    requires digits != 0 && period != 0 && skew != 0
    ensures TOTP(0, 0, 0).Digits() == 6 && TOTP(0, 0, 0).Step() == 30 && TOTP(0, 0, 0).Skew() == 1
    ensures var totp := TOTP(digits, period, skew);
            && totp.Digits() == digits && totp.Skew() == skew
            && totp.Step() * SECOND <= period < totp.Step() * SECOND + SECOND
  {
  }

  lemma BackToCounter(from: nat, to: nat)
    requires to < TWO_64
    ensures ToUint64(from + (to - from)) == to
  {
  }

  // ---------- the shape of a code ----------

  lemma {:induction false} FormatLength(n: nat, d: nat)
    requires d >= 1
    ensures |FormatNat(n)| <= d <==> n < Pow10(d)
  {
    if d == 1 {
      assert Pow10(1) == 10 * Pow10(0) == 10;
    } else if n < 10 {
      assert Pow10(d) >= 10;
    } else {
      FormatLength(n / 10, d - 1);
    }
  }

  lemma {:induction false} RepeatFacts(c: char, n: int)
    ensures |Repeat(c, n)| == (if n < 0 then 0 else n) && forall x :: x in Repeat(c, n) ==> x == c
  {
    if n > 0 {
      RepeatFacts(c, n - 1);
    }
  }

  lemma {:induction false} Pow10Grows(d: nat, e: nat)
    requires d <= e
    ensures Pow10(d) <= Pow10(e)
  {
    if d < e {
      Pow10Grows(d, e - 1);
    }
  }

  lemma Pow10Of10()
    ensures Pow10(9) == 1_000_000_000 && Pow10(10) == 10_000_000_000
  {
    assert Pow10(5) == 100_000;
    assert Pow10(9) == 10_000 * Pow10(5);
  }

  /** Every code has exactly the configured number of decimal digits. */
  lemma CodeShape(sum: seq<int>, digits: int)
    requires IsMac(sum) && 1 <= digits < 32 && Modulus(digits) != 0
    ensures |HotpValue(sum, digits)| == digits && AllDigits(HotpValue(sum, digits))
  {
    var v := Truncated(sum) % Modulus(digits);
    Pow10Of10();
    if digits <= 9 {
      Pow10Grows(digits, 9);
    } else {
      Pow10Grows(10, digits);
    }
    assert v < Pow10(digits);
    FormatLength(v, digits);
    RepeatFacts('0', digits - |FormatNat(v)|);
  }

  /** Without digits to show every code is a zero, filled up with blanks for a negative number of them. */
  lemma CodeWithoutDigits(sum: seq<int>, digits: int)
    requires IsMac(sum) && digits <= 0
    ensures Modulus(digits) != 0
    ensures var code := HotpValue(sum, digits);
            && |code| == (if digits < 0 then -digits else 1) && code[0] == '0'
            && forall i :: 0 < i < |code| ==> code[i] == ' '
  {
    var code, blanks := HotpValue(sum, digits), Repeat(' ', -digits - 1);
    RepeatFacts(' ', -digits - 1);
    assert FormatNat(0) == "0" && code == "0" + blanks;
    forall i | 0 < i < |code|
      ensures code[i] == ' '
    {
      assert code[i] == blanks[i - 1] && blanks[i - 1] in blanks;
    }
  }

  lemma {:induction false} ZerosValue(n: int, s: string)
    requires forall c :: c in s ==> IsDigit(c)
    ensures (forall c :: c in Repeat('0', n) + s ==> IsDigit(c)) && DigitsValue(Repeat('0', n) + s) == DigitsValue(s)
    decreases |s|
  {
    RepeatFacts('0', n);
    var text := Repeat('0', n) + s;
    if s == "" {
      ZeroValue(n);
      assert text == Repeat('0', n);
    } else {
      assert text[..|text| - 1] == Repeat('0', n) + s[..|s| - 1];
      ZerosValue(n, s[..|s| - 1]);
    }
  }

  lemma {:induction false} ZeroValue(n: int)
    ensures (forall c :: c in Repeat('0', n) ==> IsDigit(c)) && DigitsValue(Repeat('0', n)) == 0
  {
    RepeatFacts('0', n);
    if n > 0 {
      ZeroValue(n - 1);
      var text := Repeat('0', n);
      RepeatFacts('0', n - 1);
      assert forall i :: 0 <= i < n - 1 ==> text[i] == '0' && Repeat('0', n - 1)[i] == '0' by {
        assert forall i :: 0 <= i < n - 1 ==> text[i] in text && Repeat('0', n - 1)[i] in Repeat('0', n - 1);
      }
      assert text[..n - 1] == Repeat('0', n - 1);
      assert text[n - 1] in text;
    }
  }

  /** Up to nine digits nothing is lost of the power of ten in 32 bits. */
  lemma SmallModulus(digits: int)
    requires 1 <= digits <= 9
    ensures Modulus(digits) == Pow10(digits)
  {
    Pow10Of10();
    Pow10Grows(digits, 9);
  }

  /** A code is, in decimal, the 31 bits read from the HMAC value - as one big-endian number - modulo a
      power of ten; beyond nine digits that power is itself cut to 32 bits. */
  lemma CodeIsTruncation(sum: seq<int>, digits: int)
    requires IsMac(sum) && 1 <= digits < 32
    ensures Modulus(digits) != 0 && AllDigits(HotpValue(sum, digits)) && Pow10(digits) % TWO_32 != 0
    ensures DigitsValue(HotpValue(sum, digits)) == BitsAt(sum, sum[19] % 16) % (Pow10(digits) % TWO_32)
    ensures digits <= 9 ==> DigitsValue(HotpValue(sum, digits)) == BitsAt(sum, sum[19] % 16) % Pow10(digits)
  {
    ModulusZeroIff(digits);
    TruncatedIsBits(sum);
    CodeShape(sum, digits);
    PaddedValue(Truncated(sum) % Modulus(digits), digits);
    if digits <= 9 {
      SmallModulus(digits);
    }
  }

  // ---------- truncation on numbers ----------

  /** The bytes as one big-endian number. */
  function BigEndian(s: seq<int>): int {
    if s == [] then 0 else 256 * BigEndian(s[..|s| - 1]) + s[|s| - 1]
  }

  /** The low 31 bits of the number when everything after the four bytes at the offset is shifted out. */
  function BitsAt(sum: seq<int>, offset: nat): int
    requires |sum| == 20 && offset < 16
  {
    PowIsPositive(256, 16 - offset);
    (BigEndian(sum) / Pow(256, 16 - offset)) % 0x8000_0000
  }

  lemma {:induction false} PowIsPositive(b: nat, e: nat)
    requires b > 0
    ensures Pow(b, e) > 0
  {
    if e > 0 {
      PowIsPositive(b, e - 1);
    }
  }

  predicate IsBytes(s: seq<int>) {
    forall i :: 0 <= i < |s| ==> 0 <= s[i] < 256
  }

  lemma {:induction false} BigEndianRange(s: seq<int>)
    requires IsBytes(s)
    ensures 0 <= BigEndian(s) < Pow(256, |s|)
  {
    if s != [] {
      BigEndianRange(s[..|s| - 1]);
    }
  }

  lemma {:induction false} BigEndianOfConcat(a: seq<int>, b: seq<int>)
    ensures BigEndian(a + b) == BigEndian(a) * Pow(256, |b|) + BigEndian(b)
    decreases |b|
  {
    if b == [] {
      assert a + b == a;
    } else {
      var init := b[..|b| - 1];
      assert (a + b)[..|a + b| - 1] == a + init;
      BigEndianOfConcat(a, init);
      Reassociate(256, Pow(256, |init|), BigEndian(a));
      assert BigEndian(a) * Pow(256, |b|) == 256 * (BigEndian(a) * Pow(256, |init|));
    }
  }

  lemma FourBytes(w: seq<int>)
    requires |w| == 4
    ensures BigEndian(w) == w[0] * 0x100_0000 + w[1] * 0x1_0000 + w[2] * 0x100 + w[3]
  {
    assert w[..3][..2] == w[..2] && w[..2][..1] == w[..1] && w[..1][..0] == [];
    assert BigEndian(w[..1]) == w[0];
    assert BigEndian(w[..2]) == 256 * w[0] + w[1];
    assert BigEndian(w[..3]) == 256 * (256 * w[0] + w[1]) + w[2];
  }

  lemma Quotient(q: int, m: int, r: int)
    requires 0 <= r < m
    ensures (q * m + r) / m == q
  {
    var d := (q * m + r) / m;
    if d < q {
      MulGap(m, d, q);
    } else if q < d {
      MulGap(m, q, d);
    }
  }

  /** Dynamic truncation reads those 31 bits (section 5.3 of RFC 4226). */
  lemma TruncatedIsBits(sum: seq<int>)
    requires IsMac(sum)
    ensures Truncated(sum) == BitsAt(sum, sum[19] % 16)
  {
    var k := sum[19] % 16;
    ShiftedOut(sum, k);
    FourBytes(sum[k..k + 4]);
    LowBits(BigEndian(sum[..k]), sum[k], Truncated(sum));
  }

  /** Shifting out what comes after the four bytes leaves those and what comes before them. */
  lemma ShiftedOut(sum: seq<int>, k: nat)
    requires IsMac(sum) && k < 16
    ensures Pow(256, 16 - k) > 0
    ensures BigEndian(sum) / Pow(256, 16 - k) == BigEndian(sum[..k]) * TWO_32 + BigEndian(sum[k..k + 4])
  {
    var a, w, rest := sum[..k], sum[k..k + 4], sum[k + 4..];
    assert sum == a + w + rest;
    BigEndianOfConcat(a + w, rest);
    BigEndianRange(rest);
    PowIsPositive(256, 16 - k);
    Quotient(BigEndian(a + w), Pow(256, 16 - k), BigEndian(rest));
    FourMore(a, w);
  }

  lemma FourMore(a: seq<int>, w: seq<int>)
    requires |w| == 4
    ensures BigEndian(a + w) == BigEndian(a) * TWO_32 + BigEndian(w)
  {
    BigEndianOfConcat(a, w);
    assert Pow(256, 2) == 0x1_0000;
    assert Pow(256, 4) == TWO_32;
  }

  lemma LowBits(high: int, first: int, low: nat)
    requires low < 0x8000_0000
    ensures (high * TWO_32 + first / 128 * 0x8000_0000 + low) % 0x8000_0000 == low
  {
    SameResidue(low, 2 * high + first / 128, 0x8000_0000);
  }

  /** The HMAC value of the worked example in section 5.4 of RFC 4226. */
  const EXAMPLE := [0x1f, 0x86, 0x98, 0x69, 0x0e, 0x02, 0xca, 0x16, 0x61, 0x85, 0x50, 0xef, 0x7f, 0x19, 0xda, 0x8e,
                    0x94, 0x5b, 0x55, 0x5a]

  lemma ExampleTruncated()
    ensures IsMac(EXAMPLE) && Truncated(EXAMPLE) == 0x50ef_7f19
  {
  }

  lemma ExampleText()
    ensures FormatNat(872921) == "872921"
  {
    assert FormatNat(87) == "87";
    assert FormatNat(8729) == "8729";
    assert FormatNat(87292) == "87292";
  }

  lemma WorkedExample()
    ensures IsMac(EXAMPLE) && Modulus(6) != 0 && HotpValue(EXAMPLE, 6) == "872921"
  {
    ExampleTruncated();
    ExampleText();
    assert Pow10(6) == 1_000_000;
  }

  lemma PaddedValue(v: nat, width: nat)
    ensures AllDigits(Padded(FormatNat(v), width)) && DigitsValue(Padded(FormatNat(v), width)) == v
  {
    ZerosValue(width - |FormatNat(v)|, FormatNat(v));
    DigitsValueOfFormat(v);
  }
}
