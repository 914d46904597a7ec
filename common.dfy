/**
 * Shared vocabulary of the model: optional values, random draws, the
 * browser's rounding and string trimming, and decimal rendering of
 * whole numbers.
 */
module Common {

  datatype Option<T> = None | Some(value: T)

  /** One result of `Math.random()`: a real in [0, 1). */
  type Draw = r: real | 0.0 <= r < 1.0

  /** `Math.floor(r * n)`: the index a draw picks out of `n` items. */
  function PickIndex(r: Draw, n: nat): (i: int)
    ensures 0 <= i
    ensures n > 0 ==> i < n
  {
    assert n > 0 ==> r * n as real < n as real by {
      if n > 0 {
        assert r * n as real < 1.0 * n as real;
      }
    }
    (r * n as real).Floor
  }

  /** `Math.round(x)`: the nearest integer, halves rounded up. */
  function Round(x: real): (k: int)
    ensures x - 0.5 < k as real <= x + 0.5
  {
    (x + 0.5).Floor
  }

  /** `Math.round(x * 100) / 100`: rounding to whole cents. */
  function Round2(x: real): (y: real)
    ensures x - 0.005 < y <= x + 0.005
    ensures (y * 100.0).Floor as real == y * 100.0
  {
    Round(x * 100.0) as real / 100.0
  }

  lemma RoundMonotone(x: real, y: real)
    requires x <= y
    ensures Round(x) <= Round(y)
  {
  }

  /** Rounding to cents never reverses the order of two amounts. */
  lemma Round2Monotone(x: real, y: real)
    requires x <= y
    ensures Round2(x) <= Round2(y)
  {
    RoundMonotone(x * 100.0, y * 100.0);
  }

  /** An amount that is already a whole number of cents is left as it is. */
  lemma Round2OfCents(k: int)
    ensures Round2(k as real / 100.0) == k as real / 100.0
  {
    assert k as real / 100.0 * 100.0 == k as real;
    assert Round(k as real) == k;
  }

  /** A lower bound in whole cents survives rounding to cents. */
  lemma Round2AtLeast(x: real, k: int)
    requires x >= k as real / 100.0
    ensures Round2(x) >= k as real / 100.0
  {
    Round2Monotone(k as real / 100.0, x);
    Round2OfCents(k);
  }

  /** An upper bound in whole cents survives rounding to cents. */
  lemma Round2AtMost(x: real, k: int)
    requires x <= k as real / 100.0
    ensures Round2(x) <= k as real / 100.0
  {
    Round2Monotone(x, k as real / 100.0);
    Round2OfCents(k);
  }

  /** A non-zero multiple of k is at least k away from 0. */
  lemma FactorAtLeast(d: int, k: nat)
    ensures d >= 1 ==> d * k >= k
    ensures d <= -1 ==> d * k <= -(k as int)
  {
  }

  /** Quotient and remainder are the only ones with a remainder in [0, n). */
  lemma DivModUnique(a: int, n: int, q: int, r: int)
    requires n > 0 && a == q * n + r && 0 <= r < n
    ensures a / n == q && a % n == r
  {
    var q', r' := a / n, a % n;
    assert a == q' * n + r';
    assert (q - q') * n == r' - r;
    FactorAtLeast(q - q', n);
  }

  /** Stepping the remainder is the remainder of the successor. */
  lemma ModSucc(m: int, n: int)
    requires n > 0
    ensures (m + 1) % n == (m % n + 1) % n
  {
    var q, r := m / n, m % n;
    assert m + 1 == q * n + (r + 1);
    if r + 1 < n {
      DivModUnique(r + 1, n, 0, r + 1);
      DivModUnique(m + 1, n, q, r + 1);
    } else {
      assert m + 1 == (q + 1) * n + 0;
      DivModUnique(r + 1, n, 1, 0);
      DivModUnique(m + 1, n, q + 1, 0);
    }
  }

  function Max(a: int, b: int): int { if a >= b then a else b }
  function Min(a: int, b: int): int { if a <= b then a else b }
  function MaxR(a: real, b: real): real { if a >= b then a else b }
  function MinR(a: real, b: real): real { if a <= b then a else b }
  function AbsR(x: real): real { if x >= 0.0 then x else -x }

  /**
   * `s.slice(-n)` for n >= 1 (Python's `s[-n:]`): the last n elements, or
   * all of them when there are fewer.
   */
  function LastN<T>(s: seq<T>, n: nat): (r: seq<T>)
    ensures |r| == Min(n, |s|)
    ensures r == s[|s| - |r|..]
    ensures |s| <= n ==> r == s
  {
    if |s| <= n then s else s[|s| - n..]
  }

  /** What ends the whole sequence also ends its window, as long as it fits. */
  lemma LastNKeepsTail<T>(s: seq<T>, t: seq<T>, n: nat)
    requires |t| <= n
    ensures LastN(s + t, n)[|LastN(s + t, n)| - |t|..] == t
  {
    var r := LastN(s + t, n);
    assert r == (s + t)[|s + t| - |r|..];
    assert (s + t)[|s + t| - |t|..] == t;
  }

  // ---------------------------------------------------------------------
  // Whitespace trimming (`String.prototype.trim`, Python's `str.strip`)
  // ---------------------------------------------------------------------

  /** Tab, line feed, vertical tab, form feed, carriage return and space. */
  predicate IsSpace(c: char) {
    c == ' ' || c == '\t' || c == '\n' || c == '\r' || c == 11 as char || c == 12 as char
  }

  predicate Blank(s: string) {
    forall i :: 0 <= i < |s| ==> IsSpace(s[i])
  }

  function TrimStart(s: string): (t: string)
    ensures |t| <= |s| && t == s[|s| - |t|..]
    ensures t != [] ==> !IsSpace(t[0])
    ensures t == [] <==> Blank(s)
  {
    if |s| > 0 && IsSpace(s[0]) then TrimStart(s[1..]) else s
  }

  function TrimEnd(s: string): (t: string)
    ensures |t| <= |s| && t == s[..|t|]
    ensures t != [] ==> !IsSpace(t[|t| - 1])
    ensures t == [] <==> Blank(s)
  {
    if |s| > 0 && IsSpace(s[|s| - 1]) then TrimEnd(s[..|s| - 1]) else s
  }

  /** The number of whitespace characters `Trim` removes at the front. */
  function TrimOffset(s: string): nat {
    |s| - |TrimStart(s)|
  }

  /**
   * The input with leading and trailing whitespace removed: the piece of
   * it between a blank prefix and a blank suffix that neither starts nor
   * ends with whitespace, empty exactly when the input is all whitespace.
   */
  function Trim(s: string): (t: string)
    ensures TrimOffset(s) + |t| <= |s| && t == s[TrimOffset(s)..TrimOffset(s) + |t|]
    ensures Blank(s[..TrimOffset(s)]) && Blank(s[TrimOffset(s) + |t|..])
    ensures t != [] ==> !IsSpace(t[0]) && !IsSpace(t[|t| - 1])
    ensures t == [] <==> Blank(s)
  {
    TrimStartSkipsSpaces(s);
    TrimEndSkipsSpaces(TrimStart(s));
    TrimEnd(TrimStart(s))
  }

  lemma {:induction false} TrimStartSkipsSpaces(s: string)
    ensures forall j :: 0 <= j < |s| - |TrimStart(s)| ==> IsSpace(s[j])
  {
    if |s| > 0 && IsSpace(s[0]) {
      TrimStartSkipsSpaces(s[1..]);
      forall j | 0 <= j < |s| - |TrimStart(s)| ensures IsSpace(s[j]) {
        if j > 0 { assert s[j] == s[1..][j - 1]; }
      }
    }
  }

  lemma {:induction false} TrimEndSkipsSpaces(s: string)
    ensures forall j :: |TrimEnd(s)| <= j < |s| ==> IsSpace(s[j])
  {
    if |s| > 0 && IsSpace(s[|s| - 1]) {
      TrimEndSkipsSpaces(s[..|s| - 1]);
    }
  }

  // ---------------------------------------------------------------------
  // Decimal rendering (`String(n)` for a whole number n >= 0)
  // ---------------------------------------------------------------------

  function DigitChar(d: nat): char
    requires d < 10
  {
    (48 + d) as char
  }

  predicate IsDigit(c: char) { '0' <= c <= '9' }

  predicate AllDigits(s: string) {
    forall i :: 0 <= i < |s| ==> IsDigit(s[i])
  }

  /** The shortest decimal numeral of n. */
  function Decimal(n: nat): (s: string)
    ensures |s| >= 1 && AllDigits(s)
    decreases n
  {
    if n < 10 then [DigitChar(n)] else Decimal(n / 10) + [DigitChar(n % 10)]
  }

  /** The number a string of decimal digits denotes. */
  function DecimalValue(s: string): nat
    requires AllDigits(s)
  {
    if s == [] then 0
    else 10 * DecimalValue(s[..|s| - 1]) + ((s[|s| - 1] as int) - 48)
  }

  /** Reading back a rendered numeral gives the number. */
  lemma {:induction false} DecimalRoundTrip(n: nat)
    ensures DecimalValue(Decimal(n)) == n
    decreases n
  {
    if n >= 10 {
      var s := Decimal(n);
      assert s[..|s| - 1] == Decimal(n / 10);
      DecimalRoundTrip(n / 10);
    }
  }

  /** Leading zeros do not change the number a numeral denotes. */
  lemma {:induction false} LeadingZero(s: string)
    requires AllDigits(s)
    ensures AllDigits("0" + s) && DecimalValue("0" + s) == DecimalValue(s)
    decreases |s|
  {
    if s != [] {
      assert ("0" + s)[..|"0" + s| - 1] == "0" + s[..|s| - 1];
      LeadingZero(s[..|s| - 1]);
    }
  }

  /** `String(n).padStart(2, "0")`. */
  function Pad2(s: string): (t: string)
    ensures |t| >= 2 && |t| >= |s|
    decreases 2 - |s|
  {
    if |s| >= 2 then s else Pad2("0" + s)
  }

  lemma {:induction false} Pad2Value(s: string)
    requires AllDigits(s)
    ensures AllDigits(Pad2(s)) && DecimalValue(Pad2(s)) == DecimalValue(s)
    ensures |s| <= 2 ==> |Pad2(s)| == 2
    decreases 2 - |s|
  {
    if |s| < 2 {
      LeadingZero(s);
      Pad2Value("0" + s);
    }
  }
}
