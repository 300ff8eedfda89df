/** Decimal numbers and their text: digit strings, powers of ten and rounding to twenty
    significant digits, half up, as decimal.js does by default. */
module Decimals {

  // ------------------------------------------------------------------------- powers of ten

  function Pow10(k: nat): (p: nat)
    ensures p > 0
  {
    if k == 0 then 1 else 10 * Pow10(k - 1)
  }

  lemma {:induction false} Pow10Add(a: nat, b: nat)
    ensures Pow10(a + b) == Pow10(a) * Pow10(b)
    decreases a
  {
    if a > 0 {
      Pow10Add(a - 1, b);
      assert Pow10(a) * Pow10(b) == 10 * (Pow10(a - 1) * Pow10(b));
    }
  }

  lemma MultipleDivides(q: nat, p: nat)
    requires p > 0
    ensures q * p / p == q && q * p % p == 0
  {
    Quotient(q * p, p, q, 0);
  }

  /** The quotient and remainder are the only pair of their kind. */
  lemma Quotient(n: nat, p: nat, q: nat, r: nat)
    requires p > 0 && n == q * p + r && r < p
    ensures n / p == q && n % p == r
  {
    var d := n / p - q;
    assert d * p == r - n % p by { assert n == n / p * p + n % p; }
    assert d >= 1 ==> d * p >= p;
    assert d <= -1 ==> d * p + p <= 0;
  }

  /** A common factor cancels. */
  lemma Cancel(a: nat, p: nat, k: nat)
    requires p > 0 && k > 0
    ensures p * k > 0 && a * k / (p * k) == a / p
  {
    var q, r := a / p, a % p;
    assert a == q * p + r;
    assert a * k == q * (p * k) + r * k;
    assert r * k < p * k by { assert (p - r) * k > 0; }
    Quotient(a * k, p * k, q, r * k);
  }

  // ------------------------------------------------------------------------ digit strings

  predicate IsDigit(c: char) {
    '0' <= c <= '9'
  }

  predicate AllDigits(s: string) {
    forall i | 0 <= i < |s| :: IsDigit(s[i])
  }

  function DigitValue(c: char): (d: nat)
    requires IsDigit(c)
    ensures d < 10
  {
    c as int - '0' as int
  }

  function DigitChar(d: nat): (c: char)
    requires d < 10
    ensures IsDigit(c) && DigitValue(c) == d
    ensures c == '0' <==> d == 0
  {
    ('0' as int + d) as char
  }

  function Value(s: string): nat
    requires AllDigits(s)
  {
    if s == "" then 0 else 10 * Value(s[..|s| - 1]) + DigitValue(s[|s| - 1])
  }

  lemma DigitInWords(c: char)
    requires IsDigit(c)
    ensures DigitValue(c) == match c
                             case '0' => 0 case '1' => 1 case '2' => 2 case '3' => 3 case '4' => 4
                             case '5' => 5 case '6' => 6 case '7' => 7 case '8' => 8 case _ => 9
  {
  }

  /** Digits have their usual values, and all but the last count ten times. */
  lemma DigitsInWords(init: string, last: char)
    requires AllDigits(init) && IsDigit(last)
    ensures AllDigits(init + [last]) && Value("") == 0
    ensures Value(init + [last]) == 10 * Value(init) + match last
                                                       case '0' => 0 case '1' => 1 case '2' => 2 case '3' => 3 case '4' => 4
                                                       case '5' => 5 case '6' => 6 case '7' => 7 case '8' => 8 case _ => 9
  {
    DigitInWords(last);
    hide DigitValue;
    assert (init + [last])[..|init|] == init;
  }

  /** The shortest digit string of a number. */
  function Print(n: nat): (s: string)
    ensures AllDigits(s) && s != ""
    ensures Value(s) == n
    ensures s[0] == '0' <==> n == 0
    ensures n == 0 ==> s == "0"
  {
    if n < 10 then [DigitChar(n)]
    else
      var head := Print(n / 10);
      assert (head + [DigitChar(n % 10)])[..|head|] == head;
      head + [DigitChar(n % 10)]
  }

  lemma TenTimes(n: nat, k: nat)
    ensures n * Pow10(k + 1) == 10 * (n * Pow10(k))
  {
    assert Pow10(k + 1) == 10 * Pow10(k);
    hide Pow10;
  }

  lemma DigitsConcat(a: string, b: string)
    requires AllDigits(a) && AllDigits(b)
    ensures AllDigits(a + b)
  {
  }

  lemma {:induction false} ValueConcat(a: string, b: string)
    requires AllDigits(a) && AllDigits(b)
    ensures AllDigits(a + b) && Value(a + b) == Value(a) * Pow10(|b|) + Value(b)
    decreases |b|
  {
    DigitsConcat(a, b);
    if b == "" {
      assert a + b == a;
    } else {
      var init := b[..|b| - 1];
      assert AllDigits(init);
      hide AllDigits, Pow10, DigitValue;
      ValueConcat(a, init);
      assert (a + b)[..|a + b| - 1] == a + init;
      TenTimes(Value(a), |init|);
    }
  }

  lemma {:induction false} ValueBound(s: string)
    requires AllDigits(s)
    ensures Value(s) < Pow10(|s|)
    decreases |s|
  {
    if s != "" {
      ValueBound(s[..|s| - 1]);
    }
  }

  lemma LeadingDigit(s: string)
    requires AllDigits(s) && s != "" && s[0] != '0'
    ensures Value(s) > 0
    decreases |s|
  {
    if |s| > 1 {
      LeadingDigit(s[..|s| - 1]);
    }
  }

  lemma PrintStep(m: nat)
    requires m >= 10
    ensures Print(m) == Print(m / 10) + [DigitChar(m % 10)]
  {
    hide Value, AllDigits, DigitChar;
  }

  lemma PrintAppends(n: nat, d: nat)
    requires n > 0 && d < 10
    ensures Print(10 * n + d) == Print(n) + [DigitChar(d)]
  {
    hide Print, Value, AllDigits, DigitChar;
    Quotient(10 * n + d, 10, n, d);
    PrintStep(10 * n + d);
  }

  lemma OneDigit(c: char)
    requires IsDigit(c)
    ensures Value([c]) == DigitValue(c) && Print(DigitValue(c)) == [c] && DigitChar(DigitValue(c)) == c
  {
  }

  /** A digit string without leading zeros is the printed form of its value. */
  lemma {:induction false} PrintValue(s: string)
    requires AllDigits(s) && s != "" && (|s| == 1 || s[0] != '0')
    ensures Print(Value(s)) == s
    decreases |s|
  {
    hide Print, DigitChar, DigitValue;
    var init, last := s[..|s| - 1], s[|s| - 1];
    OneDigit(last);
    if |s| == 1 {
      assert s == [last];
    } else {
      LeadingDigit(init);
      PrintValue(init);
      PrintAppends(Value(init), DigitValue(last));
      assert s == init + [last];
    }
  }

  function Zeros(n: nat): (s: string)
    ensures |s| == n && AllDigits(s)
  {
    seq(n, _ => '0')
  }

  lemma {:induction false} ZerosAreNothing(n: nat)
    ensures Value(Zeros(n)) == 0
    decreases n
  {
    if n > 0 {
      ZerosAreNothing(n - 1);
      assert Zeros(n)[..n - 1] == Zeros(n - 1);
    }
  }

  function StripTrailingZeros(s: string): (r: string)
    ensures |r| <= |s| && s == r + Zeros(|s| - |r|)
    ensures r != "" ==> r[|r| - 1] != '0'
  {
    if s != "" && s[|s| - 1] == '0' then
      var r := StripTrailingZeros(s[..|s| - 1]);
      assert s == s[..|s| - 1] + "0" == r + Zeros(|s| - |r|);
      r
    else
      assert s == s + Zeros(0);
      s
  }

  lemma TrailingZeros(a: string, z: nat)
    requires AllDigits(a)
    ensures AllDigits(a + Zeros(z)) && Value(a + Zeros(z)) == Value(a) * Pow10(z)
  {
    ValueConcat(a, Zeros(z));
    ZerosAreNothing(z);
  }

  // -------------------------------------------------------------------------- significance

  const PRECISION: nat := 20

  function Length(n: nat): nat {
    |Print(n)|
  }

  lemma {:induction false} LengthBound(n: nat)
    ensures n < Pow10(Length(n))
    ensures n > 0 ==> Pow10(Length(n) - 1) <= n
    decreases n
  {
    if n >= 10 {
      LengthBound(n / 10);
    }
  }

  lemma {:induction false} Pow10Monotone(a: nat, b: nat)
    requires a <= b
    ensures Pow10(a) <= Pow10(b)
    decreases b
  {
    if a < b {
      Pow10Monotone(a, b - 1);
    }
  }

  lemma LengthAtMost(n: nat, k: nat)
    requires n < Pow10(k) && k > 0
    ensures Length(n) <= k
  {
    LengthBound(n);
    if Length(n) > k {
      Pow10Monotone(k, Length(n) - 1);
    }
  }

  lemma LengthTimesTen(m: nat)
    requires m > 0
    ensures Length(10 * m) == Length(m) + 1
  {
    assert 10 * m / 10 == m;
  }

  lemma {:induction false} ScaledLength(n: nat, k: nat)
    requires n > 0
    ensures n * Pow10(k) > 0 && Length(n * Pow10(k)) == Length(n) + k
    decreases k
  {
    hide Length;
    if k > 0 {
      ScaledLength(n, k - 1);
      LengthTimesTen(n * Pow10(k - 1));
      Regroup(10, n, Pow10(k - 1));
      Regroup(n, 10, Pow10(k - 1));
    }
  }

  /** How many digits rounding to the working precision gives up. */
  function Excess(n: nat): nat {
    if Length(n) > PRECISION then Length(n) - PRECISION else 0
  }

  function FloorTo(n: nat, p: nat): nat
    requires p > 0
  {
    n / p * p
  }

  function Half(e: nat): (h: nat)
    requires e > 0
    ensures 2 * h == Pow10(e)
  {
    5 * Pow10(e - 1)
  }

  /** `n` to a multiple of ten to the `e`, the nearest one, and the larger on a tie. */
  function HalfUp(n: nat, e: nat): nat {
    if e == 0 then n else FloorTo(n + Half(e), Pow10(e))
  }

  /** What an arithmetic operation keeps of an exact result with these digits. */
  function ToPrecision(n: nat): nat {
    HalfUp(n, Excess(n))
  }

  /** At most twenty significant digits, trailing zeros not counted. */
  ghost predicate Fits(n: nat) {
    exists e: nat :: n % Pow10(e) == 0 && n / Pow10(e) < Pow10(20)
  }

  /** Of the numbers that end in as many zeros as digits are given up, rounding takes the nearest,
      and on a tie the larger. */
  lemma RoundingError(n: nat)
    ensures var r, p := ToPrecision(n), Pow10(Excess(n));
            r % p == 0 && 2 * n < 2 * r + p && 2 * r <= 2 * n + p
    ensures Length(n) <= 20 ==> ToPrecision(n) == n
    ensures Length(n) > 20 ==> Excess(n) == Length(n) - 20
  {
    assert Pow10(0) == 1;
    hide Length, Pow10, Half;
    var e := Excess(n);
    if e == 0 {
      assert ToPrecision(n) == n;
    } else {
      NearestMultiple(n + Half(e), Pow10(e));
    }
  }

  lemma NearestMultiple(m: nat, p: nat)
    requires p > 0
    ensures FloorTo(m, p) % p == 0 && FloorTo(m, p) <= m < FloorTo(m, p) + p
  {
    MultipleDivides(m / p, p);
    assert m == m / p * p + m % p;
  }

  lemma MultipleStays(n: nat, e: nat)
    requires n % Pow10(e) == 0
    ensures HalfUp(n, e) == n
  {
    hide Pow10, Half;
    if e > 0 {
      assert n == n / Pow10(e) * Pow10(e);
      Quotient(n + Half(e), Pow10(e), n / Pow10(e), Half(e));
    }
  }

  lemma DividesDown(n: nat, small: nat, big: nat)
    requires small <= big && n % Pow10(big) == 0
    ensures n % Pow10(small) == 0
  {
    hide Pow10;
    Pow10Add(big - small, small);
    FactorDivides(n, Pow10(big - small), Pow10(small));
  }

  lemma FactorDivides(n: nat, a: nat, b: nat)
    requires a > 0 && b > 0 && a * b > 0 && n % (a * b) == 0
    ensures n % b == 0
  {
    var q := n / (a * b);
    assert n == q * (a * b);
    Regroup(q, a, b);
    MultipleDivides(q * a, b);
  }

  lemma Regroup(a: nat, b: nat, c: nat)
    ensures a * (b * c) == a * b * c
  {
  }

  lemma Ordered(a: nat, b: nat, p: nat)
    requires p > 0
    ensures a * p < b * p <==> a < b
  {
    assert a < b ==> (b - a) * p > 0;
    assert a >= b ==> (a - b) * p >= 0;
  }

  lemma FitsOf(q: nat, e: nat)
    requires q < Pow10(PRECISION)
    ensures Fits(q * Pow10(e))
  {
    hide Pow10;
    MultipleDivides(q, Pow10(e));
  }

  lemma ShortFits(n: nat)
    requires Excess(n) == 0
    ensures n < Pow10(PRECISION) && Fits(n)
  {
    LengthBound(n);
    Pow10Monotone(Length(n), PRECISION);
    hide Length;
    FitsOf(n, 0);
  }

  lemma {:induction false} BelowExcess(n: nat)
    requires Excess(n) > 0
    ensures n < Pow10(PRECISION) * Pow10(Excess(n))
  {
    LengthBound(n);
    Pow10Add(PRECISION, Excess(n));
    hide Length;
  }

  lemma FixedFits(n: nat)
    requires ToPrecision(n) == n
    ensures Fits(n)
  {
    hide Length, Pow10, Half, Excess, Fits;
    var e := Excess(n);
    if e == 0 {
      ShortFits(n);
    } else {
      var q := (n + Half(e)) / Pow10(e);
      BelowExcess(n);
      Ordered(q, Pow10(PRECISION), Pow10(e));
      FitsOf(q, e);
    }
  }

  lemma FitsFixed(n: nat, k: nat)
    requires n % Pow10(k) == 0 && n / Pow10(k) < Pow10(PRECISION)
    ensures ToPrecision(n) == n
  {
    hide Length, Pow10, HalfUp;
    assert n == n / Pow10(k) * Pow10(k);
    Ordered(n / Pow10(k), Pow10(PRECISION), Pow10(k));
    Pow10Add(PRECISION, k);
    LengthAtMost(n, PRECISION + k);
    DividesDown(n, Excess(n), k);
    MultipleStays(n, Excess(n));
  }

  /** Rounding changes nothing exactly when the number has at most twenty significant digits. */
  lemma FixedExactlyWhenFits(n: nat)
    ensures ToPrecision(n) == n <==> Fits(n)
  {
    hide ToPrecision, Pow10;
    if ToPrecision(n) == n { FixedFits(n); }
    if Fits(n) {
      var k: nat :| n % Pow10(k) == 0 && n / Pow10(k) < Pow10(PRECISION);
      FitsFixed(n, k);
    }
  }

  /** A rounded number has at most twenty significant digits, even when the carry adds one. */
  lemma RoundedFits(n: nat)
    ensures Fits(ToPrecision(n)) && ToPrecision(ToPrecision(n)) == ToPrecision(n)
  {
    FixedExactlyWhenFits(ToPrecision(n));
    hide Length, Pow10, Half, Excess, Fits;
    var e := Excess(n);
    if e == 0 {
      ShortFits(n);
    } else {
      BelowExcess(n);
      CarryAtMost(n, e);
      MostlyFits((n + Half(e)) / Pow10(e), e);
    }
  }

  lemma FloorBelow(m: nat, p: nat, bound: nat, h: nat)
    requires p > 0 && m < bound * p + h && h < p
    ensures m / p <= bound
  {
    assert m / p * p <= m;
    Distribute(bound, 1, p);
    Ordered(m / p, bound + 1, p);
  }

  lemma CarryAtMost(m: nat, e: nat)
    requires e > 0 && m < Pow10(PRECISION) * Pow10(e)
    ensures (m + Half(e)) / Pow10(e) <= Pow10(PRECISION)
  {
    hide Pow10, Half;
    FloorBelow(m + Half(e), Pow10(e), Pow10(PRECISION), Half(e));
  }

  lemma MostlyFits(q: nat, e: nat)
    requires q <= Pow10(PRECISION)
    ensures Fits(q * Pow10(e))
  {
    hide Pow10, Fits;
    if q < Pow10(PRECISION) {
      FitsOf(q, e);
    } else {
      Pow10Add(PRECISION, e);
      OneFits(PRECISION + e);
    }
  }

  lemma OneFits(e: nat)
    ensures Fits(Pow10(e))
  {
    Pow10Monotone(1, PRECISION);
    FitsOf(1, e);
  }

  lemma ShortScales(n: nat, k: nat)
    requires n > 0 && Excess(n) == 0
    ensures ToPrecision(n * Pow10(k)) == ToPrecision(n) * Pow10(k)
  {
    hide Length, Fits, Pow10, HalfUp, ToPrecision, Excess;
    ShortFits(n);
    FitsOf(n, k);
    FixedExactlyWhenFits(n * Pow10(k));
    FixedExactlyWhenFits(n);
  }

  lemma ExcessScales(n: nat, k: nat)
    requires n > 0 && Excess(n) > 0
    ensures Excess(n * Pow10(k)) == Excess(n) + k
  {
    hide Length, Pow10;
    ScaledLength(n, k);
  }

  lemma NothingScales(k: nat)
    ensures ToPrecision(0 * Pow10(k)) == 0
  {
    hide Pow10;
    assert 0 * Pow10(k) == 0 && Length(0) == 1;
  }

  /** Rounding does not see where the decimal point is. */
  lemma RoundingScales(n: nat, k: nat)
    ensures ToPrecision(n * Pow10(k)) == ToPrecision(n) * Pow10(k)
  {
    hide Length, Fits, Pow10, HalfUp, Excess;
    if n == 0 {
      NothingScales(0);
      NothingScales(k);
      hide ToPrecision;
    } else if Excess(n) == 0 {
      hide ToPrecision;
      ShortScales(n, k);
    } else {
      ExcessScales(n, k);
      HalfUpScales(n, Excess(n), k);
    }
  }

  lemma HalfScales(e: nat, k: nat)
    requires e > 0
    ensures Half(e + k) == Half(e) * Pow10(k)
  {
    Pow10Add(e - 1, k);
    Regroup(5, Pow10(e - 1), Pow10(k));
    hide Pow10;
  }

  lemma Distribute(a: nat, b: nat, c: nat)
    ensures (a + b) * c == a * c + b * c
  {
  }

  lemma FloorScales(m: nat, p: nat, k: nat)
    requires p > 0 && k > 0
    ensures p * k > 0 && FloorTo(m * k, p * k) == FloorTo(m, p) * k
  {
    Cancel(m, p, k);
    Regroup(m / p, p, k);
  }

  lemma HalfUpScales(n: nat, e: nat, k: nat)
    requires e > 0
    ensures HalfUp(n * Pow10(k), e + k) == HalfUp(n, e) * Pow10(k)
  {
    Pow10Add(e, k);
    HalfScales(e, k);
    hide Pow10, Half;
    Distribute(n, Half(e), Pow10(k));
    FloorScales(n + Half(e), Pow10(e), Pow10(k));
  }
}
