/** Money fields as they arrive and as they are fingerprinted (app/schemas.py).
    A decimal is a sign, a coefficient and an exponent, so "25", "25.00" and "2.5E+1" are
    three encodings of one value. */
module Money {
  import opened Models

  // ---------- Positional notation ----------

  function Pow(base: nat, e: nat): nat {
    if e == 0 then 1 else base * Pow(base, e - 1)
  }

  lemma {:induction false} PowPositive(base: nat, e: nat)
    requires base > 0
    ensures Pow(base, e) > 0
  {
    if e > 0 {
      PowPositive(base, e - 1);
    }
  }

  lemma {:induction false} PowAdd(base: nat, d: nat, e: nat)
    ensures Pow(base, d + e) == Pow(base, d) * Pow(base, e)
  {
    if d > 0 {
      PowAdd(base, d - 1, e);
      assert Pow(base, d + e) == base * (Pow(base, d - 1) * Pow(base, e));
    }
  }

  predicate Radix(base: nat) {
    base == 10 || base == 16
  }

  function DigitChar(d: nat): char
    requires d < 16
  {
    if d < 10 then ('0' as int + d) as char else ('a' as int + d - 10) as char
  }

  function DigitOf(c: char): int {
    if '0' <= c <= '9' then c as int - '0' as int else c as int - 'a' as int + 10
  }

  /** The number a digit string denotes. */
  function Value(s: string, base: nat): int {
    if s == "" then 0 else Value(s[..|s| - 1], base) * base + DigitOf(s[|s| - 1])
  }

  /** The last w digits of n, zero padded. */
  function Fixed(n: nat, w: nat, base: nat): (s: string)
    requires Radix(base)
    ensures |s| == w
  {
    if w == 0 then "" else Fixed(n / base, w - 1, base) + [DigitChar(n % base)]
  }

  /** All the digits of n, without leading zeros. */
  function Digits(n: nat): (s: string)
    ensures |s| > 0
    ensures '0' <= s[0] <= '9'
  {
    if n < 10 then [DigitChar(n)] else Digits(n / 10) + [DigitChar(n % 10)]
  }

  lemma QuotientBound(n: nat, base: nat, p: nat)
    requires Radix(base) && n < base * p
    ensures n / base < p && n / base * base + n % base == n
  {
    if base == 10 {
      assert n < 10 * p;
    } else {
      assert n < 16 * p;
    }
  }

  lemma {:induction false} FixedValue(n: nat, w: nat, base: nat)
    requires Radix(base) && n < Pow(base, w)
    ensures Value(Fixed(n, w, base), base) == n
  {
    if w > 0 {
      QuotientBound(n, base, Pow(base, w - 1));
      FixedValue(n / base, w - 1, base);
      assert Fixed(n, w, base)[..w - 1] == Fixed(n / base, w - 1, base);
    }
  }

  lemma {:induction false} DigitsValue(n: nat)
    ensures Value(Digits(n), 10) == n
  {
    if n < 10 {
      assert Digits(n)[..0] == "";
    } else {
      DigitsValue(n / 10);
      assert Digits(n)[..|Digits(n)| - 1] == Digits(n / 10);
    }
  }

  lemma {:induction false} ValueAppend(s: string, t: string)
    ensures Value(s + t, 10) == Value(s, 10) * Pow(10, |t|) + Value(t, 10)
  {
    if t == "" {
      assert s + t == s;
    } else {
      var u := t[..|t| - 1];
      ValueAppend(s, u);
      assert (s + t)[..|s + t| - 1] == s + u;
      assert Value(s, 10) * Pow(10, |u|) * 10 == Value(s, 10) * Pow(10, |t|);
    }
  }

  // ---------- Decimals ----------

  datatype Decimal = Decimal(negative: bool, coefficient: nat, exponent: int)

  /** |d| measured in units of 10^lo. */
  function Scaled(d: Decimal, lo: int): nat
    requires lo <= d.exponent
  {
    d.coefficient * Pow(10, d.exponent - lo)
  }

  /** Numeric equality, by bringing both to the finer exponent. Zero has no sign. */
  predicate SameValue(a: Decimal, b: Decimal) {
    var lo := if a.exponent < b.exponent then a.exponent else b.exponent;
    Scaled(a, lo) == Scaled(b, lo) && (Scaled(a, lo) == 0 || a.negative == b.negative)
  }

  function RoundHalfEven(n: nat, m: nat): nat
    requires m > 0
  {
    var q, r := n / m, n % m;
    if 2 * r > m || (2 * r == m && q % 2 == 1) then q + 1 else q
  }

  /** |d| in units of 0.0001, rounded the way Python's `.4f` rounds. */
  function Units(d: Decimal): nat {
    if d.exponent >= -4 then d.coefficient * Pow(10, d.exponent + 4)
    else
      PowPositive(10, -4 - d.exponent);
      RoundHalfEven(d.coefficient, Pow(10, -4 - d.exponent))
  }

  /** max_digits=20, decimal_places=4: at most four places and sixteen whole digits, by value. */
  predicate Fits(d: Decimal) {
    && (d.exponent < -4 ==>
          (PowPositive(10, -4 - d.exponent); d.coefficient % Pow(10, -4 - d.exponent) == 0))
    && Units(d) <= MAX_MONEY
  }

  /** PositiveMoney: gt=0. */
  predicate IsPositiveMoney(d: Decimal) {
    Fits(d) && !d.negative && d.coefficient > 0
  }

  /** NonNegativeMoney: ge=0. A negative zero is not less than zero, so it is accepted. */
  predicate IsNonNegativeMoney(d: Decimal) {
    Fits(d) && (d.negative ==> d.coefficient == 0)
  }

  /** A sign, whole digits, a point and four places. */
  function Text(negative: bool, units: nat): string {
    (if negative then "-" else "") + (Digits(units / 10000) + "." + Fixed(units % 10000, 4, 10))
  }

  /** f"{d:.4f}" */
  function Render(d: Decimal): string {
    Text(d.negative, Units(d))
  }

  /** Reads a string with four decimal places. */
  function Parse(s: string): Decimal {
    var negative := |s| > 0 && s[0] == '-';
    var t := if negative then s[1..] else s;
    var v := if |t| < 5 then 0 else Value(t[..|t| - 5] + t[|t| - 4..], 10);
    Decimal(negative, if v < 0 then 0 else v, -4)
  }

  lemma FitsMeansExact(d: Decimal, lo: int)
    requires Fits(d) && lo <= d.exponent && lo <= -4
    ensures Scaled(d, lo) == Units(d) * Pow(10, -4 - lo)
  {
    if d.exponent >= -4 {
      PowAdd(10, d.exponent + 4, -4 - lo);
      MulAssociative(d.coefficient, Pow(10, d.exponent + 4), Pow(10, -4 - lo));
    } else {
      var m := Pow(10, -4 - d.exponent);
      PowPositive(10, -4 - d.exponent);
      ExactDivision(d.coefficient, m);
      PowAdd(10, -4 - d.exponent, d.exponent - lo);
      MulAssociative(Units(d), m, Pow(10, d.exponent - lo));
    }
  }

  lemma ExactDivision(n: nat, m: nat)
    requires m > 0 && n % m == 0
    ensures RoundHalfEven(n, m) * m == n
  {
  }

  lemma MulAssociative(x: nat, y: nat, z: nat)
    ensures x * (y * z) == x * y * z
  {
  }

  /** Within the accepted range, equal values are exactly equal units and equal non-zero signs. */
  lemma EqualValuesEqualUnits(a: Decimal, b: Decimal)
    requires Fits(a) && Fits(b)
    ensures SameValue(a, b) <==> Units(a) == Units(b) && (Units(a) == 0 || a.negative == b.negative)
  {
    var lo := if a.exponent < b.exponent then a.exponent else b.exponent;
    var base := if lo < -4 then lo else -4;
    ScaledFiner(a, lo, base);
    ScaledFiner(b, lo, base);
    FitsMeansExact(a, base);
    FitsMeansExact(b, base);
    PowPositive(10, lo - base);
    PowPositive(10, -4 - base);
    CancelFactor(Scaled(a, lo), Scaled(b, lo), Pow(10, lo - base));
    CancelFactor(Units(a), Units(b), Pow(10, -4 - base));
    CancelFactor(Scaled(a, lo), 0, Pow(10, lo - base));
    CancelFactor(Units(a), 0, Pow(10, -4 - base));
  }

  lemma CancelFactor(x: nat, y: nat, m: nat)
    requires m > 0
    ensures x * m == y * m <==> x == y
  {
    if x < y {
      assert (y - x) * m > 0;
    } else if y < x {
      assert (x - y) * m > 0;
    }
  }

  lemma ScaledFiner(d: Decimal, lo: int, base: int)
    requires base <= lo <= d.exponent
    ensures Scaled(d, base) == Scaled(d, lo) * Pow(10, lo - base)
  {
    PowAdd(10, d.exponent - lo, lo - base);
    MulAssociative(d.coefficient, Pow(10, d.exponent - lo), Pow(10, lo - base));
  }

  lemma ParseText(negative: bool, units: nat)
    ensures Parse(Text(negative, units)) == Decimal(negative, units, -4)
  {
    var whole, frac := Digits(units / 10000), Fixed(units % 10000, 4, 10);
    var s, t := Text(negative, units), whole + "." + frac;
    assert negative ==> s[0] == '-' && s[1..] == t;
    assert !negative ==> s == t && s[0] == whole[0];
    assert t[..|t| - 5] == whole && t[|t| - 4..] == frac;
    ValueAppend(whole, frac);
    DigitsValue(units / 10000);
    assert Pow(10, 4) == 10000;
    FixedValue(units % 10000, 4, 10);
  }

  /** An accepted amount survives its canonical rendering. */
  lemma RenderingIsLossless(d: Decimal)
    requires Fits(d)
    ensures SameValue(Parse(Render(d)), d)
  {
    ParseText(d.negative, Units(d));
    var p := Parse(Render(d));
    assert Pow(10, 0) == 1;
    assert Units(p) == Units(d);
    EqualValuesEqualUnits(p, d);
  }

  /** The text has a point before its last four places, and a minus sign exactly for a negative sign bit. */
  lemma RenderingHasFourPlaces(d: Decimal)
    ensures var s := Render(d);
            |s| >= 6 && s[|s| - 5] == '.' && (s[0] == '-' <==> d.negative)
  {
  }

  /** Rounding goes to the nearest unit, and to the even one from halfway. */
  lemma RoundsToNearest(n: nat, m: nat)
    requires m > 0
    ensures var twice := 2 * (RoundHalfEven(n, m) * m - n);
            0 <= twice + m <= 2 * m && (twice == m || twice + m == 0 ==> RoundHalfEven(n, m) % 2 == 0)
  {
    var q, r := n / m, n % m;
    assert n == q * m + r;
    assert (q + 1) * m == q * m + m;
  }

  lemma RenderInjective(a: Decimal, b: Decimal)
    ensures Render(a) == Render(b) <==> Units(a) == Units(b) && a.negative == b.negative
  {
    ParseText(a.negative, Units(a));
    ParseText(b.negative, Units(b));
  }

  /** Two encodings of a transfer amount fingerprint alike exactly when they are one value. */
  lemma PositiveMoneyIsCanonical(a: Decimal, b: Decimal)
    requires IsPositiveMoney(a) && IsPositiveMoney(b)
    ensures Render(a) == Render(b) <==> SameValue(a, b)
  {
    RenderInjective(a, b);
    EqualValuesEqualUnits(a, b);
  }

  /** Opening balances: equal renderings always mean equal values, and equal values render
      alike unless they are two zeros of opposite sign. */
  lemma NonNegativeMoneyIsCanonicalUnlessSignedZero(a: Decimal, b: Decimal)
    requires IsNonNegativeMoney(a) && IsNonNegativeMoney(b)
    ensures Render(a) == Render(b) ==> SameValue(a, b)
    ensures SameValue(a, b) ==> (Render(a) == Render(b) <==> a.negative == b.negative)
  {
    RenderInjective(a, b);
    EqualValuesEqualUnits(a, b);
  }

  /** "0" and "-0" are both accepted, are equal, and render differently. */
  lemma NegativeZeroRendersDifferently()
    ensures var zero, minusZero := Decimal(false, 0, 0), Decimal(true, 0, 0);
            && IsNonNegativeMoney(zero) && IsNonNegativeMoney(minusZero)
            && SameValue(zero, minusZero) && Render(zero) != Render(minusZero)
  {
    var zero, minusZero := Decimal(false, 0, 0), Decimal(true, 0, 0);
    assert Units(zero) == 0 && Units(minusZero) == 0;
    RenderInjective(zero, minusZero);
  }

  // ---------- What is accepted ----------

  /** d is n units of 0.0001. */
  predicate IsUnits(d: Decimal, n: nat) {
    SameValue(Decimal(false, n, -4), d)
  }

  lemma MaxMoneyIsTwentyNines()
    ensures MAX_MONEY + 1 == Pow(10, 20)
  {
    assert Pow(10, 5) == 100000;
    PowAdd(10, 5, 5);
    PowAdd(10, 10, 10);
  }

  lemma UnitsAreExact(d: Decimal)
    requires Fits(d) && (d.negative ==> d.coefficient == 0)
    ensures IsUnits(d, Units(d))
  {
    var plain := Decimal(false, Units(d), -4);
    assert Pow(10, 0) == 1;
    assert Units(plain) == Units(d) && Fits(plain);
    NoUnits(d);
    EqualValuesEqualUnits(plain, d);
  }

  lemma NoUnits(d: Decimal)
    ensures d.coefficient == 0 ==> Units(d) == 0
    ensures Fits(d) && Units(d) == 0 ==> d.coefficient == 0
  {
    if d.exponent >= -4 {
      PowPositive(10, d.exponent + 4);
      CancelFactor(d.coefficient, 0, Pow(10, d.exponent + 4));
    } else {
      PowPositive(10, -4 - d.exponent);
      if Fits(d) && Units(d) == 0 {
        ExactDivision(d.coefficient, Pow(10, -4 - d.exponent));
      }
    }
  }

  lemma ExactUnitsFit(d: Decimal, n: nat)
    requires IsUnits(d, n) && n <= MAX_MONEY
    ensures Fits(d) && Units(d) == n && (n > 0 ==> !d.negative)
  {
    assert Pow(10, 0) == 1;
    if d.exponent < -4 {
      var m := Pow(10, -4 - d.exponent);
      PowPositive(10, -4 - d.exponent);
      assert d.coefficient == n * m;
      MultipleIsExact(n, m);
    }
    PowPositive(10, if d.exponent < -4 then -4 - d.exponent else 0);
    CancelFactor(n, 0, Pow(10, if d.exponent < -4 then -4 - d.exponent else 0));
  }

  lemma MultipleIsExact(n: nat, m: nat)
    requires m > 0
    ensures n * m % m == 0 && RoundHalfEven(n * m, m) == n
  {
    var p := n * m;
    QuotientIs(p, m, n, 0);
  }

  lemma QuotientIs(p: nat, m: nat, q: nat, r: nat)
    requires m > 0 && p == q * m + r && r < m
    ensures p / m == q && p % m == r
  {
    var q', r' := p / m, p % m;
    assert p == q' * m + r';
    if q' < q {
      OneFactorMore(q', q, m);
    } else if q < q' {
      OneFactorMore(q, q', m);
    }
  }

  lemma OneFactorMore(x: nat, y: nat, m: nat)
    requires x < y
    ensures x * m + m <= y * m
  {
    assert (y - x - 1) * m >= 0;
  }

  /** A field accepts exactly the numbers with at most four places and sixteen digits before the point:
      the multiples of 0.0001 below 10^16, from zero for opening balances and from 0.0001 for
      transfers. */
  lemma AcceptedByValue(d: Decimal)
    ensures IsPositiveMoney(d) <==> exists n: nat :: 0 < n < Pow(10, 20) && IsUnits(d, n)
    ensures IsNonNegativeMoney(d) <==> exists n: nat :: n < Pow(10, 20) && IsUnits(d, n)
  {
    MaxMoneyIsTwentyNines();
    NoUnits(d);
    if IsNonNegativeMoney(d) {
      UnitsAreExact(d);
    }
    forall n: nat | n < Pow(10, 20) && IsUnits(d, n)
      ensures IsNonNegativeMoney(d) && (n > 0 ==> IsPositiveMoney(d))
    {
      ExactUnitsFit(d, n);
    }
  }
}
