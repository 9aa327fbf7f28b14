/** Rounding to IEEE 754 binary64 (section 4.3.1 of IEEE 754-2008, roundTiesToEven)
    for positive reals, with exponent range left unbounded. */
module Binary64 {

  const TWO52: int := 0x10_0000_0000_0000
  const TWO53: int := 0x20_0000_0000_0000

  function Power2(e: int): (p: real)
    ensures p > 0.0
    decreases if e >= 0 then e else -e
  {
    if e == 0 then 1.0 else if e > 0 then 2.0 * Power2(e - 1) else Power2(e + 1) / 2.0
  }

  /** The exponent that puts the significand of x between 2^52 and 2^53. */
  function Exponent(x: real): int
    requires x > 0.0
    decreases if x >= TWO53 as real then x.Floor else (TWO53 as real / x).Floor
  {
    if x >= TWO53 as real then
      Exponent(x / 2.0) + 1
    else if x < TWO52 as real then
      DoubleHalvesQuotient(x);
      Exponent(2.0 * x) - 1
    else 0
  }

  lemma DoubleHalvesQuotient(x: real)
    requires 0.0 < x < TWO52 as real
    ensures (TWO53 as real / (2.0 * x)).Floor < (TWO53 as real / x).Floor
  {
    var q := TWO53 as real / x;
    assert q * x == TWO53 as real;
    assert q > 2.0;
    assert TWO53 as real / (2.0 * x) == q / 2.0;
  }

  function Abs(x: real): real { if x < 0.0 then -x else x }

  /** Nearest integer, ties to even. */
  function RoundEven(y: real): (n: int)
    ensures Abs(y - n as real) <= 0.5
  {
    var f := y.Floor;
    var d := y - f as real;
    if d < 0.5 || (d == 0.5 && f % 2 == 0) then f else f + 1
  }

  /** x over 2^Exponent(x), by the same halvings and doublings. */
  function Significand(x: real): (y: real)
    requires x > 0.0
    ensures TWO52 as real <= y < TWO53 as real
    decreases if x >= TWO53 as real then x.Floor else (TWO53 as real / x).Floor
  {
    if x >= TWO53 as real then
      Significand(x / 2.0)
    else if x < TWO52 as real then
      DoubleHalvesQuotient(x);
      Significand(2.0 * x)
    else x
  }

  /** float64 of a real. */
  function Round(x: real): real
    requires x >= 0.0
  {
    if x == 0.0 then 0.0 else Scale(RoundEven(Significand(x)) as real, Power2(Exponent(x)))
  }

  function Scale(y: real, u: real): real { y * u }

  lemma PowerStep(e: int)
    ensures Power2(e + 1) == 2.0 * Power2(e)
  {}

  lemma {:induction false} Normalised(x: real)
    requires x > 0.0
    ensures x == Scale(Significand(x), Power2(Exponent(x)))
    decreases if x >= TWO53 as real then x.Floor else (TWO53 as real / x).Floor
  {
    if x >= TWO53 as real {
      Normalised(x / 2.0);
      PowerStep(Exponent(x / 2.0));
      DoubleScale(Significand(x), Power2(Exponent(x / 2.0)));
    } else if x < TWO52 as real {
      DoubleHalvesQuotient(x);
      Normalised(2.0 * x);
      PowerStep(Exponent(2.0 * x) - 1);
      DoubleScale(Significand(x), Power2(Exponent(2.0 * x) - 1));
    }
  }

  lemma DoubleScale(y: real, u: real)
    ensures Scale(2.0 * y, u) == 2.0 * Scale(y, u) == Scale(y, 2.0 * u)
  {}

  /** Rounding moves a number by at most half of its last place, and by at most
      2^-53 of itself. */
  lemma RelativeError(x: real)
    requires x > 0.0
    ensures Abs(Round(x) - x) <= 0.5 * Power2(Exponent(x))
    ensures Abs(Round(x) - x) * TWO53 as real <= x
  {
    Normalised(x);
    ErrorAtScale(Significand(x), Power2(Exponent(x)));
  }

  lemma ErrorAtScale(y: real, u: real)
    requires u > 0.0 && y >= TWO52 as real
    ensures Abs(Scale(RoundEven(y) as real, u) - Scale(y, u)) <= 0.5 * u
    ensures 0.5 * u * TWO53 as real <= Scale(y, u)
  {
    var n := RoundEven(y) as real;
    DistanceScaled(y, n, u);
    Widen(Abs(n - y), 0.5, u);
    Widen(TWO52 as real, y, u);
  }

  lemma DistanceScaled(y: real, z: real, u: real)
    requires u > 0.0
    ensures Abs(Scale(z, u) - Scale(y, u)) == Scale(Abs(z - y), u)
  {}

  lemma Widen(a: real, b: real, u: real)
    requires u > 0.0 && a <= b
    ensures Scale(a, u) <= Scale(b, u)
  {}

  // ---- Round is the nearest binary64 number ----

  lemma {:induction false} PowerSum(a: int, n: nat)
    ensures Power2(a + n) == Scale(IntPower2(n) as real, Power2(a))
  {
    if n > 0 {
      PowerSum(a, n - 1);
      PowerStep(a + n - 1);
      assert IntPower2(n) as real == 2.0 * IntPower2(n - 1) as real;
      DoubleScale(IntPower2(n - 1) as real, Power2(a));
    }
  }

  function IntPower2(n: nat): int { if n == 0 then 1 else 2 * IntPower2(n - 1) }

  lemma {:induction false} PowerGrows(a: int, b: int)
    requires a <= b
    ensures Power2(a) <= Power2(b)
    decreases b - a
  {
    if a < b {
      PowerGrows(a, b - 1);
      PowerStep(b - 1);
    }
  }

  lemma NoIntegerIsCloser(y: real, j: int)
    ensures Abs(y - RoundEven(y) as real) <= Abs(y - j as real)
  {
    var f := y.Floor;
    if j <= f {
      assert j as real <= f as real;
    } else {
      assert j as real >= (f + 1) as real == f as real + 1.0;
    }
  }

  lemma NoMultipleIsCloser(y: real, u: real, j: int)
    requires u > 0.0
    ensures Abs(Scale(y, u) - Scale(RoundEven(y) as real, u)) <= Abs(Scale(y, u) - Scale(j as real, u))
  {
    var n := RoundEven(y) as real;
    NoIntegerIsCloser(y, j);
    DistanceScaled(n, y, u);
    DistanceScaled(j as real, y, u);
    Widen(Abs(y - n), Abs(y - j as real), u);
  }

  /** No number n * 2^k with a significand of at most 53 bits is closer to x. */
  lemma RoundIsNearest(x: real, n: int, k: int)
    requires x > 0.0 && 0 <= n < TWO53
    ensures Abs(x - Round(x)) <= Abs(x - Scale(n as real, Power2(k)))
  {
    Normalised(x);
    var y, e := Significand(x), Exponent(x);
    if k >= e {
      var j := CoarserIsMultiple(n, e, k - e);
      assert e + (k - e) == k;
      NoMultipleIsCloser(y, Power2(e), j);
    } else {
      PowerApart(k, e);
      FinerIsBelow(n, y, Power2(k), Power2(e));
      NoMultipleIsCloser(y, Power2(e), TWO52);
    }
  }

  lemma CoarserIsMultiple(n: int, e: int, d: nat) returns (j: int)
    ensures Scale(n as real, Power2(e + d)) == Scale(j as real, Power2(e))
  {
    j := n * IntPower2(d);
    PowerSum(e, d);
    Regroup(n, IntPower2(d), Power2(e));
  }

  lemma Regroup(n: int, p: int, u: real)
    ensures Scale(n as real, Scale(p as real, u)) == Scale((n * p) as real, u)
  {
    assert (n * p) as real == n as real * p as real;
  }

  lemma FinerIsBelow(n: int, y: real, p: real, q: real)
    requires 0 <= n < TWO53 && 0.0 < p && 2.0 * p <= q && y >= TWO52 as real
    ensures Scale(n as real, p) <= Scale(TWO52 as real, q) <= Scale(y, q)
  {
    Widen(n as real, TWO53 as real, p);
    Widen(TWO52 as real, y, q);
  }

  // ---- evaluating Round on a given number ----

  lemma PowerApart(a: int, b: int)
    requires a < b
    ensures 2.0 * Power2(a) <= Power2(b)
  {
    PowerGrows(a + 1, b);
    PowerStep(a);
  }

  /** The exponent is the only one that normalises x, and the significand follows. */
  lemma ExponentIs(x: real, y: real, e: int)
    requires x > 0.0 && x == Scale(y, Power2(e)) && TWO52 as real <= y < TWO53 as real
    ensures Exponent(x) == e && Significand(x) == y
  {
    Normalised(x);
    if Exponent(x) < e {
      PowerApart(Exponent(x), e);
      FinerIsSmaller(Significand(x), Power2(Exponent(x)), y, Power2(e));
    } else if e < Exponent(x) {
      PowerApart(e, Exponent(x));
      FinerIsSmaller(y, Power2(e), Significand(x), Power2(Exponent(x)));
    } else {
      SameScale(Significand(x), y, Power2(e));
    }
  }

  /** So Round can be read off any normalised form. */
  lemma RoundOf(x: real, y: real, e: int)
    requires x > 0.0 && x == Scale(y, Power2(e)) && TWO52 as real <= y < TWO53 as real
    ensures Round(x) == Scale(RoundEven(y) as real, Power2(e))
  {
    ExponentIs(x, y, e);
  }

  lemma FinerIsSmaller(y: real, p: real, z: real, q: real)
    requires 0.0 < p && 2.0 * p <= q && y < TWO53 as real && TWO52 as real <= z
    ensures Scale(y, p) < Scale(z, q)
  {
    assert (TWO53 as real - y) * p > 0.0;
    Widen(TWO52 as real, z, q);
  }

  lemma SameScale(y: real, z: real, u: real)
    requires u > 0.0 && Scale(y, u) == Scale(z, u)
    ensures y == z
  {}
}

/** Kobo amounts as text on the wire and as float64 coming back. */
module MoneyText {
  import opened Binary64
  import opened Keys

  /** Below this many kobo every conversion is exact. */
  const KOBO_BOUND: int := 0x8_0000_0000_0000

  /** float64(kobo) / 100. */
  function Naira(kobo: int): real
    requires kobo >= 0
  {
    Round(kobo as real / 100.0)
  }

  /** %.2f of a float64: its exact value rounded to hundredths. */
  function Hundredths(v: real): int { RoundEven(v * 100.0) }

  function TwoDigits(n: int): (s: string)
    requires 0 <= n < 100
    ensures |s| == 2 && AllDigits(s)
  {
    [DigitChar(n / 10), DigitChar(n % 10)]
  }

  function FixedText(hundredths: int): string
    requires hundredths >= 0
  {
    Decimal(hundredths / 100) + "." + TwoDigits(hundredths % 100)
  }

  /** fmt.Sprintf("%.2f", float64(kobo)/100). */
  function WireText(kobo: int): string
    requires 0 <= kobo < KOBO_BOUND
  {
    HundredthsAreExact(kobo);
    FixedText(Hundredths(Naira(kobo)))
  }

  /** Digits, a point and two digits. */
  predicate TwoPlaces(text: string) {
    && |text| > 3 && text[|text| - 3] == '.'
    && AllDigits(text[..|text| - 3]) && AllDigits(text[|text| - 2..])
  }

  /** A decimal with two places, read digit by digit, in hundredths. */
  function ReadHundredths(text: string): (n: nat)
    requires TwoPlaces(text)
  {
    ParseDecimal(text[..|text| - 3] + text[|text| - 2..])
  }

  /** float64(text): correctly rounded, as JSON decoding and ParseFloat do. */
  function ReadFloat(hundredths: int): real
    requires hundredths >= 0
  {
    Round(hundredths as real / 100.0)
  }

  /** math.Round, half away from zero, of a non-negative number. */
  function MathRound(v: real): int { (v + 0.5).Floor }

  /** int64(math.Round(v * 100)). */
  function RoundingReader(v: real): int
    requires v >= 0.0
  {
    MathRound(Round(v * 100.0))
  }

  /** int64(v * 100). */
  function TruncatingReader(v: real): int
    requires v >= 0.0
  {
    Round(v * 100.0).Floor
  }

  /** Rounding kobo/100 moves it by less than half a hundredth. */
  lemma HundredthsAreExact(kobo: int)
    requires 0 <= kobo < KOBO_BOUND
    ensures Naira(kobo) >= 0.0
    ensures Hundredths(Naira(kobo)) == kobo
  {
    if kobo > 0 {
      var x := kobo as real / 100.0;
      RelativeError(x);
      assert Abs(Naira(kobo) * 100.0 - kobo as real) * TWO53 as real <= kobo as real;
    }
  }

  /** Two roundings, one by 100, stay within half a kobo. */
  lemma ReadBackIsClose(kobo: int)
    requires 0 < kobo < KOBO_BOUND
    ensures Naira(kobo) >= 0.0
    ensures Abs(Round(Naira(kobo) * 100.0) - kobo as real) < 0.5
  {
    HundredthsAreExact(kobo);
    var v := Naira(kobo);
    RelativeError(kobo as real / 100.0);
    assert Abs(v * 100.0 - kobo as real) * TWO53 as real <= kobo as real;
    assert v * 100.0 > 0.0;
    RelativeError(v * 100.0);
  }

  /** The text is the kobo amount to the digit. */
  lemma WireTextReadsBack(kobo: int)
    requires 0 <= kobo < KOBO_BOUND
    ensures TwoPlaces(WireText(kobo)) && ReadHundredths(WireText(kobo)) == kobo
  {
    HundredthsAreExact(kobo);
    SplitFixedText(kobo);
    ParseOfDecimal(kobo / 100);
    ParseTwoMore(Decimal(kobo / 100), kobo % 100);
  }

  lemma SplitFixedText(c: nat)
    ensures var t := FixedText(c);
      && |t| > 3 && t[|t| - 3] == '.'
      && t[..|t| - 3] == Decimal(c / 100) && t[|t| - 2..] == TwoDigits(c % 100)
  {
    var whole, cents := Decimal(c / 100), TwoDigits(c % 100);
    assert FixedText(c) == whole + "." + cents;
  }

  lemma ParseTwoMore(whole: string, c: int)
    requires AllDigits(whole) && 0 <= c < 100
    ensures ParseDecimal(whole + TwoDigits(c)) == 100 * ParseDecimal(whole) + c
  {
    var s := whole + TwoDigits(c);
    var tens := whole + [DigitChar(c / 10)];
    assert s[..|s| - 1] == tens && s[|s| - 1] == DigitChar(c % 10);
    assert tens[..|tens| - 1] == whole && tens[|tens| - 1] == DigitChar(c / 10);
  }

  // ------------------------------------------------------------------
  // Which amounts a truncating reader loses a kobo of
  // ------------------------------------------------------------------

  const HUNDRED52: int := 100 * TWO52
  const TWO59: int := 128 * TWO52

  /** The amount doubled until it is 100 * 2^52 or more: a hundred times the 53-bit
      significand that kobo/100 would have without rounding. */
  function Scaled(kobo: int): (n: int)
    requires 0 < kobo < 2 * HUNDRED52
    ensures HUNDRED52 <= n < 2 * HUNDRED52
    decreases HUNDRED52 - kobo
  {
    if kobo >= HUNDRED52 then kobo else Scaled(2 * kobo)
  }

  function Doublings(kobo: int): (d: int)
    requires 0 < kobo < 2 * HUNDRED52
    ensures d >= 0
    decreases HUNDRED52 - kobo
  {
    if kobo >= HUNDRED52 then 0 else Doublings(2 * kobo) + 1
  }

  /** The amounts that come back one kobo short, told from the amount alone. */
  predicate LosesAKobo(kobo: int)
    requires 0 <= kobo < KOBO_BOUND
  {
    kobo > 0 && Scaled(kobo) < TWO59 && 33 <= Scaled(kobo) % 100 <= 49
  }

  lemma {:induction false} ScaledIs(kobo: int)
    requires 0 < kobo < 2 * HUNDRED52
    ensures kobo as real == Scale(Scaled(kobo) as real, Power2(-Doublings(kobo)))
    ensures Scaled(kobo) == kobo * IntPower2(Doublings(kobo))
    decreases HUNDRED52 - kobo
  {
    if kobo < HUNDRED52 {
      var d := Doublings(2 * kobo);
      ScaledIs(2 * kobo);
      PowerStep(-d - 1);
      DoubleScale(Scaled(kobo) as real, Power2(-d - 1));
      OneFactorOut(kobo, IntPower2(d));
    }
  }

  lemma OneFactorOut(a: int, b: int)
    ensures (2 * a) * b == a * (2 * b)
  {}

  lemma {:induction false} MultiplesStay(kobo: int, m: int)
    requires 0 < kobo < 2 * HUNDRED52 && m > 0 && kobo % m == 0
    ensures Scaled(kobo) % m == 0
    decreases HUNDRED52 - kobo
  {
    if kobo < HUNDRED52 {
      TwiceAMultiple(kobo, m);
      MultiplesStay(2 * kobo, m);
    }
  }

  lemma TwiceAMultiple(a: int, m: int)
    requires m > 0 && a % m == 0
    ensures (2 * a) % m == 0
  {
    var q := a / m;
    assert a == q * m;
    assert 2 * a == (2 * q) * m;
    ExactMultiple(2 * q, m);
  }

  lemma ExactMultiple(q: int, m: int)
    requires m > 0
    ensures (q * m) % m == 0
  {
    var a := q * m;
    NoFraction(q - a / m, m, a % m);
  }

  lemma NoFraction(x: int, m: int, r: int)
    requires x * m == r && 0 <= r < m
    ensures r == 0
  {
    if x != 0 { LargeProduct(x, m); }
  }

  lemma LargeProduct(x: int, m: int)
    requires x != 0 && m > 0
    ensures x * m >= m || x * m <= -m
  {
    if x > 0 {
      assert (x - 1) * m >= 0;
    } else {
      assert (-x - 1) * m >= 0;
    }
  }

  /** Below 2^51 there are at least eight doublings. */
  lemma EightDoublings(kobo: int)
    requires 0 < kobo < KOBO_BOUND
    ensures Scaled(kobo) == Scaled(256 * kobo)
  {
    assert Scaled(kobo) == Scaled(2 * kobo) == Scaled(4 * kobo);
    assert Scaled(4 * kobo) == Scaled(8 * kobo) == Scaled(16 * kobo);
    assert Scaled(16 * kobo) == Scaled(32 * kobo) == Scaled(64 * kobo);
    assert Scaled(64 * kobo) == Scaled(128 * kobo) == Scaled(256 * kobo);
  }

  lemma ScaledIsMultiple(kobo: int)
    requires 0 < kobo < KOBO_BOUND
    ensures Scaled(kobo) % 256 == 0
  {
    EightDoublings(kobo);
    MultiplesStay(256 * kobo, 256);
  }

  /** n hundredths rounded to a whole, for an n that is never half-way. */
  function Hundredth(n: int): int { if n % 100 < 50 then n / 100 else n / 100 + 1 }

  lemma HundredthIsRounded(n: int)
    requires n % 4 == 0
    ensures RoundEven(n as real / 100.0) == Hundredth(n)
  {
    var q, m := n / 100, n % 100;
    assert m != 50;
    assert n as real / 100.0 == q as real + m as real / 100.0;
    assert (n as real / 100.0).Floor == q;
  }

  lemma HundredthFits(n: int)
    requires HUNDRED52 <= n < 2 * HUNDRED52
    ensures TWO52 as real <= n as real / 100.0 < TWO53 as real
  {}

  lemma MultipleOfFour(n: int)
    requires n % 256 == 0
    ensures n % 4 == 0
  {}

  /** A hundredth of n last places, rounded. */
  lemma HundredthOfPlaces(n: int, e: int)
    requires HUNDRED52 <= n < 2 * HUNDRED52 && n % 4 == 0
    ensures Scale(n as real, Power2(e)) / 100.0 > 0.0
    ensures Round(Scale(n as real, Power2(e)) / 100.0) == Scale(Hundredth(n) as real, Power2(e))
  {
    HundredthScaled(n as real, Power2(e));
    HundredthFits(n);
    ScalePositive(n as real / 100.0, Power2(e));
    RoundOf(Scale(n as real / 100.0, Power2(e)), n as real / 100.0, e);
    HundredthIsRounded(n);
  }

  lemma HundredthScaled(n: real, u: real)
    ensures Scale(n, u) / 100.0 == Scale(n / 100.0, u)
  {}

  /** The last place of the product by 100, in units of the scaled amount. */
  function Place(n: int): int { if n < TWO59 then 64 else 128 }

  function PlaceBits(n: int): int { if n < TWO59 then 6 else 7 }

  lemma SixSteps(e: int)
    ensures Power2(e + 6) == 64.0 * Power2(e) && Power2(e + 7) == 128.0 * Power2(e)
  {
    PowerStep(e); PowerStep(e + 1); PowerStep(e + 2); PowerStep(e + 3);
    PowerStep(e + 4); PowerStep(e + 5); PowerStep(e + 6);
  }

  lemma PlaceFits(n: int)
    requires HUNDRED52 <= n < 2 * HUNDRED52 && n % 256 == 0
    ensures TWO52 * Place(n) <= 100 * Hundredth(n) < TWO53 * Place(n)
  {
    assert TWO59 % 100 == 88;
  }

  lemma Rescaled(a: real, h: real, u: real)
    requires h > 0.0
    ensures Scale(a, u) == Scale(a / h, h * u)
  {
    assert a / h * h == a;
    assert a / h * (h * u) == (a / h * h) * u;
  }

  /** A hundred times a number of last places, rounded. */
  lemma HundredTimesRounded(q: int, h: int, bits: int, e: int)
    requires (h == 64 && bits == 6) || (h == 128 && bits == 7)
    requires TWO52 * h <= 100 * q < TWO53 * h
    ensures Scale(q as real, Power2(e)) > 0.0
    ensures Round(Scale(q as real, Power2(e)) * 100.0)
      == Scale(RoundEven((100 * q) as real / h as real) as real, Power2(bits + e))
  {
    var a, u := (100 * q) as real, Power2(e);
    HundredTimes(q, u);
    SixSteps(e);
    Rescaled(a, h as real, u);
    PlaceQuotient(100 * q, h);
    ScalePositive(a, u);
    ScalePositive(q as real, u);
    RoundOf(Scale(a, u), a / h as real, bits + e);
  }

  /** Taking a hundredth and a hundred times it, rounded both times, against the
      number itself, in last places of the product. */
  lemma ThereAndBack(n: int, e: int)
    requires HUNDRED52 <= n < 2 * HUNDRED52 && n % 256 == 0
    ensures var x := Scale(n as real, Power2(e));
      && x > 0.0 && Round(x / 100.0) >= 0.0
      && Round(Round(x / 100.0) * 100.0)
         == Scale(RoundEven((100 * Hundredth(n)) as real / Place(n) as real) as real, Power2(PlaceBits(n) + e))
      && x == Scale((n / Place(n)) as real, Power2(PlaceBits(n) + e))
  {
    MultipleOfFour(n);
    HundredthOfPlaces(n, e);
    PlaceFits(n);
    HundredTimesRounded(Hundredth(n), Place(n), PlaceBits(n), e);
    InPlaces(n, e);
  }

  lemma InPlaces(n: int, e: int)
    requires n > 0 && n % 256 == 0
    ensures Scale(n as real, Power2(e)) > 0.0
    ensures Scale(n as real, Power2(e)) == Scale((n / Place(n)) as real, Power2(PlaceBits(n) + e))
  {
    WholePlaces(n);
    WholeQuotient(n / Place(n), Place(n));
    SixSteps(e);
    Rescaled(n as real, Place(n) as real, Power2(e));
    ScalePositive(n as real, Power2(e));
  }

  lemma HundredTimes(q: int, u: real)
    ensures Scale(q as real, u) * 100.0 == Scale((100 * q) as real, u)
  {}

  lemma ScalePositive(a: real, u: real)
    requires a > 0.0 && u > 0.0
    ensures Scale(a, u) > 0.0
  {}

  lemma PlaceQuotient(a: int, h: int)
    requires h == 64 || h == 128
    requires TWO52 * h <= a < TWO53 * h
    ensures TWO52 as real <= a as real / h as real < TWO53 as real
  {}

  lemma WholePlaces(n: int)
    requires n % 256 == 0
    ensures n == (n / Place(n)) * Place(n) && (n / Place(n)) % 2 == 0
  {
    assert n == 256 * (n / 256);
    assert n / 64 == 4 * (n / 256) && n / 128 == 2 * (n / 256);
  }

  /** In whole places: the rounded product falls short exactly when more than half a
      place is cut off. */
  lemma ShortInPlaces(n: int)
    requires HUNDRED52 <= n < 2 * HUNDRED52 && n % 256 == 0
    ensures RoundEven((100 * Hundredth(n)) as real / Place(n) as real) < n / Place(n)
      <==> n < TWO59 && 33 <= n % 100 <= 49
  {
    var h, m := Place(n), n % 100;
    var k := n / h;
    WholePlaces(n);
    if m < 50 {
      assert 100 * Hundredth(n) == k * h - m;
      RoundBelow(k, m, h);
    } else {
      assert 100 * Hundredth(n) == k * h + (100 - m);
      RoundAbove(k, 100 - m, h);
    }
  }

  lemma RoundBelow(k: int, m: int, h: int)
    requires (h == 64 || h == 128) && k % 2 == 0 && 0 <= m < 50
    ensures RoundEven((k * h - m) as real / h as real) == if 2 * m > h then k - 1 else k
  {
    var y := (k * h - m) as real / h as real;
    assert y == k as real - m as real / h as real;
    assert y.Floor == if m == 0 then k else k - 1;
  }

  lemma RoundAbove(k: int, m: int, h: int)
    requires (h == 64 || h == 128) && 0 <= m <= 50
    ensures RoundEven((k * h + m) as real / h as real) >= k
  {
    var y := (k * h + m) as real / h as real;
    assert y == k as real + m as real / h as real;
    assert y.Floor == k;
  }

  lemma WholeQuotient(k: int, h: int)
    requires h > 0
    ensures (k * h) as real / h as real == k as real
  {
    assert (k * h) as real == k as real * h as real;
  }

  lemma ScaleCompare(a: int, b: int, u: real)
    requires u > 0.0
    ensures Scale(a as real, u) < Scale(b as real, u) <==> a < b
  {
    if a < b {
      assert (b - a) as real * u > 0.0;
    } else {
      Widen(b as real, a as real, u);
    }
  }

  /** The product by 100 falls short of the whole kobo exactly for these amounts. */
  lemma ProductFallsShortExactlyWhen(kobo: int)
    requires 0 < kobo < KOBO_BOUND
    ensures Round(kobo as real / 100.0) >= 0.0
    ensures Round(Round(kobo as real / 100.0) * 100.0) < kobo as real <==> LosesAKobo(kobo)
  {
    var n, e := Scaled(kobo), -Doublings(kobo);
    ScaledIs(kobo);
    ScaledIsMultiple(kobo);
    ThereAndBack(n, e);
    ShortInPlaces(n);
    ScaleCompare(RoundEven((100 * Hundredth(n)) as real / Place(n) as real), n / Place(n), Power2(PlaceBits(n) + e));
  }

  /** Money text round trip: for every amount below 2^51 kobo the rounding readers
      return what was sent, and the truncating readers that or one kobo less, less
      exactly for the amounts LosesAKobo names. */
  lemma MoneyRoundTrip(kobo: int)
    requires 0 <= kobo < KOBO_BOUND
    ensures TwoPlaces(WireText(kobo))
    ensures var v := ReadFloat(ReadHundredths(WireText(kobo)));
      && v >= 0.0
      && RoundingReader(v) == kobo
      && TruncatingReader(v) == if LosesAKobo(kobo) then kobo - 1 else kobo
  {
    HundredthsAreExact(kobo);
    WireTextReadsBack(kobo);
    if kobo > 0 {
      ReadBackIsClose(kobo);
      ProductFallsShortExactlyWhen(kobo);
    }
  }

  /** Amounts in quarters of a naira never lose. */
  lemma QuarterNairaIsSafe(kobo: int)
    requires 0 <= kobo < KOBO_BOUND && kobo % 25 == 0
    ensures !LosesAKobo(kobo)
    ensures TruncatingReader(ReadFloat(kobo)) == kobo
  {
    if kobo > 0 {
      EightDoublings(kobo);
      assert 256 * kobo == 6400 * (kobo / 25);
      ExactMultiple(64 * (kobo / 25), 100);
      MultiplesStay(256 * kobo, 100);
    }
    MoneyRoundTrip(kobo);
    WireTextReadsBack(kobo);
  }

  lemma SmallPowers()
    ensures Power2(-48) == 1.0 / 281474976710656.0
    ensures Power2(-54) == 1.0 / 18014398509481984.0
  {
    assert Power2(-6) == 1.0 / 64.0;
    PowerNegSum(6, 6);
    PowerNegSum(12, 12);
    PowerNegSum(24, 24);
    PowerNegSum(48, 6);
  }

  lemma {:induction false} PowerNegSum(a: int, n: int)
    requires a >= 0 && n >= 0
    ensures Power2(-(a + n)) == Power2(-a) * Power2(-n)
  {
    if n > 0 {
      PowerNegSum(a, n - 1);
      assert Power2(-(a + n)) == Power2(-(a + n - 1)) / 2.0;
      assert Power2(-n) == Power2(-(n - 1)) / 2.0;
    }
  }

  /** The truncating readers do lose a kobo: 29 kobo comes back as 28. */
  lemma TruncationLosesAKobo()
    ensures ReadFloat(29) >= 0.0
    ensures TruncatingReader(ReadFloat(29)) == 28 && RoundingReader(ReadFloat(29)) == 29
  {
    WireTextReadsBack(29);
    HundredthsAreExact(29);
    SmallPowers();
    ExponentIs(29.0 / 100.0, 29.0 / 100.0 * 18014398509481984.0, -54);
    assert RoundEven(29.0 / 100.0 * 18014398509481984.0) == 5224175567749775;
    var v := ReadFloat(29);
    assert v == 5224175567749775.0 / 18014398509481984.0;
    ExponentIs(v * 100.0, v * 100.0 * 281474976710656.0, -48);
    assert RoundEven(v * 100.0 * 281474976710656.0) == 8162774324609023;
    assert Round(v * 100.0) == 8162774324609023.0 / 281474976710656.0;
    MoneyRoundTrip(29);
  }
}
