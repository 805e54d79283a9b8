/** The arbitrary-precision decimals under Money: value * 10^exp, with rounding to four
    places as the library performs it and as the mathematics defines it. */
module Decimals {

  datatype Decimal = Decimal(value: int, exp: int)

  function Pow10(n: nat): (r: nat)
    ensures r > 0
  {
    if n == 0 then 1 else 10 * Pow10(n - 1)
  }

  /** big.Int.Quo: truncates toward zero. */
  function Quo(a: int, b: int): int
    requires b > 0
  {
    if a >= 0 then a / b else -(-a / b)
  }

  function Rescale(d: Decimal, exp: int): Decimal {
    if exp == d.exp then d
    else if exp > d.exp then Decimal(Quo(d.value, Pow10(exp - d.exp)), exp)
    else Decimal(d.value * Pow10(d.exp - exp), exp)
  }

  const PLACES: int := 4

  /** Decimal.Round(4): truncate to five places, add half a unit away from zero, drop a digit. */
  function Round(d: Decimal): Decimal {
    if d.exp == -PLACES then d
    else
      Decimal(DropDigit(Rescale(d, -PLACES - 1).value), -PLACES)
  }

  /** Add half a unit away from zero, then DivMod by ten and step back toward zero. */
  function DropDigit(t: int): int {
    var v := if t < 0 then t - 5 else t + 5;
    var q := v / 10;
    if q < 0 && v % 10 != 0 then q + 1 else q
  }

  function Add(d: Decimal, e: Decimal): Decimal {
    var low := if d.exp < e.exp then d.exp else e.exp;
    Decimal(Rescale(d, low).value + Rescale(e, low).value, low)
  }

  function Sub(d: Decimal, e: Decimal): Decimal {
    var low := if d.exp < e.exp then d.exp else e.exp;
    Decimal(Rescale(d, low).value - Rescale(e, low).value, low)
  }

  function Neg(d: Decimal): Decimal {
    Decimal(-d.value, d.exp)
  }

  /** -1, 0 or 1, after rescaling to the smaller exponent. */
  function Cmp(d: Decimal, e: Decimal): int {
    var v := Sub(d, e).value;
    if v < 0 then -1 else if v > 0 then 1 else 0
  }

  // ---------- Meaning ----------

  /** 10^n as a real, for any integer n. */
  function Scale(n: int): real {
    if n >= 0 then Pow10(n) as real else 1.0 / Pow10(-n) as real
  }

  /** The number a decimal denotes, counted in units of 0.0001. */
  function Units(d: Decimal): real {
    d.value as real * Scale(d.exp + PLACES)
  }

  /** Nearest integer, halves away from zero. */
  function HalfAway(x: real): int {
    if x >= 0.0 then (x + 0.5).Floor else -((-x + 0.5).Floor)
  }

  /** In integers: the value times a power of ten, or a number that many times smaller. */
  lemma UnitsExactly(v: int, exp: int)
    ensures exp >= -4 ==> Units(Decimal(v, exp)) == (v * Pow10(exp + 4)) as real
    ensures exp < -4 ==> Units(Decimal(v, exp)) * Pow10(-4 - exp) as real == v as real
  {
  }

  // ---------- Rounding is what the mathematics says ----------

  lemma HalfAwayLaws(x: real, y: real)
    ensures -0.5 <= HalfAway(x) as real - x <= 0.5
    ensures HalfAway(-x) == -HalfAway(x)
    ensures x <= y ==> HalfAway(x) <= HalfAway(y)
  {
  }

  lemma HalfAwayInt(n: int)
    ensures HalfAway(n as real) == n
  {
  }

  lemma {:induction false} FloorDiv(a: nat, b: nat)
    requires b > 0
    ensures (a as real / b as real).Floor == a / b
  {
    var q, r := a / b, a % b;
    assert a == b * q + r;
    var x := a as real / b as real;
    assert x * b as real == a as real;
    assert (q * b) as real == q as real * b as real;
    assert a as real == q as real * b as real + r as real;
    assert (x - q as real) * b as real == r as real;
    Between(x - q as real, b as real, r as real);
  }

  lemma Between(x: real, b: real, r: real)
    requires x * b == r && 0.0 <= r < b
    ensures 0.0 <= x < 1.0
  {
    assert x < 0.0 ==> x * b < 0.0;
    assert x >= 1.0 ==> x * b >= b;
  }

  /** Dropping digits in two stages, with the half added in between, is dropping them at once. */
  lemma NestedHalf(a: nat, p: nat)
    requires p > 0
    ensures (a / p + 5) / 10 == (a + 5 * p) / (10 * p)
  {
    var q, r := a / p, a % p;
    assert a == p * q + r;
    var n, m := (q + 5) / 10, (q + 5) % 10;
    assert q + 5 == 10 * n + m;
    NestedSum(p, q, r, n, m);
    DivUnique(a + 5 * p, 10 * p, n, m * p + r);
  }

  lemma NestedSum(p: int, q: int, r: int, n: int, m: int)
    requires p > 0 && 0 <= r < p && 0 <= m < 10 && q == 10 * n + m - 5
    ensures p * q + r + 5 * p == (10 * p) * n + (m * p + r)
    ensures 0 <= m * p + r < 10 * p
  {
    assert p * q == p * (10 * n) + p * m - p * 5;
    assert 0 <= m * p <= 9 * p;
  }

  lemma DivUnique(a: int, b: int, q: int, r: int)
    requires b > 0 && a == b * q + r && 0 <= r < b
    ensures a / b == q
  {
    var d := a / b - q;
    assert a == b * (a / b) + a % b;
    assert b * d == r - a % b;
    assert d >= 1 ==> b * d >= b;
    assert d <= -1 ==> b * d <= -b;
  }

  /** The library's DivMod-and-adjust is truncation. */
  lemma NegDiv(w: int)
    requires w > 0
    ensures var q := -w / 10; (if q < 0 && -w % 10 != 0 then q + 1 else q) == -(w / 10)
  {
  }

  lemma ShiftHalf(a: real, p: real)
    requires p > 0.0 && a >= 0.0
    ensures (a + 5.0 * p) / (10.0 * p) == a / (10.0 * p) + 0.5
    ensures a / (10.0 * p) >= 0.0
  {
    var b := 10.0 * p;
    var x := a / b;
    assert x * b == a;
    assert x < 0.0 ==> x * b < 0.0;
    assert (x + 0.5) * b == a + 5.0 * p;
    Quotient(a + 5.0 * p, b, x + 0.5);
  }

  lemma Quotient(u: real, b: real, z: real)
    requires b > 0.0 && z * b == u
    ensures u / b == z
  {
    assert (u / b - z) * b == 0.0;
  }

  lemma HalfAwayQuotient(a: nat, p: nat)
    requires p > 0
    ensures HalfAway(a as real / (10 * p) as real) == (a / p + 5) / 10
  {
    NestedHalf(a, p);
    FloorDiv(a + 5 * p, 10 * p);
    ShiftHalf(a as real, p as real);
    assert (10 * p) as real == 10.0 * p as real;
    assert (a + 5 * p) as real == a as real + 5.0 * p as real;
  }

  lemma DropDigitTruncates(t: int)
    ensures DropDigit(t) == if t < 0 then -((-t + 5) / 10) else (t + 5) / 10
  {
    if t < 0 { NegDiv(-t + 5); }
  }

  lemma DropDigitSigned(t: int, q: int, negative: bool)
    requires q >= 0 && t == (if negative then -q else q)
    ensures DropDigit(t) == if negative then -((q + 5) / 10) else (q + 5) / 10
  {
    DropDigitTruncates(t);
  }

  lemma RescaleFine(d: Decimal, p: nat)
    requires d.exp < -PLACES && p == Pow10(-d.exp - PLACES - 1)
    ensures p > 0 && Rescale(d, -PLACES - 1).value == Quo(d.value, p)
  {
    if d.exp == -PLACES - 1 { assert p == 1; }
  }

  lemma QuotientNat(a: int, p: int)
    requires a >= 0 && p > 0
    ensures a / p >= 0
  {
    var q := a / p;
    assert a == p * q + a % p;
    assert q <= -1 ==> p * q <= -p;
  }

  lemma RoundFineValue(d: Decimal, a: nat, p: nat)
    requires d.exp < -PLACES && p == Pow10(-d.exp - PLACES - 1) && a == (if d.value < 0 then -d.value else d.value)
    ensures Round(d) == Decimal(if d.value < 0 then -((a / p + 5) / 10) else (a / p + 5) / 10, -PLACES)
  {
    RescaleFine(d, p);
    QuotientNat(a, p);
    DropDigitSigned(Quo(d.value, p), a / p, d.value < 0);
  }

  lemma FineUnits(d: Decimal, a: nat, p: nat)
    requires d.exp < -PLACES && p == Pow10(-d.exp - PLACES - 1) && a == (if d.value < 0 then -d.value else d.value)
    ensures Units(d) == if d.value < 0 then -(a as real / (10 * p) as real) else a as real / (10 * p) as real
  {
    assert Pow10(-d.exp - PLACES) == 10 * p;
    ByInverse(a as real, (10 * p) as real);
  }

  lemma ByInverse(a: real, b: real)
    requires b > 0.0
    ensures a * (1.0 / b) == a / b
    ensures (-a) * (1.0 / b) == -(a / b)
  {
  }

  lemma RoundFine(d: Decimal)
    requires d.exp < -PLACES
    ensures Round(d) == Decimal(HalfAway(Units(d)), -PLACES)
  {
    var p := Pow10(-d.exp - PLACES - 1);
    var a := if d.value < 0 then -d.value else d.value;
    RoundFineValue(d, a, p);
    FineUnits(d, a, p);
    HalfAwayQuotient(a, p);
    var x := a as real / (10 * p) as real;
    HalfAwayLaws(x, x);
  }

  lemma RoundCoarse(d: Decimal)
    requires d.exp > -PLACES
    ensures Round(d) == Decimal(HalfAway(Units(d)), -PLACES)
  {
    var k := d.exp + PLACES;
    var n := d.value * Pow10(k);
    assert Pow10(k + 1) == 10 * Pow10(k);
    assert Rescale(d, -PLACES - 1).value == 10 * n;
    assert Units(d) == n as real;
    HalfAwayInt(n);
  }

  /** Rounding yields the nearest number of units, halves away from zero, at scale four. */
  lemma RoundIsNearest(d: Decimal)
    ensures Round(d) == Decimal(HalfAway(Units(d)), -PLACES)
  {
    if d.exp < -PLACES {
      RoundFine(d);
    } else if d.exp > -PLACES {
      RoundCoarse(d);
    } else {
      HalfAwayInt(d.value);
      assert Units(d) == d.value as real;
    }
  }

  lemma NegUnits(d: Decimal)
    ensures Units(Neg(d)) == -Units(d)
  {
    NegTimes(d.value as real, Scale(d.exp + PLACES));
  }

  lemma NegTimes(a: real, b: real)
    ensures (-a) * b == -(a * b)
  {
  }

  /** Rounding is within half a unit, monotone, sign-symmetric and idempotent. */
  lemma RoundLaws(d: Decimal, e: Decimal)
    ensures -0.5 <= Round(d).value as real - Units(d) <= 0.5
    ensures Units(d) <= Units(e) ==> Round(d).value <= Round(e).value
    ensures Round(Neg(d)) == Neg(Round(d))
    ensures Round(Round(d)) == Round(d)
  {
    var x, y := Units(d), Units(e);
    RoundIsNearest(d);
    RoundIsNearest(e);
    RoundIsNearest(Neg(d));
    NegUnits(d);
    HalfAwayLaws(x, y);
  }
}
