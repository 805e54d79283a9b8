/** Money: decimals kept at four places.  Its arithmetic is integer arithmetic on 0.0001
    units, and its printed form reads back as the same amount. */
module Money {
  import opened Base
  import opened Numerals
  import D = Decimals

  datatype Money = Money(d: Decimal)

  /** What the package hands out: scale four, or the zero value of the struct. */
  predicate Valid(m: Money) {
    m.d.exp == -4 || m.d == D.Decimal(0, 0)
  }

  /** The amount as a whole number of 0.0001 units. */
  function Count(m: Money): int {
    if m.d.exp == -4 then m.d.value else 0
  }

  // ---------- The package's operations ----------

  function NewFromDecimal(d: Decimal): Money { Money(D.Round(d)) }

  function FromInt(n: int): Money { Money(D.Round(D.Decimal(n, 0))) }

  function Zero(): Money { Money(D.Round(D.Decimal(0, 0))) }

  function Add(m: Money, n: Money): Money { Money(D.Round(D.Add(m.d, n.d))) }

  function Sub(m: Money, n: Money): Money { Money(D.Round(D.Sub(m.d, n.d))) }

  function Neg(m: Money): Money { Money(D.Round(D.Neg(m.d))) }

  predicate IsPositive(m: Money) { m.d.value > 0 }

  predicate IsZero(m: Money) { m.d.value == 0 }

  predicate LessThan(m: Money, n: Money) { D.Cmp(m.d, n.d) == -1 }

  predicate Equal(m: Money, n: Money) { D.Cmp(m.d, n.d) == 0 }

  // ---------- Isomorphism with the integers ----------

  lemma RoundZero()
    ensures D.Round(D.Decimal(0, 0)) == D.Decimal(0, -4)
  {
  }

  /** A valid Money rescaled to four places is its count. */
  lemma Rescaled(m: Money)
    requires Valid(m)
    ensures D.Rescale(m.d, -4) == D.Decimal(Count(m), -4)
  {
  }

  lemma SumOfValid(m: Money, n: Money)
    requires Valid(m) && Valid(n)
    ensures D.Round(D.Add(m.d, n.d)) == D.Decimal(Count(m) + Count(n), -4)
    ensures D.Round(D.Sub(m.d, n.d)) == D.Decimal(Count(m) - Count(n), -4)
    ensures D.Sub(m.d, n.d).value == Count(m) - Count(n)
  {
    Rescaled(m);
    Rescaled(n);
    RoundZero();
    if m.d.exp == -4 || n.d.exp == -4 {
      assert D.Add(m.d, n.d) == D.Decimal(Count(m) + Count(n), -4);
      assert D.Sub(m.d, n.d) == D.Decimal(Count(m) - Count(n), -4);
    } else {
      assert D.Add(m.d, n.d) == D.Decimal(0, 0) && D.Sub(m.d, n.d) == D.Decimal(0, 0);
    }
  }

  lemma NegOfValid(m: Money)
    requires Valid(m)
    ensures D.Round(D.Neg(m.d)) == D.Decimal(-Count(m), -4)
  {
    RoundZero();
  }

  /** On four-place values the rounding inside Add never changes the sum. */
  lemma AddIsInteger(m: Money, n: Money)
    requires Valid(m) && Valid(n)
    ensures Add(m, n) == Money(D.Decimal(Count(m) + Count(n), -4))
  {
    SumOfValid(m, n);
  }

  /** Nor inside Sub the difference. */
  lemma SubIsInteger(m: Money, n: Money)
    requires Valid(m) && Valid(n)
    ensures Sub(m, n) == Money(D.Decimal(Count(m) - Count(n), -4))
  {
    SumOfValid(m, n);
  }

  /** Nor inside Neg the negation. */
  lemma NegIsInteger(m: Money)
    requires Valid(m)
    ensures Neg(m) == Money(D.Decimal(-Count(m), -4))
  {
    NegOfValid(m);
  }

  /** Money is ordered as its counts are, and a positive amount is at least one unit. */
  lemma MoneyIsOrdered(m: Money, n: Money)
    requires Valid(m) && Valid(n)
    ensures LessThan(m, n) <==> Count(m) < Count(n)
    ensures Equal(m, n) <==> Count(m) == Count(n)
    ensures IsPositive(m) <==> Count(m) >= 1
    ensures IsZero(m) <==> Count(m) == 0
  {
    SumOfValid(m, n);
  }

  /** Every constructor yields a valid Money, the nearest to what it was given, and an
      integer is taken over exactly. */
  lemma Constructors(d: Decimal, n: int, s: string)
    ensures Valid(Zero()) && Count(Zero()) == 0
    ensures FromString(s).Some? <==> NewFromString(s).Some?
    ensures FromString(s).Some? ==>
              && Valid(FromString(s).value)
              && Count(FromString(s).value) == D.HalfAway(D.Units(NewFromString(s).value))
    ensures Valid(NewFromDecimal(d)) && Count(NewFromDecimal(d)) == D.HalfAway(D.Units(d))
    ensures Valid(FromInt(n)) && Count(FromInt(n)) == 10000 * n
  {
    D.RoundIsNearest(d);
    IntegersExactly(n);
    RoundZero();
    if NewFromString(s).Some? { D.RoundIsNearest(NewFromString(s).value); }
  }

  lemma IntegersExactly(n: int)
    ensures FromInt(n) == Money(D.Decimal(10000 * n, -4))
  {
    D.RoundIsNearest(D.Decimal(n, 0));
    assert D.Pow10(4) == 10 * D.Pow10(3) && D.Pow10(3) == 10 * D.Pow10(2) && D.Pow10(2) == 10 * D.Pow10(1)
           && D.Pow10(1) == 10 * D.Pow10(0);
    assert D.Units(D.Decimal(n, 0)) == (10000 * n) as real;
    D.HalfAwayInt(10000 * n);
  }

  // ---------- Text ----------

  function Abs(n: int): nat { if n < 0 then -n else n }

  /** Digits split before the last four, padded with zeros to five. */
  function Fixed(n: nat): string {
    var str := Digits(n);
    if |str| > 4 then str[..|str| - 4] + "." + str[|str| - 4..]
    else "0" + "." + (Zeros(4 - |str|) + str)
  }

  /** StringFixed(4). */
  function String(m: Money): string {
    var v := D.Round(m.d).value;
    if v < 0 then "-" + Fixed(Abs(v)) else Fixed(Abs(v))
  }

  /** money.FromString. */
  function FromString(s: string): Option<Money> {
    match NewFromString(s)
    case None => None
    case Some(d) => Some(Money(D.Round(d)))
  }

  // ---------- Printing and parsing ----------

  /** The printed magnitude is some digits, a point, and four digits, which together spell it. */
  lemma FixedShape(n: nat) returns (whole: string, frac: string)
    ensures Fixed(n) == whole + "." + frac && |whole| >= 1 && |frac| == 4
    ensures AllDigits(whole) && AllDigits(frac) && AllDigits(whole + frac) && FromDigits(whole + frac) == n
  {
    var str := Digits(n);
    DigitsRead(n);
    if |str| > 4 {
      whole, frac := str[..|str| - 4], str[|str| - 4..];
      assert whole + frac == str;
    } else {
      whole, frac := "0", Zeros(4 - |str|) + str;
      LeadingZeros(4 - |str|, str);
      LeadingZeros(1, frac);
      assert Zeros(1) == "0" by { assert Zeros(0) == ""; }
    }
  }

  function SignText(n: int): string { if n < 0 then "-" else "" }

  lemma StringShape(m: Money)
    requires Valid(m)
    ensures String(m) == SignText(Count(m)) + Fixed(Abs(Count(m)))
  {
    RoundZero();
    assert D.Round(m.d).value == Count(m);
    assert "" + Fixed(Abs(Count(m))) == Fixed(Abs(Count(m)));
  }

  lemma CountReadsBack(n: int)
    ensures NewFromString(SignText(n) + Fixed(Abs(n))) == Some(D.Decimal(n, -4))
  {
    var whole, frac := FixedShape(Abs(n));
    PrintedReads(SignText(n), whole, frac, SignText(n) + Fixed(Abs(n)), n);
  }

  lemma PrintedReads(sign: string, whole: string, frac: string, s: string, n: int)
    requires IsSign(sign) && |frac| == 4 && IsNumber(whole + frac) && s == sign + (whole + "." + frac)
    requires n == WithSign(sign, FromDigits(whole + frac))
    ensures NewFromString(s) == Some(D.Decimal(n, -4))
  {
    DigitsArePositional(whole + frac);
    assert s == sign + whole + "." + frac;
    DecimalReads(sign, whole, frac, s);
  }

  lemma RoundAtScale(n: int)
    ensures D.Round(D.Decimal(n, -4)) == D.Decimal(n, -4)
  {
  }

  /** Round trip: every Money prints as a string that parses to the same amount, negative
      ones and those below one included. */
  lemma PrintParse(m: Money)
    requires Valid(m)
    ensures FromString(String(m)) == Some(Money(D.Decimal(Count(m), -4)))
    ensures m.d.exp == -4 ==> FromString(String(m)) == Some(m)
  {
    StringShape(m);
    CountReadsBack(Count(m));
    RoundAtScale(Count(m));
    FromStringIs(String(m), D.Decimal(Count(m), -4));
  }

  lemma FromStringIs(s: string, d: Decimal)
    requires NewFromString(s) == Some(d)
    ensures FromString(s) == Some(Money(D.Round(d)))
  {
  }

  // ---------- Which text is which amount ----------

  /** A text with a sign, digits, a point and at most four digits is exactly that many units:
      the signed sum of its digits in their places, times ten for every place left over. */
  lemma TextExactly(sign: string, whole: string, frac: string, s: string)
    requires IsSign(sign) && IsNumber(whole + frac) && |frac| <= 4 && s == sign + whole + "." + frac
    ensures FromString(s).Some? && Valid(FromString(s).value)
    ensures Count(FromString(s).value) == WithSign(sign, Positional(whole + frac)) * D.Pow10(4 - |frac|)
  {
    var v := WithSign(sign, Positional(whole + frac));
    DecimalReads(sign, whole, frac, s);
    FromStringIs(s, D.Decimal(v, -|frac|));
    WholeUnits(v, |frac|);
  }

  lemma WholeUnits(v: int, places: int)
    requires 0 <= places <= 4
    ensures D.Round(D.Decimal(v, -places)) == D.Decimal(v * D.Pow10(4 - places), -4)
  {
    D.RoundIsNearest(D.Decimal(v, -places));
    assert D.Units(D.Decimal(v, -places)) == (v * D.Pow10(4 - places)) as real;
    D.HalfAwayInt(v * D.Pow10(4 - places));
  }

  /** With more digits it is the nearest amount, halves away from zero. */
  lemma TextNearest(sign: string, whole: string, frac: string, s: string)
    requires IsSign(sign) && IsNumber(whole + frac) && |frac| <= 0x8000_0000 && s == sign + whole + "." + frac
    ensures FromString(s).Some? && Valid(FromString(s).value)
    ensures Count(FromString(s).value) ==
            D.HalfAway(D.Units(D.Decimal(WithSign(sign, Positional(whole + frac)), -|frac|)))
  {
    DecimalReads(sign, whole, frac, s);
    ReadNearest(s, D.Decimal(WithSign(sign, Positional(whole + frac)), -|frac|));
  }

  lemma ReadNearest(s: string, d: Decimal)
    requires NewFromString(s) == Some(d)
    ensures FromString(s).Some? && Valid(FromString(s).value) && Count(FromString(s).value) == D.HalfAway(D.Units(d))
  {
    D.RoundIsNearest(d);
  }

  // ---------- The column ----------

  /** NUMERIC(20,4): an amount fits if and only if its four-place text has at most sixteen
      digits before the point. */
  lemma FitsExactly(units: int)
    ensures Fits(units) <==> IndexAny(Fixed(Abs(units)), ".") <= 16
  {
    var whole, frac := FixedShape(Abs(units));
    var s := Fixed(Abs(units));
    assert forall i :: 0 <= i < |whole| ==> s[i] == whole[i];
    IndexOfFirst(s, ".", |whole|);
    DigitsFit(Abs(units), 20);
    TenToTwenty();
  }

  lemma TenToTwenty()
    ensures D.Pow10(20) == LIMIT
  {
    assert D.Pow10(5) == 100000 by {
      assert D.Pow10(1) == 10 && D.Pow10(2) == 100 && D.Pow10(3) == 1000 && D.Pow10(4) == 10000;
    }
    assert D.Pow10(10) == 10_000_000_000 by {
      assert D.Pow10(6) == 1_000_000 && D.Pow10(7) == 10_000_000 && D.Pow10(8) == 100_000_000
             && D.Pow10(9) == 1_000_000_000;
    }
    assert D.Pow10(15) == 1_000_000_000_000_000 by {
      assert D.Pow10(11) == 100_000_000_000 && D.Pow10(12) == 1_000_000_000_000 && D.Pow10(13) == 10_000_000_000_000
             && D.Pow10(14) == 100_000_000_000_000;
    }
    assert D.Pow10(16) == 10_000_000_000_000_000 && D.Pow10(17) == 100_000_000_000_000_000
           && D.Pow10(18) == 1_000_000_000_000_000_000 && D.Pow10(19) == 10_000_000_000_000_000_000;
  }

  // ---------- JSON ----------

  function MarshalJSON(m: Money): string { "\"" + String(m) + "\"" }

  /** The text without one pair of surrounding quotes, if it has one. */
  function Unquoted(b: string): string {
    if |b| >= 2 && b[0] == '"' && b[|b| - 1] == '"' then b[1..|b| - 1] else b
  }

  /** A field that UnmarshalJSON assigns through its receiver. */
  class Field {
    var money: Money

    constructor ()
      ensures Count(money) == 0 && Valid(money)
    {
      money := Money(D.Decimal(0, 0));
    }

    method UnmarshalJSON(b: string) returns (ok: bool)
      modifies this
      ensures ok == FromString(Unquoted(b)).Some?
      ensures money == if ok then FromString(Unquoted(b)).value else old(money)
    {
      var s := b;
      if |s| >= 2 && s[0] == '"' && s[|s| - 1] == '"' {
        s := s[1..|s| - 1];
      }
      var parsed := FromString(s);
      ok := parsed.Some?;
      if ok { money := parsed.value; }
    }
  }

  /** UnmarshalJSON undoes MarshalJSON. */
  lemma JsonRoundTrip(m: Money)
    requires Valid(m)
    ensures FromString(Unquoted(MarshalJSON(m))) == Some(Money(D.Decimal(Count(m), -4)))
  {
    PrintParse(m);
    assert Unquoted(MarshalJSON(m)) == String(m);
  }
}
