/** Numbers as text: what strconv.ParseInt and decimal.NewFromString read, and exactly which
    texts they accept. */
module Numerals {
  import opened Base
  import D = Decimals

  type Decimal = D.Decimal

  // ---------- Printing and reading ----------

  function DigitChar(d: int): char
    requires 0 <= d < 10
  {
    (48 + d) as char
  }

  predicate IsDigit(c: char) { '0' <= c <= '9' }

  predicate DigitsFrom(s: string, i: nat) {
    forall k :: i <= k < |s| ==> IsDigit(s[k])
  }

  predicate AllDigits(s: string) { DigitsFrom(s, 0) }

  /** Decimal digits without leading zeros; "0" for zero. */
  function Digits(n: nat): (r: string)
    ensures |r| >= 1 && AllDigits(r)
  {
    if n < 10 then [DigitChar(n)] else Digits(n / 10) + [DigitChar(n % 10)]
  }

  function Zeros(n: nat): (r: string)
    ensures |r| == n && forall i :: 0 <= i < n ==> r[i] == '0'
  {
    if n == 0 then "" else Zeros(n - 1) + "0"
  }

  /** The number that digits i to k spell, read from the left. */
  function Read(s: string, i: nat, k: nat): int
    requires i <= k <= |s|
  {
    if k == i then 0 else 10 * Read(s, i, k - 1) + (s[k - 1] as int - 48)
  }

  /** The number a string of digits spells. */
  function FromDigits(s: string): int { Read(s, 0, |s|) }

  /** strconv.ParseInt and big.Int.SetString in base ten: an optional sign and digits. */
  function ParseInt(s: string): Option<int> {
    var i := if s != "" && (s[0] == '-' || s[0] == '+') then 1 else 0;
    if i == |s| || !DigitsFrom(s, i) then None
    else Some(if s[0] == '-' then -Read(s, i, |s|) else Read(s, i, |s|))
  }

  /** The first index from i on of a character of `chars`, or |s|. */
  function IndexFrom(s: string, chars: string, i: nat): (r: nat)
    requires i <= |s|
    ensures i <= r <= |s| && (r < |s| ==> s[r] in chars)
    ensures forall k :: i <= k < r ==> s[k] !in chars
    decreases |s| - i
  {
    if i == |s| || s[i] in chars then i else IndexFrom(s, chars, i + 1)
  }

  /** strings.IndexAny, with |s| for none. */
  function IndexAny(s: string, chars: string): nat { IndexFrom(s, chars, 0) }

  predicate Int32(n: int) { -0x8000_0000 <= n <= 0x7fff_ffff }

  /** The part before any exponent, and the exponent. */
  function SplitExponent(s: string): Option<(string, int)> {
    var e := IndexAny(s, "Ee");
    if e == |s| then Some((s, 0))
    else
      match ParseInt(s[e + 1..])
      case None => None
      case Some(x) => if Int32(x) then Some((s[..e], x)) else None
  }

  function ParseBody(body: string, exp: int): Option<Decimal> {
    var p := IndexAny(body, ".");
    if exists i :: p < i < |body| && body[i] == '.' then None
    else
      var digits := if p == |body| then body else body[..p] + body[p + 1..];
      var places := if p == |body| then 0 else |body| - p - 1;
      match ParseInt(digits)
      case None => None
      case Some(v) => if Int32(exp - places) then Some(D.Decimal(v, exp - places)) else None
  }

  /** decimal.NewFromString. */
  function NewFromString(s: string): Option<Decimal> {
    match SplitExponent(s)
    case None => None
    case Some((body, exp)) => ParseBody(body, exp)
  }

  // ---------- Digits in their places ----------

  /** A digit times ten, k times. */
  function InPlace(d: int, k: nat): int {
    if k == 0 then d else 10 * InPlace(d, k - 1)
  }

  /** The sum of digits i to k, each in its place. */
  function SumOf(s: string, i: nat, k: nat): int
    requires i <= k <= |s|
  {
    if k == i then 0 else SumOf(s, i, k - 1) + InPlace(s[k - 1] as int - '0' as int, |s| - k)
  }

  function Positional(s: string): int { SumOf(s, 0, |s|) }

  lemma {:induction false} InPlaceSum(d: int, e: int, k: nat)
    ensures InPlace(10 * d + e, k) == InPlace(d, k + 1) + InPlace(e, k)
  {
    if k > 0 { InPlaceSum(d, e, k - 1); }
  }

  lemma {:induction false} ReadIsSum(s: string, i: nat, k: nat)
    requires i <= k <= |s|
    ensures InPlace(Read(s, i, k), |s| - k) == SumOf(s, i, k)
  {
    if k == i {
      NothingInPlace(|s| - k);
    } else {
      ReadIsSum(s, i, k - 1);
      InPlaceSum(Read(s, i, k - 1), s[k - 1] as int - 48, |s| - k);
    }
  }

  lemma {:induction false} NothingInPlace(k: nat)
    ensures InPlace(0, k) == 0
  {
    if k > 0 { NothingInPlace(k - 1); }
  }

  lemma DigitsArePositional(s: string)
    ensures FromDigits(s) == Positional(s)
  {
    ReadIsSum(s, 0, |s|);
  }

  /** The same digits, d places further on, spell the same number. */
  lemma {:induction false} ReadShifted(s: string, t: string, d: nat, k: nat)
    requires k <= |s| && k + d <= |t| && forall i :: 0 <= i < k ==> s[i] == t[i + d]
    ensures Read(s, 0, k) == Read(t, d, k + d)
  {
    if k > 0 { ReadShifted(s, t, d, k - 1); }
  }

  lemma {:induction false} DigitsRead(n: nat)
    ensures FromDigits(Digits(n)) == n
  {
    if n >= 10 {
      var init := Digits(n / 10);
      DigitsRead(n / 10);
      ReadShifted(init, Digits(n), 0, |init|);
    } else {
      assert Read(Digits(n), 0, 0) == 0;
    }
  }

  lemma {:induction false} ReadZeros(s: string, k: nat)
    requires k <= |s| && forall i :: 0 <= i < k ==> s[i] == '0'
    ensures Read(s, 0, k) == 0
  {
    if k > 0 { ReadZeros(s, k - 1); }
  }

  /** Reading s behind k zeros reads s. */
  lemma {:induction false} ReadBehind(k: nat, s: string, t: string, j: nat)
    requires t == Zeros(k) + s && j <= |s|
    ensures Read(t, 0, k + j) == Read(s, 0, j)
  {
    if j == 0 { ReadZeros(t, k); } else { ReadBehind(k, s, t, j - 1); }
  }

  lemma LeadingZeros(k: nat, s: string)
    requires AllDigits(s)
    ensures AllDigits(Zeros(k) + s) && FromDigits(Zeros(k) + s) == FromDigits(s)
  {
    ReadBehind(k, s, Zeros(k) + s, |s|);
  }

  /** A printed number is its own digits in their places. */
  lemma DigitsSpell(n: nat)
    ensures IsNumber(Digits(n)) && Positional(Digits(n)) == n
  {
    DigitsRead(n);
    DigitsArePositional(Digits(n));
  }

  /** It has at most k digits if and only if it is below 10^k. */
  lemma {:induction false} DigitsFit(n: nat, k: nat)
    requires k >= 1
    ensures |Digits(n)| <= k <==> n < D.Pow10(k)
  {
    if k == 1 {
      assert D.Pow10(1) == 10 * D.Pow10(0);
    } else {
      TenTimesMore(k);
      if n >= 10 { DigitsFit(n / 10, k - 1); }
    }
  }

  lemma TenTimesMore(k: nat)
    requires k >= 2
    ensures D.Pow10(k) == 10 * D.Pow10(k - 1) && D.Pow10(k) >= 10
  {
  }

  // ---------- Integers ----------

  predicate IsNumber(ds: string) {
    |ds| > 0 && AllDigits(ds)
  }

  predicate IsSign(s: string) {
    |s| == 0 || (|s| == 1 && (s[0] == '+' || s[0] == '-'))
  }

  function WithSign(sign: string, n: int): int {
    if |sign| == 1 && sign[0] == '-' then -n else n
  }

  /** The length of the sign in front, if any. */
  function SignLength(s: string): nat {
    if |s| > 0 && (s[0] == '-' || s[0] == '+') then 1 else 0
  }

  /** At most one sign in front, then at least one digit, then nothing but digits. */
  predicate IsSigned(s: string) {
    SignLength(s) < |s| && DigitsFrom(s, SignLength(s))
  }

  /** The digits behind the sign in their places, with the sign. */
  function SignedValue(s: string): int {
    var n := SumOf(s, SignLength(s), |s|);
    if |s| > 0 && s[0] == '-' then -n else n
  }

  /** Exactly what ParseInt reads. */
  lemma IntReads(s: string)
    ensures ParseInt(s) == if IsSigned(s) then Some(SignedValue(s)) else None
  {
    ReadIsSum(s, SignLength(s), |s|);
  }

  lemma {:induction false} SumShifted(s: string, t: string, d: nat, k: nat)
    requires k <= |s| && |t| == |s| + d && forall i :: 0 <= i < k ==> s[i] == t[i + d]
    ensures SumOf(s, 0, k) == SumOf(t, d, k + d)
  {
    if k > 0 { SumShifted(s, t, d, k - 1); }
  }

  /** A sign and digits is signed, and its value is that of the digits with the sign. */
  lemma SignedParts(sign: string, ds: string, s: string)
    requires IsSign(sign) && IsNumber(ds) && s == sign + ds
    ensures IsSigned(s) && SignedValue(s) == WithSign(sign, Positional(ds))
  {
    assert s[|sign|] == ds[0];
    assert forall k :: |sign| <= k < |s| ==> s[k] == ds[k - |sign|];
    SumShifted(ds, s, |sign|, |ds|);
  }

  // ---------- Decimals ----------

  /** No point, no letter of an exponent. */
  predicate Plain(s: string) {
    forall i :: 0 <= i < |s| ==> s[i] != '.' && s[i] != 'E' && s[i] != 'e'
  }

  /** No letter of an exponent. */
  predicate Unlettered(s: string) {
    forall i :: 0 <= i < |s| ==> s[i] != 'E' && s[i] != 'e'
  }

  /** What the text before an exponent denotes: `all` is the text without its point, and
      `places` how many characters follow the point. */
  function Denotes(all: string, places: int, exp: int): Option<Decimal> {
    if IsSigned(all) && Int32(exp - places) then Some(D.Decimal(SignedValue(all), exp - places)) else None
  }

  lemma IndexOfFirst(s: string, chars: string, k: nat)
    requires k <= |s| && (forall i :: 0 <= i < k ==> s[i] !in chars) && (k < |s| ==> s[k] in chars)
    ensures IndexAny(s, chars) == k
  {
    var r := IndexFrom(s, chars, 0);
    assert !(r < k) && !(k < r);
  }

  lemma BodyNoPoint(body: string, exp: int)
    requires Plain(body)
    ensures ParseBody(body, exp) == Denotes(body, 0, exp)
  {
    IndexOfFirst(body, ".", |body|);
    IntReads(body);
  }

  lemma PointIndex(before: string, after: string, body: string)
    requires Plain(before) && Plain(after) && body == before + "." + after
    ensures IndexAny(body, ".") == |before| < |body| && forall i :: |before| < i < |body| ==> body[i] != '.'
    ensures body[..|before|] == before && body[|before| + 1..] == after
  {
    assert forall i :: 0 <= i < |before| ==> body[i] == before[i];
    assert forall i :: |before| < i < |body| ==> body[i] == after[i - |before| - 1];
    IndexOfFirst(body, ".", |before|);
  }

  lemma BodyPointAt(body: string, p: nat, digits: string, exp: int)
    requires IndexAny(body, ".") == p < |body| && (forall i :: p < i < |body| ==> body[i] != '.')
    requires digits == body[..p] + body[p + 1..]
    ensures ParseBody(body, exp) == Denotes(digits, |body| - p - 1, exp)
  {
    IntReads(digits);
  }

  lemma BodyOnePoint(before: string, after: string, exp: int)
    requires Plain(before) && Plain(after)
    ensures ParseBody(before + "." + after, exp) == Denotes(before + after, |after|, exp)
  {
    PointIndex(before, after, before + "." + after);
    BodyPointAt(before + "." + after, |before|, before + after, exp);
  }

  lemma BodyTwoPoints(body: string, i: nat, j: nat, exp: int)
    requires i < j < |body| && body[i] == '.' && body[j] == '.'
    ensures ParseBody(body, exp).None?
  {
    var p := IndexAny(body, ".");
    assert p <= i;
  }

  /** A text without an exponent is all body. */
  lemma SplitNone(body: string)
    requires Unlettered(body)
    ensures NewFromString(body) == ParseBody(body, 0)
  {
    IndexOfFirst(body, "Ee", |body|);
  }

  lemma SplitAt(body: string, letter: char, rest: string)
    requires Unlettered(body) && (letter == 'E' || letter == 'e')
    ensures NewFromString(body + [letter] + rest) ==
            if IsSigned(rest) && Int32(SignedValue(rest)) then ParseBody(body, SignedValue(rest)) else None
  {
    var s := body + [letter] + rest;
    assert forall i :: 0 <= i < |body| ==> s[i] == body[i];
    IndexOfFirst(s, "Ee", |body|);
    assert s[..|body|] == body && s[|body| + 1..] == rest;
    IntReads(rest);
  }

  lemma PointUnlettered(before: string, after: string)
    requires Plain(before) && Plain(after)
    ensures Unlettered(before + "." + after)
  {
  }

  // ---------- Main results ----------

  /** A text without an exponent and without a point: read exactly when it is an optional sign
      and digits, as the sum of the digits in their places. */
  lemma WholeReads(text: string)
    requires Plain(text)
    ensures NewFromString(text) == Denotes(text, 0, 0)
  {
    SplitNone(text);
    BodyNoPoint(text, 0);
  }

  /** With one point: read exactly when it is that once the point is left out, and scaled down
      by as many places as follow the point. */
  lemma PointReads(before: string, after: string)
    requires Plain(before) && Plain(after)
    ensures NewFromString(before + "." + after) == Denotes(before + after, |after|, 0)
  {
    PointUnlettered(before, after);
    SplitNone(before + "." + after);
    BodyOnePoint(before, after, 0);
  }

  /** With an exponent: the letter must be followed by an optional sign and digits that fit 32
      bits, and the rest is read as without it, scaled up by them. */
  lemma WholeExponentReads(text: string, letter: char, rest: string)
    requires Plain(text) && (letter == 'E' || letter == 'e')
    ensures NewFromString(text + [letter] + rest) ==
            if IsSigned(rest) && Int32(SignedValue(rest)) then Denotes(text, 0, SignedValue(rest)) else None
  {
    SplitAt(text, letter, rest);
    BodyNoPoint(text, SignedValue(rest));
  }

  lemma PointExponentReads(before: string, after: string, letter: char, rest: string)
    requires Plain(before) && Plain(after) && (letter == 'E' || letter == 'e')
    ensures NewFromString(before + "." + after + [letter] + rest) ==
            if IsSigned(rest) && Int32(SignedValue(rest)) then Denotes(before + after, |after|, SignedValue(rest))
            else None
  {
    PointUnlettered(before, after);
    SplitAt(before + "." + after, letter, rest);
    BodyOnePoint(before, after, SignedValue(rest));
  }

  /** Two points before the exponent are refused. */
  lemma TwoPointsRefused(body: string, i: nat, j: nat)
    requires Unlettered(body) && i < j < |body| && body[i] == '.' && body[j] == '.'
    ensures NewFromString(body).None?
    ensures forall letter: char, rest: string :: letter == 'E' || letter == 'e' ==>
              NewFromString(body + [letter] + rest).None?
  {
    SplitNone(body);
    BodyTwoPoints(body, i, j, 0);
    forall letter: char, rest: string | letter == 'E' || letter == 'e'
      ensures NewFromString(body + [letter] + rest).None?
    {
      SplitAt(body, letter, rest);
      BodyTwoPoints(body, i, j, SignedValue(rest));
    }
  }

  /** Every text is one of these: without or with an exponent, and with no point, one or two. */
  lemma EveryText(s: string) returns (body: string, tail: string, i: nat, j: nat)
    ensures s == body + tail && Unlettered(body) && (tail == "" || tail[0] == 'E' || tail[0] == 'e')
    ensures i <= j <= |body| && Plain(body[..i])
    ensures i < |body| ==> body[i] == '.'
    ensures i < j ==> (j < |body| && body[j] == '.') || (j == |body| && Plain(body[i + 1..]))
    ensures i == j ==> i == |body|
  {
    var e := IndexAny(s, "Ee");
    body, tail := s[..e], s[e..];
    forall k | 0 <= k < e ensures s[k] != 'E' && s[k] != 'e' {
      assert s[k] !in "Ee";
    }
    i := IndexAny(body, ".");
    j := if i < |body| then IndexFrom(body, ".", i + 1) else i;
  }

  // ---------- The usual form ----------

  /** A sign, digits, a point and digits: the signed sum of the digits in their places, scaled
      down by as many places as there are digits behind the point. */
  lemma DecimalReads(sign: string, whole: string, frac: string, s: string)
    requires IsSign(sign) && IsNumber(whole + frac) && s == sign + whole + "." + frac
    ensures NewFromString(s) ==
            if Int32(-|frac|) then Some(D.Decimal(WithSign(sign, Positional(whole + frac)), -|frac|)) else None
  {
    var before, v := sign + whole, WithSign(sign, Positional(whole + frac));
    assert Plain(before) && Plain(frac) by { UsualParts(sign, whole, frac); }
    assert IsSigned(before + frac) && SignedValue(before + frac) == v by {
      assert before + frac == sign + (whole + frac);
      SignedParts(sign, whole + frac, before + frac);
    }
    ValueReads(before, frac, v);
  }

  lemma ValueReads(before: string, after: string, v: int)
    requires Plain(before) && Plain(after) && IsSigned(before + after) && SignedValue(before + after) == v
    ensures NewFromString(before + "." + after) == if Int32(-|after|) then Some(D.Decimal(v, -|after|)) else None
  {
    PointReads(before, after);
  }

  lemma UsualParts(sign: string, whole: string, frac: string)
    requires IsSign(sign) && IsNumber(whole + frac)
    ensures Plain(sign + whole) && Plain(frac)
  {
    var ds := whole + frac;
    assert forall i :: 0 <= i < |whole| ==> whole[i] == ds[i];
    assert forall i :: 0 <= i < |frac| ==> frac[i] == ds[i + |whole|];
  }

  /** One form is not usual: a sign behind a leading point is accepted, and counted as a
      place: ".-5" is -0.05. */
  lemma SignBehindPointIsRead()
    ensures NewFromString(".-5") == Some(D.Decimal(-5, -2))
  {
    PointReads("", "-5");
    assert "" + "." + "-5" == ".-5" && "" + "-5" == "-5";
    assert SumOf("-5", 1, 1) == 0 && SumOf("-5", 1, 2) == 5;
  }

  /** No other is: an accepted text with a point has digits alone behind it if and only if it
      does not begin with the point and a sign. */
  lemma UsualExactly(before: string, after: string)
    requires IsSigned(before + after)
    ensures AllDigits(after) <==> !(before == "" && SignLength(after) == 1)
  {
    var all := before + after;
    assert forall i :: 0 <= i < |after| ==> after[i] == all[i + |before|];
    if before != "" { assert all[0] == before[0]; }
  }
}
