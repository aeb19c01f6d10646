/** Java `float` values as the core uses them: parsed from decimal text,
    scaled by 100, divided, compared with Float.min / Float.max, and printed
    into INFO fields to be parsed back during the merge.

    A finite value is kept as an exact decimal, mantissa × 10^exponent. Binary
    rounding is not modelled; the one inexact operation of the core (a
    percentage AC / AN) is truncated to a fixed number of decimal places. */
module JavaFloat {
  import opened Wrappers
  import opened JavaText

  datatype Float = Finite(mantissa: int, exponent: int) | Infinite(negative: bool)

  function Pow10(n: nat): (r: nat)
    ensures r >= 1
  {
    if n == 0 then 1 else 10 * Pow10(n - 1)
  }

  /** 10^e as a real, for any integer e. */
  function Scale(e: int): (r: real)
    ensures r > 0.0
    decreases if e < 0 then -e else e
  {
    if e == 0 then 1.0
    else if e > 0 then 10.0 * Scale(e - 1)
    else Scale(e + 1) / 10.0
  }

  /** The number a finite value denotes. */
  function ToReal(f: Float): real
    requires f.Finite?
  {
    f.mantissa as real * Scale(f.exponent)
  }

  const Zero: Float := Finite(0, 0)
  const One: Float := Finite(1, 0)

  /** The numeric order of floats (NaN is not modelled): -Infinity below every
      finite value, +Infinity above. */
  predicate Less(a: Float, b: Float) {
    match (a, b)
    case (Finite(_, _), Finite(_, _)) => ToReal(a) < ToReal(b)
    case (Infinite(na), Infinite(nb)) => na && !nb
    case (Infinite(na), Finite(_, _)) => na
    case (Finite(_, _), Infinite(nb)) => !nb
  }

  predicate LessEq(a: Float, b: Float) {
    !Less(b, a)
  }

  lemma LessTransitive(a: Float, b: Float, c: Float)
    requires LessEq(a, b) && LessEq(b, c)
    ensures LessEq(a, c)
  {
  }

  /** Float.min: the first argument when it is not above the second. */
  function Min(a: Float, b: Float): (r: Float)
    ensures r == a || r == b
    ensures LessEq(r, a) && LessEq(r, b)
  {
    if LessEq(a, b) then a else b
  }

  /** Float.max: the first argument when it is not below the second. */
  function Max(a: Float, b: Float): (r: Float)
    ensures r == a || r == b
    ensures LessEq(a, r) && LessEq(b, r)
  {
    if LessEq(b, a) then a else b
  }

  /** `100f * x`. */
  function Times100(f: Float): (r: Float)
    ensures f.Finite? <==> r.Finite?
    ensures f.Finite? ==> ToReal(r) == 100.0 * ToReal(f)
    ensures f.Infinite? ==> r == f
  {
    match f
    case Finite(m, e) =>
      var r := Finite(m, e + 2);
      Times100Value(m, e);
      r
    case Infinite(_) => f
  }

  lemma Times100Value(m: int, e: int)
    ensures ToReal(Finite(m, e + 2)) == 100.0 * ToReal(Finite(m, e))
  {
    ScaleShift(e);
    MulHundred(m as real, Scale(e + 2), Scale(e));
  }

  lemma MulHundred(x: real, a: real, b: real)
    requires a == 100.0 * b
    ensures x * a == 100.0 * (x * b)
  {
  }

  lemma ScaleShift(e: int)
    ensures Scale(e + 2) == 100.0 * Scale(e)
  {
    ScaleStep(e);
    ScaleStep(e + 1);
  }

  lemma ScaleStep(e: int)
    ensures Scale(e + 1) == 10.0 * Scale(e)
  {
  }

  // ---------------------------------------------------------------------------
  // The percentage 100 × AC / AN
  // ---------------------------------------------------------------------------

  /** Decimal places kept by a percentage (float rounding is not modelled). */
  const FractionDigits: nat := 8

  function Abs(x: int): nat {
    if x < 0 then -x else x
  }

  /** Division rounding toward zero. */
  function TruncDiv(a: int, b: int): int
    requires b != 0
  {
    var q := Abs(a) / Abs(b);
    if (a < 0) != (b < 0) then -q else q
  }

  lemma TruncDivRemainder(a: int, b: int)
    requires b != 0
    ensures Abs(a - TruncDiv(a, b) * b) < Abs(b)
  {
    var A, B := Abs(a), Abs(b);
    var q := A / B;
    assert 0 <= A - q * B < B;
    TruncDivTimes(a, b);
  }

  /** The rounded-toward-zero quotient times the divisor has the dividend's
      sign and the magnitude of the floor quotient of the magnitudes. */
  lemma TruncDivTimes(a: int, b: int)
    requires b != 0
    ensures a - TruncDiv(a, b) * b == if a < 0 then -(Abs(a) - Abs(a) / Abs(b) * Abs(b)) else Abs(a) - Abs(a) / Abs(b) * Abs(b)
  {
    var q := Abs(a) / Abs(b);
    if b > 0 {
      assert (-q) * b == -(q * b);
    } else {
      assert q * b == -(q * Abs(b));
      assert (-q) * b == q * Abs(b);
    }
  }

  /** `100f * alleleCount / alleleNumber`: infinite, with the count's sign,
      when the allele number is zero (the count is never zero where the core
      divides); otherwise the quotient cut to FractionDigits decimal places,
      as PercentageWithinOneUnit states. */
  function Percentage(alleleCount: int, alleleNumber: int): (r: Float)
    requires alleleCount != 0
    ensures alleleNumber == 0 <==> r.Infinite?
    ensures alleleNumber == 0 ==> r.negative == (alleleCount < 0)
  {
    if alleleNumber == 0 then Infinite(alleleCount < 0)
    else Finite(TruncDiv(100 * alleleCount * Pow10(FractionDigits), alleleNumber), -(FractionDigits as int))
  }

  /** A finite percentage m × 10^-FractionDigits has m × AN within one AN of
      100 × AC × 10^FractionDigits, that is, it lies within
      10^-FractionDigits of the exact quotient 100 × AC / AN. */
  lemma PercentageWithinOneUnit(alleleCount: int, alleleNumber: int)
    requires alleleCount != 0 && alleleNumber != 0
    ensures var r := Percentage(alleleCount, alleleNumber);
            r.Finite? && r.exponent == -(FractionDigits as int) &&
            Abs(100 * alleleCount * Pow10(FractionDigits) - r.mantissa * alleleNumber) < Abs(alleleNumber)
  {
    TruncDivRemainder(100 * alleleCount * Pow10(FractionDigits), alleleNumber);
  }

  // ---------------------------------------------------------------------------
  // Printing and parsing
  // ---------------------------------------------------------------------------

  /** The characters a printed float is made of. */
  predicate FloatChar(ch: char) {
    IsDigit(ch) || ch in "-EInfity"
  }

  /** Float.toString, as the mantissa-exponent form `<m>E<e>` (`Infinity`,
      `-Infinity` for the infinities); FormatParseRoundTrip shows that
      ParseFloat reads every printed value back exactly. */
  function FormatFloat(f: Float): (r: string)
    ensures |r| >= 1 && r[0] > ' ' && r[|r| - 1] > ' '
    ensures forall i :: 0 <= i < |r| ==> FloatChar(r[i])
  {
    match f
    case Finite(m, e) =>
      var r := IntToString(m) + "E" + IntToString(e);
      assert forall i :: 0 <= i < |IntToString(m)| ==> FloatChar(IntToString(m)[i]);
      assert forall i :: 0 <= i < |IntToString(e)| ==> FloatChar(IntToString(e)[i]);
      r
    case Infinite(negative) => if negative then "-Infinity" else "Infinity"
  }

  /** The first index of `ch` in `s`, or |s| when there is none. */
  function IndexOf(s: string, ch: char): (i: nat)
    ensures i <= |s|
    ensures i < |s| ==> s[i] == ch
    ensures ch !in s[..i]
  {
    if s == [] then 0
    else if s[0] == ch then 0
    else
      var i := 1 + IndexOf(s[1..], ch);
      assert s[..i] == [s[0]] + s[1..][..i - 1];
      i
  }

  /** The first index of 'e' or 'E' in `s`, or |s| when there is none. */
  function IndexOfExponent(s: string): (i: nat)
    ensures i <= |s|
    ensures i < |s| ==> s[i] == 'e' || s[i] == 'E'
    ensures forall k :: 0 <= k < i ==> s[k] != 'e' && s[k] != 'E'
  {
    if s == [] then 0
    else if s[0] == 'e' || s[0] == 'E' then 0
    else 1 + IndexOfExponent(s[1..])
  }

  /** An exponent: an optional sign followed by at least one digit. */
  function ParseExponent(s: string): Option<int>
  {
    var signed := |s| > 0 && (s[0] == '-' || s[0] == '+');
    var digits := if signed then s[1..] else s;
    if |digits| == 0 || !AllDigits(digits) then None
    else
      var n: int := DigitsValue(digits);
      Some(if signed && s[0] == '-' then 0 - n else n)
  }

  /** A mantissa `digits[.digits]` with at least one digit: its digits'
      value and the number of digits after the point. */
  function ParseMantissa(mant: string): Option<(nat, nat)>
  {
    var dot := IndexOf(mant, '.');
    var intPart := mant[..dot];
    var frac := if dot < |mant| then mant[dot + 1..] else "";
    if |intPart| + |frac| == 0 || !AllDigits(intPart) || !AllDigits(frac) then None
    else Some((DigitsValue(intPart + frac), |frac|))
  }

  /** Unsigned decimal notation `digits[.digits][(e|E)[sign]digits]`, at least
      one mantissa digit; the value as (mantissa, exponent). */
  function ParseDecimal(s: string): Option<(nat, int)>
  {
    var e := IndexOfExponent(s);
    var exp := if e == |s| then Some(0) else ParseExponent(s[e + 1..]);
    match (ParseMantissa(s[..e]), exp)
    case (Some(m), Some(x)) => Some((m.0, x - m.1))
    case _ => None
  }

  /** A finite value: an optional sign followed by unsigned decimal notation. */
  function ParseFinite(t: string): Option<Float>
  {
    var signed := |t| > 0 && (t[0] == '-' || t[0] == '+');
    var body := if signed then t[1..] else t;
    match ParseDecimal(body)
    case None => None
    case Some(d) =>
      var m: int := d.0;
      Some(Finite(if signed && t[0] == '-' then 0 - m else m, d.1))
  }

  /** Float.parseFloat on trimmed decimal notation or (signed) "Infinity";
      None where Java throws NumberFormatException. */
  function ParseFloat(s: string): (r: Option<Float>)
    ensures r.Some? ==> Trim(s) != []
  {
    var t := Trim(s);
    if t == [] then None
    else if t == "Infinity" || t == "+Infinity" then Some(Infinite(false))
    else if t == "-Infinity" then Some(Infinite(true))
    else ParseFinite(t)
  }

  lemma ParseExponentOfInt(e: int)
    ensures ParseExponent(IntToString(e)) == Some(e)
  {
    var s := IntToString(e);
    if e < 0 {
      var d := NatToString(-e);
      assert s == "-" + d && s[1..] == d;
      NatToStringValue(-e);
      assert ParseExponent(s) == Some(0 - DigitsValue(d));
    } else {
      assert s == NatToString(e) && IsDigit(s[0]);
      NatToStringValue(e);
      assert ParseExponent(s) == Some(DigitsValue(s));
    }
  }

  lemma {:induction false} IndexOfExponentAfterDigits(digits: string, rest: string)
    requires AllDigits(digits)
    requires |rest| >= 1 && rest[0] == 'E'
    ensures IndexOfExponent(digits + rest) == |digits|
    decreases |digits|
  {
    if digits != [] {
      IndexOfExponentAfterDigits(digits[1..], rest);
      assert (digits + rest)[1..] == digits[1..] + rest;
    }
  }

  lemma ParseMantissaOfDigits(digits: string)
    requires |digits| >= 1 && AllDigits(digits)
    ensures ParseMantissa(digits) == Some((DigitsValue(digits), 0))
  {
    assert '.' !in digits by {
      assert forall k :: 0 <= k < |digits| ==> IsDigit(digits[k]);
    }
    assert IndexOf(digits, '.') == |digits|;
    assert digits[..|digits|] == digits;
    assert digits + "" == digits;
  }

  lemma ParseDecimalOfPrinted(n: nat, e: int)
    ensures ParseDecimal(NatToString(n) + "E" + IntToString(e)) == Some((n, e))
  {
    var digits := NatToString(n);
    ExponentSplit(digits, IntToString(e));
    ParseExponentOfInt(e);
    ParseMantissaOfDigits(digits);
    NatToStringValue(n);
  }

  /** In digits, 'E' and more text, the exponent marker is the 'E' after the
      digits. */
  lemma ExponentSplit(digits: string, x: string)
    requires AllDigits(digits)
    ensures var s := digits + "E" + x;
            IndexOfExponent(s) == |digits| && s[..|digits|] == digits && s[|digits| + 1..] == x
  {
    var rest := "E" + x;
    var s := digits + "E" + x;
    assert s == digits + rest;
    IndexOfExponentAfterDigits(digits, rest);
    assert s[..|digits|] == digits;
    assert s[|digits| + 1..] == x;
  }

  lemma ParseFiniteSigned(u: string, n: nat, e: int)
    requires ParseDecimal(u) == Some((n, e))
    ensures ParseFinite("-" + u) == Some(Finite(0 - n, e))
  {
    var t := "-" + u;
    assert t[1..] == u;
  }

  lemma ParseFiniteUnsigned(u: string, n: nat, e: int)
    requires ParseDecimal(u) == Some((n, e))
    requires |u| >= 1 && IsDigit(u[0])
    ensures ParseFinite(u) == Some(Finite(n, e))
  {
  }

  lemma ParseFiniteOfPrinted(m: int, e: int)
    ensures ParseFinite(IntToString(m) + "E" + IntToString(e)) == Some(Finite(m, e))
  {
    var t := IntToString(m) + "E" + IntToString(e);
    var u := NatToString(Abs(m)) + "E" + IntToString(e);
    ParseDecimalOfPrinted(Abs(m), e);
    if m < 0 {
      assert t == "-" + u;
      ParseFiniteSigned(u, -m, e);
    } else {
      assert t == u;
      ParseFiniteUnsigned(u, m, e);
    }
  }

  /** Printing a float and parsing the text back gives the same value. */
  lemma FormatParseRoundTrip(f: Float)
    ensures ParseFloat(FormatFloat(f)) == Some(f)
  {
    var t := FormatFloat(f);
    assert Trim(t) == t;
    match f
    case Infinite(_) =>
    case Finite(m, e) =>
      assert t[|IntToString(m)|] == 'E';
      assert t != "Infinity" && t != "+Infinity" && t != "-Infinity" by {
        assert 'E' in t;
        assert 'E' !in "-Infinity";
        assert 'E' !in "+Infinity";
      }
      ParseFiniteOfPrinted(m, e);
  }
}
