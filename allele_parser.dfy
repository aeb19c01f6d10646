/** The chromosome decoder every line parser shares. */
module ChromosomeParser {
  import opened Wrappers
  import opened JavaText

  /** The tokens with a fixed chromosome number. */
  const NamedTokens: set<string> := {"X", "x", "Y", "y", "M", "MT", "m", "."}

  /** parseChr: X is 23, Y is 24, the mitochondrion 25, "." is 0, any other
      token its signed-byte value, or 0 when it is not one (the failure is
      only logged). */
  function ParseChr(field: string): (chr: int)
    ensures -128 <= chr <= 127
    ensures field == "X" || field == "x" ==> chr == 23
    ensures field == "Y" || field == "y" ==> chr == 24
    ensures field == "M" || field == "MT" || field == "m" ==> chr == 25
    ensures field == "." ==> chr == 0
    ensures field !in NamedTokens && ParseByte(field).Some? ==> chr == ParseByte(field).value
    ensures field !in NamedTokens && ParseByte(field).None? ==> chr == 0
  {
    if field == "X" || field == "x" then 23
    else if field == "Y" || field == "y" then 24
    else if field == "M" || field == "MT" || field == "m" then 25
    else if field == "." then 0
    else
      match ParseByte(field)
      case Some(b) => b
      case None => 0
  }

  lemma NumberNotNamed(n: int)
    ensures IntToString(n) !in NamedTokens
  {
    var s := IntToString(n);
    assert s[0] == '-' || IsDigit(s[0]);
  }

  /** Every printed signed-byte number decodes to itself, so the chromosomes
      1 to 25 written by the file writers read back unchanged. */
  lemma ParseChrOfNumber(n: int)
    requires -128 <= n <= 127
    ensures ParseChr(IntToString(n)) == n
  {
    NumberNotNamed(n);
    IntToStringRoundTrip(n, -128, 127);
  }

  /** The result is 0 exactly for ".", for a zero, and for tokens that are
      neither named nor a signed byte. */
  lemma ParseChrZero(field: string)
    ensures ParseChr(field) == 0 <==>
      field == "." || (field !in NamedTokens && (ParseByte(field) == Some(0) || ParseByte(field).None?))
  {
  }

  /** Text Byte.parseByte could read: an optional sign and at least one digit. */
  predicate NumberToken(s: string) {
    |s| >= 1 &&
    var digits := if s[0] == '-' || s[0] == '+' then s[1..] else s;
    |digits| >= 1 && AllDigits(digits)
  }

  /** A token that is neither named nor a number, such as "chr1" or a
      lower-case "mt", gives 0. */
  lemma ParseChrNotNumber(field: string)
    requires field !in NamedTokens && !NumberToken(field)
    ensures ParseChr(field) == 0
  {
    assert ParseByte(field).None?;
  }

  /** A number beyond a signed byte, such as "300", gives 0; numbers within
      it are returned unchecked, even those that name no chromosome. */
  lemma ParseChrNumber(field: string)
    requires NumberToken(field)
    ensures var digits := if field[0] == '-' || field[0] == '+' then field[1..] else field;
            var v: int := if field[0] == '-' then 0 - DigitsValue(digits) else DigitsValue(digits);
            ParseChr(field) == if -128 <= v <= 127 then v else 0
  {
  }
}
