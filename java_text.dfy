/** The parts of java.lang.String, Integer and Byte that the core relies on:
    String.split with a one-character separator, StringJoiner, toUpperCase,
    trim, compareTo, Integer.toString, Integer.parseInt and Byte.parseByte. */
module JavaText {
  import opened Wrappers

  predicate StartsWith(s: string, prefix: string) {
    prefix <= s
  }

  // ---------------------------------------------------------------------------
  // Splitting and joining on a one-character separator
  // ---------------------------------------------------------------------------

  /** Every piece between separators, empty ones included (at least one piece). */
  function SplitAll(s: string, sep: char): (parts: seq<string>)
    ensures |parts| >= 1
    ensures forall i :: 0 <= i < |parts| ==> sep !in parts[i]
    decreases |s|
  {
    if s == [] then [""]
    else
      var rest := SplitAll(s[1..], sep);
      if s[0] == sep then [""] + rest
      else [[s[0]] + rest[0]] + rest[1..]
  }

  /** StringJoiner: the pieces with the separator between them; "" for no pieces. */
  function Join(parts: seq<string>, sep: char): string
  {
    if parts == [] then ""
    else if |parts| == 1 then parts[0]
    else parts[0] + [sep] + Join(parts[1..], sep)
  }

  function DropTrailingEmpty(parts: seq<string>): (r: seq<string>)
    ensures r <= parts
    ensures r == [] || r[|r| - 1] != ""
    ensures forall i :: |r| <= i < |parts| ==> parts[i] == ""
  {
    if parts == [] then []
    else if parts[|parts| - 1] == "" then DropTrailingEmpty(parts[..|parts| - 1])
    else parts
  }

  /** Java's `s.split(sep)`: a string without the separator gives itself (even
      when empty); otherwise the pieces, with trailing empty pieces removed. */
  function Split(s: string, sep: char): (r: seq<string>)
    ensures r <= SplitAll(s, sep)
    ensures forall i :: 0 <= i < |r| ==> sep !in r[i]
    ensures sep !in s ==> r == [s]
    ensures sep in s ==> r == [] || r[|r| - 1] != ""
    ensures forall i :: |r| <= i < |SplitAll(s, sep)| ==> SplitAll(s, sep)[i] == ""
  {
    if sep !in s then
      SplitAllNoSeparator(s, sep);
      [s]
    else DropTrailingEmpty(SplitAll(s, sep))
  }

  lemma {:induction false} SplitAllNoSeparator(s: string, sep: char)
    requires sep !in s
    ensures SplitAll(s, sep) == [s]
    decreases |s|
  {
    if s != [] {
      SplitAllNoSeparator(s[1..], sep);
      assert [s[0]] + s[1..] == s;
    }
  }

  /** Splitting then joining gives the string back. */
  lemma {:induction false} JoinSplitAll(s: string, sep: char)
    ensures Join(SplitAll(s, sep), sep) == s
    decreases |s|
  {
    if s != [] {
      var rest := SplitAll(s[1..], sep);
      JoinSplitAll(s[1..], sep);
      assert [s[0]] + s[1..] == s;
      if s[0] == sep {
        JoinCons("", rest, sep);
      } else {
        JoinPrepend(s[0], rest, sep);
      }
    }
  }

  lemma {:induction false} SplitAllPrefix(p: string, t: string, sep: char)
    requires sep !in p
    ensures SplitAll(p + [sep] + t, sep) == [p] + SplitAll(t, sep)
    decreases |p|
  {
    if p == [] {
      assert p + [sep] + t == [sep] + t;
      assert ([sep] + t)[1..] == t;
    } else {
      SplitAllPrefix(p[1..], t, sep);
      var s := p + [sep] + t;
      assert s[0] == p[0];
      assert s[1..] == p[1..] + [sep] + t;
      assert [p[0]] + p[1..] == p;
    }
  }

  // ---------------------------------------------------------------------------
  // Lines of a text file
  // ---------------------------------------------------------------------------

  /** BufferedReader.readLine until null: the pieces between '\n's; a final
      '\n' does not start one more (empty) line. */
  function Lines(text: string): (lines: seq<string>)
    ensures forall i :: 0 <= i < |lines| ==> '\n' !in lines[i]
  {
    if text == [] then []
    else
      var parts := SplitAll(text, '\n');
      if parts[|parts| - 1] == "" then parts[..|parts| - 1] else parts
  }

  /** The text of a file of which each line is written followed by '\n'. */
  function Text(lines: seq<string>): string {
    if lines == [] then "" else lines[0] + "\n" + Text(lines[1..])
  }

  /** Writing one more line appends it and its terminator. */
  lemma {:induction false} TextAppend(lines: seq<string>, line: string)
    ensures Text(lines + [line]) == Text(lines) + line + "\n"
  {
    if lines != [] {
      TextAppend(lines[1..], line);
      assert (lines + [line])[1..] == lines[1..] + [line];
    }
  }

  lemma {:induction false} SplitAllText(lines: seq<string>)
    requires forall i :: 0 <= i < |lines| ==> '\n' !in lines[i]
    ensures SplitAll(Text(lines), '\n') == lines + [""]
  {
    if lines != [] {
      SplitAllText(lines[1..]);
      SplitAllPrefix(lines[0], Text(lines[1..]), '\n');
      assert lines == [lines[0]] + lines[1..];
    }
  }

  /** Lines free of '\n', written one after the other, are read back unchanged. */
  lemma LinesOfText(lines: seq<string>)
    requires forall i :: 0 <= i < |lines| ==> '\n' !in lines[i]
    ensures Lines(Text(lines)) == lines
  {
    SplitAllText(lines);
    if lines != [] {
      assert Text(lines) != [];
    }
  }

  /** Text ending in its only line break is that one line. */
  lemma LinesOfOne(line: string)
    requires '\n' !in line
    ensures Lines(line + "\n") == [line]
  {
    assert [line][1..] == [];
    assert Text([line]) == line + "\n" + Text([]);
    assert line + "\n" + "" == line + "\n";
    LinesOfText([line]);
  }

  /** Joined pieces hold a character other than the separator only if a piece does. */

  lemma {:induction false} JoinFree(parts: seq<string>, sep: char, c: char)
    requires c != sep && forall i :: 0 <= i < |parts| ==> c !in parts[i]
    ensures c !in Join(parts, sep)
  {
    if |parts| >= 2 {
      JoinFree(parts[1..], sep, c);
    }
  }

  /** Joining a first piece before at least one more. */
  lemma JoinCons(x: string, rest: seq<string>, sep: char)
    requires |rest| >= 1
    ensures Join([x] + rest, sep) == x + [sep] + Join(rest, sep)
  {
    assert ([x] + rest)[1..] == rest;
  }

  /** A character put before the first piece is put before the joined text. */
  lemma JoinPrepend(c: char, parts: seq<string>, sep: char)
    requires |parts| >= 1
    ensures Join([[c] + parts[0]] + parts[1..], sep) == [c] + Join(parts, sep)
  {
    if |parts| > 1 {
      JoinCons([c] + parts[0], parts[1..], sep);
      JoinCons(parts[0], parts[1..], sep);
      assert [parts[0]] + parts[1..] == parts;
    }
  }

  /** Text appended to the last piece is appended to the joined text. */
  lemma {:induction false} JoinAppend(parts: seq<string>, x: string, sep: char)
    requires |parts| >= 1
    ensures Join(parts[..|parts| - 1] + [parts[|parts| - 1] + x], sep) == Join(parts, sep) + x
  {
    var longer := parts[..|parts| - 1] + [parts[|parts| - 1] + x];
    if |parts| >= 2 {
      JoinAppend(parts[1..], x, sep);
      assert longer[1..] == parts[1..][..|parts| - 2] + [parts[|parts| - 1] + x];
    }
  }

  /** Joining pieces that do not contain the separator, then splitting, gives the pieces back. */
  lemma {:induction false} SplitAllJoin(parts: seq<string>, sep: char)
    requires |parts| >= 1
    requires forall i :: 0 <= i < |parts| ==> sep !in parts[i]
    ensures SplitAll(Join(parts, sep), sep) == parts
  {
    if |parts| == 1 {
      SplitAllNoSeparator(parts[0], sep);
    } else {
      SplitAllJoin(parts[1..], sep);
      SplitAllPrefix(parts[0], Join(parts[1..], sep), sep);
      assert [parts[0]] + parts[1..] == parts;
    }
  }

  lemma {:induction false} JoinContainsSeparator(parts: seq<string>, sep: char)
    requires |parts| >= 2
    ensures sep in Join(parts, sep)
  {
    var j := Join(parts, sep);
    assert j == parts[0] + [sep] + Join(parts[1..], sep);
    assert j[|parts[0]|] == sep;
  }

  /** The round trip that re-reading a written line relies on: pieces without
      the separator, the last one non-empty when there are several, are
      recovered by Java's split. */
  lemma {:induction false} SplitJoin(parts: seq<string>, sep: char)
    requires |parts| >= 1
    requires forall i :: 0 <= i < |parts| ==> sep !in parts[i]
    requires |parts| >= 2 ==> parts[|parts| - 1] != ""
    ensures Split(Join(parts, sep), sep) == parts
  {
    if |parts| == 1 {
      assert Join(parts, sep) == parts[0];
    } else {
      JoinContainsSeparator(parts, sep);
      SplitAllJoin(parts, sep);
    }
  }

  /** A join starts with the first piece and ends with the last. */
  lemma JoinEnds(parts: seq<string>, sep: char)
    requires |parts| >= 1 && parts[0] != "" && parts[|parts| - 1] != ""
    ensures var j := Join(parts, sep);
            j != [] && j[0] == parts[0][0] && j[|j| - 1] == parts[|parts| - 1][|parts[|parts| - 1]| - 1]
  {
    JoinLast(parts, sep);
  }

  lemma {:induction false} JoinLast(parts: seq<string>, sep: char)
    requires |parts| >= 1 && parts[|parts| - 1] != ""
    ensures var j := Join(parts, sep);
            j != [] && j[|j| - 1] == parts[|parts| - 1][|parts[|parts| - 1]| - 1]
  {
    if |parts| >= 2 {
      JoinLast(parts[1..], sep);
    }
  }

  /** A string that does not start with a separator begins with its first piece. */
  lemma {:induction false} SplitFirst(s: string, sep: char, prefix: string)
    requires prefix <= s && sep !in prefix
    requires |prefix| < |s| ==> s[|prefix|] == sep
    ensures |SplitAll(s, sep)| >= 1 && SplitAll(s, sep)[0] == prefix
    decreases |prefix|
  {
    if prefix == [] {
      if s != [] {
        assert s[0] == sep;
      }
    } else {
      SplitFirst(s[1..], sep, prefix[1..]);
      assert s[0] == prefix[0];
    }
  }

  /** The first token that starts with `prefix`, as a search loop over the
      tokens that returns at the first hit. */
  function FirstWithPrefix(tokens: seq<string>, prefix: string): (r: Option<string>)
    ensures r.Some? ==> r.value in tokens && StartsWith(r.value, prefix)
    ensures r.Some? ==>
              exists k :: 0 <= k < |tokens| && tokens[k] == r.value &&
                          forall j :: 0 <= j < k ==> !StartsWith(tokens[j], prefix)
    ensures r.None? <==> forall j :: 0 <= j < |tokens| ==> !StartsWith(tokens[j], prefix)
  {
    if tokens == [] then None
    else if StartsWith(tokens[0], prefix) then Some(tokens[0])
    else
      var r := FirstWithPrefix(tokens[1..], prefix);
      assert forall j :: 1 <= j < |tokens| ==> tokens[j] == tokens[1..][j - 1];
      r
  }

  /** The `for (String t : tokens) if (t.startsWith(prefix)) return ...` search
      shared by the INFO decoders that read one keyed token. */
  method FindFirstWithPrefix(tokens: seq<string>, prefix: string) returns (r: Option<string>)
    ensures r == FirstWithPrefix(tokens, prefix)
  {
    var i := 0;
    while i < |tokens|
      invariant 0 <= i <= |tokens|
      invariant FirstWithPrefix(tokens, prefix) == FirstWithPrefix(tokens[i..], prefix)
    {
      if StartsWith(tokens[i], prefix) {
        return Some(tokens[i]);
      }
      assert tokens[i..][1..] == tokens[i + 1..];
      i := i + 1;
    }
    return None;
  }

  // ---------------------------------------------------------------------------
  // toUpperCase and trim
  // ---------------------------------------------------------------------------

  function ToUpperChar(ch: char): char {
    if 'a' <= ch <= 'z' then (ch as int - 32) as char else ch
  }

  /** String.toUpperCase on the ASCII letters (other characters are unchanged). */
  function ToUpper(s: string): (r: string)
    ensures |r| == |s|
    ensures forall i :: 0 <= i < |s| ==> r[i] == ToUpperChar(s[i])
  {
    seq(|s|, i requires 0 <= i < |s| => ToUpperChar(s[i]))
  }

  predicate IsUpper(s: string) {
    forall i :: 0 <= i < |s| ==> !('a' <= s[i] <= 'z')
  }

  /** The pieces of an upper-case string are upper-case. */
  lemma {:induction false} SplitAllUpper(s: string, sep: char)
    requires IsUpper(s)
    ensures forall i :: 0 <= i < |SplitAll(s, sep)| ==> IsUpper(SplitAll(s, sep)[i])
    decreases |s|
  {
    if s != [] {
      SplitAllUpper(s[1..], sep);
    }
  }

  lemma SplitUpper(s: string, sep: char)
    requires IsUpper(s)
    ensures forall i :: 0 <= i < |Split(s, sep)| ==> IsUpper(Split(s, sep)[i])
  {
    SplitAllUpper(s, sep);
  }

  lemma ToUpperOfUpper(s: string)
    requires IsUpper(s)
    ensures ToUpper(s) == s
  {
  }

  function TrimStart(s: string): (r: string)
    ensures |r| <= |s| && r == s[|s| - |r|..]
    ensures r == [] || r[0] > ' '
  {
    if s != [] && s[0] <= ' ' then
      var r := TrimStart(s[1..]);
      assert s[1..][|s| - 1 - |r|..] == s[|s| - |r|..];
      r
    else s
  }

  function TrimEnd(s: string): (r: string)
    ensures r <= s
    ensures r == [] || r[|r| - 1] > ' '
  {
    if s != [] && s[|s| - 1] <= ' ' then TrimEnd(s[..|s| - 1]) else s
  }

  /** TrimStart removes only characters at or below ' '. */
  lemma {:induction false} TrimStartBlanks(s: string)
    ensures forall k :: 0 <= k < |s| - |TrimStart(s)| ==> s[k] <= ' '
  {
    if s != [] && s[0] <= ' ' {
      TrimStartBlanks(s[1..]);
      assert forall k :: 1 <= k < |s| ==> s[k] == s[1..][k - 1];
    }
  }

  /** TrimEnd removes only characters at or below ' '. */
  lemma {:induction false} TrimEndBlanks(s: string)
    ensures forall k :: |TrimEnd(s)| <= k < |s| ==> s[k] <= ' '
  {
    if s != [] && s[|s| - 1] <= ' ' {
      TrimEndBlanks(s[..|s| - 1]);
    }
  }

  /** String.trim: removes every leading and trailing character at or below ' '. */
  function Trim(s: string): (r: string)
    ensures r == [] || (r[0] > ' ' && r[|r| - 1] > ' ')
    ensures s != [] && s[0] > ' ' && s[|s| - 1] > ' ' ==> r == s
  {
    var t := TrimStart(s);
    assert s != [] && s[0] > ' ' ==> t == s;
    var r := TrimEnd(t);
    assert r != [] ==> r[0] == t[0];
    r
  }

  /** Every character of `s` before index i and from index j on is at or
      below ' '. */
  predicate BlankOutside(s: string, i: int, j: int) {
    0 <= i <= j <= |s| &&
    (forall k :: 0 <= k < i ==> s[k] <= ' ') && (forall k :: j <= k < |s| ==> s[k] <= ' ')
  }

  /** trim keeps a contiguous part of the text and removes only characters
      at or below ' ' on either side of it. */
  lemma TrimRemovesBlankEnds(s: string)
    ensures exists i, j :: BlankOutside(s, i, j) && Trim(s) == s[i..j]
  {
    var t := TrimStart(s);
    var r := TrimEnd(t);
    TrimStartBlanks(s);
    TrimEndBlanks(t);
    var i := |s| - |t|;
    var j := i + |r|;
    assert r == s[i..j] by {
      assert t == s[i..];
      assert r == t[..|r|];
    }
    assert BlankOutside(s, i, j) by {
      forall k | j <= k < |s| ensures s[k] <= ' ' {
        assert s[k] == t[k - i];
      }
    }
    assert Trim(s) == r;
  }



  // ---------------------------------------------------------------------------
  // Decimal digits: Integer.toString, Integer.parseInt, Byte.parseByte
  // ---------------------------------------------------------------------------

  const IntMin: int := -0x8000_0000
  const IntMax: int := 0x7fff_ffff

  predicate IsDigit(ch: char) {
    '0' <= ch <= '9'
  }

  predicate AllDigits(s: string) {
    forall i :: 0 <= i < |s| ==> IsDigit(s[i])
  }

  function DigitValue(ch: char): nat
    requires IsDigit(ch)
  {
    ch as int - '0' as int
  }

  function DigitChar(d: nat): (ch: char)
    requires d < 10
    ensures IsDigit(ch) && DigitValue(ch) == d
  {
    ('0' as int + d) as char
  }

  /** The number a string of decimal digits denotes (read left to right). */
  function DigitsValue(s: string): nat
    requires AllDigits(s)
  {
    if s == [] then 0 else DigitsValue(s[..|s| - 1]) * 10 + DigitValue(s[|s| - 1])
  }

  /** The decimal spelling of a natural number, without leading zeros. */
  function NatToString(n: nat): (r: string)
    ensures |r| >= 1 && AllDigits(r)
    ensures |r| > 1 ==> r[0] != '0'
  {
    if n < 10 then [DigitChar(n)] else NatToString(n / 10) + [DigitChar(n % 10)]
  }

  lemma {:induction false} NatToStringValue(n: nat)
    ensures DigitsValue(NatToString(n)) == n
  {
    if n >= 10 {
      NatToStringValue(n / 10);
      var s := NatToString(n);
      assert s[..|s| - 1] == NatToString(n / 10);
    }
  }

  /** Integer.toString. */
  function IntToString(i: int): (r: string)
    ensures |r| >= 1
    ensures i >= 0 ==> AllDigits(r)
    ensures i < 0 ==> r[0] == '-' && AllDigits(r[1..])
  {
    if i < 0 then "-" + NatToString(-i) else NatToString(i)
  }

  /** Integer.parseInt within [lo, hi]: an optional sign followed by at least
      one digit, whose value lies in the range; anything else is None (Java
      throws NumberFormatException). */
  function ParseInteger(s: string, lo: int, hi: int): (r: Option<int>)
    ensures r.Some? ==> lo <= r.value <= hi
    ensures r.Some? ==> |s| >= 1 && (s[0] == '-' || s[0] == '+' || IsDigit(s[0]))
    ensures r.Some? && s[0] != '-' ==> r.value >= 0
  {
    if |s| == 0 then None
    else
      var signed := s[0] == '-' || s[0] == '+';
      var digits := if signed then s[1..] else s;
      if |digits| == 0 || !AllDigits(digits) then None
      else
        var n := DigitsValue(digits); var v: int := if s[0] == '-' then 0 - n else n;
        if lo <= v <= hi then Some(v) else None
  }

  /** Integer.parseInt: a 32-bit signed decimal. */
  function ParseInt(s: string): (r: Option<int>)
    ensures r.Some? ==> IntMin <= r.value <= IntMax
  {
    ParseInteger(s, IntMin, IntMax)
  }

  /** Byte.parseByte: a decimal in [-128, 127]. */
  function ParseByte(s: string): (r: Option<int>)
    ensures r.Some? ==> -128 <= r.value <= 127
  {
    ParseInteger(s, -128, 127)
  }

  /** Printing an integer and parsing it back gives the integer, for every
      value in the parse's range. */
  lemma IntToStringRoundTrip(i: int, lo: int, hi: int)
    requires lo <= i <= hi
    ensures ParseInteger(IntToString(i), lo, hi) == Some(i)
  {
    var s := IntToString(i);
    if i < 0 {
      var d := NatToString(-i);
      assert s == "-" + d && s[1..] == d;
      NatToStringValue(-i);
      assert ParseInteger(s, lo, hi) == Some(0 - DigitsValue(d));
    } else {
      assert s == NatToString(i) && IsDigit(s[0]);
      NatToStringValue(i);
      assert ParseInteger(s, lo, hi) == Some(DigitsValue(s));
    }
  }

  lemma NatToStringInjective(m: nat, n: nat)
    requires NatToString(m) == NatToString(n)
    ensures m == n
  {
    NatToStringValue(m);
    NatToStringValue(n);
  }

  // ---------------------------------------------------------------------------
  // String.compareTo and Integer.compare
  // ---------------------------------------------------------------------------

  /** String.compareTo: the difference of the first differing characters, or
      else the difference of the lengths. */
  function CompareStrings(a: string, b: string): int
  {
    if a == [] || b == [] then |a| - |b|
    else if a[0] != b[0] then a[0] as int - b[0] as int
    else CompareStrings(a[1..], b[1..])
  }

  lemma {:induction false} CompareStringsZero(a: string, b: string)
    ensures CompareStrings(a, b) == 0 <==> a == b
  {
    if a != [] && b != [] && a[0] == b[0] {
      CompareStringsZero(a[1..], b[1..]);
      assert a == [a[0]] + a[1..] && b == [b[0]] + b[1..];
    }
  }

  lemma {:induction false} CompareStringsAntisymmetric(a: string, b: string)
    ensures CompareStrings(b, a) == -CompareStrings(a, b)
  {
    if a != [] && b != [] && a[0] == b[0] {
      CompareStringsAntisymmetric(a[1..], b[1..]);
    }
  }

  lemma {:induction false} CompareStringsTransitive(a: string, b: string, c: string)
    requires CompareStrings(a, b) < 0 && CompareStrings(b, c) < 0
    ensures CompareStrings(a, c) < 0
  {
    if a != [] && b != [] && c != [] && a[0] == b[0] && b[0] == c[0] {
      CompareStringsTransitive(a[1..], b[1..], c[1..]);
    }
  }

  /** Integer.compare. */
  function CompareInts(x: int, y: int): (r: int)
    ensures r < 0 <==> x < y
    ensures r == 0 <==> x == y
    ensures r > 0 <==> x > y
  {
    if x < y then -1 else if x == y then 0 else 1
  }
}
