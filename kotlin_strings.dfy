/** Kotlin's `Char.isWhitespace`, `CharSequence.isBlank` and `String.toInt` (decimal), on Dafny strings. */
module KotlinStrings {
  import opened Wrappers
  import opened KotlinInt

  /** `Char.isWhitespace()` on the JVM: `Character.isWhitespace` (the ASCII controls TAB, LF, VT, FF, CR,
      FS, GS, RS, US and the Unicode separators other than no-break spaces) or `Character.isSpaceChar`
      (every Unicode space, line or paragraph separator, no-break spaces included). */
  predicate IsWhitespace(c: char) {
    ('\t' <= c <= '\r') || ('\U{1C}' <= c <= '\U{1F}') || c == ' '
    || c == '\U{A0}' || c == '\U{1680}' || ('\U{2000}' <= c <= '\U{200A}')
    || c == '\U{2028}' || c == '\U{2029}' || c == '\U{202F}' || c == '\U{205F}' || c == '\U{3000}'
  }

  /** `CharSequence.isBlank()`: every character is whitespace, so the empty string is blank too. */
  predicate IsBlank(s: string) {
    forall i :: 0 <= i < |s| ==> IsWhitespace(s[i])
  }

  /** A string holding any character other than whitespace is not blank (and so is not empty). */
  lemma NotBlankWith(s: string, i: nat)
    requires i < |s| && !IsWhitespace(s[i])
    ensures !IsBlank(s) && |s| > 0
  {
  }

  /** The JVM's whitespace set at work: ASCII controls and Unicode spaces, no-break spaces included, are
      blank; a zero-width space (a format character) and any letter are not. */
  lemma BlankSamples()
    ensures IsBlank("") && IsBlank(" \t\n\r") && IsBlank("\U{A0}\U{2007}\U{202F}\U{3000}")
    ensures !IsBlank(" x ") && !IsBlank("\U{200B}")
  {
    NotBlankWith(" x ", 1);
    NotBlankWith("\U{200B}", 0);
  }

  predicate IsDigit(c: char) {
    '0' <= c <= '9'
  }

  predicate AllDigits(s: string) {
    forall i :: 0 <= i < |s| ==> IsDigit(s[i])
  }

  function DigitValue(c: char): (d: nat)
    requires IsDigit(c)
    ensures d < 10
  {
    c as int - '0' as int
  }

  /** The number a string of decimal digits spells, most significant digit first. */
  function DigitsValue(s: string): nat
    requires AllDigits(s)
  {
    if s == [] then 0 else DigitsValue(s[..|s| - 1]) * 10 + DigitValue(s[|s| - 1])
  }

  function Pow10(n: nat): (p: nat)
    ensures p >= 1
  {
    if n == 0 then 1 else 10 * Pow10(n - 1)
  }

  /** `k` digits spell a number below `10^k`. */
  lemma {:induction false} DigitsValueBelow(s: string)
    requires AllDigits(s)
    ensures DigitsValue(s) < Pow10(|s|)
  {
    if s != [] {
      DigitsValueBelow(s[..|s| - 1]);
    }
  }

  /** Three digits spell hundreds, tens and units. */
  lemma ThreeDigits(s: string)
    requires |s| == 3 && AllDigits(s)
    ensures DigitsValue(s) == 100 * DigitValue(s[0]) + 10 * DigitValue(s[1]) + DigitValue(s[2])
  {
    TwoDigits(s[..2]);
    assert s[..2][0] == s[0] && s[..2][1] == s[1];
  }

  /** Two digits spell tens and units. */
  lemma TwoDigits(s: string)
    requires |s| == 2 && AllDigits(s)
    ensures DigitsValue(s) == 10 * DigitValue(s[0]) + DigitValue(s[1])
  {
    var t := s[..1];
    assert t[..0] == [] && t[0] == s[0];
    assert DigitsValue(t) == DigitValue(s[0]);
  }

  /** `String.toInt()` in base 10: an optional leading `-` or `+` and at least one digit, within the `Int`
      range; `None` stands for the `NumberFormatException` it throws on anything else. */
  function ParseInt(s: string): (r: Option<int>)
    ensures r.Some? ==> IsInt(r.value)
  {
    if |s| == 0 then None
    else if s[0] < '0' then
      if |s| == 1 || !AllDigits(s[1..]) then None
      else if s[0] == '-' then
        (if -(DigitsValue(s[1..]) as int) >= INT_MIN then Some(-(DigitsValue(s[1..]) as int)) else None)
      else if s[0] == '+' then
        (if DigitsValue(s[1..]) <= INT_MAX then Some(DigitsValue(s[1..])) else None)
      else None
    else if AllDigits(s) && DigitsValue(s) <= INT_MAX then Some(DigitsValue(s))
    else None
  }

  function DigitChar(d: nat): (c: char)
    requires d < 10
    ensures IsDigit(c) && DigitValue(c) == d
  {
    ('0' as int + d) as char
  }

  /** The decimal digits of `n` without leading zeros. */
  function Decimal(n: nat): (s: string)
    ensures |s| >= 1 && AllDigits(s)
    ensures |s| > 1 ==> s[0] != '0'
  {
    if n < 10 then [DigitChar(n)] else Decimal(n / 10) + [DigitChar(n % 10)]
  }

  /** `Int.toString()`: a `-` in front of the digits of a negative number. */
  function IntToString(n: int): string {
    if n < 0 then "-" + Decimal(-n) else Decimal(n)
  }

  lemma {:induction false} DecimalValue(n: nat)
    ensures DigitsValue(Decimal(n)) == n
  {
    if n >= 10 {
      var s := Decimal(n);
      assert s[..|s| - 1] == Decimal(n / 10);
      DecimalValue(n / 10);
    }
  }

  /** Parsing what `toString` writes gives the number back, for every `Int`. */
  lemma ParseIntOfIntToString(n: int)
    requires IsInt(n)
    ensures ParseInt(IntToString(n)) == Some(n)
  {
    var s := IntToString(n);
    if n < 0 {
      var d := Decimal(-n);
      assert s == "-" + d && s[1..] == d;
      assert s[0] == '-' && |s| > 1;
      DecimalValue(-n);
      DigitsValueBelow(d);
      assert ParseInt(s) == Some(-(DigitsValue(d) as int));
    } else {
      assert IsDigit(s[0]);
      DecimalValue(n);
    }
  }

  /** `toInt` accepts a digit string, optionally after one `-` or `+` sign and with any leading zeros, whose
      value is within the `Int` range. */
  lemma ParseIntAccepts(s: string)
    requires |s| >= 1
    ensures AllDigits(s) && DigitsValue(s) <= INT_MAX ==> ParseInt(s) == Some(DigitsValue(s))
    ensures s[0] == '-' && |s| >= 2 && AllDigits(s[1..]) && DigitsValue(s[1..]) <= -INT_MIN ==>
      ParseInt(s) == Some(-(DigitsValue(s[1..]) as int))
    ensures s[0] == '+' && |s| >= 2 && AllDigits(s[1..]) && DigitsValue(s[1..]) <= INT_MAX ==>
      ParseInt(s) == Some(DigitsValue(s[1..]))
  {
  }

  /** Every value `toInt` yields is the number its digits spell, negated after a `-` sign. */
  lemma ParseIntValue(s: string)
    requires ParseInt(s).Some?
    ensures s[0] == '-' ==> AllDigits(s[1..]) && ParseInt(s).value == -(DigitsValue(s[1..]) as int)
    ensures s[0] == '+' ==> AllDigits(s[1..]) && ParseInt(s).value == DigitsValue(s[1..])
    ensures s[0] != '-' && s[0] != '+' ==> AllDigits(s) && ParseInt(s).value == DigitsValue(s)
  {
  }
}
