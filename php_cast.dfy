/**
 * PHP's `(int)` cast applied to a string, as the handler applies it to query
 * values and to the tree route argument: leading whitespace is skipped, an
 * optional sign is read, then the longest run of decimal digits; anything
 * else ends the number, and a string with no digits there casts to 0.
 */
module PhpCast {

  /** The whitespace PHP skips before a numeric string (space, tab, LF, CR, VT, FF). */
  predicate IsSpace(c: char)
  {
    c == ' ' || c == '\t' || c == '\n' || c == '\r' || c == '\U{000B}' || c == '\U{000C}'
  }

  predicate IsDigit(c: char)
  {
    '0' <= c <= '9'
  }

  predicate AllDigits(s: string)
  {
    forall i :: 0 <= i < |s| ==> IsDigit(s[i])
  }

  function DigitValue(c: char): (d: nat)
    requires IsDigit(c)
    ensures d < 10
  {
    (c - '0') as nat
  }

  function DigitChar(d: nat): (c: char)
    requires d < 10
    ensures IsDigit(c) && DigitValue(c) == d
  {
    ('0' as int + d) as char
  }

  /** `s` without its leading whitespace. */
  function SkipSpace(s: string): string
  {
    if |s| > 0 && IsSpace(s[0]) then SkipSpace(s[1..]) else s
  }

  /** The longest prefix of `s` made of decimal digits. */
  function LeadingDigits(s: string): (d: string)
    ensures d <= s && AllDigits(d)
    ensures |d| < |s| ==> !IsDigit(s[|d|])
  {
    if |s| > 0 && IsDigit(s[0]) then [s[0]] + LeadingDigits(s[1..]) else []
  }

  /** The value of a string of decimal digits, most significant first. */
  function DigitsValue(d: string): nat
    requires AllDigits(d)
  {
    if d == [] then 0 else DigitsValue(d[..|d| - 1]) * 10 + DigitValue(d[|d| - 1])
  }

  /** `(int) $s` for a string `$s`. */
  function IntCast(s: string): int
  {
    var t := SkipSpace(s);
    if |t| > 0 && t[0] == '-' then -(DigitsValue(LeadingDigits(t[1..])) as int)
    else if |t| > 0 && t[0] == '+' then DigitsValue(LeadingDigits(t[1..]))
    else DigitsValue(LeadingDigits(t))
  }

  /** The decimal spelling of a natural number, without sign or leading zeros. */
  function NaturalString(n: nat): (s: string)
    ensures |s| > 0 && AllDigits(s)
  {
    if n < 10 then [DigitChar(n)] else NaturalString(n / 10) + [DigitChar(n % 10)]
  }

  /** The decimal spelling of an integer, as PHP's `(string)` cast writes it. */
  function DecimalString(n: int): string
  {
    if n < 0 then "-" + NaturalString(-n) else NaturalString(n)
  }

  lemma {:induction false} DigitsValueOfNatural(n: nat)
    ensures DigitsValue(NaturalString(n)) == n
  {
    if n >= 10 {
      var s := NaturalString(n);
      assert s[..|s| - 1] == NaturalString(n / 10);
      DigitsValueOfNatural(n / 10);
    }
  }

  lemma {:induction false} LeadingDigitsOfDigits(d: string, rest: string)
    requires AllDigits(d)
    requires rest == [] || !IsDigit(rest[0])
    ensures LeadingDigits(d + rest) == d
  {
    if d != [] {
      assert (d + rest)[1..] == d[1..] + rest;
      LeadingDigitsOfDigits(d[1..], rest);
    }
  }

  /**
   * Casting the decimal spelling of any integer, followed by anything that
   * does not continue the number ("12abc", "12&x=1"), gives that integer back.
   */
  lemma {:induction false} CastOfDecimal(n: int, rest: string)
    requires rest == [] || !IsDigit(rest[0])
    ensures IntCast(DecimalString(n) + rest) == n
  {
    if n < 0 {
      CastOfNegative(n, rest);
    } else {
      CastOfNatural(n, rest);
    }
  }

  lemma CastOfNatural(n: nat, rest: string)
    requires rest == [] || !IsDigit(rest[0])
    ensures IntCast(NaturalString(n) + rest) == n
  {
    var digits := NaturalString(n);
    LeadingDigitsOfDigits(digits, rest);
    DigitsValueOfNatural(n);
    UnsignedCast(digits + rest);
  }

  lemma CastOfNegative(n: int, rest: string)
    requires n < 0
    requires rest == [] || !IsDigit(rest[0])
    ensures IntCast(DecimalString(n) + rest) == n
  {
    var digits := NaturalString(-n);
    var tail := digits + rest;
    assert DecimalString(n) + rest == ['-'] + tail;
    LeadingDigitsOfDigits(digits, rest);
    DigitsValueOfNatural(-n);
    NegativeCast(tail);
  }

  /** A string starting with a digit is read from its first character. */
  lemma UnsignedCast(s: string)
    requires |s| > 0 && IsDigit(s[0])
    ensures IntCast(s) == DigitsValue(LeadingDigits(s))
  {
    assert !IsSpace(s[0]);
    assert SkipSpace(s) == s;
    assert s[0] != '-' && s[0] != '+';
  }

  /** A string starting with '-' is the negated value of the digits after it. */
  lemma NegativeCast(tail: string)
    ensures IntCast(['-'] + tail) == -(DigitsValue(LeadingDigits(tail)) as int)
  {
    var s := ['-'] + tail;
    assert !IsSpace(s[0]);
    assert SkipSpace(s) == s;
    assert s[1..] == tail;
  }

  /**
   * A string that does not start (after whitespace) with a digit or a signed
   * digit casts to 0: "abc", "", "-x" and "  " all give 0.
   */
  lemma NonNumericCastsToZero(s: string)
    requires var t := SkipSpace(s);
      t == [] || (!IsDigit(t[0]) && ((t[0] != '-' && t[0] != '+') || |t| == 1 || !IsDigit(t[1])))
    ensures IntCast(s) == 0
  {
  }
}
