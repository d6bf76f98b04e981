/**
 * The java.lang string operations the framework relies on:
 * String.equalsIgnoreCase, Boolean.parseBoolean and Integer.parseInt,
 * with case mapping and digits restricted to ASCII.
 */
module JavaText {
  import opened Wrappers

  const INT_MIN: int := -0x8000_0000
  const INT_MAX: int := 0x7FFF_FFFF

  function ToLowerAscii(c: char): char {
    if 'A' <= c <= 'Z' then (c as int + 32) as char else c
  }

  function ToUpperAscii(c: char): char {
    if 'a' <= c <= 'z' then (c as int - 32) as char else c
  }

  /** The string with every ASCII upper-case letter replaced by its lower-case form. */
  function Lower(s: string): string {
    seq(|s|, i requires 0 <= i < |s| => ToLowerAscii(s[i]))
  }

  /**
   * The character test of String.regionMatches(ignoreCase = true): equal,
   * equal after upper-casing, or equal after upper- then lower-casing.
   */
  predicate CharEqualsIgnoreCase(a: char, b: char) {
    a == b
    || ToUpperAscii(a) == ToUpperAscii(b)
    || ToLowerAscii(ToUpperAscii(a)) == ToLowerAscii(ToUpperAscii(b))
  }

  /** `s.equalsIgnoreCase(t)`; a null argument gives false. */
  predicate EqualsIgnoreCase(s: string, t: Option<string>) {
    t.Some? && |s| == |t.value|
    && forall i :: 0 <= i < |s| ==> CharEqualsIgnoreCase(s[i], t.value[i])
  }

  lemma CharEqualsIgnoreCaseLower(a: char, b: char)
    ensures CharEqualsIgnoreCase(a, b) <==> ToLowerAscii(a) == ToLowerAscii(b)
  {
  }

  /** Comparing while ignoring case is comparing the lower-cased strings. */
  lemma EqualsIgnoreCaseLower(s: string, t: string)
    ensures EqualsIgnoreCase(s, Some(t)) <==> Lower(s) == Lower(t)
  {
    if EqualsIgnoreCase(s, Some(t)) {
      forall i | 0 <= i < |s| ensures Lower(s)[i] == Lower(t)[i] {
        CharEqualsIgnoreCaseLower(s[i], t[i]);
      }
    }
    if Lower(s) == Lower(t) {
      forall i | 0 <= i < |s| ensures CharEqualsIgnoreCase(s[i], t[i]) {
        assert Lower(s)[i] == Lower(t)[i];
        CharEqualsIgnoreCaseLower(s[i], t[i]);
      }
    }
  }

  /** Boolean.parseBoolean: "true".equalsIgnoreCase(s). */
  predicate ParseBoolean(s: Option<string>) {
    EqualsIgnoreCase("true", s)
  }

  /** parseBoolean holds exactly for "true" in any case, and never for null. */
  lemma ParseBooleanTrue(s: Option<string>)
    ensures ParseBoolean(s) <==> s.Some? && Lower(s.value) == "true"
  {
    if s.Some? {
      EqualsIgnoreCaseLower("true", s.value);
    }
  }

  predicate IsDigit(c: char) {
    '0' <= c <= '9'
  }

  predicate AllDigits(s: string) {
    forall i :: 0 <= i < |s| ==> IsDigit(s[i])
  }

  function DigitValue(c: char): nat
    requires IsDigit(c)
  {
    c as int - '0' as int
  }

  function DigitChar(d: nat): char
    requires d < 10
  {
    ('0' as int + d) as char
  }

  /** The number a string of decimal digits denotes, most significant digit first. */
  function DigitsValue(s: string): nat
    requires AllDigits(s)
  {
    if s == [] then 0 else DigitsValue(s[..|s| - 1]) * 10 + DigitValue(s[|s| - 1])
  }

  /**
   * Integer.parseInt(s) with radix 10: an optional sign followed by at least
   * one digit, the value within the 32-bit range; None where Java throws
   * NumberFormatException.
   */
  function ParseInt(s: string): (r: Option<int>)
    ensures r.Some? ==> INT_MIN <= r.value <= INT_MAX
    ensures r.Some? ==> |s| > 0
  {
    if |s| == 0 then None
    else
      var signed := s[0] == '-' || s[0] == '+';
      var digits := if signed then s[1..] else s;
      if |digits| == 0 || !AllDigits(digits) then None
      else
        var v: int := if s[0] == '-' then 0 - DigitsValue(digits) else DigitsValue(digits);
        if INT_MIN <= v <= INT_MAX then Some(v) else None
  }

  /** Integer.toString for a non-negative number: its decimal digits without leading zeros. */
  function Decimal(n: nat): (s: string)
    ensures |s| > 0 && AllDigits(s)
  {
    if n < 10 then [DigitChar(n)] else Decimal(n / 10) + [DigitChar(n % 10)]
  }

  lemma {:induction false} DecimalValue(n: nat)
    ensures DigitsValue(Decimal(n)) == n
  {
    if n >= 10 {
      DecimalValue(n / 10);
      var s := Decimal(n);
      assert s[..|s| - 1] == Decimal(n / 10);
    }
  }

  /** Parsing the decimal form of any int-sized number gives the number back. */
  lemma ParseIntDecimal(n: nat)
    requires n <= INT_MAX
    ensures ParseInt(Decimal(n)) == Some(n)
  {
    DecimalValue(n);
    var s := Decimal(n);
    assert IsDigit(s[0]);
  }

  /** A negative sign in front of the decimal form parses to the negated number. */
  lemma ParseIntNegative(n: nat)
    requires n <= -INT_MIN
    ensures ParseInt("-" + Decimal(n)) == Some(0 - n)
  {
    DecimalValue(n);
    var s := "-" + Decimal(n);
    assert s[1..] == Decimal(n);
  }
}
