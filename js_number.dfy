/**
 * The two number conversions the cards page relies on: the NaN test
 * `isNaN(Number(s))` applied to query values, and `n.toString()` applied to an
 * integer page number or tag id. Only the decimal subset of JavaScript's
 * string-to-number grammar is modelled: the empty string (which converts to 0),
 * or an optional sign followed by digits with at most one decimal point.
 */
module JsNumber {

  predicate IsDigit(c: char) {
    '0' <= c <= '9'
  }

  /** The length of the longest all-digit prefix of `s`. */
  function LeadingDigits(s: string): (n: nat)
    ensures n <= |s|
  {
    if s == [] || !IsDigit(s[0]) then 0 else 1 + LeadingDigits(s[1..])
  }

  /** Digits, optionally one '.' and more digits, with at least one digit in all. */
  predicate IsUnsignedDecimal(s: string) {
    var n := LeadingDigits(s);
    if n == |s| then n > 0
    else s[n] == '.' && LeadingDigits(s[n + 1..]) == |s| - n - 1 && (n > 0 || |s| > n + 1)
  }

  /** `!isNaN(Number(s))`, for the decimal subset described above. */
  predicate IsNumeric(s: string) {
    s == "" || if s[0] == '+' || s[0] == '-' then IsUnsignedDecimal(s[1..]) else IsUnsignedDecimal(s)
  }

  function DigitChar(d: nat): (c: char)
    requires d < 10
    ensures IsDigit(c)
  {
    ('0' as int + d) as char
  }

  /** The value of a string of digits. */
  function DigitsValue(s: string): int {
    if s == [] then 0
    else DigitsValue(s[..|s| - 1]) * 10 + (s[|s| - 1] as int - '0' as int)
  }

  /** The decimal digits of a natural number, without leading zeros. */
  function DecimalDigits(n: nat): (s: string)
    ensures |s| > 0
  {
    if n < 10 then [DigitChar(n)] else DecimalDigits(n / 10) + [DigitChar(n % 10)]
  }

  /** The digit prefix is all digits and is followed by a non-digit or the end. */
  lemma {:induction false} LeadingDigitsPrefix(s: string)
    ensures forall i | 0 <= i < LeadingDigits(s) :: IsDigit(s[i])
    ensures LeadingDigits(s) < |s| ==> !IsDigit(s[LeadingDigits(s)])
  {
    if s != [] && IsDigit(s[0]) {
      LeadingDigitsPrefix(s[1..]);
    }
  }

  /** A natural number prints as digits only. */
  lemma {:induction false} DecimalDigitsAreDigits(n: nat)
    ensures forall i | 0 <= i < |DecimalDigits(n)| :: IsDigit(DecimalDigits(n)[i])
  {
    if n >= 10 {
      DecimalDigitsAreDigits(n / 10);
    }
  }

  /** `n.toString()` for an integer `n`. */
  function IntToString(n: int): string {
    if n < 0 then "-" + DecimalDigits(-n) else DecimalDigits(n)
  }

  /** Reading the digits back gives the number: the conversion loses nothing. */
  lemma {:induction false} DecimalDigitsValue(n: nat)
    ensures DigitsValue(DecimalDigits(n)) == n
  {
    if n >= 10 {
      var s := DecimalDigits(n);
      assert s[..|s| - 1] == DecimalDigits(n / 10);
      DecimalDigitsValue(n / 10);
    }
  }

  /** A printed integer starts with '-' exactly when it is negative. */
  lemma SignOfString(n: int)
    ensures |IntToString(n)| > 0
    ensures IntToString(n)[0] == '-' <==> n < 0
  {
    if n >= 0 {
      DecimalDigitsAreDigits(n);
      assert IsDigit(IntToString(n)[0]);
    }
  }

  /** Different integers print differently. */
  lemma IntToStringInjective(m: int, n: int)
    requires IntToString(m) == IntToString(n)
    ensures m == n
  {
    var s, t := IntToString(m), IntToString(n);
    SignOfString(m);
    SignOfString(n);
    if m < 0 && n < 0 {
      assert s[1..] == DecimalDigits(-m) && t[1..] == DecimalDigits(-n);
      DecimalDigitsValue(-m);
      DecimalDigitsValue(-n);
    } else if m >= 0 && n >= 0 {
      DecimalDigitsValue(m);
      DecimalDigitsValue(n);
    }
  }

  lemma {:induction false} AllDigitsLeading(s: string)
    requires forall i | 0 <= i < |s| :: IsDigit(s[i])
    ensures LeadingDigits(s) == |s|
  {
    if s != [] {
      AllDigitsLeading(s[1..]);
    }
  }

  /** A printed integer always passes the NaN test. */
  lemma IntToStringIsNumeric(n: int)
    ensures IsNumeric(IntToString(n))
  {
    var s := IntToString(n);
    if n < 0 {
      DecimalDigitsAreDigits(-n);
      assert s[1..] == DecimalDigits(-n);
      AllDigitsLeading(s[1..]);
    } else {
      DecimalDigitsAreDigits(n);
      AllDigitsLeading(s);
    }
  }
}
