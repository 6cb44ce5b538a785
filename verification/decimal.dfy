/** The numeric side of the search box and of the displayed records: the
    `!isNaN(text)` test and `parseInt(text)` the search box applies to its
    text, the decimal printing a template literal applies to an integer, and
    `Math.round` on a distance.

    `NumericLike` is an abstraction of `!isNaN(text)` on non-empty text: an
    optional sign followed by one or more ASCII digits. JavaScript's coercion
    accepts more (surrounding white space, a fraction, an exponent, hex
    literals, `Infinity`); those inputs are outside this model. On every
    string `NumericLike` accepts, `ParseInt` agrees with JavaScript's decimal
    `parseInt` as long as the value is exactly representable as a double
    (magnitude at most 2^53); integers are unbounded here. */
module Decimal {

  predicate IsDigit(c: char) {
    '0' <= c <= '9'
  }

  predicate IsSign(c: char) {
    c == '+' || c == '-'
  }

  predicate AllDigits(s: string) {
    forall i :: 0 <= i < |s| ==> IsDigit(s[i])
  }

  function DigitValue(c: char): (d: nat)
    requires IsDigit(c)
    ensures d < 10
  {
    c as int - '0' as int
  }

  function DigitChar(d: nat): (c: char)
    requires d < 10
    ensures IsDigit(c) && DigitValue(c) == d
  {
    ('0' as int + d) as char
  }

  function Pow10(k: nat): (p: nat)
    ensures p >= 1
  {
    if k == 0 then 1 else 10 * Pow10(k - 1)
  }

  /** The value of a string of decimal digits, most significant first. */
  function DigitsValue(s: string): (n: nat)
    requires AllDigits(s)
    ensures n < Pow10(|s|)
  {
    if s == [] then 0
    else
      var m := DigitsValue(s[..|s| - 1]);
      assert m <= Pow10(|s| - 1) - 1;
      assert m * 10 <= Pow10(|s| - 1) * 10 - 10;
      m * 10 + DigitValue(s[|s| - 1])
  }

  /** Text on which `!isNaN(text)` holds, as far as this model covers it:
      every character is a digit except possibly a leading sign, and the
      text ends in a digit. */
  predicate NumericLike(s: string): (b: bool)
    ensures b <==> && |s| >= 1 && IsDigit(s[|s| - 1])
                   && forall i :: 0 <= i < |s| ==> IsDigit(s[i]) || (i == 0 && IsSign(s[i]))
  {
    assert |s| >= 1 && IsSign(s[0]) ==> forall i :: 1 <= i < |s| ==> s[i] == s[1..][i - 1];
    if |s| > 0 && IsSign(s[0]) then |s| >= 2 && AllDigits(s[1..])
    else |s| >= 1 && AllDigits(s)
  }

  /** Decimal `parseInt(text)` on numeric-like text: the sign, then the
      value of the digits. */
  function ParseInt(s: string): (n: int)
    requires NumericLike(s)
    ensures s[0] == '-' ==> n == 0 - DigitsValue(s[1..]) && n <= 0
    ensures s[0] == '+' ==> n == DigitsValue(s[1..])
    ensures !IsSign(s[0]) ==> n == DigitsValue(s)
    ensures n < 0 ==> s[0] == '-'
  {
    if IsSign(s[0]) then
      var magnitude: int := DigitsValue(s[1..]);
      if s[0] == '-' then -magnitude else magnitude
    else DigitsValue(s)
  }

  /** Decimal digits of a natural number, no leading zero. */
  function ShowNat(n: nat): (s: string)
    ensures |s| >= 1 && AllDigits(s)
    ensures s[0] == '0' ==> n == 0
    ensures n == 0 ==> s == "0"
  {
    if n < 10 then [DigitChar(n)]
    else ShowNat(n / 10) + [DigitChar(n % 10)]
  }

  /** How a template literal prints an integer number: a minus sign for a
      negative number, never a plus sign, then the digits without leading
      zeros. */
  function Show(n: int): (s: string)
    ensures NumericLike(s)
    ensures n >= 0 ==> s == ShowNat(n)
    ensures n < 0 ==> s == "-" + ShowNat(-n)
    ensures Canonical(s)
  {
    if n < 0 then "-" + ShowNat(-n) else ShowNat(n)
  }

  /** `Math.round`: the nearest integer, halves rounded towards +infinity. */
  function JsRound(x: real): (r: int)
    ensures x - 1.0 / 2.0 < r as real <= x + 1.0 / 2.0
  {
    (x + 1.0 / 2.0).Floor
  }

  lemma {:induction false} DigitsOfShowNat(n: nat)
    ensures DigitsValue(ShowNat(n)) == n
  {
    if n >= 10 {
      var s := ShowNat(n);
      DigitsOfShowNat(n / 10);
      assert s[..|s| - 1] == ShowNat(n / 10);
    }
  }

  /** Printing an integer and parsing the text back gives the integer. */
  lemma ParseShowRoundTrip(n: int)
    ensures ParseInt(Show(n)) == n
  {
    if n < 0 {
      DigitsOfShowNat(-n);
      assert Show(n)[1..] == ShowNat(-n);
    } else {
      DigitsOfShowNat(n);
    }
  }

  /** Digit text as JavaScript prints a number: no `+`, no leading zero,
      no `-0`. */
  predicate Canonical(s: string) {
    NumericLike(s) && s[0] != '+' &&
    var digits := if s[0] == '-' then s[1..] else s;
    (digits[0] == '0' ==> |digits| == 1 && s[0] != '-')
  }

  /** A digit string not starting with `0` is worth at least 10^(k-1). */
  lemma {:induction false} DigitsLowerBound(s: string)
    requires |s| >= 1 && AllDigits(s) && s[0] != '0'
    ensures DigitsValue(s) >= Pow10(|s| - 1)
  {
    if |s| >= 2 {
      var p := s[..|s| - 1];
      assert p[0] == s[0];
      DigitsLowerBound(p);
    }
  }

  lemma {:induction false} ShowNatOfDigits(s: string)
    requires |s| >= 1 && AllDigits(s) && (s[0] == '0' ==> |s| == 1)
    ensures ShowNat(DigitsValue(s)) == s
  {
    if |s| >= 2 {
      var p := s[..|s| - 1];
      assert p[0] == s[0];
      DigitsLowerBound(s);
      ShowNatOfDigits(p);
      var m := DigitsValue(s);
      assert m / 10 == DigitsValue(p) && m % 10 == DigitValue(s[|s| - 1]);
      assert s == p + [s[|s| - 1]];
    }
  }

  /** Parsing canonical text and printing the number gives the text back. */
  lemma ShowParseRoundTrip(s: string)
    requires Canonical(s)
    ensures Show(ParseInt(s)) == s
  {
    if s[0] == '-' {
      ShowNatOfDigits(s[1..]);
      assert s == "-" + s[1..];
    } else {
      ShowNatOfDigits(s);
    }
  }

  /** Leading zeros do not change the parsed value. */
  lemma {:induction false} LeadingZeroIgnored(s: string)
    requires AllDigits(s)
    ensures AllDigits("0" + s)
    ensures DigitsValue("0" + s) == DigitsValue(s)
  {
    var t := "0" + s;
    assert forall i :: 0 < i < |t| ==> t[i] == s[i - 1];
    if s != [] {
      assert t[..|t| - 1] == "0" + s[..|s| - 1];
      LeadingZeroIgnored(s[..|s| - 1]);
    }
  }

  /** Rounding leaves integers alone. */
  lemma RoundOfInteger(n: int)
    ensures JsRound(n as real) == n
  {
  }

  /** Rounding never reverses the order of two distances. */
  lemma RoundMonotonic(x: real, y: real)
    requires x <= y
    ensures JsRound(x) <= JsRound(y)
  {
  }
}
