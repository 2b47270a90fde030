/** String predicates used by the form schemas, and the part of JavaScript's
    `Number()` conversion they rely on: the empty string and strings of ASCII
    decimal digits. Any other string converts to NaN here. */
module FormText {
  import opened Wrappers

  predicate IsDigit(c: char) {
    '0' <= c <= '9'
  }

  /** The pattern `/^\d*$/`: every character is an ASCII digit. */
  predicate AllDigits(s: string) {
    forall i :: 0 <= i < |s| ==> IsDigit(s[i])
  }

  /** The pattern `/^\d+$/`: one or more ASCII digits. */
  predicate SomeDigits(s: string) {
    |s| > 0 && AllDigits(s)
  }

  /** zod's `.min(1)` on a string. */
  predicate NonEmpty(s: string) {
    |s| >= 1
  }

  function DigitValue(c: char): (d: nat)
    requires IsDigit(c)
    ensures d < 10
  {
    c as int - '0' as int
  }

  function DigitChar(d: nat): (c: char)
    requires d < 10
    ensures IsDigit(c) && DigitValue(c) == d
  {
    ('0' as int + d) as char
  }

  /** The value of a string of decimal digits, most significant first. */
  function DigitsValue(s: string): nat
    requires AllDigits(s)
    decreases |s|
  {
    if s == [] then 0 else DigitsValue(s[..|s| - 1]) * 10 + DigitValue(s[|s| - 1])
  }

  /** `Number(s)`: `Some(n)` for a number, `None` for NaN. `Number("")` is 0. */
  function NumberOf(s: string): (r: Option<nat>)
    ensures r.Some? <==> AllDigits(s)
    ensures s == [] ==> r == Some(0)
  {
    if AllDigits(s) then Some(DigitsValue(s)) else None
  }

  /** `const num = Number(s); return !isNaN(num) && num >= lo && num <= hi`. */
  predicate NumberInRange(s: string, lo: int, hi: int) {
    match NumberOf(s)
    case Some(n) => lo <= n <= hi
    case None => false
  }

  /** The decimal rendering of a natural number, without leading zeros. */
  function DecimalString(n: nat): (s: string)
    ensures SomeDigits(s)
    decreases n
  {
    if n < 10 then [DigitChar(n)] else DecimalString(n / 10) + [DigitChar(n % 10)]
  }

  /** `Number` reads back the number a decimal string was rendered from. */
  lemma {:induction false} DecimalRoundTrip(n: nat)
    ensures NumberOf(DecimalString(n)) == Some(n)
    decreases n
  {
    var s := DecimalString(n);
    if n < 10 {
      assert s[..|s| - 1] == [];
      assert DigitsValue(s) == DigitValue(DigitChar(n));
    } else {
      DecimalRoundTrip(n / 10);
      assert s[..|s| - 1] == DecimalString(n / 10);
    }
  }

  /** A range check on a decimal string is the range check on its number. */
  lemma DecimalInRange(n: nat, lo: int, hi: int)
    ensures NumberInRange(DecimalString(n), lo, hi) <==> lo <= n <= hi
  {
    DecimalRoundTrip(n);
  }

  /** The unsigned part of the phone pattern: a digit 1-9 followed by 1 to
      14 further digits. */
  predicate UnsignedPhone(t: string) {
    2 <= |t| <= 15 && '1' <= t[0] <= '9' && AllDigits(t[1..])
  }

  /** The pattern `/^\+?[1-9]\d{1,14}$/`, read left to right: a leading `+`
      can only be matched by `\+?`, so it is stripped before the rest. */
  predicate PhonePattern(s: string) {
    var t := if |s| > 0 && s[0] == '+' then s[1..] else s;
    UnsignedPhone(t)
  }

  /** The two alternatives of the optional `+`, and the digit count. */
  lemma PhonePatternAlternatives(s: string)
    ensures PhonePattern(s) <==> UnsignedPhone(s) || (|s| > 0 && s[0] == '+' && UnsignedPhone(s[1..]))
    ensures PhonePattern(s) ==> 2 <= |s| <= 16
  {
  }

  /** Every string built the way the pattern describes is accepted. */
  lemma PhonePatternBuilds(plus: bool, lead: char, rest: string)
    requires '1' <= lead <= '9' && AllDigits(rest) && 1 <= |rest| <= 14
    ensures PhonePattern((if plus then "+" else "") + [lead] + rest)
  {
    var s := (if plus then "+" else "") + [lead] + rest;
    var t := [lead] + rest;
    if plus {
      assert s[1..] == t;
    } else {
      assert s == t;
    }
    assert t[1..] == rest;
  }
}
