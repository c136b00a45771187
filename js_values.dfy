/**
 * The few pieces of JavaScript value semantics the watchdog relies on:
 * values of the objects it builds, truthiness of configuration strings,
 * rendering of values inside template literals, `Math.floor(a / b)`,
 * the truncating `%` operator, and `String(n)` for integers with its
 * inverse.
 */
module JsValues {
  import opened Wrappers

  /** A value stored under a key of an object the service builds or returns. */
  datatype JsValue = JStr(s: string) | JNum(n: int) | JNull | JUndefined

  /** `!!v` for a value read from the environment: unset and "" are falsy. */
  predicate Truthy(v: Option<string>)
  {
    v.Some? && v.value != ""
  }

  /** `${v}` inside a template literal: an unset value renders as "undefined". */
  function TemplateText(v: Option<string>): (t: string)
    ensures v.Some? ==> t == v.value
    ensures v.None? ==> t == "undefined"
  {
    if v.Some? then v.value else "undefined"
  }

  /** `Math.floor(a / b)` for integers and a positive divisor. */
  function FloorDiv(a: int, b: int): (q: int)
    requires b > 0
    ensures b * q <= a < b * (q + 1)
  {
    a / b
  }

  /** The quotient of `a / b` rounded toward zero (`Math.trunc`). */
  function TruncDiv(a: int, b: int): (q: int)
    requires b > 0
    ensures a >= 0 ==> q == FloorDiv(a, b)
    ensures a < 0 ==> q == -FloorDiv(-a, b)
  {
    if a >= 0 then a / b else -((-a) / b)
  }

  /** JavaScript's `a % b`: the remainder takes the sign of the dividend. */
  function Rem(a: int, b: int): (r: int)
    requires b > 0
    ensures a == b * TruncDiv(a, b) + r
    ensures a >= 0 ==> 0 <= r < b
    ensures a < 0 ==> -b < r <= 0
  {
    if a >= 0 then a % b
    else
      assert -a == b * ((-a) / b) + (-a) % b;
      -((-a) % b)
  }

  predicate IsDigit(c: char)
  {
    '0' <= c <= '9'
  }

  predicate AllDigits(s: string)
  {
    forall i | 0 <= i < |s| :: IsDigit(s[i])
  }

  function DigitChar(d: int): (c: char)
    requires 0 <= d < 10
    ensures IsDigit(c)
  {
    ('0' as int + d) as char
  }

  function DigitValue(c: char): (d: int)
    requires IsDigit(c)
    ensures 0 <= d < 10 && DigitChar(d) == c
  {
    c as int - '0' as int
  }

  /** The value of a string of decimal digits, most significant first. */
  function DigitsValue(s: string): nat
    requires AllDigits(s)
    decreases |s|
  {
    if s == [] then 0 else 10 * DigitsValue(s[..|s| - 1]) + DigitValue(s[|s| - 1])
  }

  /** The decimal digits of `n` with no leading zero. */
  function NatToString(n: nat): (s: string)
    ensures |s| > 0 && AllDigits(s)
    ensures |s| > 1 ==> s[0] != '0'
    ensures n > 0 ==> s[0] != '0'
    decreases n
  {
    if n < 10 then [DigitChar(n)] else NatToString(n / 10) + [DigitChar(n % 10)]
  }

  /** Characters a decimal numeral may contain. */
  predicate NumberChars(s: string)
  {
    forall k | 0 <= k < |s| :: IsDigit(s[k]) || s[k] == '-'
  }

  /**
   * `String(i)` for an integer-valued number: the canonical numeral, digits
   * with no leading zero, preceded by '-' exactly when `i` is negative.
   */
  function IntToString(i: int): (s: string)
    ensures ParseInt(s) == Some(i)
    ensures NumberChars(s)
    ensures i >= 0 ==> AllDigits(s) && (|s| > 1 ==> s[0] != '0')
    ensures i < 0 ==> |s| > 1 && s[0] == '-' && AllDigits(s[1..]) && s[1] != '0'
  {
    NatToStringRoundTrip(if i < 0 then -i else i);
    var digits := NatToString(if i < 0 then -i else i);
    if i < 0 then
      assert ("-" + digits)[1..] == digits;
      "-" + digits
    else
      digits
  }

  /** Reads back what `IntToString` writes: an optional minus sign and digits. */
  function ParseInt(s: string): Option<int>
  {
    if |s| > 1 && s[0] == '-' && AllDigits(s[1..]) then Some(0 - DigitsValue(s[1..]) as int)
    else if |s| > 0 && AllDigits(s) then Some(DigitsValue(s))
    else None
  }

  lemma {:induction false} NatToStringRoundTrip(n: nat)
    ensures DigitsValue(NatToString(n)) == n
    decreases n
  {
    var s := NatToString(n);
    if n >= 10 {
      assert s[..|s| - 1] == NatToString(n / 10);
      NatToStringRoundTrip(n / 10);
    }
  }
}
