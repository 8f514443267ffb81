/**
 * Small shared vocabulary: an optional value (a JavaScript property that may
 * be undefined), the JavaScript comparisons the appender uses on numeric
 * options that may be undefined, and decimal text for integers.
 */
module Base {

  datatype Option<+T> = None | Some(value: T)

  /** `x < y` in JavaScript, where `y` may be undefined (then the comparison is false). */
  predicate Below(x: int, y: Option<int>)
  {
    y.Some? && x < y.value
  }

  /** `x >= y` in JavaScript, where `y` may be undefined (then the comparison is false). */
  predicate AtLeast(x: int, y: Option<int>)
  {
    y.Some? && x >= y.value
  }

  /** `x > y` in JavaScript, where `y` may be undefined (then the comparison is false). */
  predicate Exceeds(x: int, y: Option<int>)
  {
    y.Some? && x > y.value
  }

  /** `x < y` in JavaScript where both sides may be undefined. */
  predicate OptionBelow(x: Option<int>, y: Option<int>)
  {
    x.Some? && y.Some? && x.value < y.value
  }

  function Digit(d: nat): (c: char)
    requires d < 10
    ensures '0' <= c <= '9' && c as int - '0' as int == d
  {
    ('0' as int + d) as char
  }

  /** The number a string of decimal digits denotes, most significant digit first. */
  function DecimalValue(s: string): nat
    requires forall i :: 0 <= i < |s| ==> '0' <= s[i] <= '9'
  {
    if s == [] then 0 else 10 * DecimalValue(s[..|s| - 1]) + (s[|s| - 1] as int - '0' as int)
  }

  /** The decimal text of a natural number: its digits, with no leading zero. */
  function NatText(n: nat): (s: string)
    ensures |s| >= 1
    ensures forall i :: 0 <= i < |s| ==> '0' <= s[i] <= '9'
    ensures DecimalValue(s) == n
    ensures |s| > 1 ==> s[0] != '0'
    decreases n
  {
    if n < 10 then [Digit(n)]
    else
      var s := NatText(n / 10) + [Digit(n % 10)];
      assert s[..|s| - 1] == NatText(n / 10);
      s
  }

  /** `n.toString()` for an integral number: a minus sign before the digits of a negative number. */
  function IntText(n: int): (s: string)
    ensures |s| >= 1
    ensures (s[0] == '-') <==> n < 0
    ensures n >= 0 ==> s == NatText(n)
    ensures n < 0 ==> s[1..] == NatText(-n)
  {
    if n < 0 then "-" + NatText(-n) else NatText(n)
  }

  /** The text of an integer reads back as that integer. */
  lemma IntTextValue(n: int)
    ensures var s := IntText(n);
      if s[0] == '-' then DecimalValue(s[1..]) == -n else DecimalValue(s) == n
  {
  }

  /** Different integers have different texts. */
  lemma IntTextInjective(m: int, n: int)
    requires IntText(m) == IntText(n)
    ensures m == n
  {
    IntTextValue(m);
    IntTextValue(n);
  }
}
