/**
 * How a JavaScript template literal renders an integer (`${n}`): optional minus sign, then
 * decimal digits with no leading zeros. Purchase identifiers are built from such renderings,
 * so the model needs to know when two renderings can be equal.
 */
module Decimal {

  predicate IsDigit(c: char) {
    '0' <= c <= '9'
  }

  function Digit(d: nat): (c: char)
    requires d < 10
    ensures IsDigit(c)
  {
    (d + 48) as char
  }

  /** Decimal digits of a natural number, most significant first. */
  function NatText(n: nat): (s: string)
    ensures |s| >= 1
    ensures forall k :: 0 <= k < |s| ==> IsDigit(s[k])
    ensures (|s| == 1) == (n < 10)
    decreases n
  {
    if n < 10 then [Digit(n)] else NatText(n / 10) + [Digit(n % 10)]
  }

  /** `${i}` for an integer `i`. */
  function Text(i: int): (s: string)
    ensures |s| >= 1
    ensures (s[0] == '-') == (i < 0)
    ensures i < 0 ==> |s| >= 2
    ensures forall k :: 1 <= k < |s| ==> IsDigit(s[k])
    ensures i >= 0 ==> IsDigit(s[0])
  {
    if i < 0 then "-" + NatText(-i) else NatText(i)
  }

  /** The number a string of digits denotes, most significant first. */
  function NatValue(s: string): nat
    requires forall k :: 0 <= k < |s| ==> IsDigit(s[k])
    decreases |s|
  {
    if s == [] then 0
    else
      assert IsDigit(s[|s| - 1]);
      NatValue(s[..|s| - 1]) * 10 + (s[|s| - 1] as int - '0' as int)
  }

  /** The integer a rendering denotes: an optional minus sign, then digits. */
  function Value(s: string): int
    requires |s| >= 1 && forall k :: 1 <= k < |s| ==> IsDigit(s[k])
    requires s[0] != '-' ==> IsDigit(s[0])
  {
    if s[0] == '-' then -(NatValue(s[1..]) as int) else NatValue(s)
  }

  /** Reading back the digits of `n` gives `n`. */
  lemma {:induction false} NatTextRoundTrip(n: nat)
    ensures NatValue(NatText(n)) == n
    decreases n
  {
    if n >= 10 {
      var s := NatText(n);
      assert s[..|s| - 1] == NatText(n / 10);
      NatTextRoundTrip(n / 10);
    }
  }

  /** Reading back `${i}` gives `i`. */
  lemma TextRoundTrip(i: int)
    ensures Value(Text(i)) == i
  {
    if i < 0 {
      assert Text(i)[1..] == NatText(-i);
      NatTextRoundTrip(-i);
    } else {
      NatTextRoundTrip(i);
    }
  }

  /** Two naturals with the same rendering are equal. */
  lemma NatTextInjective(a: nat, b: nat)
    requires NatText(a) == NatText(b)
    ensures a == b
  {
    NatTextRoundTrip(a);
    NatTextRoundTrip(b);
  }

  /** Two integers with the same rendering are equal: `${a}` is a faithful key for `a`. */
  lemma TextInjective(a: int, b: int)
    requires Text(a) == Text(b)
    ensures a == b
  {
    TextRoundTrip(a);
    TextRoundTrip(b);
  }

}
