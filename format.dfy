/** Decimal rendering of integers, as Go's `%d` verb prints them. */
module Format {

  function DigitChar(d: nat): (c: char)
    requires d < 10
    ensures '0' <= c <= '9' && c as int - '0' as int == d
  {
    ((d + '0' as int) as char)
  }

  predicate IsDecimal(s: string) {
    forall i :: 0 <= i < |s| ==> '0' <= s[i] <= '9'
  }

  /** The shortest decimal numeral of `n`: digits only, no leading zero unless `n` is 0. */
  function NatToString(n: nat): (s: string)
    ensures 1 <= |s| && IsDecimal(s)
    ensures s[0] == '0' <==> n == 0
    ensures n < 10 <==> |s| == 1
  {
    if n < 10 then [DigitChar(n)] else NatToString(n / 10) + [DigitChar(n % 10)]
  }

  /** `%d` of a signed integer: a minus sign before the magnitude when negative. */
  function IntToString(i: int): (s: string)
    ensures 1 <= |s|
    ensures i < 0 <==> s[0] == '-'
    ensures i >= 0 ==> s == NatToString(i)
    ensures i < 0 ==> s[1..] == NatToString(-i)
  {
    if i < 0 then "-" + NatToString(-i) else NatToString(i)
  }

  /** Different numbers never print alike. */
  lemma {:induction false} NatToStringInjective(a: nat, b: nat)
    requires NatToString(a) == NatToString(b)
    ensures a == b
  {
    if a >= 10 && b >= 10 {
      var sa, sb := NatToString(a), NatToString(b);
      assert sa[|sa| - 1] == sb[|sb| - 1];
      assert a % 10 == b % 10;
      assert sa[..|sa| - 1] == NatToString(a / 10);
      assert sb[..|sb| - 1] == NatToString(b / 10);
      NatToStringInjective(a / 10, b / 10);
    }
  }

  lemma IntToStringInjective(a: int, b: int)
    requires IntToString(a) == IntToString(b)
    ensures a == b
  {
    if a < 0 {
      NatToStringInjective(-a, -b);
    } else {
      NatToStringInjective(a, b);
    }
  }

  /** Equal strings with a common prefix agree after it. */
  lemma DropPrefix(pre: string, x: string, y: string)
    requires pre + x == pre + y
    ensures x == y
  {
    assert x == (pre + x)[|pre|..];
    assert y == (pre + y)[|pre|..];
  }
}
