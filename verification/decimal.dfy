/** Decimal rendering of a natural number, as a template literal renders a
    numeric identifier, and the fact that distinct numbers render differently. */
module Decimal {

  function Digit(d: nat): (c: char)
    requires d < 10
    ensures '0' <= c <= '9'
    ensures c == '0' <==> d == 0
  {
    (48 + d) as char
  }

  /** The shortest decimal numeral of `n`: digits only, no leading zero. */
  function NatToString(n: nat): (s: string)
    ensures |s| >= 1
    ensures |s| == 1 <==> n < 10
    ensures forall i :: 0 <= i < |s| ==> '0' <= s[i] <= '9'
    ensures s[0] == '0' ==> n == 0
    decreases n
  {
    if n < 10 then [Digit(n)] else NatToString(n / 10) + [Digit(n % 10)]
  }

  lemma {:induction false} NatToStringInjective(a: nat, b: nat)
    requires NatToString(a) == NatToString(b)
    ensures a == b
    decreases a
  {
    var s := NatToString(a);
    if a < 10 {
      assert b < 10;
      assert Digit(a) == s[0] == Digit(b);
      assert (48 + a) as char as int == 48 + a;
      assert (48 + b) as char as int == 48 + b;
    } else {
      assert b >= 10;
      var sa, sb := NatToString(a / 10), NatToString(b / 10);
      assert s == sa + [Digit(a % 10)];
      assert s == sb + [Digit(b % 10)];
      assert |sa| == |sb|;
      assert sa == s[..|s| - 1] == sb;
      assert Digit(a % 10) == s[|s| - 1] == Digit(b % 10);
      assert (48 + a % 10) as char as int == 48 + a % 10;
      assert (48 + b % 10) as char as int == 48 + b % 10;
      NatToStringInjective(a / 10, b / 10);
    }
  }
}
