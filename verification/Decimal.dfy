/** Integers as text, as SQL's CAST and Python's str render them. */
module Decimal {
  function Digits(n: nat): (s: string)
    ensures |s| > 0
    ensures forall i :: 0 <= i < |s| ==> '0' <= s[i] <= '9'
  {
    if n < 10 then [('0' as int + n) as char] else Digits(n / 10) + [('0' as int + n % 10) as char]
  }

  function Show(n: int): string {
    if n < 0 then "-" + Digits(-n) else Digits(n)
  }

  /** Different numbers have different texts. */
  lemma {:induction false} DigitsInjective(m: nat, n: nat)
    requires Digits(m) == Digits(n)
    ensures m == n
  {
    if m < 10 && n < 10 {
      assert Digits(m)[0] == Digits(n)[0];
    } else {
      var s := Digits(m);
      assert m >= 10 && n >= 10 by {
        assert m < 10 ==> |s| == 1;
        assert n < 10 ==> |s| == 1;
        assert m >= 10 ==> |s| == |Digits(m / 10)| + 1;
        assert n >= 10 ==> |s| == |Digits(n / 10)| + 1;
      }
      assert s[..|s| - 1] == Digits(m / 10) == Digits(n / 10);
      assert s[|s| - 1] as int == '0' as int + m % 10 == '0' as int + n % 10;
      DigitsInjective(m / 10, n / 10);
    }
  }
}
