/** Decimal numerals, as template literals and `String(n)` write a non-negative integer. */
module Decimal {
  function Digit(d: nat): char
    requires d < 10
  {
    '0' + d as char
  }

  function Dec(n: nat): string {
    if n < 10 then [Digit(n)] else Dec(n / 10) + [Digit(n % 10)]
  }

  predicate IsNumeral(s: string) {
    s != "" && forall i | 0 <= i < |s| :: '0' <= s[i] <= '9'
  }

  function Val(s: string): nat
    requires forall i | 0 <= i < |s| :: '0' <= s[i] <= '9'
  {
    if s == "" then 0 else 10 * Val(s[..|s| - 1]) + (s[|s| - 1] - '0') as nat
  }

  lemma {:induction false} ValDec(n: nat)
    ensures IsNumeral(Dec(n)) && Val(Dec(n)) == n
  {
    if n >= 10 {
      ValDec(n / 10);
      assert Dec(n)[..|Dec(n)| - 1] == Dec(n / 10);
    } else {
      assert Dec(n)[..0] == "";
    }
  }

  /** Different counters write different ids. */
  lemma DecInjective(prefix: string, m: nat, n: nat)
    requires prefix + Dec(m) == prefix + Dec(n)
    ensures m == n
  {
    assert Dec(m) == (prefix + Dec(m))[|prefix|..];
    assert Dec(n) == (prefix + Dec(n))[|prefix|..];
    ValDec(m);
    ValDec(n);
  }
}
