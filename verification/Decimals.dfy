/** Numbers as Go prints them with %d. */
module Decimals {

  function Digit(d: nat): (c: char)
    requires d < 10
    ensures '0' <= c <= '9'
  {
    '0' + d as char
  }

  function Decimal(n: nat): (s: string)
    ensures s != "" && forall c | c in s :: '0' <= c <= '9'
  {
    if n < 10 then [Digit(n)] else Decimal(n / 10) + [Digit(n % 10)]
  }

  /** Different numbers print differently. */
  lemma {:induction false} DecimalInjective(m: nat, n: nat)
    requires Decimal(m) == Decimal(n)
    ensures m == n
  {
    var s := Decimal(m);
    if m < 10 && n < 10 {
      assert s[0] == Digit(m) == Digit(n);
    } else if m >= 10 && n >= 10 {
      assert Decimal(m / 10) == s[..|s| - 1] == Decimal(n / 10);
      assert Digit(m % 10) == s[|s| - 1] == Digit(n % 10);
      DecimalInjective(m / 10, n / 10);
    }
  }

  /** The number that decimal digits stand for. */
  ghost function Number(s: string): int {
    if s == "" then 0 else 10 * Number(s[..|s| - 1]) + (s[|s| - 1] as int - '0' as int)
  }

  /** What is printed is the number in its digits, without a leading zero. */
  lemma {:induction false} DecimalReads(n: nat)
    ensures Number(Decimal(n)) == n && (Decimal(n)[0] == '0' ==> n == 0)
  {
    var s := Decimal(n);
    if n < 10 {
      assert s[..0] == "";
    } else {
      DecimalReads(n / 10);
      assert s[..|s| - 1] == Decimal(n / 10);
    }
  }

  lemma SuffixInjective(prefix: string, m: nat, n: nat)
    requires prefix + Decimal(m) == prefix + Decimal(n)
    ensures m == n
  {
    assert (prefix + Decimal(m))[|prefix|..] == Decimal(m);
    assert (prefix + Decimal(n))[|prefix|..] == Decimal(n);
    DecimalInjective(m, n);
  }
}
