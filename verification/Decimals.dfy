/** Numbers in decimal, as the source formats them into identities and file names. */
module Decimals {
  const DIGITS: string := "0123456789"

  function Decimal(n: nat): (s: string)
    ensures s != ""
  {
    if n < 10 then [DIGITS[n]] else Decimal(n / 10) + [DIGITS[n % 10]]
  }

  lemma {:induction false} DecimalInjective(m: nat, n: nat)
    requires Decimal(m) == Decimal(n)
    ensures m == n
  {
    var a, b := Decimal(m), Decimal(n);
    assert a[|a| - 1] == DIGITS[m % 10] && b[|b| - 1] == DIGITS[n % 10];
    if m >= 10 && n >= 10 {
      assert a[..|a| - 1] == Decimal(m / 10) && b[..|b| - 1] == Decimal(n / 10);
      DecimalInjective(m / 10, n / 10);
    }
  }

  /** The number a text of digits stands for. */
  function Number(s: string): int {
    if s == "" then 0 else Number(s[..|s| - 1]) * 10 + (s[|s| - 1] as int - 48)
  }

  /** The decimal text of a number stands for it, without a leading zero. */
  lemma {:induction false} DecimalReads(n: nat)
    ensures Number(Decimal(n)) == n
    ensures n > 0 ==> Decimal(n)[0] != '0'
  {
    var s := Decimal(n);
    assert s[|s| - 1] == DIGITS[n % 10];
    if n < 10 {
      assert s[..0] == "";
    } else {
      assert s[..|s| - 1] == Decimal(n / 10);
      DecimalReads(n / 10);
    }
  }

  lemma DigitsAreNumerals(i: nat)
    requires i < 10
    ensures '0' <= DIGITS[i] <= '9'
  {
  }

  lemma {:induction false} DecimalIsNumeral(n: nat, i: nat)
    requires i < |Decimal(n)|
    ensures '0' <= Decimal(n)[i] <= '9'
  {
    DigitsAreNumerals(n % 10);
    if n >= 10 && i < |Decimal(n)| - 1 {
      DecimalIsNumeral(n / 10, i);
    }
  }

  lemma NoHashAfter(a: string, n: nat, i: nat)
    requires |a| < i < |a + "#" + Decimal(n)|
    ensures (a + "#" + Decimal(n))[i] != '#'
  {
    DecimalIsNumeral(n, i - |a| - 1);
  }

  /** The last `#` splits a numbered text into its base and its number. */
  lemma NumberSplits(a: string, b: string, m: nat, n: nat)
    requires a + "#" + Decimal(m) == b + "#" + Decimal(n)
    ensures a == b && m == n
  {
    var s := a + "#" + Decimal(m);
    assert s[|a|] == '#' && s[|b|] == '#';
    if |a| < |b| {
      NoHashAfter(a, m, |b|);
    } else if |b| < |a| {
      NoHashAfter(b, n, |a|);
    } else {
      assert a == s[..|a|] && b == s[..|a|];
      assert Decimal(m) == s[|a| + 1..] && Decimal(n) == s[|a| + 1..];
      DecimalInjective(m, n);
    }
  }
}
