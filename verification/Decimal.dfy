/** Decimal notation of natural numbers. */
module Decimal {

  function Digit(d: nat): (c: char)
    requires d < 10
    ensures '0' <= c <= '9' && c as int - '0' as int == d
  {
    ('0' as int + d) as char
  }

  predicate IsDigit(c: char) {
    '0' <= c <= '9'
  }

  function Written(n: nat): (s: string)
    ensures s != [] && forall i :: 0 <= i < |s| ==> IsDigit(s[i])
  {
    if n < 10 then [Digit(n)] else Written(n / 10) + [Digit(n % 10)]
  }

  /** Two numbers are not written alike. */
  lemma {:induction false} WrittenInjective(n: nat, m: nat)
    requires Written(n) == Written(m)
    ensures n == m
    decreases n
  {
    var s, t := Written(n), Written(m);
    assert s[|s| - 1] == t[|t| - 1];
    assert |s| > 1 <==> n >= 10;
    assert |t| > 1 <==> m >= 10;
    if n >= 10 {
      assert s[..|s| - 1] == Written(n / 10) && t[..|t| - 1] == Written(m / 10);
      WrittenInjective(n / 10, m / 10);
    }
  }

  function Power10(k: nat): (p: nat)
    ensures p >= 1
  {
    if k == 0 then 1 else 10 * Power10(k - 1)
  }

  /** A number has k digits exactly when it lies between two powers of ten. */
  lemma {:induction false} Digits(n: nat, k: nat)
    requires n >= 1 && k >= 1
    ensures |Written(n)| == k <==> Power10(k - 1) <= n < Power10(k)
    decreases n
  {
    if n < 10 {
      if k >= 2 { AtLeastTen(k - 1); }
      assert Power10(1) == 10 * Power10(0) == 10;
    } else if k == 1 {
      assert Power10(1) == 10 * Power10(0) == 10;
    } else {
      Digits(n / 10, k - 1);
      assert Power10(k) == 10 * Power10(k - 1) && Power10(k - 1) == 10 * Power10(k - 2);
    }
  }

  lemma AtLeastTen(k: nat)
    requires k >= 1
    ensures Power10(k) >= 10
  {
    assert Power10(k) == 10 * Power10(k - 1);
  }

  /** Powers of ten outgrow any number. */
  lemma {:induction false} PowerExceeds(n: nat)
    ensures Power10(n) > n
  {
    if n > 0 { PowerExceeds(n - 1); }
  }

  lemma {:induction false} PowerGrows(k: nat, m: nat)
    requires k <= m
    ensures Power10(k) <= Power10(m)
    decreases m
  {
    if k < m { PowerGrows(k, m - 1); }
  }
}
