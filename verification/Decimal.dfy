/** Decimal numerals: `to_string`, `format!("{}")` and `str::parse` for unsigned integers. */
module Decimal {
  import opened Common

  predicate IsDigit(c: char) {
    '0' <= c <= '9'
  }

  predicate Digits(s: string) {
    forall i | 0 <= i < |s| :: IsDigit(s[i])
  }

  function Digit(d: nat): (c: char)
    requires d < 10
    ensures IsDigit(c) && c as int == 48 + d
  {
    (48 + d) as char
  }

  function Show(n: nat): (s: string)
    ensures s != "" && Digits(s)
  {
    if n < 10 then [Digit(n)] else Show(n / 10) + [Digit(n % 10)]
  }

  function Value(s: string): nat
    requires Digits(s)
  {
    if s == "" then 0
    else
      10 * Value(s[..|s| - 1]) + (s[|s| - 1] as int - 48)
  }

  /** Rust's `parse` for an unsigned type with largest value `max`: an optional `+`, then digits only. */
  function ParseUnsigned(s: string, max: nat): Option<nat> {
    var digits := if |s| > 0 && s[0] == '+' then s[1..] else s;
    if digits == "" || !Digits(digits) || Value(digits) > max then None
    else Some(Value(digits))
  }

  lemma {:induction false} ValueShow(n: nat)
    ensures Value(Show(n)) == n
  {
    if n >= 10 {
      ValueShow(n / 10);
      assert Show(n)[..|Show(n)| - 1] == Show(n / 10);
    }
  }

  /** Parsing a printed number gives it back exactly when it fits the target type. */
  lemma ParseShow(n: nat, max: nat)
    ensures ParseUnsigned(Show(n), max) == if n <= max then Some(n) else None
  {
    ValueShow(n);
  }

  /** A number below ten to the `k` has at most `k` digits. */
  lemma {:induction false} ShowLength(n: nat, k: nat, bound: nat)
    requires k >= 1 && bound == Pow10(k) && n < bound
    ensures |Show(n)| <= k
  {
    if n >= 10 {
      ShowLength(n / 10, k - 1, Pow10(k - 1));
    }
  }

  function Pow10(k: nat): nat {
    if k == 0 then 1 else 10 * Pow10(k - 1)
  }

  lemma ShowUsize(n: nat)
    requires n <= USIZE_MAX
    ensures |Show(n)| <= 20
  {
    assert Pow10(20) == 100_000_000_000_000_000_000 by {
      assert Pow10(5) == 100_000;
      assert Pow10(10) == 100_000 * Pow10(5);
      assert Pow10(15) == 100_000 * Pow10(10);
      assert Pow10(20) == 100_000 * Pow10(15);
    }
    ShowLength(n, 20, Pow10(20));
  }
}
