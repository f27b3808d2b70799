/** Integer helpers shared by the views and the store: the smaller of two numbers, a
    share rounded to a whole percentage the way `Math.round(k / n * 100)` rounds it, and
    the facts about integer division those rest on. */
module Arith {

  function Min(a: int, b: int): int {
    if a <= b then a else b
  }

  /** `Math.round(k / n * 100)` in integer arithmetic: rounding half up is
      `(200 * k + n) / (2 * n)`. */
  function RoundPercent(k: nat, n: nat): nat
    requires n > 0
  {
    (200 * k + n) / (2 * n)
  }

  /** The rounded percentage is the whole number nearest to `100 * k / n`, a half
      rounding up: it brackets the exact value. It is at most 100 while `k <= n`, 100
      for `k == n` and 0 for `k == 0`. */
  lemma RoundPercentMeaning(k: nat, n: nat)
    requires n > 0
    ensures var q := RoundPercent(k, n);
      2 * n * q <= 200 * k + n < 2 * n * (q + 1)
    ensures k <= n ==> RoundPercent(k, n) <= 100
    ensures RoundPercent(n, n) == 100 && RoundPercent(0, n) == 0
  {
    var q := RoundPercent(k, n);
    DivBracket(200 * k + n, 2 * n);
    if k <= n {
      DivBelow(200 * k + n, 2 * n, 101);
    }
    DivUnique(200 * n + n, 2 * n, 100);
    DivUnique(n, 2 * n, 0);
  }

  lemma DivBracket(a: int, m: int)
    requires m > 0
    ensures (a / m) * m <= a < (a / m + 1) * m
  {
  }

  /** Euclidean division is the only quotient that brackets the dividend. */
  lemma DivUnique(a: int, m: int, q: int)
    requires m > 0 && q * m <= a < (q + 1) * m
    ensures a / m == q
  {
    DivAtLeast(a, m, q);
    DivBelow(a, m, q + 1);
  }

  /** A multiple of the divisor at most the dividend is at most the quotient. */
  lemma DivAtLeast(a: int, m: int, q: int)
    requires m > 0 && q * m <= a
    ensures q <= a / m
  {
    var d := a / m;
    DivBracket(a, m);
    assert (q - d) * m < m by {
      assert (q - d) * m == q * m - d * m;
    }
    MulBelow(q - d, m);
  }

  /** A multiple of the divisor above the dividend is above the quotient. */
  lemma DivBelow(a: int, m: int, q: int)
    requires m > 0 && a < q * m
    ensures a / m < q
  {
    var d := a / m;
    DivBracket(a, m);
    assert (d - q + 1) * m < m by {
      assert (d - q + 1) * m == d * m - q * m + m;
    }
    MulBelow(d - q + 1, m);
  }

  lemma MulBelow(x: int, m: int)
    requires m > 0 && x * m < m
    ensures x < 1
  {
  }
}
