/** The fee as the program computes it, in fractions, against the integer `Fee`. */
module Rounding {
  import opened SequentialBank

  /** `round` of the C library: to the nearest integer, halves away from zero. */
  function Rounded(x: real): int {
    if x >= 0.0 then (x + 0.5).Floor else -((-x + 0.5).Floor)
  }

  const PERCENTAGE := 100.0

  lemma FloorOfQuotient(n: int, x: real)
    requires x * 200.0 == n as real
    ensures x.Floor == n / 200
  {
    var q, r := n / 200, n % 200;
    assert n == 200 * q + r && 0 <= r < 200;
    assert (x - q as real) * 200.0 == r as real;
    assert q as real <= x < q as real + 1.0;
  }

  lemma Exactly(bal: int, rate: int, x: real)
    requires x == bal as real * (rate as real / PERCENTAGE)
    ensures x * 200.0 == (2 * bal * rate) as real
  {
    assert rate as real / PERCENTAGE * 200.0 == 2.0 * rate as real;
    assert x * 200.0 == bal as real * (rate as real / PERCENTAGE * 200.0);
    assert bal as real * (2.0 * rate as real) == 2.0 * (bal as real * rate as real);
    assert (bal * rate) as real == bal as real * rate as real;
  }

  /** The program's fee is the integer fee, for balances of either sign. */
  lemma FeeIsRounded(bal: int, rate: int)
    requires rate >= 0
    ensures Rounded(bal as real * (rate as real / PERCENTAGE)) == Fee(bal, rate)
  {
    var x := bal as real * (rate as real / PERCENTAGE);
    Exactly(bal, rate, x);
    if bal >= 0 {
      assert x >= 0.0;
      FloorOfQuotient(2 * bal * rate + 100, x + 0.5);
    } else {
      assert -2 * bal * rate == -(2 * bal * rate);
      FloorOfQuotient(-2 * bal * rate + 100, -x + 0.5);
      if x >= 0.0 {
        assert rate == 0 || x < 0.0;
        assert x == 0.0;
      }
    }
  }
}
