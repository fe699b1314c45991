/** Integer model of the win-rate formula `Math.round((wins / total) * 100)`. */
module Rounding {

  /**
   * 100 * part / whole rounded half up: the result is the integer nearest to
   * the exact percentage, ties going up, and never exceeds 100 when part is at
   * most whole.
   */
  function RoundedPercent(part: nat, whole: nat): (r: nat)
    requires whole > 0
    ensures 2 * whole * r <= 200 * part + whole < 2 * whole * (r + 1)
    ensures part <= whole ==> r <= 100
  {
    var n, d := 200 * part + whole, 2 * whole;
    DivisionBounds(n, d);
    if part <= whole then
      AtMostHundred(n, d, n / d);
      n / d
    else
      n / d
  }

  lemma DivisionBounds(n: nat, d: nat)
    requires d > 0
    ensures d * (n / d) <= n < d * (n / d + 1)
  {
    assert n == d * (n / d) + n % d;
  }

  lemma AtMostHundred(n: nat, d: nat, q: nat)
    requires d > 0 && d * q <= n && 2 * n <= 201 * d
    ensures q <= 100
  {
    assert d * q < d * 101;
    assert d * (101 - q) > 0;
  }
}
