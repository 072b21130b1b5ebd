/** Integer facts the rounding and counting proofs share. */
module Arith {

  lemma MulAtLeast(k: int, f: int)
    requires k >= 1 && f >= 0
    ensures f * k >= f
  {
  }

  /** A multiple of `f` leaves no remainder. */
  lemma MultipleMod(q: int, f: int)
    requires f >= 1
    ensures (q * f) % f == 0
  {
    var m := q * f;
    var d := m / f;
    assert m == f * d + m % f;
    assert f * (q - d) == m % f;
    if q - d >= 1 {
      MulAtLeast(q - d, f);
    } else if q - d <= -1 {
      MulAtLeast(d - q, f);
    }
  }

  /** Division by a positive divisor is determined by quotient and remainder. */
  lemma DivUnique(x: int, f: int, q: int, r: int)
    requires f >= 1 && 0 <= r < f && x == q * f + r
    ensures x / f == q
  {
    var d := x / f;
    assert x == f * d + x % f;
    assert f * (q - d) == x % f - r;
    if q - d >= 1 {
      MulAtLeast(q - d, f);
    } else if q - d <= -1 {
      MulAtLeast(d - q, f);
    }
  }
}
