// Facts about a fraction x / y of a positive real, used for the success
// rates and pass ratios that the reports compute.
module Fractions {
  /** A part of a positive whole is a fraction between 0 and 1. */
  lemma DivBounds(x: real, y: real)
    requires 0.0 <= x <= y && 0.0 < y
    ensures 0.0 <= x / y <= 1.0
  {
    assert (x / y) * y == x;
  }

  /** The fraction is 1 exactly when the part is the whole. */
  lemma DivIsOne(x: real, y: real)
    requires 0.0 < y
    ensures x / y == 1.0 <==> x == y
  {
    assert (x / y) * y == x;
  }

  /** The fraction is at least one half exactly when twice the part reaches the whole. */
  lemma DivAtLeastHalf(x: real, y: real)
    requires 0.0 < y
    ensures x / y >= 0.5 <==> 2.0 * x >= y
  {
    var q := x / y;
    assert q * y == x;
    if q >= 0.5 {
      assert (q - 0.5) * y >= 0.0;
    } else {
      assert (0.5 - q) * y > 0.0;
    }
  }
}
