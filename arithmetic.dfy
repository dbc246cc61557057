/** Integer facts shared by the grid and the quiz. */
module Arithmetic {

  /** Multiplying by a natural number keeps the order of the factors. */
  lemma {:induction false} MulLe(a: int, b: int, g: nat)
    requires a <= b
    ensures a * g <= b * g
    decreases b - a
  {
    if a < b {
      MulLe(a + 1, b, g);
      assert (a + 1) * g == a * g + g;
    }
  }
}
