/** Facts about truncating division of naturals by a variable divisor. */
module Arithmetic {

  lemma MulMonotone(a: nat, x: nat, y: nat)
    requires x <= y
    ensures 0 <= a * x <= a * y
  {
  }

  lemma DivBounds(a: nat, d: nat)
    requires d > 0
    ensures 0 <= a / d && a / d * d <= a < a / d * d + d
  {
  }

  lemma DivUnique(a: nat, d: nat, q: int)
    requires d > 0 && q * d <= a < q * d + d
    ensures a / d == q
  {
    DivBounds(a, d);
    var p := a / d;
    if p < q {
      MulMonotone(d, 1, q - p);
    } else if q < p {
      MulMonotone(d, 1, p - q);
    }
  }

  lemma DivMonotone(a: nat, b: nat, d: nat)
    requires a <= b && d > 0
    ensures a / d <= b / d
  {
    DivBounds(a, d);
    DivBounds(b, d);
    if b / d < a / d {
      MulMonotone(d, 1, a / d - b / d);
    }
  }
}
