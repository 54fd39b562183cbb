/** Quotients of counts as exact rationals. */
module Fractions {

  lemma {:induction false} DivideMonotone(a: nat, b: nat, n: nat)
    requires a <= b && n > 0
    ensures a as real / n as real <= b as real / n as real
  {
  }

  // A part of a whole lies between 0 and 1, which it reaches when it is nothing or all.
  lemma {:induction false} Part(x: real, w: real, share: real)
    requires 0.0 <= x <= w && w > 0.0 && share == x / w
    ensures 0.0 <= share <= 1.0
    ensures share == 0.0 <==> x == 0.0
    ensures share == 1.0 <==> x == w
  {
    assert share * w == x;
  }

  lemma {:induction false} Fraction(a: nat, n: nat)
    requires a <= n && n > 0
    ensures 0.0 <= a as real / n as real <= 1.0
    ensures a as real / n as real == 0.0 <==> a == 0
    ensures a as real / n as real == 1.0 <==> a == n
  {
    Part(a as real, n as real, a as real / n as real);
  }
}
