/** Facts about products of reals that the solver does not find unaided. */
module RealArith {

  /** The distance from lo up to hi. Kept as a function so that products with it are not
      distributed over the subtraction. */
  function Span(lo: real, hi: real): real
  {
    hi - lo
  }

  /** `x / 2`: the centre of a side of length x. */
  function Half(x: real): real
  {
    x / 2.0
  }

  /** `Math.min` on two numbers. */
  function Min(a: real, b: real): (m: real)
    ensures m <= a && m <= b && (m == a || m == b)
  {
    if a <= b then a else b
  }

  /** `Math.max` on two numbers. */
  function Max(a: real, b: real): (m: real)
    ensures m >= a && m >= b && (m == a || m == b)
  {
    if a >= b then a else b
  }

  lemma NonNegProduct(a: real, b: real)
    requires a >= 0.0 && b >= 0.0
    ensures a * b >= 0.0
  {
  }

  /** Multiplying by a positive factor preserves strict order both ways. */
  lemma ScaleLess(a: real, b: real, s: real)
    requires s > 0.0
    ensures a * s < b * s <==> a < b
  {
    if a < b {
      assert (b - a) * s > 0.0;
    } else {
      assert (a - b) * s >= 0.0;
    }
  }

  /** Dividing by a positive number preserves order. */
  lemma DivideMonotone(a: real, b: real, m: real)
    requires m > 0.0 && a <= b
    ensures a / m <= b / m
  {
    var qa, qb := a / m, b / m;
    assert qa * m == a && qb * m == b;
    ScaleLess(qb, qa, m);
  }

  lemma DivideSelf(m: real)
    requires m != 0.0
    ensures m / m == 1.0
  {
    var q := m / m;
    assert q * m == m;
    assert (q - 1.0) * m == 0.0;
  }

  /** A factor in [0, 1] shrinks a non-negative number. */
  lemma FractionOf(r: real, c: real)
    requires 0.0 <= r <= 1.0 && c >= 0.0
    ensures 0.0 <= r * c <= c
  {
    NonNegProduct(r, c);
    NonNegProduct(1.0 - r, c);
    assert c - r * c == (1.0 - r) * c;
  }
}
