/** Small facts about real arithmetic that the physics proofs rest on, kept in
    a module of their own so that each is proved without the physics
    definitions in scope. */
module RealFacts {

  function Min(a: real, b: real): real { if a <= b then a else b }
  function Max(a: real, b: real): real { if a >= b then a else b }
  function Abs(a: real): real { if a < 0.0 then -a else a }

  /** A factor equal to one leaves a product unchanged; called with the
      squared length of a unit vector as `u`. */
  lemma ScaleUnit(k: real, u: real)
    requires u == 1.0
    ensures k * u == k
  {
  }

  /** Multiplication distributes over a difference named `k`. */
  lemma MulDiff(a: real, x: real, y: real, k: real)
    requires k == x - y
    ensures a * k == a * x - a * y
  {
  }

  /** Multiplication regroups. */
  lemma MulAssoc(a: real, x: real, y: real)
    ensures a * x * y == a * (x * y)
    ensures -a * x * y == -(a * (x * y))
  {
  }

  /** A product of two nonnegative reals is nonnegative. */
  lemma NonNegProduct(a: real, b: real)
    requires a >= 0.0 && b >= 0.0
    ensures a * b >= 0.0
  {
  }

  /** Multiplying by a nonnegative factor preserves order. */
  lemma MulMonotone(a: real, b: real, k: real)
    requires a <= b && k >= 0.0
    ensures a * k <= b * k
  {
    NonNegProduct(b - a, k);
    assert (b - a) * k == b * k - a * k;
  }

  /** A nonnegative value scaled by a fraction in [0, 1] does not grow. */
  lemma FractionOf(a: real, k: real)
    requires a >= 0.0 && 0.0 <= k <= 1.0
    ensures a * k <= a
  {
    MulMonotone(k, 1.0, a);
  }

  /** A nonnegative factor comes out of the magnitude unchanged. */
  lemma AbsOfScaled(a: real, k: real)
    requires k >= 0.0
    ensures Abs(a * k) == Abs(a) * k
  {
    if a >= 0.0 {
      NonNegProduct(a, k);
    } else {
      NonNegProduct(-a, k);
      assert a * k == -((-a) * k);
    }
  }

  /** Blending from `a` toward `b` by a fraction in [0, 1] does not go below
      the smaller end. */
  lemma BlendLower(a: real, b: real, k: real)
    requires 0.0 <= k <= 1.0
    ensures Min(a, b) <= a + (b - a) * k
  {
    if a <= b {
      NonNegProduct(b - a, k);
    } else {
      MulMonotone(k, 1.0, a - b);
    }
  }

  /** Blending from `a` toward `b` by a fraction in [0, 1] does not go above
      the larger end. */
  lemma BlendUpper(a: real, b: real, k: real)
    requires 0.0 <= k <= 1.0
    ensures a + (b - a) * k <= Max(a, b)
  {
    if a <= b {
      MulMonotone(k, 1.0, b - a);
    } else {
      NonNegProduct(a - b, k);
    }
  }

  /** Blending from `a` toward `b` by a fraction in [0, 1] stays between them. */
  lemma BlendBetween(a: real, b: real, k: real)
    requires 0.0 <= k <= 1.0
    ensures Min(a, b) <= a + (b - a) * k <= Max(a, b)
  {
    BlendLower(a, b, k);
    BlendUpper(a, b, k);
  }

  /** The square of a real, kept as a function so that facts about squares
      are stated on the square itself. */
  function Sq(x: real): real { x * x }

  /** The product of two positive reals is positive. */
  lemma PositiveProduct(a: real, b: real, p: real)
    requires a > 0.0 && b > 0.0 && p == a * b
    ensures p > 0.0
  {
    MulMonotone(0.0, a, b);
    assert p != 0.0;
  }

  /** A square is never negative. */
  lemma SqNonNeg(x: real)
    ensures Sq(x) >= 0.0
  {
    if x < 0.0 {
      NonNegProduct(-x, -x);
    } else {
      NonNegProduct(x, x);
    }
  }

  /** A nonzero real has a positive square. */
  lemma SqPositive(x: real)
    requires x != 0.0
    ensures Sq(x) > 0.0
  {
    if x < 0.0 {
      PositiveProduct(-x, -x, Sq(x));
    } else {
      PositiveProduct(x, x, Sq(x));
    }
  }

  /** A nonzero vector has a positive squared length. */
  lemma SqSumPositive(x: real, y: real)
    requires x != 0.0 || y != 0.0
    ensures Sq(x) + Sq(y) > 0.0
  {
    SqNonNeg(x);
    SqNonNeg(y);
    if x != 0.0 {
      SqPositive(x);
    } else {
      SqPositive(y);
    }
  }

  /** The square of a product is the product of the squares. */
  lemma SqProduct(x: real, k: real)
    ensures Sq(x * k) == Sq(x) * Sq(k)
  {
  }

  /** The square of a fraction in [0, 1] stays in [0, 1], and below 1 when
      the fraction is. */
  lemma SqFraction(k: real)
    requires 0.0 <= k <= 1.0
    ensures 0.0 <= Sq(k) <= 1.0 && (k < 1.0 ==> Sq(k) < 1.0)
  {
    NonNegProduct(k, k);
    FractionOf(k, k);
  }

  /** Multiplication distributes over a sum. */
  lemma SumScaled(a: real, b: real, q: real)
    ensures (a + b) * q == a * q + b * q
  {
  }

  /** Replacing one non-negative summand by a smaller one and scaling by a
      fraction in [0, 1) gives strictly less than the positive original sum. */
  lemma ShrinkSum(a: real, b: real, b': real, q: real)
    requires a >= 0.0 && 0.0 <= b' <= b && a + b > 0.0 && 0.0 <= q < 1.0
    ensures (a + b') * q < a + b
  {
    MulMonotone(a + b', a + b, q);
    PositiveProduct(a + b, 1.0 - q, (a + b) * (1.0 - q));
    assert (a + b) * (1.0 - q) == a + b - (a + b) * q;
  }
}
