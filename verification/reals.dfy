/** Facts about real products that the model's length and determinant
    reasoning rests on. Each product is passed in as a named value `p`
    with `p == x * y` as a precondition, which keeps the solver's
    nonlinear reasoning local to the lemma. */
module Reals {

  lemma ProductPositive(x: real, y: real, p: real)
    requires p == x * y && x > 0.0 && y > 0.0
    ensures p > 0.0
  {
  }

  lemma ProductOfNegatives(x: real, y: real, p: real)
    requires p == x * y && x < 0.0 && y < 0.0
    ensures p > 0.0
  {
  }

  lemma ProductWithZero(x: real, y: real, p: real)
    requires p == x * y && x == 0.0
    ensures p == 0.0
  {
  }

  lemma ProductNonzero(x: real, y: real, p: real)
    requires p == x * y && x != 0.0 && y != 0.0
    ensures p != 0.0
  {
  }

  lemma ReciprocalOfProduct(x: real, y: real)
    requires x != 0.0 && y != 0.0
    ensures 1.0 / (x * y) == (1.0 / x) / y
  {
  }

  /** A square is non-negative and vanishes exactly at zero. */
  lemma Square(x: real, a: real)
    requires a == x * x
    ensures a >= 0.0
    ensures a == 0.0 <==> x == 0.0
  {
    if x > 0.0 {
      ProductPositive(x, x, a);
    } else if x < 0.0 {
      ProductOfNegatives(x, x, a);
    } else {
      ProductWithZero(x, x, a);
    }
  }

  /** A sum of three squares is non-negative and vanishes exactly when all
      three terms do. */
  lemma SumOfSquares(x: real, y: real, z: real, s: real)
    requires s == x * x + y * y + z * z
    ensures s >= 0.0
    ensures s == 0.0 <==> x == 0.0 && y == 0.0 && z == 0.0
  {
    Square(x, x * x);
    Square(y, y * y);
    Square(z, z * z);
  }

  /** Squaring is strictly increasing on the non-negative reals, so a
      non-negative square root is unique. */
  lemma SquareRootUnique(a: real, b: real, s: real)
    requires a >= 0.0 && b >= 0.0 && a * a == s && b * b == s
    ensures a == b
  {
    if a < b {
      ProductPositive(b - a, b + a, (b - a) * (b + a));
    } else if b < a {
      ProductPositive(a - b, a + b, (a - b) * (a + b));
    }
  }

  /** Multiplying by the reciprocal and then by the number gives back the
      original value. */
  lemma TimesReciprocal(x: real)
    requires x != 0.0
    ensures x * (1.0 / x) == 1.0
  {
  }

  lemma ReciprocalCancels(x: real, len: real)
    requires len != 0.0
    ensures (x * (1.0 / len)) * len == x
  {
    assert (1.0 / len) * len == 1.0;
    assert (x * (1.0 / len)) * len == x * ((1.0 / len) * len);
  }

  /** Scaling each of three terms by k scales their sum of squares by k*k. */
  lemma ScaledSumOfSquares(x: real, y: real, z: real, k: real, a: real, b: real, c: real, s: real, t: real)
    requires a == x * k && b == y * k && c == z * k
    requires s == x * x + y * y + z * z && t == a * a + b * b + c * c
    ensures t == s * (k * k)
  {
  }

  lemma ReciprocalSquare(len: real, s: real)
    requires len != 0.0 && s == len * len
    ensures s * ((1.0 / len) * (1.0 / len)) == 1.0
  {
    var k := 1.0 / len;
    assert k * len == 1.0;
    assert s * (k * k) == (k * len) * (k * len);
  }

  /** Turning by an angle and then by its opposite adds up to no turn: the
      addition formulas give sine 0 and cosine 1. */
  lemma OppositeTurn(s: real, c: real)
    requires s * s + c * c == 1.0
    ensures s * c + c * -s == 0.0 && c * c - s * -s == 1.0
  {
  }

  /** y * z2 - z * y2 vanishes when (y2, z2) is a second reading of (y, z). */
  lemma RereadCancels(y: real, z: real, y2: real, z2: real, p: real, q: real)
    requires y2 == y && z2 == z && p == y * z2 && q == z * y2
    ensures p == q
  {
  }
}
