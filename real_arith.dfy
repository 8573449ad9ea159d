// Products of reals behind a function, with the handful of facts the
// strategy proofs need. Keeping every product inside `Mul` lets the solver
// treat a product as one term and use these lemmas instead of guessing.
module RealArith {
  function Mul(a: real, b: real): real
  {
    a * b
  }

  function Sq(x: real): real
  {
    Mul(x, x)
  }

  lemma MulPositive(a: real, b: real)
    requires a > 0.0 && b > 0.0
    ensures Mul(a, b) > 0.0
  {
  }

  lemma MulNonNegative(a: real, b: real)
    requires a >= 0.0 && b >= 0.0
    ensures Mul(a, b) >= 0.0
  {
  }

  lemma MulCommutes(a: real, b: real)
    ensures Mul(a, b) == Mul(b, a)
  {
  }

  lemma MulAssociates(a: real, b: real, c: real)
    ensures Mul(a, Mul(b, c)) == Mul(Mul(a, b), c)
  {
  }

  lemma MulNegNeg(a: real, b: real)
    ensures Mul(-a, -b) == Mul(a, b)
  {
  }

  /** Multiplying by a positive factor preserves strict order. */
  lemma MulStrictOrder(k: real, a: real, b: real)
    requires k > 0.0
    ensures Mul(k, a) > Mul(k, b) <==> a > b
    ensures Mul(k, a) < Mul(k, b) <==> a < b
  {
    assert Mul(k, a) - Mul(k, b) == Mul(k, a - b);
    if a > b {
      MulPositive(k, a - b);
    } else if a < b {
      MulPositive(k, b - a);
      assert Mul(k, b) - Mul(k, a) == Mul(k, b - a);
    }
  }

  /** A square is non-negative, and zero only at zero. */
  lemma SquareSign(d: real)
    ensures Sq(d) >= 0.0
    ensures d != 0.0 ==> Sq(d) > 0.0
  {
    if d > 0.0 {
      MulPositive(d, d);
    } else if d < 0.0 {
      MulPositive(-d, -d);
      MulNegNeg(d, d);
    }
  }

  /** Squaring is strictly increasing on the non-negative reals. */
  lemma SquareMonotone(x: real, y: real)
    requires 0.0 <= x < y
    ensures Sq(x) < Sq(y)
  {
    assert Sq(y) - Sq(x) == Mul(y - x, y + x);
    MulPositive(y - x, y + x);
  }

  /** For b >= 0: a > b iff a is positive with the larger square; for
      b > 0: a < b iff a is non-positive or has the smaller square. */
  lemma SquaresOrdered(a: real, b: real)
    ensures b >= 0.0 ==> (a > b <==> a > 0.0 && Sq(a) > Sq(b))
    ensures b > 0.0 ==> (a < b <==> a <= 0.0 || Sq(a) < Sq(b))
  {
    if b >= 0.0 {
      if a > b {
        SquareMonotone(b, a);
      } else if a > 0.0 {
        if a < b {
          SquareMonotone(a, b);
        }
      }
    }
  }

  lemma SquareOfProduct(a: real, b: real)
    ensures Sq(Mul(a, b)) == Mul(Sq(a), Sq(b))
  {
  }

  lemma SquareOfNegation(a: real)
    ensures Sq(-a) == Sq(a)
  {
    MulNegNeg(a, a);
  }

  /** Division undone by multiplication. */
  lemma DivTimes(d: real, s: real)
    requires s != 0.0
    ensures Mul(d / s, s) == d
  {
  }

  /** Division by a positive number preserves strict order. */
  lemma DivStrictOrder(a: real, b: real, k: real)
    requires k > 0.0
    ensures a / k > b <==> a > Mul(b, k)
    ensures a / k < b <==> a < Mul(b, k)
  {
    DivTimes(a, k);
    MulCommutes(a / k, k);
    MulCommutes(b, k);
    MulStrictOrder(k, a / k, b);
  }

  lemma MulDistributes(a: real, b: real, c: real)
    ensures Mul(a, b + c) == Mul(a, b) + Mul(a, c)
    ensures Mul(a, b - c) == Mul(a, b) - Mul(a, c)
    ensures Mul(b + c, a) == Mul(b, a) + Mul(c, a)
    ensures Mul(b - c, a) == Mul(b, a) - Mul(c, a)
  {
  }

  /** A quotient is the one number that multiplies back to the dividend. */
  lemma DivUnique(x: real, y: real, z: real)
    requires z != 0.0 && Mul(x, z) == y
    ensures x == y / z
  {
    DivTimes(y, z);
    assert Mul(x - y / z, z) == 0.0 by {
      MulDistributes(z, x, y / z);
      MulCommutes(z, x);
      MulCommutes(z, y / z);
    }
    if x - y / z > 0.0 {
      MulPositive(x - y / z, if z > 0.0 then z else -z);
      assert false by { MulDistributes(x - y / z, 0.0, z); }
    } else if x - y / z < 0.0 {
      MulPositive(-(x - y / z), if z > 0.0 then z else -z);
      assert false by { MulNegNeg(x - y / z, z); MulDistributes(-(x - y / z), 0.0, z); }
    }
  }
}
