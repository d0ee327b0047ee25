/// Small facts of real arithmetic used by the motion proofs. Each one is kept
/// to a single non-linear step so that the solver settles it on its own.
module RealArith {

  lemma PosMul(x: real, y: real)
    requires x > 0.0 && y > 0.0
    ensures x * y > 0.0
  {
  }

  /// Squaring is monotone on the non-negative reals.
  lemma SquareBelow(s: real, m: real)
    requires 0.0 <= s <= m
    ensures s * s <= m * m
  {
    assert s * s <= s * m;
    assert s * m <= m * m;
  }

  /// Strictly above a positive bound, the square is strictly above too.
  lemma SquareAbove(s: real, m: real)
    requires 0.0 < m < s
    ensures s * s > m * m
  {
    PosMul(s - m, s + m);
  }

  lemma InvMul(s: real)
    requires s != 0.0
    ensures s * (1.0 / s) == 1.0
  {
  }

  lemma DivIsMulInv(w: real, s: real)
    requires s != 0.0
    ensures w / s == w * (1.0 / s)
  {
  }

  lemma SquareOne(s: real, i: real)
    requires s * i == 1.0
    ensures (s * s) * (i * i) == 1.0
  {
    assert (s * s) * (i * i) == (s * i) * (s * i);
  }

  lemma MulEq(x: real, y: real, z: real)
    requires x == y
    ensures x * z == y * z
  {
  }

  lemma UnitScaled(wx: real, wy: real, s: real, i: real)
    requires s * s == wx * wx + wy * wy && s * i == 1.0
    ensures (wx * i) * (wx * i) + (wy * i) * (wy * i) == 1.0
  {
    SquareOne(s, i);
    MulEq(s * s, wx * wx + wy * wy, i * i);
  }

  /// Dividing a vector by its length gives a unit vector.
  lemma UnitLength(wx: real, wy: real, s: real)
    requires s > 0.0 && s * s == wx * wx + wy * wy
    ensures (wx / s) * (wx / s) + (wy / s) * (wy / s) == 1.0
  {
    InvMul(s);
    UnitScaled(wx, wy, s, 1.0 / s);
    DivIsMulInv(wx, s);
    DivIsMulInv(wy, s);
  }

  /// Dividing both coordinates by the same length keeps the direction.
  lemma DivParallel(a: real, b: real, s: real)
    requires s != 0.0
    ensures (a / s) * b == (b / s) * a
  {
    DivIsMulInv(a, s);
    DivIsMulInv(b, s);
    assert (a * (1.0 / s)) * b == (b * (1.0 / s)) * a;
  }

  /// A positive rescaling keeps the sign.
  lemma ScaleSign(x: real, s: real, m: real)
    requires s > 0.0 && m > 0.0
    ensures (x / s) * m > 0.0 <==> x > 0.0
    ensures (x / s) * m < 0.0 <==> x < 0.0
  {
    if x > 0.0 {
      PosMul(x / s, m);
    } else if x < 0.0 {
      PosMul(-x / s, m);
    }
  }

  /// Multiplying by a length and dividing by it again is the identity.
  lemma MulDiv(x: real, a: real)
    requires a != 0.0
    ensures (x * a) / a == x
  {
  }

  /// A vector of unit length scaled by a keeps the square of a.
  lemma ScaledSquare(mx: real, my: real, a: real)
    requires mx * mx + my * my == 1.0
    ensures (mx * a) * (mx * a) + (my * a) * (my * a) == a * a
  {
    MulEq(mx * mx + my * my, 1.0, a * a);
  }
}
