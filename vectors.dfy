/**
 * Three-component vectors over the reals. The renderer keeps every vector as
 * three scalar fields and writes dot and cross products out by hand; this
 * module names those expressions once so that their algebra can be proved.
 */
module Vectors {

  datatype Vec3 = Vec3(x: real, y: real, z: real)

  function Add(a: Vec3, b: Vec3): Vec3 {
    Vec3(a.x + b.x, a.y + b.y, a.z + b.z)
  }

  function Sub(a: Vec3, b: Vec3): Vec3 {
    Vec3(a.x - b.x, a.y - b.y, a.z - b.z)
  }

  function Scale(a: Vec3, k: real): Vec3 {
    Vec3(a.x * k, a.y * k, a.z * k)
  }

  function Dot(a: Vec3, b: Vec3): real {
    a.x * b.x + a.y * b.y + a.z * b.z
  }

  /** The cross product, component for component as renderer.rb writes it. */
  function Cross(a: Vec3, b: Vec3): Vec3 {
    Vec3(a.y * b.z - a.z * b.y,
         a.z * b.x - a.x * b.z,
         a.x * b.y - a.y * b.x)
  }

  lemma DotAdd(a: Vec3, b: Vec3, c: Vec3)
    ensures Dot(Add(a, b), c) == Dot(a, c) + Dot(b, c)
  {
  }

  lemma DotScaleLeft(a: Vec3, k: real, b: Vec3)
    ensures Dot(Scale(a, k), b) == k * Dot(a, b)
  {
  }

  lemma DotSymmetric(a: Vec3, b: Vec3)
    ensures Dot(a, b) == Dot(b, a)
  {
  }

  /** The cross product is orthogonal to both of its factors. */
  lemma CrossOrthogonal(a: Vec3, b: Vec3)
    ensures Dot(Cross(a, b), a) == 0.0
    ensures Dot(Cross(a, b), b) == 0.0
  {
    var c := Cross(a, b);
    calc {
      Dot(c, a);
      (a.y * b.z - a.z * b.y) * a.x + (a.z * b.x - a.x * b.z) * a.y + (a.x * b.y - a.y * b.x) * a.z;
      a.x * a.y * b.z - a.x * a.z * b.y + a.y * a.z * b.x - a.x * a.y * b.z + a.x * a.z * b.y - a.y * a.z * b.x;
      0.0;
    }
    calc {
      Dot(c, b);
      (a.y * b.z - a.z * b.y) * b.x + (a.z * b.x - a.x * b.z) * b.y + (a.x * b.y - a.y * b.x) * b.z;
      a.y * b.x * b.z - a.z * b.x * b.y + a.z * b.x * b.y - a.x * b.y * b.z + a.x * b.y * b.z - a.y * b.x * b.z;
      0.0;
    }
  }

  /** Scaling the left factor of a cross product scales the product. */
  lemma CrossScaleLeft(a: Vec3, k: real, b: Vec3)
    ensures Cross(Scale(a, k), b) == Scale(Cross(a, b), k)
  {
    var l := Cross(Scale(a, k), b);
    var r := Scale(Cross(a, b), k);
    assert l.x == (a.y * b.z - a.z * b.y) * k;
    assert l.y == (a.z * b.x - a.x * b.z) * k;
    assert l.z == (a.x * b.y - a.y * b.x) * k;
  }

  /** The squared length of a scaled vector is the squared factor times the squared length. */
  lemma NormSquaredScale(a: Vec3, k: real)
    ensures Dot(Scale(a, k), Scale(a, k)) == k * k * Dot(a, a)
  {
    calc {
      Dot(Scale(a, k), Scale(a, k));
      (a.x * k) * (a.x * k) + (a.y * k) * (a.y * k) + (a.z * k) * (a.z * k);
      k * k * (a.x * a.x) + k * k * (a.y * a.y) + k * k * (a.z * a.z);
      k * k * Dot(a, a);
    }
  }

  /**
   * Lagrange's identity: |a × b|² = |a|²|b|² − (a·b)². It is what makes the
   * renderer's re-orthogonalised up vector non-zero.
   */
  lemma Lagrange(a: Vec3, b: Vec3)
    ensures Dot(Cross(a, b), Cross(a, b)) == Dot(a, a) * Dot(b, b) - Dot(a, b) * Dot(a, b)
  {
    var cx := a.y * b.z - a.z * b.y;
    var cy := a.z * b.x - a.x * b.z;
    var cz := a.x * b.y - a.y * b.x;
    assert cx * cx == a.y * a.y * (b.z * b.z) - 2.0 * (a.y * b.z) * (a.z * b.y) + a.z * a.z * (b.y * b.y);
    assert cy * cy == a.z * a.z * (b.x * b.x) - 2.0 * (a.z * b.x) * (a.x * b.z) + a.x * a.x * (b.z * b.z);
    assert cz * cz == a.x * a.x * (b.y * b.y) - 2.0 * (a.x * b.y) * (a.y * b.x) + a.y * a.y * (b.x * b.x);
    var d := Dot(a, b);
    assert d * d == a.x * a.x * (b.x * b.x) + a.y * a.y * (b.y * b.y) + a.z * a.z * (b.z * b.z)
                    + 2.0 * (a.x * b.x) * (a.y * b.y) + 2.0 * (a.x * b.x) * (a.z * b.z) + 2.0 * (a.y * b.y) * (a.z * b.z);
    assert Dot(a, a) * Dot(b, b) ==
      a.x * a.x * (b.x * b.x) + a.x * a.x * (b.y * b.y) + a.x * a.x * (b.z * b.z)
      + a.y * a.y * (b.x * b.x) + a.y * a.y * (b.y * b.y) + a.y * a.y * (b.z * b.z)
      + a.z * a.z * (b.x * b.x) + a.z * a.z * (b.y * b.y) + a.z * a.z * (b.z * b.z);
  }

  /** The scalar triple product is invariant under exchanging dot and cross. */
  lemma TripleProduct(a: Vec3, b: Vec3, c: Vec3)
    ensures Dot(Cross(a, b), c) == Dot(a, Cross(b, c))
  {
    calc {
      Dot(Cross(a, b), c);
      (a.y * b.z - a.z * b.y) * c.x + (a.z * b.x - a.x * b.z) * c.y + (a.x * b.y - a.y * b.x) * c.z;
      a.x * (b.y * c.z - b.z * c.y) + a.y * (b.z * c.x - b.x * c.z) + a.z * (b.x * c.y - b.y * c.x);
      Dot(a, Cross(b, c));
    }
  }

  /** A squared length is never negative. */
  lemma NormSquaredNonNegative(a: Vec3)
    ensures Dot(a, a) >= 0.0
  {
    SquareNonNegative(a.x);
    SquareNonNegative(a.y);
    SquareNonNegative(a.z);
  }

  lemma SquareNonNegative(x: real)
    ensures x * x >= 0.0
  {
    if x < 0.0 {
      assert x * x == (-x) * (-x);
    }
  }
}
