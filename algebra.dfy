/**
 * Exact linear algebra over `real` for the mesh viewer: 2-, 3- and 4-vectors,
 * 4x4 matrices stored by rows, and the transcendental operations the program
 * borrows from its maths libraries, kept abstract.
 */
module Algebra {

  datatype Vec2 = Vec2(x: real, y: real)
  datatype Vec3 = Vec3(x: real, y: real, z: real)
  datatype Vec4 = Vec4(x: real, y: real, z: real, w: real)

  /** A 4x4 matrix given by its four rows. */
  datatype Mat4 = Mat4(r0: Vec4, r1: Vec4, r2: Vec4, r3: Vec4)

  /** A generic error outcome, for operations that throw in the program. */
  datatype Outcome<E> = Pass | Fail(error: E)

  datatype Option<T> = None | Some(value: T)

  datatype Result<T, E> = Ok(value: T) | Err(error: E)

  /**
   * The functions the program takes from the C maths library and from Eigen,
   * left uninterpreted: sine, cosine, tangent, square root and the inverse of a
   * 4x4 matrix. Lemmas that need one of their laws say so in a `requires`.
   */
  datatype Analytic = Analytic(
    sin: real -> real,
    cos: real -> real,
    tan: real -> real,
    sqrt: real -> real,
    inverse: Mat4 -> Mat4)

  const Zero3 := Vec3(0.0, 0.0, 0.0)

  // ----- 2-vectors -----

  function Add2(a: Vec2, b: Vec2): Vec2 { Vec2(a.x + b.x, a.y + b.y) }
  function Sub2(a: Vec2, b: Vec2): Vec2 { Vec2(a.x - b.x, a.y - b.y) }
  function Scale2(k: real, a: Vec2): Vec2 { Vec2(k * a.x, k * a.y) }

  // ----- 3-vectors -----

  function Add(a: Vec3, b: Vec3): Vec3 { Vec3(a.x + b.x, a.y + b.y, a.z + b.z) }
  function Sub(a: Vec3, b: Vec3): Vec3 { Vec3(a.x - b.x, a.y - b.y, a.z - b.z) }
  function Neg(a: Vec3): Vec3 { Vec3(-a.x, -a.y, -a.z) }
  function Scale(k: real, a: Vec3): Vec3 { Vec3(k * a.x, k * a.y, k * a.z) }
  /** Eigen's `v / k`: every coordinate divided by `k`. */
  function Div(a: Vec3, k: real): Vec3 requires k != 0.0 { Vec3(a.x / k, a.y / k, a.z / k) }
  function Dot(a: Vec3, b: Vec3): real { a.x * b.x + a.y * b.y + a.z * b.z }

  function Cross(a: Vec3, b: Vec3): Vec3 {
    Vec3(a.y * b.z - a.z * b.y, a.z * b.x - a.x * b.z, a.x * b.y - a.y * b.x)
  }

  // Small vector laws, stated once so that proofs can use them with the functions hidden.

  lemma DotScaleLeft(k: real, a: Vec3, b: Vec3)
    ensures Dot(Scale(k, a), b) == k * Dot(a, b)
  {
  }

  lemma ScaleSub(k: real, a: Vec3, b: Vec3)
    ensures Scale(k, Sub(a, b)) == Sub(Scale(k, a), Scale(k, b))
  {
  }

  lemma ScaleScale(k: real, l: real, a: Vec3)
    ensures Scale(k, Scale(l, a)) == Scale(k * l, a)
  {
  }

  lemma AddSubs(a: Vec3, b: Vec3, c: Vec3)
    ensures Add(Sub(a, b), Sub(c, a)) == Sub(c, b)
  {
  }

  /** The cross product is orthogonal to both of its factors. */
  lemma CrossOrthogonal(a: Vec3, b: Vec3)
    ensures Dot(Cross(a, b), a) == 0.0 && Dot(Cross(a, b), b) == 0.0
  {
  }

  /**
   * The factor Eigen's `normalized()` multiplies by: one over the length when
   * the squared length is positive, 1 otherwise (a zero vector is returned
   * unchanged). The second guard only matters for an abstract `sqrt` that
   * returns 0 on a positive argument.
   */
  function InverseLength(v: Vec3, an: Analytic): real {
    var n := Dot(v, v);
    if n > 0.0 && an.sqrt(n) != 0.0 then 1.0 / an.sqrt(n) else 1.0
  }

  /** Eigen's `normalized()`. */
  function Normalize(v: Vec3, an: Analytic): Vec3 {
    Scale(InverseLength(v, an), v)
  }

  /** A vector whose squared length is not positive is returned unchanged. */
  lemma NormalizeDegenerate(v: Vec3, an: Analytic)
    requires Dot(v, v) <= 0.0
    ensures Normalize(v, an) == v
  {
  }

  /** A square root that is positive on positive arguments and squares back. */
  ghost predicate SqrtLawsAt(an: Analytic, n: real) {
    n > 0.0 ==> an.sqrt(n) > 0.0 && an.sqrt(n) * an.sqrt(n) == n
  }

  /**
   * With an exact square root, normalizing a vector of positive length keeps
   * its direction and gives it length 1.
   */
  lemma NormalizeUnit(v: Vec3, an: Analytic)
    requires SqrtLawsAt(an, Dot(v, v)) && Dot(v, v) > 0.0
    ensures InverseLength(v, an) > 0.0
    ensures Dot(Normalize(v, an), Normalize(v, an)) == 1.0
  {
    var n := Dot(v, v);
    var s := an.sqrt(n);
    var k := 1.0 / s;
    assert Dot(Scale(k, v), Scale(k, v)) == k * k * n;
    assert k * k * n == (n / s) / s;
  }

  // ----- 4-vectors and matrices -----

  /** Homogeneous coordinates of a point. */
  function Point(p: Vec3): Vec4 { Vec4(p.x, p.y, p.z, 1.0) }

  /** The first three coordinates of a homogeneous vector. */
  function Xyz(v: Vec4): Vec3 { Vec3(v.x, v.y, v.z) }

  function Dot4(a: Vec4, b: Vec4): real { a.x * b.x + a.y * b.y + a.z * b.z + a.w * b.w }

  /** Matrix times column vector. */
  function Apply(m: Mat4, v: Vec4): Vec4 {
    Vec4(Dot4(m.r0, v), Dot4(m.r1, v), Dot4(m.r2, v), Dot4(m.r3, v))
  }

  /** Row vector times matrix: one row of a matrix product. */
  function RowTimes(v: Vec4, b: Mat4): Vec4 {
    Vec4(v.x * b.r0.x + v.y * b.r1.x + v.z * b.r2.x + v.w * b.r3.x,
         v.x * b.r0.y + v.y * b.r1.y + v.z * b.r2.y + v.w * b.r3.y,
         v.x * b.r0.z + v.y * b.r1.z + v.z * b.r2.z + v.w * b.r3.z,
         v.x * b.r0.w + v.y * b.r1.w + v.z * b.r2.w + v.w * b.r3.w)
  }

  /** The matrix product a * b. */
  function Mul(a: Mat4, b: Mat4): Mat4 {
    Mat4(RowTimes(a.r0, b), RowTimes(a.r1, b), RowTimes(a.r2, b), RowTimes(a.r3, b))
  }

  /** The fourth column of a matrix. */
  function Col3(m: Mat4): Vec4 { Vec4(m.r0.w, m.r1.w, m.r2.w, m.r3.w) }

  const Identity := Mat4(Vec4(1.0, 0.0, 0.0, 0.0), Vec4(0.0, 1.0, 0.0, 0.0),
                         Vec4(0.0, 0.0, 1.0, 0.0), Vec4(0.0, 0.0, 0.0, 1.0))

  /** Last row (0, 0, 0, 1): the matrix is an affine map of homogeneous points. */
  predicate Affine(m: Mat4) { m.r3 == Vec4(0.0, 0.0, 0.0, 1.0) }

  /** The translation part: the top three entries of the last column. */
  function TranslationOf(m: Mat4): Vec3 { Vec3(m.r0.w, m.r1.w, m.r2.w) }

  /** The last column of a product is the left factor applied to the last column of the right one. */
  lemma Col3OfMul(a: Mat4, b: Mat4)
    ensures Col3(Mul(a, b)) == Apply(a, Col3(b))
  {
  }

  /** For an affine matrix the last column is its translation as a point. */
  lemma AffineCol3(m: Mat4)
    requires Affine(m)
    ensures Col3(m) == Point(TranslationOf(m))
  {
  }

  /** Applying a product is applying its factors in turn, right factor first. */
  lemma ApplyMul(a: Mat4, b: Mat4, v: Vec4)
    ensures Apply(Mul(a, b), v) == Apply(a, Apply(b, v))
  {
    RowTimesDot(a.r0, b, v);
    RowTimesDot(a.r1, b, v);
    RowTimesDot(a.r2, b, v);
    RowTimesDot(a.r3, b, v);
  }

  lemma RowTimesDot(r: Vec4, b: Mat4, v: Vec4)
    ensures Dot4(RowTimes(r, b), v) == Dot4(r, Apply(b, v))
  {
    hide RowTimes;
    var p0, p1, p2, p3 := Scale4(r.x, b.r0), Scale4(r.y, b.r1), Scale4(r.z, b.r2), Scale4(r.w, b.r3);
    RowTimesAsSum(r, b);
    calc {
      Dot4(RowTimes(r, b), v);
      Dot4(Add4(Add4(p0, p1), Add4(p2, p3)), v);
      { DotAdd(Add4(p0, p1), Add4(p2, p3), v); DotAdd(p0, p1, v); DotAdd(p2, p3, v); }
      Dot4(p0, v) + Dot4(p1, v) + Dot4(p2, v) + Dot4(p3, v);
      { DotScale(r.x, b.r0, v); DotScale(r.y, b.r1, v); DotScale(r.z, b.r2, v); DotScale(r.w, b.r3, v); }
      r.x * Dot4(b.r0, v) + r.y * Dot4(b.r1, v) + r.z * Dot4(b.r2, v) + r.w * Dot4(b.r3, v);
    }
  }

  /** A row of a product is the combination of the right factor's rows weighted by the row. */
  lemma RowTimesAsSum(r: Vec4, b: Mat4)
    ensures RowTimes(r, b) == Add4(Add4(Scale4(r.x, b.r0), Scale4(r.y, b.r1)), Add4(Scale4(r.z, b.r2), Scale4(r.w, b.r3)))
  {
  }

  function Add4(a: Vec4, b: Vec4): Vec4 { Vec4(a.x + b.x, a.y + b.y, a.z + b.z, a.w + b.w) }
  function Scale4(k: real, a: Vec4): Vec4 { Vec4(k * a.x, k * a.y, k * a.z, k * a.w) }

  lemma DotAdd(a: Vec4, b: Vec4, v: Vec4)
    ensures Dot4(Add4(a, b), v) == Dot4(a, v) + Dot4(b, v)
  {
  }

  lemma DotScale(k: real, a: Vec4, v: Vec4)
    ensures Dot4(Scale4(k, a), v) == k * Dot4(a, v)
  {
  }

  /** Column j of a matrix, 0 <= j < 4. */
  function Column(m: Mat4, j: nat): Vec4
    requires j < 4
  {
    if j == 0 then Vec4(m.r0.x, m.r1.x, m.r2.x, m.r3.x)
    else if j == 1 then Vec4(m.r0.y, m.r1.y, m.r2.y, m.r3.y)
    else if j == 2 then Vec4(m.r0.z, m.r1.z, m.r2.z, m.r3.z)
    else Col3(m)
  }

  /** Component j of a row-times-matrix product is a dot product with column j. */
  lemma RowTimesColumns(r: Vec4, m: Mat4)
    ensures RowTimes(r, m) == Vec4(Dot4(r, Column(m, 0)), Dot4(r, Column(m, 1)),
                                   Dot4(r, Column(m, 2)), Dot4(r, Column(m, 3)))
  {
  }

  /** Column j of a product is the left factor applied to column j of the right factor. */
  lemma ColumnOfMul(a: Mat4, b: Mat4, j: nat)
    requires j < 4
    ensures Column(Mul(a, b), j) == Apply(a, Column(b, j))
  {
    RowTimesColumns(a.r0, b);
    RowTimesColumns(a.r1, b);
    RowTimesColumns(a.r2, b);
    RowTimesColumns(a.r3, b);
  }

  lemma RowTimesAssoc(r: Vec4, a: Mat4, b: Mat4)
    ensures RowTimes(RowTimes(r, a), b) == RowTimes(r, Mul(a, b))
  {
    RowTimesColumns(RowTimes(r, a), b);
    RowTimesColumns(r, Mul(a, b));
    forall j: nat | j < 4
      ensures Dot4(RowTimes(r, a), Column(b, j)) == Dot4(r, Column(Mul(a, b), j))
    {
      RowTimesDot(r, a, Column(b, j));
      ColumnOfMul(a, b, j);
    }
  }

  /** Matrix multiplication is associative. */
  lemma MulAssoc(a: Mat4, b: Mat4, c: Mat4)
    ensures Mul(Mul(a, b), c) == Mul(a, Mul(b, c))
  {
    RowTimesAssoc(a.r0, b, c);
    RowTimesAssoc(a.r1, b, c);
    RowTimesAssoc(a.r2, b, c);
    RowTimesAssoc(a.r3, b, c);
  }

  /** A product of affine matrices is affine. */
  lemma MulAffine(a: Mat4, b: Mat4)
    requires Affine(a) && Affine(b)
    ensures Affine(Mul(a, b))
  {
  }

  /** Left-multiplying an affine matrix by `a` moves its translation as `a` moves points. */
  lemma TranslationOfMul(a: Mat4, m: Mat4)
    requires Affine(a) && Affine(m)
    ensures Point(TranslationOf(Mul(a, m))) == Apply(a, Point(TranslationOf(m)))
  {
    MulAffine(a, m);
    Col3OfMul(a, m);
    AffineCol3(m);
    AffineCol3(Mul(a, m));
  }

  /** The identity leaves every vector as it is. */
  lemma ApplyIdentity(v: Vec4)
    ensures Apply(Identity, v) == v
  {
  }

  /** The identity is neutral on both sides. */
  lemma MulIdentity(m: Mat4)
    ensures Mul(Identity, m) == m && Mul(m, Identity) == m
  {
  }
}
