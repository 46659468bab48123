/**
 * The viewing camera: its parameters, which the viewer edits in place, and
 * the two matrices derived from them, the view matrix (world to camera
 * space, looking down -z) and the projection matrix (camera space to clip
 * space, orthographic or perspective).
 */
module Cameras {
  import opened Algebra
  import opened Utils

  const PROJECTION_ORTHOGRAPHIC := 0
  const PROJECTION_PERSPECTIVE := 1

  /** The world's up direction the view frame is built from. */
  const WorldUp := Vec3(0.0, 1.0, 0.0)

  class Camera {
    var position: Vec3
    var target: Vec3
    var projectionType: int
    var aspectRatio: real
    var near: real
    var far: real
    var fieldOfView: real

    /** Stores every parameter as given. */
    constructor (position: Vec3, target: Vec3, projectionType: int, aspectRatio: real,
                 near: real, far: real, fieldOfView: real)
      ensures this.position == position && this.target == target
      ensures this.projectionType == projectionType && this.aspectRatio == aspectRatio
      ensures this.near == near && this.far == far && this.fieldOfView == fieldOfView
    {
      this.position := position;
      this.target := target;
      this.aspectRatio := aspectRatio;
      this.near := near;
      this.far := far;
      this.fieldOfView := fieldOfView;
      this.projectionType := projectionType;
    }

    /** The parameters as one value, so that "nothing else changes" is one equation. */
    function Parameters(): CameraParameters
      reads this
    {
      CameraParameters(position, target, projectionType, aspectRatio, near, far, fieldOfView)
    }

    method SetPosition(position: Vec3)
      modifies this
      ensures Parameters() == old(Parameters()).(position := position)
    {
      this.position := position;
    }

    method SetTarget(target: Vec3)
      modifies this
      ensures Parameters() == old(Parameters()).(target := target)
    {
      this.target := target;
    }

    method SetProjectionType(projectionType: int)
      modifies this
      ensures Parameters() == old(Parameters()).(projectionType := projectionType)
    {
      this.projectionType := projectionType;
    }

    method SetAspectRatio(aspectRatio: real)
      modifies this
      ensures Parameters() == old(Parameters()).(aspectRatio := aspectRatio)
    {
      this.aspectRatio := aspectRatio;
    }

    method SetNear(near: real)
      modifies this
      ensures Parameters() == old(Parameters()).(near := near)
    {
      this.near := near;
    }

    method SetFar(far: real)
      modifies this
      ensures Parameters() == old(Parameters()).(far := far)
    {
      this.far := far;
    }

    method SetFieldOfView(fieldOfView: real)
      modifies this
      ensures Parameters() == old(Parameters()).(fieldOfView := fieldOfView)
    {
      this.fieldOfView := fieldOfView;
    }

    /** Moves the eye by `d`; the target stays where it is. */
    method TranslateBy(d: Vec3)
      modifies this
      ensures position == Add(old(position), d)
      ensures Parameters() == old(Parameters()).(position := position)
    {
      position := Add(position, d);
    }
  }

  datatype CameraParameters = CameraParameters(
    position: Vec3, target: Vec3, projectionType: int, aspectRatio: real,
    near: real, far: real, fieldOfView: real)

  // ----- view matrix -----

  /** The rotation whose rows are the camera's right, up and backward directions. */
  function Orientation(right: Vec3, up: Vec3, back: Vec3): Mat4 {
    Mat4(Vec4(right.x, right.y, right.z, 0.0),
         Vec4(up.x, up.y, up.z, 0.0),
         Vec4(back.x, back.y, back.z, 0.0),
         Vec4(0.0, 0.0, 0.0, 1.0))
  }

  /** The camera's backward direction: from the target to the eye. */
  function Backward(position: Vec3, target: Vec3, an: Analytic): Vec3 {
    Normalize(Sub(position, target), an)
  }

  function Right(position: Vec3, target: Vec3, an: Analytic): Vec3 {
    Normalize(Cross(WorldUp, Backward(position, target, an)), an)
  }

  function CameraUp(position: Vec3, target: Vec3, an: Analytic): Vec3 {
    Cross(Backward(position, target, an), Right(position, target, an))
  }

  /** `getView`: move the eye to the origin, then turn the camera frame onto the axes. */
  function ViewMatrix(position: Vec3, target: Vec3, an: Analytic): (m: Mat4)
    ensures Affine(m)
  {
    var o := Orientation(Right(position, target, an), CameraUp(position, target, an), Backward(position, target, an));
    MulAffine(o, TranslationMatrix(Neg(position)));
    Mul(o, TranslationMatrix(Neg(position)))
  }

  /** Translating by -p and then turning onto a frame gives the frame's dot products with q - p. */
  lemma OrientedTranslation(right: Vec3, up: Vec3, back: Vec3, p: Vec3, q: Vec3)
    ensures Apply(Mul(Orientation(right, up, back), TranslationMatrix(Neg(p))), Point(q))
         == Vec4(Dot(right, Sub(q, p)), Dot(up, Sub(q, p)), Dot(back, Sub(q, p)), 1.0)
  {
    ApplyMul(Orientation(right, up, back), TranslationMatrix(Neg(p)), Point(q));
    TranslationMoves(Neg(p), q);
    assert Add(q, Neg(p)) == Sub(q, p);
  }

  /** A point seen through the view matrix has the frame's dot products as coordinates. */
  lemma ViewOfPoint(position: Vec3, target: Vec3, an: Analytic, q: Vec3)
    ensures var v := Apply(ViewMatrix(position, target, an), Point(q));
      var d := Sub(q, position);
      v == Vec4(Dot(Right(position, target, an), d), Dot(CameraUp(position, target, an), d),
                Dot(Backward(position, target, an), d), 1.0)
  {
    hide Right, CameraUp, Backward, Mul, Apply, TranslationMatrix;
    OrientedTranslation(Right(position, target, an), CameraUp(position, target, an), Backward(position, target, an), position, q);
  }

  /** The view matrix takes the eye to the origin. */
  lemma ViewMovesEyeToOrigin(position: Vec3, target: Vec3, an: Analytic)
    ensures Apply(ViewMatrix(position, target, an), Point(position)) == Vec4(0.0, 0.0, 0.0, 1.0)
  {
    ViewOfPoint(position, target, an, position);
  }

  lemma DotScaleRight(a: Vec3, k: real, b: Vec3)
    ensures Dot(a, Scale(k, b)) == k * Dot(a, b)
  {
  }

  lemma InverseLengthNonzero(v: Vec3, an: Analytic)
    ensures InverseLength(v, an) != 0.0
  {
  }

  /** A vector orthogonal to a non-zero multiple of `w` is orthogonal to `w`. */
  lemma OrthogonalToMultiple(a: Vec3, k: real, w: Vec3)
    requires k != 0.0 && Dot(a, Scale(k, w)) == 0.0
    ensures Dot(a, w) == 0.0
  {
    DotScaleRight(a, k, w);
  }

  /**
   * The target is on the camera's viewing axis: in camera space its x and y are
   * zero. This holds for every `sqrt`, since right and up are built by cross
   * products with a multiple of the eye-to-target direction.
   */
  lemma TargetOnViewAxis(position: Vec3, target: Vec3, an: Analytic)
    ensures var v := Apply(ViewMatrix(position, target, an), Point(target));
      v.x == 0.0 && v.y == 0.0 && v.w == 1.0
  {
    var w := Sub(position, target);
    var k := InverseLength(w, an);
    var back := Backward(position, target, an);
    var right := Right(position, target, an);
    var up := CameraUp(position, target, an);
    InverseLengthNonzero(w, an);
    assert back == Scale(k, w);
    ViewOfPoint(position, target, an, target);
    assert Sub(target, position) == Scale(-1.0, w);
    // right is a multiple of Cross(WorldUp, back), which is orthogonal to back
    var x := Cross(WorldUp, back);
    CrossOrthogonal(WorldUp, back);
    OrthogonalToMultiple(x, k, w);
    var kr := InverseLength(x, an);
    assert right == Scale(kr, x);
    assert Dot(right, w) == 0.0 by {
      DotScaleRight(w, kr, x);
    }
    DotScaleRight(right, -1.0, w);
    // up is Cross(back, right), orthogonal to back
    CrossOrthogonal(back, right);
    OrthogonalToMultiple(up, k, w);
    DotScaleRight(up, -1.0, w);
  }

  /**
   * With an exact square root the target lies in front of the camera, at the
   * eye-to-target distance down the -z axis.
   */
  lemma TargetDepth(position: Vec3, target: Vec3, an: Analytic)
    requires var w := Sub(position, target); Dot(w, w) > 0.0 && SqrtLawsAt(an, Dot(w, w))
    ensures Apply(ViewMatrix(position, target, an), Point(target)).z == -an.sqrt(Dot(Sub(position, target), Sub(position, target)))
  {
    var w := Sub(position, target);
    var n := Dot(w, w);
    var s := an.sqrt(n);
    var k := 1.0 / s;
    ViewOfPoint(position, target, an, target);
    assert Backward(position, target, an) == Scale(k, w);
    hide Right, CameraUp, Backward, ViewMatrix, Apply, Normalize, InverseLength;
    assert Sub(target, position) == Scale(-1.0, w);
    DotScaleRight(Scale(k, w), -1.0, w);
    DotScaleLeft(k, w, w);
    SqrtReciprocal(n, s);
  }

  /** `(1 / s) * n == s` when `s` is a positive square root of `n`. */
  lemma SqrtReciprocal(n: real, s: real)
    requires s > 0.0 && s * s == n
    ensures 1.0 / s * n == s
  {
  }

  // ----- projection matrix -----

  datatype ProjectionError = InvalidProjectionType(projectionType: int) | DegenerateFrustum

  function Abs(x: real): real { if x < 0.0 then -x else x }

  /** Half the height of the near plane: `tan(fov / 2) * |near|`. */
  function HalfHeight(fieldOfView: real, near: real, an: Analytic): real {
    an.tan(fieldOfView / 2.0) * Abs(near)
  }

  /** The orthographic matrix of the symmetric box with half-width `r`, half-height `t` and near and far planes `n`, `f`. */
  function Orthographic(r: real, t: real, n: real, f: real): Mat4
    requires r != 0.0 && t != 0.0 && Abs(n) != Abs(f)
  {
    var l, b := -r, -t;
    Mat4(Vec4(2.0 / (r - l), 0.0, 0.0, -(r + l) / (r - l)),
         Vec4(0.0, 2.0 / (t - b), 0.0, -(t + b) / (t - b)),
         Vec4(0.0, 0.0, 2.0 / (Abs(n) - Abs(f)), -(n + f) / (Abs(n) - Abs(f))),
         Vec4(0.0, 0.0, 0.0, 1.0))
  }

  /** The perspective matrix of the symmetric frustum with near-plane half-width `r` and half-height `t`. */
  function Perspective(r: real, t: real, n: real, f: real): Mat4
    requires r != 0.0 && t != 0.0 && Abs(n) != Abs(f)
  {
    var l, b := -r, -t;
    Mat4(Vec4(2.0 * Abs(n) / (r - l), 0.0, (r + l) / (r - l), 0.0),
         Vec4(0.0, (2.0 * Abs(n)) / (t - b), (t + b) / (t - b), 0.0),
         Vec4(0.0, 0.0, (Abs(f) + Abs(n)) / (Abs(n) - Abs(f)), (2.0 * Abs(f) * Abs(n)) / (Abs(n) - Abs(f))),
         Vec4(0.0, 0.0, -1.0, 0.0))
  }

  /**
   * `getProjection`: the symmetric frustum with half-height `t`, half-width
   * `aspect * t`, and the given near and far planes, as an orthographic or a
   * perspective projection; any other projection type is an error.
   */
  function ProjectionMatrix(projectionType: int, aspect: real, near: real, far: real, fieldOfView: real, an: Analytic)
    : (r: Result<Mat4, ProjectionError>)
    ensures r.Err? && r.error.InvalidProjectionType? <==>
      projectionType != PROJECTION_ORTHOGRAPHIC && projectionType != PROJECTION_PERSPECTIVE
    ensures r.Err? && r.error.InvalidProjectionType? ==> r.error.projectionType == projectionType
    ensures r.Err? && r.error.DegenerateFrustum? <==>
      (projectionType == PROJECTION_ORTHOGRAPHIC || projectionType == PROJECTION_PERSPECTIVE) &&
      (HalfHeight(fieldOfView, near, an) == 0.0 || aspect == 0.0 || Abs(near) == Abs(far))
  {
    var t := HalfHeight(fieldOfView, near, an);
    var r := aspect * t;
    if projectionType != PROJECTION_ORTHOGRAPHIC && projectionType != PROJECTION_PERSPECTIVE then
      Err(InvalidProjectionType(projectionType))
    else if r == 0.0 || t == 0.0 || Abs(near) == Abs(far) then
      Err(DegenerateFrustum)
    else if projectionType == PROJECTION_ORTHOGRAPHIC then
      Ok(Orthographic(r, t, near, far))
    else
      Ok(Perspective(r, t, near, far))
  }

  /** A projection matrix that exists is the orthographic or perspective matrix of the camera's frustum. */
  lemma ProjectionFrustum(projectionType: int, aspect: real, near: real, far: real, fieldOfView: real, an: Analytic)
    requires ProjectionMatrix(projectionType, aspect, near, far, fieldOfView, an).Ok?
    ensures var t := HalfHeight(fieldOfView, near, an);
      aspect * t != 0.0 && t != 0.0 && Abs(near) != Abs(far)
    ensures var t := HalfHeight(fieldOfView, near, an);
      var m := ProjectionMatrix(projectionType, aspect, near, far, fieldOfView, an).value;
      if projectionType == PROJECTION_ORTHOGRAPHIC then m == Orthographic(aspect * t, t, near, far)
      else projectionType == PROJECTION_PERSPECTIVE && m == Perspective(aspect * t, t, near, far)
  {
  }

  /** `2 / (r - l) * r == 1` for the symmetric span from `l = -r` to `r`. */
  lemma HalfSpan(r: real)
    requires r != 0.0
    ensures 2.0 / (r - -r) * r == 1.0
  {
    assert r - -r == 2.0 * r;
  }

  /** The orthographic matrix is affine and does not shift x or y: the frustum is centred. */
  lemma OrthographicShape(aspect: real, near: real, far: real, fieldOfView: real, an: Analytic)
    requires ProjectionMatrix(PROJECTION_ORTHOGRAPHIC, aspect, near, far, fieldOfView, an).Ok?
    ensures var m := ProjectionMatrix(PROJECTION_ORTHOGRAPHIC, aspect, near, far, fieldOfView, an).value;
      Affine(m) && m.r0.w == 0.0 && m.r1.w == 0.0
  {
  }

  /** The perspective matrix has no x or y skew and copies -z into w. */
  lemma PerspectiveShape(aspect: real, near: real, far: real, fieldOfView: real, an: Analytic)
    requires ProjectionMatrix(PROJECTION_PERSPECTIVE, aspect, near, far, fieldOfView, an).Ok?
    ensures var m := ProjectionMatrix(PROJECTION_PERSPECTIVE, aspect, near, far, fieldOfView, an).value;
      m.r0.z == 0.0 && m.r1.z == 0.0 && m.r3 == Vec4(0.0, 0.0, -1.0, 0.0)
  {
  }

  lemma OrthographicEdges(r: real, t: real, n: real, f: real, z: real)
    requires r != 0.0 && t != 0.0 && Abs(n) != Abs(f)
    ensures var top := Apply(Orthographic(r, t, n, f), Vec4(r, t, z, 1.0));
      var bottom := Apply(Orthographic(r, t, n, f), Vec4(-r, -t, z, 1.0));
      top.x == 1.0 && top.y == 1.0 && bottom.x == -1.0 && bottom.y == -1.0
  {
    HalfSpan(r);
    HalfSpan(t);
  }

  /** The orthographic projection takes the frustum's right/top and left/bottom edges to +1 and -1. */
  lemma OrthographicCorners(aspect: real, near: real, far: real, fieldOfView: real, an: Analytic, z: real)
    requires ProjectionMatrix(PROJECTION_ORTHOGRAPHIC, aspect, near, far, fieldOfView, an).Ok?
    ensures var m := ProjectionMatrix(PROJECTION_ORTHOGRAPHIC, aspect, near, far, fieldOfView, an).value;
      var t := HalfHeight(fieldOfView, near, an);
      var top := Apply(m, Vec4(aspect * t, t, z, 1.0));
      var bottom := Apply(m, Vec4(-(aspect * t), -t, z, 1.0));
      top.x == 1.0 && top.y == 1.0 && bottom.x == -1.0 && bottom.y == -1.0
  {
    var t := HalfHeight(fieldOfView, near, an);
    ProjectionFrustum(PROJECTION_ORTHOGRAPHIC, aspect, near, far, fieldOfView, an);
    hide ProjectionMatrix, Orthographic, HalfHeight;
    OrthographicEdges(aspect * t, t, near, far, z);
  }

  lemma OrthographicDepth(r: real, t: real, n: real, f: real)
    requires n <= 0.0 && f <= 0.0
    requires r != 0.0 && t != 0.0 && Abs(n) != Abs(f)
    ensures Apply(Orthographic(r, t, n, f), Vec4(0.0, 0.0, n, 1.0)).z == -1.0
    ensures Apply(Orthographic(r, t, n, f), Vec4(0.0, 0.0, f, 1.0)).z == 1.0
  {
    var d := Abs(n) - Abs(f);
    assert d == f - n;
    assert 2.0 / d * n - (n + f) / d == (n - f) / d;
    assert 2.0 / d * f - (n + f) / d == (f - n) / d;
  }

  /**
   * With both clipping distances on the -z side (as the viewer's camera has
   * them), the orthographic projection takes the near plane to depth -1 and
   * the far plane to depth +1.
   */
  lemma OrthographicDepthRange(aspect: real, near: real, far: real, fieldOfView: real, an: Analytic)
    requires near <= 0.0 && far <= 0.0
    requires ProjectionMatrix(PROJECTION_ORTHOGRAPHIC, aspect, near, far, fieldOfView, an).Ok?
    ensures var m := ProjectionMatrix(PROJECTION_ORTHOGRAPHIC, aspect, near, far, fieldOfView, an).value;
      Apply(m, Vec4(0.0, 0.0, near, 1.0)).z == -1.0 && Apply(m, Vec4(0.0, 0.0, far, 1.0)).z == 1.0
  {
    var t := HalfHeight(fieldOfView, near, an);
    ProjectionFrustum(PROJECTION_ORTHOGRAPHIC, aspect, near, far, fieldOfView, an);
    hide ProjectionMatrix, Orthographic, HalfHeight;
    OrthographicDepth(aspect * t, t, near, far);
  }

  /**
   * The perspective matrix takes the top-right corner of its near plane to
   * clip coordinates with x = y = w: the corner (1, 1) after the divide by w.
   */
  lemma PerspectiveCorner(r: real, t: real, n: real, f: real)
    requires r != 0.0 && t != 0.0 && Abs(n) != Abs(f)
    ensures var corner := Apply(Perspective(r, t, n, f), Vec4(r, t, -Abs(n), 1.0));
      corner.x == corner.w && corner.y == corner.w && corner.w == Abs(n)
  {
    HalfSpan(r);
    HalfSpan(t);
    assert 2.0 * Abs(n) / (r - -r) * r == Abs(n) * (2.0 / (r - -r) * r);
    assert (2.0 * Abs(n)) / (t - -t) * t == Abs(n) * (2.0 / (t - -t) * t);
  }

  /** The depth row of the perspective matrix at z = -a and z = -b. */
  lemma DepthRow(a: real, b: real)
    requires a != b
    ensures (b + a) / (a - b) * -a + (2.0 * b * a) / (a - b) == -a
    ensures (b + a) / (a - b) * -b + (2.0 * b * a) / (a - b) == b
  {
    var d := a - b;
    assert (b + a) / d * -a + (2.0 * b * a) / d == (-(b + a) * a + 2.0 * b * a) / d;
    assert -(b + a) * a + 2.0 * b * a == -a * d;
    assert (b + a) / d * -b + (2.0 * b * a) / d == (-(b + a) * b + 2.0 * b * a) / d;
    assert -(b + a) * b + 2.0 * b * a == b * d;
  }

  /** A point on the z axis seen through any matrix: its depth and w come from the last two rows. */
  lemma OnDepthAxis(m: Mat4, z: real)
    ensures Apply(m, Vec4(0.0, 0.0, z, 1.0)).z == m.r2.z * z + m.r2.w
    ensures Apply(m, Vec4(0.0, 0.0, z, 1.0)).w == m.r3.z * z + m.r3.w
  {
  }

  /**
   * The perspective matrix takes its near plane to depth -1 and its far plane
   * to depth +1 after the divide by w.
   */
  lemma PerspectiveDepth(r: real, t: real, n: real, f: real)
    requires r != 0.0 && t != 0.0 && Abs(n) != Abs(f)
    ensures var nearPoint := Apply(Perspective(r, t, n, f), Vec4(0.0, 0.0, -Abs(n), 1.0));
      var farPoint := Apply(Perspective(r, t, n, f), Vec4(0.0, 0.0, -Abs(f), 1.0));
      nearPoint.z == -nearPoint.w && farPoint.z == farPoint.w && farPoint.w == Abs(f)
  {
    var m := Perspective(r, t, n, f);
    var a, b := Abs(n), Abs(f);
    assert m.r2.z == (b + a) / (a - b) && m.r2.w == (2.0 * b * a) / (a - b);
    assert m.r3.z == -1.0 && m.r3.w == 0.0;
    OnDepthAxis(m, -a);
    OnDepthAxis(m, -b);
    hide Perspective, Apply;
    DepthRow(a, b);
  }
}
