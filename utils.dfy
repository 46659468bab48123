/**
 * The `Utils` helpers of the viewer: a delimiter tokenizer and the builders
 * of 4x4 affine transforms (translation, uniform scale, scale about a point,
 * rotation about a world axis, rotation about a point).
 */
module Utils {
  import opened Algebra

  // ===== Tokenizer =====

  /** `d` occurs in `s` starting at index `i`. */
  predicate OccursAt(s: string, d: string, i: int) {
    0 <= i && i + |d| <= |s| && s[i..i + |d|] == d
  }

  ghost predicate Contains(s: string, d: string) {
    exists i :: OccursAt(s, d, i)
  }

  /** `std::string::find` from position `i` on. */
  function FindFrom(s: string, d: string, i: nat): (r: Option<nat>)
    requires i <= |s|
    ensures r.Some? ==> i <= r.value && OccursAt(s, d, r.value)
    ensures r.Some? ==> forall j :: i <= j < r.value ==> !OccursAt(s, d, j)
    ensures r.None? ==> forall j :: i <= j ==> !OccursAt(s, d, j)
    decreases |s| - i
  {
    if i + |d| > |s| then None
    else if s[i..i + |d|] == d then Some(i)
    else if i == |s| then None
    else FindFrom(s, d, i + 1)
  }

  /** `s.find(d)`: the first position where `d` occurs in `s`, if any. */
  function Find(s: string, d: string): (r: Option<nat>)
    ensures r.Some? <==> Contains(s, d)
    ensures r.Some? ==> OccursAt(s, d, r.value) && forall j :: 0 <= j < r.value ==> !OccursAt(s, d, j)
  {
    var r := FindFrom(s, d, 0);
    assert r.None? ==> forall j :: !OccursAt(s, d, j);
    r
  }

  /**
   * The tokens `splitString` produces: the pieces before each left-to-right
   * match of the delimiter, then the remaining tail if it is not empty.
   */
  function Split(s: string, d: string): seq<string>
    requires |d| > 0
    decreases |s|
  {
    match Find(s, d)
    case Some(p) => [s[..p]] + Split(s[p + |d|..], d)
    case None => if s == [] then [] else [s]
  }

  /** The tail left over once no more delimiter is found. */
  function Rest(s: string, d: string): string
    requires |d| > 0
    decreases |s|
  {
    match Find(s, d)
    case Some(p) => Rest(s[p + |d|..], d)
    case None => s
  }

  /** The number of delimiter matches the tokenizer consumes. */
  function MatchCount(s: string, d: string): nat
    requires |d| > 0
    decreases |s|
  {
    match Find(s, d)
    case Some(p) => 1 + MatchCount(s[p + |d|..], d)
    case None => 0
  }

  /** Tokens glued back together with the delimiter between neighbours. */
  function Join(ts: seq<string>, d: string): string {
    if ts == [] then []
    else if |ts| == 1 then ts[0]
    else ts[0] + d + Join(ts[1..], d)
  }

  /** `Utils::splitString`: repeatedly cut off the piece before the first delimiter. */
  method SplitString(s: string, d: string) returns (tokens: seq<string>)
    requires |d| > 0
    ensures tokens == Split(s, d)
    ensures forall t :: t in tokens ==> !Contains(t, d)
    ensures Join(Pieces(s, d), d) == s
  {
    tokens := [];
    var rest := s;
    var pos := Find(rest, d);
    while pos.Some?
      invariant pos == Find(rest, d)
      invariant tokens + Split(rest, d) == Split(s, d)
      invariant Rest(rest, d) == Rest(s, d)
      decreases |rest|
    {
      tokens := tokens + [rest[..pos.value]];
      rest := rest[pos.value + |d|..];
      pos := Find(rest, d);
    }
    if rest != [] {
      tokens := tokens + [rest];
    }
    SplitHasNoDelimiter(s, d);
    SplitJoin(s, d);
  }

  /** No token contains the delimiter. */
  lemma {:induction false} SplitHasNoDelimiter(s: string, d: string)
    requires |d| > 0
    ensures forall t :: t in Split(s, d) ==> !Contains(t, d)
    decreases |s|
  {
    hide Find, FindFrom;
    match Find(s, d)
    case None =>
    case Some(p) =>
      SplitHasNoDelimiter(s[p + |d|..], d);
      PrefixOccurrences(s, d, p);
  }

  /** An occurrence inside a prefix is an occurrence in the whole string, ending within the prefix. */
  lemma PrefixOccurrences(s: string, d: string, p: nat)
    requires p <= |s|
    ensures forall j :: OccursAt(s[..p], d, j) ==> OccursAt(s, d, j) && j + |d| <= p
  {
    forall j | OccursAt(s[..p], d, j) ensures OccursAt(s, d, j) && j + |d| <= p {
      assert s[j..j + |d|] == s[..p][j..j + |d|];
    }
  }

  /** The tokens with the empty last piece put back when the input was consumed by matches. */
  function Pieces(s: string, d: string): seq<string>
    requires |d| > 0
  {
    Split(s, d) + (if Rest(s, d) == [] then [[]] else [])
  }

  /** Joining the pieces with the delimiter gives back the input. */
  lemma {:induction false} SplitJoin(s: string, d: string)
    requires |d| > 0
    ensures Join(Pieces(s, d), d) == s
    decreases |s|
  {
    match Find(s, d)
    case None =>
    case Some(p) =>
      var t := s[p + |d|..];
      PiecesStep(s, d, p);
      JoinCons(s[..p], Pieces(t, d), d);
      SplitJoin(t, d);
      assert s == s[..p] + d + t by { assert s[p..p + |d|] == d; }
  }

  lemma PiecesStep(s: string, d: string, p: nat)
    requires |d| > 0 && Find(s, d) == Some(p)
    ensures Pieces(s, d) == [s[..p]] + Pieces(s[p + |d|..], d)
    ensures Pieces(s[p + |d|..], d) != []
  {
    var t := s[p + |d|..];
    if Split(t, d) == [] { SplitEmpty(t, d); }
  }

  lemma JoinCons(h: string, tail: seq<string>, d: string)
    requires tail != []
    ensures Join([h] + tail, d) == h + d + Join(tail, d)
  {
    assert ([h] + tail)[1..] == tail;
  }

  /** Only the empty string splits into no tokens at all. */
  lemma SplitEmpty(s: string, d: string)
    requires |d| > 0 && Split(s, d) == []
    ensures s == [] && Rest(s, d) == []
  {
  }

  /**
   * The token count is the number of delimiter matches, plus one when a
   * non-empty tail remains; empty pieces between matches are kept.
   */
  lemma {:induction false} SplitCount(s: string, d: string)
    requires |d| > 0
    ensures |Split(s, d)| == MatchCount(s, d) + (if Rest(s, d) == [] then 0 else 1)
    decreases |s|
  {
    match Find(s, d)
    case None =>
    case Some(p) => SplitCount(s[p + |d|..], d);
  }

  /** When the whole input is consumed by matches, the input ends with the delimiter. */
  lemma {:induction false} ConsumedEndsWithDelimiter(s: string, d: string)
    requires |d| > 0 && s != [] && Rest(s, d) == []
    ensures |d| <= |s| && s[|s| - |d|..] == d
    decreases |s|
  {
    match Find(s, d)
    case None =>
    case Some(p) =>
      var t := s[p + |d|..];
      if t != [] {
        ConsumedEndsWithDelimiter(t, d);
        assert s[|s| - |d|..] == t[|t| - |d|..];
      } else {
        assert s[|s| - |d|..] == s[p..p + |d|];
      }
  }

  /** The remaining tail is a suffix of the input with no delimiter in it. */
  lemma {:induction false} RestIsSuffix(s: string, d: string)
    requires |d| > 0
    ensures |Rest(s, d)| <= |s| && Rest(s, d) == s[|s| - |Rest(s, d)|..]
    ensures !Contains(Rest(s, d), d)
    decreases |s|
  {
    hide Find, FindFrom;
    match Find(s, d)
    case None =>
    case Some(p) =>
      var t := s[p + |d|..];
      RestIsSuffix(t, d);
      assert s[|s| - |Rest(t, d)|..] == t[|t| - |Rest(t, d)|..];
  }

  /**
   * With a one-character delimiter (the viewer splits on " "), the tail is
   * empty exactly when the input is empty or ends with the delimiter.
   */
  lemma SingleCharDelimiterTail(s: string, d: string)
    requires |d| == 1
    ensures Rest(s, d) == [] <==> (s == [] || s[|s| - 1..] == d)
  {
    var r := Rest(s, d);
    if r == [] {
      if s != [] { ConsumedEndsWithDelimiter(s, d); }
    } else {
      RestIsSuffix(s, d);
      assert r[|r| - 1..] == s[|s| - 1..];
      assert !OccursAt(r, d, |r| - 1);
    }
  }

  /**
   * With an empty delimiter `find` reports a match at 0 and erasing `0 + 0`
   * characters changes nothing, so the loop of `splitString` never ends.
   */
  lemma EmptyDelimiterMakesNoProgress(s: string)
    ensures Find(s, []) == Some(0)
    ensures s[0 + |""|..] == s
  {
    assert OccursAt(s, [], 0);
  }

  // ===== Render types =====

  /** How a mesh is drawn: edges only, one normal per face, or per-vertex normals. */
  datatype RenderType = Wireframe | FlatShade | PhongShade

  // ===== Affine transforms =====

  const AXIS_Z := 0
  const AXIS_X := 1
  const AXIS_Y := 2

  /** The three axis codes `generateRotationMatrix` knows. */
  predicate ValidAxis(axis: int) {
    axis == AXIS_Z || axis == AXIS_X || axis == AXIS_Y
  }

  /** `generateTranslationMatrix`: moves every point by `v`. */
  function TranslationMatrix(v: Vec3): (m: Mat4)
    ensures Affine(m) && TranslationOf(m) == v
  {
    Mat4(Vec4(1.0, 0.0, 0.0, v.x),
         Vec4(0.0, 1.0, 0.0, v.y),
         Vec4(0.0, 0.0, 1.0, v.z),
         Vec4(0.0, 0.0, 0.0, 1.0))
  }

  /** `generateScaleMatrix`: uniform scaling about the origin. */
  function ScaleMatrix(f: real): (m: Mat4)
    ensures Affine(m) && TranslationOf(m) == Zero3
  {
    Mat4(Vec4(f, 0.0, 0.0, 0.0),
         Vec4(0.0, f, 0.0, 0.0),
         Vec4(0.0, 0.0, f, 0.0),
         Vec4(0.0, 0.0, 0.0, 1.0))
  }

  /**
   * `generateScaleAboutPointMatrix`: uniform scaling by `f` that keeps `p`
   * where it is; every point moves to `p + f (q - p)`.
   */
  function ScaleAboutPointMatrix(p: Vec3, f: real): (m: Mat4)
    ensures Affine(m)
  {
    Mat4(Vec4(f, 0.0, 0.0, p.x * (1.0 - f)),
         Vec4(0.0, f, 0.0, p.y * (1.0 - f)),
         Vec4(0.0, 0.0, f, p.z * (1.0 - f)),
         Vec4(0.0, 0.0, 0.0, 1.0))
  }

  /**
   * `generateRotationMatrix`: rotation by `radians` about a world axis, with
   * the program's own sign pattern. An axis code outside {0, 1, 2} leaves the
   * program's matrix unassigned, so a valid axis is required.
   */
  function RotationMatrix(axis: int, radians: real, an: Analytic): (m: Mat4)
    requires ValidAxis(axis)
    ensures Affine(m) && TranslationOf(m) == Zero3
  {
    var c, s := an.cos(radians), an.sin(radians);
    if axis == AXIS_Z then RotationZ(c, s)
    else if axis == AXIS_X then RotationX(c, s)
    else RotationY(c, s)
  }

  /** The rotation about the z axis with cosine `c` and sine `s`. */
  function RotationZ(c: real, s: real): Mat4 {
    Mat4(Vec4(c, s, 0.0, 0.0),
         Vec4(-s, c, 0.0, 0.0),
         Vec4(0.0, 0.0, 1.0, 0.0),
         Vec4(0.0, 0.0, 0.0, 1.0))
  }

  /** The rotation about the x axis with cosine `c` and sine `s`. */
  function RotationX(c: real, s: real): Mat4 {
    Mat4(Vec4(1.0, 0.0, 0.0, 0.0),
         Vec4(0.0, c, s, 0.0),
         Vec4(0.0, -s, c, 0.0),
         Vec4(0.0, 0.0, 0.0, 1.0))
  }

  /** The rotation about the y axis with cosine `c` and sine `s`. */
  function RotationY(c: real, s: real): Mat4 {
    Mat4(Vec4(c, 0.0, -s, 0.0),
         Vec4(0.0, 1.0, 0.0, 0.0),
         Vec4(s, 0.0, c, 0.0),
         Vec4(0.0, 0.0, 0.0, 1.0))
  }

  /**
   * `generateRotateAboutPointMatrix`: translate the centre to the origin,
   * rotate, translate back. The centre stays fixed.
   */
  function RotateAboutPointMatrix(axis: int, radians: real, center: Vec3, an: Analytic): (m: Mat4)
    requires ValidAxis(axis)
    ensures Affine(m)
  {
    var r := RotationMatrix(axis, radians, an);
    MulAffine(TranslationMatrix(center), r);
    MulAffine(Mul(TranslationMatrix(center), r), TranslationMatrix(Neg(center)));
    Mul(Mul(TranslationMatrix(center), r), TranslationMatrix(Neg(center)))
  }

  /** The rotation about a point keeps that point where it is. */
  lemma RotateAboutPointFixesCenter(axis: int, radians: real, center: Vec3, an: Analytic)
    requires ValidAxis(axis)
    ensures Apply(RotateAboutPointMatrix(axis, radians, center, an), Point(center)) == Point(center)
  {
    var t, u := TranslationMatrix(center), TranslationMatrix(Neg(center));
    var r := RotationMatrix(axis, radians, an);
    calc {
      Apply(Mul(Mul(t, r), u), Point(center));
      { ApplyMul(Mul(t, r), u, Point(center)); }
      Apply(Mul(t, r), Apply(u, Point(center)));
      { TranslationMoves(Neg(center), center); assert Add(center, Neg(center)) == Zero3; }
      Apply(Mul(t, r), Point(Zero3));
      { ApplyMul(t, r, Point(Zero3)); }
      Apply(t, Apply(r, Point(Zero3)));
      Apply(t, Point(Zero3));
      { TranslationMoves(center, Zero3); assert Add(Zero3, center) == center; }
      Point(center);
    }
  }

  /** The translation moves every point by `v`. */
  lemma TranslationMoves(v: Vec3, p: Vec3)
    ensures Apply(TranslationMatrix(v), Point(p)) == Point(Add(p, v))
  {
  }

  /** The origin scale multiplies every point by `f`. */
  lemma ScaleMoves(f: real, p: Vec3)
    ensures Apply(ScaleMatrix(f), Point(p)) == Point(Scale(f, p))
  {
  }

  /** The scale about `p` sends every point `q` to `p + f (q - p)`. */
  lemma ScaleAboutPointMoves(p: Vec3, f: real, q: Vec3)
    ensures Apply(ScaleAboutPointMatrix(p, f), Point(q)) == Point(Add(p, Scale(f, Sub(q, p))))
  {
    hide Apply, ScaleAboutPointMatrix, ScaleShift;
    ScaleAboutPointShift(p, f);
    ApplyScaleShift(f, Sub(p, Scale(f, p)), q);
    ScaleAboutCoordinate(p.x, f, q.x);
    ScaleAboutCoordinate(p.y, f, q.y);
    ScaleAboutCoordinate(p.z, f, q.z);
  }

  /** In particular the scale about `p` keeps `p` where it is. */
  lemma ScaleAboutPointFixesCenter(p: Vec3, f: real)
    ensures Apply(ScaleAboutPointMatrix(p, f), Point(p)) == Point(p)
  {
    ScaleAboutPointMoves(p, f, p);
  }

  lemma ScaleAboutCoordinate(c: real, f: real, x: real)
    ensures f * x + (c - f * c) == c + f * (x - c)
  {
  }

  /** A rotation leaves the coordinate along its own axis unchanged. */
  lemma RotationKeepsAxis(axis: int, radians: real, an: Analytic, q: Vec3)
    requires ValidAxis(axis)
    ensures axis == AXIS_Z ==> Apply(RotationMatrix(axis, radians, an), Point(q)).z == q.z
    ensures axis == AXIS_X ==> Apply(RotationMatrix(axis, radians, an), Point(q)).x == q.x
    ensures axis == AXIS_Y ==> Apply(RotationMatrix(axis, radians, an), Point(q)).y == q.y
  {
  }

  /** Two translations compose into the translation by the sum. */
  lemma TranslationCompose(a: Vec3, b: Vec3)
    ensures Mul(TranslationMatrix(a), TranslationMatrix(b)) == TranslationMatrix(Add(a, b))
  {
  }

  /** The closed form of the scale about a point is the conjugated origin scale. */
  lemma ScaleAboutPointFactors(p: Vec3, f: real)
    ensures ScaleAboutPointMatrix(p, f)
         == Mul(Mul(TranslationMatrix(p), ScaleMatrix(f)), TranslationMatrix(Neg(p)))
  {
    var a := Mat4(Vec4(f, 0.0, 0.0, p.x), Vec4(0.0, f, 0.0, p.y),
                  Vec4(0.0, 0.0, f, p.z), Vec4(0.0, 0.0, 0.0, 1.0));
    var u := TranslationMatrix(Neg(p));
    assert Mul(TranslationMatrix(p), ScaleMatrix(f)) == a;
    assert RowTimes(a.r0, u) == Vec4(f, 0.0, 0.0, p.x * (1.0 - f));
    assert RowTimes(a.r1, u) == Vec4(0.0, f, 0.0, p.y * (1.0 - f));
    assert RowTimes(a.r2, u) == Vec4(0.0, 0.0, f, p.z * (1.0 - f));
  }

  /** Scaling twice about the same point is scaling once by the product. */
  lemma ScaleAboutPointCompose(p: Vec3, f: real, g: real)
    ensures Mul(ScaleAboutPointMatrix(p, g), ScaleAboutPointMatrix(p, f)) == ScaleAboutPointMatrix(p, g * f)
  {
    hide Mul, RowTimes, ScaleAboutPointMatrix, ScaleShift;
    ScaleAboutPointShift(p, g);
    ScaleAboutPointShift(p, f);
    ScaleAboutPointShift(p, g * f);
    ScaleShiftMul(f, g, Sub(p, Scale(g, p)), Sub(p, Scale(f, p)));
    ShiftCompose(p, f, g);
  }

  /** The matrix of a scale about `p`: scale by `f`, then shift by `(1 - f) p`. */
  lemma ScaleAboutPointShift(p: Vec3, f: real)
    ensures ScaleAboutPointMatrix(p, f) == ScaleShift(f, Sub(p, Scale(f, p)))
  {
  }

  /** A uniform scale by `f` followed by a shift by `t`. */
  function ScaleShift(f: real, t: Vec3): Mat4 {
    Mat4(Vec4(f, 0.0, 0.0, t.x), Vec4(0.0, f, 0.0, t.y), Vec4(0.0, 0.0, f, t.z), Vec4(0.0, 0.0, 0.0, 1.0))
  }

  lemma ApplyScaleShift(f: real, t: Vec3, q: Vec3)
    ensures Apply(ScaleShift(f, t), Point(q)) == Point(Vec3(f * q.x + t.x, f * q.y + t.y, f * q.z + t.z))
  {
  }

  lemma ScaleShiftMul(f: real, g: real, u: Vec3, v: Vec3)
    ensures Mul(ScaleShift(g, u), ScaleShift(f, v)) == ScaleShift(g * f, Add(Scale(g, v), u))
  {
  }

  /** Shifting for `f` and then for `g` is shifting for `g * f`. */
  lemma ShiftCompose(p: Vec3, f: real, g: real)
    ensures Add(Scale(g, Sub(p, Scale(f, p))), Sub(p, Scale(g, p))) == Sub(p, Scale(g * f, p))
  {
    hide Add, Sub, Scale;
    calc {
      Add(Scale(g, Sub(p, Scale(f, p))), Sub(p, Scale(g, p)));
    == { ScaleSub(g, p, Scale(f, p)); ScaleScale(g, f, p); }
      Add(Sub(Scale(g, p), Scale(g * f, p)), Sub(p, Scale(g, p)));
    == { AddSubs(Scale(g, p), Scale(g * f, p), p); }
      Sub(p, Scale(g * f, p));
    }
  }

  /** The trigonometric laws a rotation and its reverse need. */
  ghost predicate TrigLawsAt(an: Analytic, theta: real) {
    && an.cos(-theta) == an.cos(theta)
    && an.sin(-theta) == -an.sin(theta)
    && an.cos(theta) * an.cos(theta) + an.sin(theta) * an.sin(theta) == 1.0
  }

  /** Rotating by `theta` undoes the rotation by `-theta` about the same axis. */
  lemma RotationInverse(axis: int, theta: real, an: Analytic)
    requires ValidAxis(axis) && TrigLawsAt(an, theta)
    ensures Mul(RotationMatrix(axis, theta, an), RotationMatrix(axis, -theta, an)) == Identity
  {
    var c, s := an.cos(theta), an.sin(theta);
    assert an.cos(-theta) == c && an.sin(-theta) == -s;
    if axis == AXIS_Z {
      RotationZInverse(c, s);
    } else if axis == AXIS_X {
      RotationXInverse(c, s);
    } else {
      RotationYInverse(c, s);
    }
  }

  lemma RotationZInverse(c: real, s: real)
    requires c * c + s * s == 1.0
    ensures Mul(RotationZ(c, s), RotationZ(c, -s)) == Identity
  {
    var a, b := RotationZ(c, s), RotationZ(c, -s);
    assert RowTimes(a.r0, b) == Vec4(c * c + s * s, 0.0, 0.0, 0.0);
    assert RowTimes(a.r1, b) == Vec4(0.0, s * s + c * c, 0.0, 0.0);
  }

  lemma RotationXInverse(c: real, s: real)
    requires c * c + s * s == 1.0
    ensures Mul(RotationX(c, s), RotationX(c, -s)) == Identity
  {
    var a, b := RotationX(c, s), RotationX(c, -s);
    assert RowTimes(a.r1, b) == Vec4(0.0, c * c + s * s, 0.0, 0.0);
    assert RowTimes(a.r2, b) == Vec4(0.0, 0.0, s * s + c * c, 0.0);
  }

  lemma RotationYInverse(c: real, s: real)
    requires c * c + s * s == 1.0
    ensures Mul(RotationY(c, s), RotationY(c, -s)) == Identity
  {
    var a, b := RotationY(c, s), RotationY(c, -s);
    assert RowTimes(a.r0, b) == Vec4(c * c + s * s, 0.0, 0.0, 0.0);
    assert RowTimes(a.r2, b) == Vec4(0.0, 0.0, s * s + c * c, 0.0);
  }

  /** The same holds for rotations about a common centre. */
  lemma RotateAboutPointInverse(axis: int, theta: real, center: Vec3, an: Analytic)
    requires ValidAxis(axis) && TrigLawsAt(an, theta)
    ensures Mul(RotateAboutPointMatrix(axis, theta, center, an),
                RotateAboutPointMatrix(axis, -theta, center, an)) == Identity
  {
    var t, u := TranslationMatrix(center), TranslationMatrix(Neg(center));
    var r, r' := RotationMatrix(axis, theta, an), RotationMatrix(axis, -theta, an);
    assert Mul(u, t) == Identity by { TranslationCompose(Neg(center), center); }
    assert Mul(t, u) == Identity by { TranslationCompose(center, Neg(center)); }
    RotationInverse(axis, theta, an);
    calc {
      Mul(Mul(Mul(t, r), u), Mul(Mul(t, r'), u));
      { MulAssoc(Mul(t, r), u, Mul(Mul(t, r'), u)); }
      Mul(Mul(t, r), Mul(u, Mul(Mul(t, r'), u)));
      { MulAssoc(u, Mul(t, r'), u); MulAssoc(u, t, r'); MulIdentity(r'); }
      Mul(Mul(t, r), Mul(r', u));
      { MulAssoc(Mul(t, r), r', u); MulAssoc(t, r, r'); MulIdentity(t); }
      Mul(t, u);
      Identity;
    }
  }
}
