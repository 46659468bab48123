/*
 * The 2D triangle editor of src/part1.cpp: the user clicks points that are
 * grouped three by three into triangles, selects a triangle or a vertex with
 * the mouse, and moves, scales, rotates, deletes or recolours it with keys.
 * The program keeps its whole state in globals (the 2xN `positions` matrix
 * whose last column follows the cursor, the 3xN `colors` matrix, one model
 * matrix per triangle, the `view` matrix, the mode and the selections); the
 * model keeps them in the fields of one `TriangleEditor` object.
 */
module Editor2D {
  import opened Algebra
  import Utils

  // ----- the point-in-triangle test (src/part1.cpp:60-71) -----

  const Zero2 := Vec2(0.0, 0.0)

  /** Twice the signed area of the triangle o, a, b: positive when it turns counter-clockwise. */
  function Cross2(o: Vec2, a: Vec2, b: Vec2): real {
    (a.x - o.x) * (b.y - o.y) - (a.y - o.y) * (b.x - o.x)
  }

  /** The first two coordinates of a homogeneous point. */
  function Flat(v: Vec4): Vec2 { Vec2(v.x, v.y) }

  /** The sign test of the source, on the x and y of the three corners. */
  predicate IsPointInTriangle(s: Vec2, a: Vec4, b: Vec4, c: Vec4) {
    var asX := s.x - a.x;
    var asY := s.y - a.y;
    var sAB := (b.x - a.x) * asY - (b.y - a.y) * asX > 0.0;
    if ((c.x - a.x) * asY - (c.y - a.y) * asX > 0.0) == sAB then false
    else if ((c.x - b.x) * (s.y - b.y) - (c.y - b.y) * (s.x - b.x) > 0.0) != sAB then false
    else true
  }

  /** `s` lies strictly on the same side of all three edges (either orientation). */
  predicate StrictlyInside(s: Vec2, p: Vec2, q: Vec2, r: Vec2) {
    || (Cross2(p, q, s) > 0.0 && Cross2(q, r, s) > 0.0 && Cross2(r, p, s) > 0.0)
    || (Cross2(p, q, s) < 0.0 && Cross2(q, r, s) < 0.0 && Cross2(r, p, s) < 0.0)
  }

  /** `s` lies strictly beyond some edge of the non-degenerate triangle p, q, r. */
  predicate StrictlyOutside(s: Vec2, p: Vec2, q: Vec2, r: Vec2) {
    || (Cross2(p, q, r) > 0.0 && (Cross2(p, q, s) < 0.0 || Cross2(q, r, s) < 0.0 || Cross2(r, p, s) < 0.0))
    || (Cross2(p, q, r) < 0.0 && (Cross2(p, q, s) > 0.0 || Cross2(q, r, s) > 0.0 || Cross2(r, p, s) > 0.0))
  }

  /** The three edge areas seen from `s` add up to the area of the triangle. */
  lemma CrossSum(s: Vec2, p: Vec2, q: Vec2, r: Vec2)
    ensures Cross2(p, q, s) + Cross2(q, r, s) + Cross2(r, p, s) == Cross2(p, q, r)
  {
  }

  /** The source's test in terms of the edge areas seen from the click. */
  lemma TestBySides(s: Vec2, a: Vec4, b: Vec4, c: Vec4)
    ensures var p, q, r := Flat(a), Flat(b), Flat(c);
      IsPointInTriangle(s, a, b, c) == ((-Cross2(r, p, s) > 0.0) != (Cross2(p, q, s) > 0.0) && (Cross2(q, r, s) > 0.0) == (Cross2(p, q, s) > 0.0))
  {
    var p, q, r := Flat(a), Flat(b), Flat(c);
    assert (b.x - a.x) * (s.y - a.y) - (b.y - a.y) * (s.x - a.x) == Cross2(p, q, s);
    assert (c.x - a.x) * (s.y - a.y) - (c.y - a.y) * (s.x - a.x) == -Cross2(r, p, s);
    assert (c.x - b.x) * (s.y - b.y) - (c.y - b.y) * (s.x - b.x) == Cross2(q, r, s);
  }

  /** A click strictly inside a triangle of either orientation is accepted. */
  lemma InsideAccepted(s: Vec2, a: Vec4, b: Vec4, c: Vec4)
    requires StrictlyInside(s, Flat(a), Flat(b), Flat(c))
    ensures IsPointInTriangle(s, a, b, c)
  {
    TestBySides(s, a, b, c);
  }

  /** A click strictly outside a non-degenerate triangle is rejected. */
  lemma OutsideRejected(s: Vec2, a: Vec4, b: Vec4, c: Vec4)
    requires StrictlyOutside(s, Flat(a), Flat(b), Flat(c))
    ensures !IsPointInTriangle(s, a, b, c)
  {
    TestBySides(s, a, b, c);
    CrossSum(s, Flat(a), Flat(b), Flat(c));
  }

  /** The test looks only at the x and y of the corners. */
  lemma TestIgnoresDepth(s: Vec2, a: Vec4, b: Vec4, c: Vec4, a': Vec4, b': Vec4, c': Vec4)
    requires Flat(a) == Flat(a') && Flat(b) == Flat(b') && Flat(c) == Flat(c')
    ensures IsPointInTriangle(s, a, b, c) == IsPointInTriangle(s, a', b', c')
  {
  }

  // ----- triangles in the positions matrix -----

  /**
   * How far `updateSelectedTriangle` looks: the columns of complete triangles
   * end before the (cols - 1) % 3 points of an unfinished one and the cursor column.
   */
  function Limit(cols: int): int { cols - (cols - 1) % 3 - 3 }

  /** `i` is the first column of a complete triangle among `cols` columns. */
  predicate Complete(i: int, cols: int) { 0 <= i && i % 3 == 0 && i < Limit(cols) }

  /** There is a model matrix for every triangle begun among `cols` columns (the cursor's included). */
  predicate ModelsCover(cols: int, models: int) { cols <= 3 * models + 1 }

  /** A complete triangle's three columns exist and so does its model matrix. */
  lemma CompleteInRange(i: int, cols: int, models: int)
    requires Complete(i, cols) && ModelsCover(cols, models)
    ensures i + 3 < cols && i / 3 < models
  {
  }

  /**
   * The corners of triangle `i` after the view and its model matrix: in
   * `asWritten` form each corner takes its x from column `i`, as the source
   * does; otherwise each corner is its own column.
   */
  function ScreenCorners(ps: seq<Vec2>, models: seq<Mat4>, view: Mat4, i: int, asWritten: bool): (Vec4, Vec4, Vec4)
    requires Complete(i, |ps|) && ModelsCover(|ps|, |models|)
  {
    CompleteInRange(i, |ps|, |models|);
    var m := Mul(view, models[i / 3]);
    var bx := if asWritten then ps[i].x else ps[i + 1].x;
    var cx := if asWritten then ps[i].x else ps[i + 2].x;
    (Apply(m, Vec4(ps[i].x, ps[i].y, 0.0, 1.0)),
     Apply(m, Vec4(bx, ps[i + 1].y, 0.0, 1.0)),
     Apply(m, Vec4(cx, ps[i + 2].y, 0.0, 1.0)))
  }

  predicate Hits(ps: seq<Vec2>, models: seq<Mat4>, view: Mat4, click: Vec2, i: int, asWritten: bool)
    requires Complete(i, |ps|) && ModelsCover(|ps|, |models|)
  {
    var (a, b, c) := ScreenCorners(ps, models, view, i, asWritten);
    IsPointInTriangle(click, a, b, c)
  }

  /** The first complete triangle from column `i` on whose test passes, or -1. */
  function TriangleUnder(ps: seq<Vec2>, models: seq<Mat4>, view: Mat4, click: Vec2, asWritten: bool, i: nat): (r: int)
    requires i % 3 == 0 && ModelsCover(|ps|, |models|)
    decreases |ps| - i
    ensures r == -1 || (i <= r && Complete(r, |ps|) && Hits(ps, models, view, click, r, asWritten))
    ensures forall j {:trigger Hits(ps, models, view, click, j, asWritten)} ::
      i <= j < (if r == -1 then |ps| else r) && Complete(j, |ps|) ==> !Hits(ps, models, view, click, j, asWritten)
  {
    if i >= Limit(|ps|) then -1
    else if Hits(ps, models, view, click, i, asWritten) then i
    else
      NextComplete(i, |ps|);
      TriangleUnder(ps, models, view, click, asWritten, i + 3)
  }

  /** Complete triangles start three columns apart. */
  lemma NextComplete(i: int, cols: int)
    requires i % 3 == 0
    ensures forall j :: Complete(j, cols) && i < j ==> i + 3 <= j
  {
    forall j | Complete(j, cols) && i < j
      ensures i + 3 <= j
    {
      assert i == 3 * (i / 3) && j == 3 * (j / 3);
    }
  }

  /** A click strictly inside a complete triangle on screen selects it or an earlier one. */
  lemma ClickInsideSelects(ps: seq<Vec2>, models: seq<Mat4>, view: Mat4, click: Vec2, j: int)
    requires ModelsCover(|ps|, |models|) && Complete(j, |ps|)
    requires var (a, b, c) := ScreenCorners(ps, models, view, j, false);
      StrictlyInside(click, Flat(a), Flat(b), Flat(c))
    ensures var r := TriangleUnder(ps, models, view, click, false, 0);
      r != -1 && r <= j
  {
    var (a, b, c) := ScreenCorners(ps, models, view, j, false);
    InsideAccepted(click, a, b, c);
    assert Hits(ps, models, view, click, j, false);
  }

  /** The positions of the counterexample: one triangle and the cursor column. */
  const SampleColumns := [Vec2(0.0, 0.0), Vec2(2.0, 0.0), Vec2(0.0, 2.0), Vec2(0.5, 0.5)]

  /** Under identity view and model the corners are the columns themselves, or their as-written mix. */
  lemma SampleCorners()
    ensures ScreenCorners(SampleColumns, [Identity], Identity, 0, true)
      == (Vec4(0.0, 0.0, 0.0, 1.0), Vec4(0.0, 0.0, 0.0, 1.0), Vec4(0.0, 2.0, 0.0, 1.0))
    ensures ScreenCorners(SampleColumns, [Identity], Identity, 0, false)
      == (Vec4(0.0, 0.0, 0.0, 1.0), Vec4(2.0, 0.0, 0.0, 1.0), Vec4(0.0, 2.0, 0.0, 1.0))
  {
    MulIdentity(Identity);
    ApplyIdentity(Vec4(0.0, 0.0, 0.0, 1.0));
    ApplyIdentity(Vec4(2.0, 0.0, 0.0, 1.0));
    ApplyIdentity(Vec4(0.0, 2.0, 0.0, 1.0));
    hide Mul, Apply;
    assert [Identity][0 / 3] == Identity;
    assert SampleColumns[0] == Vec2(0.0, 0.0) && SampleColumns[1] == Vec2(2.0, 0.0);
    assert SampleColumns[2] == Vec2(0.0, 2.0);
  }

  /** The sign test on the sample's two corner triples. */
  lemma SamplePointChecks()
    ensures !IsPointInTriangle(Vec2(0.5, 0.5), Vec4(0.0, 0.0, 0.0, 1.0), Vec4(0.0, 0.0, 0.0, 1.0), Vec4(0.0, 2.0, 0.0, 1.0))
    ensures IsPointInTriangle(Vec2(0.5, 0.5), Vec4(0.0, 0.0, 0.0, 1.0), Vec4(2.0, 0.0, 0.0, 1.0), Vec4(0.0, 2.0, 0.0, 1.0))
  {
  }

  /** The as-written corners of the sample collapse onto x = 0 and the click misses. */
  lemma SampleAsWritten()
    ensures TriangleUnder(SampleColumns, [Identity], Identity, Vec2(0.5, 0.5), true, 0) == -1
  {
    hide Mul, Apply, ScreenCorners, IsPointInTriangle;
    SamplePointChecks();
    SampleCorners();
    assert Limit(|SampleColumns|) == 1;
    assert !Hits(SampleColumns, [Identity], Identity, Vec2(0.5, 0.5), 0, true);
    assert TriangleUnder(SampleColumns, [Identity], Identity, Vec2(0.5, 0.5), true, 3) == -1;
  }

  /** The true corners of the sample contain the click. */
  lemma SampleCorrected()
    ensures TriangleUnder(SampleColumns, [Identity], Identity, Vec2(0.5, 0.5), false, 0) == 0
  {
    hide Mul, Apply, ScreenCorners, IsPointInTriangle;
    SamplePointChecks();
    SampleCorners();
    assert Limit(|SampleColumns|) == 1;
    assert Hits(SampleColumns, [Identity], Identity, Vec2(0.5, 0.5), 0, false);
  }

  /**
   * One triangle (0,0), (2,0), (0,2) under identity view and model, and a
   * click at (0.5, 0.5) strictly inside it: the as-written corners collapse to
   * the segment x = 0 and miss it, the corrected corners find it.
   */
  lemma AsWrittenMissesTriangle(ps: seq<Vec2>, click: Vec2)
    requires ps == SampleColumns && click == Vec2(0.5, 0.5)
    ensures StrictlyInside(click, ps[0], ps[1], ps[2])
    ensures TriangleUnder(ps, [Identity], Identity, click, true, 0) == -1
    ensures TriangleUnder(ps, [Identity], Identity, click, false, 0) == 0
  {
    hide TriangleUnder, Mul, Apply, ScreenCorners, IsPointInTriangle;
    assert ps[0] == Vec2(0.0, 0.0) && ps[1] == Vec2(2.0, 0.0) && ps[2] == Vec2(0.0, 2.0);
    SampleAsWritten();
    SampleCorrected();
  }

  // ----- the nearest vertex (src/part1.cpp:95-106) -----

  /** The library square root of the squared distance, as the source computes it. */
  function Distance(click: Vec2, p: Vec2, an: Analytic): real {
    an.sqrt((click.x - p.x) * (click.x - p.x) + (click.y - p.y) * (click.y - p.y))
  }

  /** The running minimum: an index and its distance, `None` standing for infinity. */
  datatype Nearest = Nearest(index: int, distance: Option<real>)

  /** The lowest-index column among the first `n` at minimal distance from the click, or -1. */
  function NearestAmong(ps: seq<Vec2>, click: Vec2, an: Analytic, n: nat): (r: Nearest)
    requires n <= |ps|
    ensures r.index == -1 <==> n == 0
    ensures r.index == -1 <==> r.distance.None?
    ensures r.index != -1 ==>
      && 0 <= r.index < n
      && r.distance == Some(Distance(click, ps[r.index], an))
      && (forall j :: 0 <= j < n ==> r.distance.value <= Distance(click, ps[j], an))
      && (forall j :: 0 <= j < r.index ==> r.distance.value < Distance(click, ps[j], an))
  {
    if n == 0 then Nearest(-1, None)
    else
      var prev := NearestAmong(ps, click, an, n - 1);
      var d := Distance(click, ps[n - 1], an);
      if prev.distance.None? || d < prev.distance.value then Nearest(n - 1, Some(d)) else prev
  }

  // ----- moving, scaling and rotating one triangle (src/part1.cpp:108-151) -----

  /** The offsets of triangle `t`'s corners from `c` add up to nothing. */
  predicate BalancesAt(ps: seq<Vec2>, t: int, c: Vec2)
    requires 0 <= t && t + 2 < |ps|
  {
    Add2(Add2(Sub2(ps[t], c), Sub2(ps[t + 1], c)), Sub2(ps[t + 2], c)) == Zero2
  }

  /** The mean of three corners. */
  function Centroid(ps: seq<Vec2>, t: int): (c: Vec2)
    requires 0 <= t && t + 2 < |ps|
    ensures BalancesAt(ps, t, c)
  {
    Vec2((ps[t].x + ps[t + 1].x + ps[t + 2].x) / 3.0, (ps[t].y + ps[t + 1].y + ps[t + 2].y) / 3.0)
  }

  /** The columns with triangle `t`'s corners replaced and every other column kept. */
  function WithTriangle(ps: seq<Vec2>, t: int, a: Vec2, b: Vec2, c: Vec2): (r: seq<Vec2>)
    requires 0 <= t && t + 2 < |ps|
    ensures |r| == |ps| && r[t] == a && r[t + 1] == b && r[t + 2] == c
    ensures forall j :: 0 <= j < |ps| && (j < t || t + 2 < j) ==> r[j] == ps[j]
  {
    ps[t := a][t + 1 := b][t + 2 := c]
  }

  /** Triangle `t` displaced by `d`. */
  function Moved(ps: seq<Vec2>, t: int, d: Vec2): seq<Vec2>
    requires 0 <= t && t + 2 < |ps|
  {
    WithTriangle(ps, t, Add2(ps[t], d), Add2(ps[t + 1], d), Add2(ps[t + 2], d))
  }

  /** Triangle `t` scaled by `f` about its centroid. */
  function ScaledAbout(ps: seq<Vec2>, t: int, f: real): (r: seq<Vec2>)
    requires 0 <= t && t + 2 < |ps|
    ensures |r| == |ps|
  {
    var c := Centroid(ps, t);
    WithTriangle(ps, t, Add2(c, Scale2(f, Sub2(ps[t], c))),
                        Add2(c, Scale2(f, Sub2(ps[t + 1], c))),
                        Add2(c, Scale2(f, Sub2(ps[t + 2], c))))
  }

  /** The 2x2 rotation with the given cosine and sine applied to `v`. */
  function Turn(v: Vec2, co: real, si: real): Vec2 {
    Vec2(co * v.x - si * v.y, si * v.x + co * v.y)
  }

  /** Triangle `t` rotated about its centroid. */
  function RotatedAbout(ps: seq<Vec2>, t: int, co: real, si: real): (r: seq<Vec2>)
    requires 0 <= t && t + 2 < |ps|
    ensures |r| == |ps|
  {
    var c := Centroid(ps, t);
    WithTriangle(ps, t, Add2(c, Turn(Sub2(ps[t], c), co, si)),
                        Add2(c, Turn(Sub2(ps[t + 1], c), co, si)),
                        Add2(c, Turn(Sub2(ps[t + 2], c), co, si)))
  }

  /** Triangle `t` collapsed onto the origin, as deletion leaves it. */
  function Cleared(ps: seq<Vec2>, t: int): seq<Vec2>
    requires 0 <= t && t + 2 < |ps|
  {
    WithTriangle(ps, t, Zero2, Zero2, Zero2)
  }

  /** Displacing a triangle displaces its centroid by the same amount. */
  lemma MovedCentroid(ps: seq<Vec2>, t: int, d: Vec2)
    requires 0 <= t && t + 2 < |ps|
    ensures Centroid(Moved(ps, t, d), t) == Add2(Centroid(ps, t), d)
  {
  }

  /** Offsets that balance around a point still balance once each is multiplied by `f`. */
  lemma ScaledOffsetsBalance(u: Vec2, v: Vec2, w: Vec2, f: real)
    requires Add2(Add2(u, v), w) == Zero2
    ensures Add2(Add2(Scale2(f, u), Scale2(f, v)), Scale2(f, w)) == Zero2
  {
    assert f * u.x + f * v.x + f * w.x == f * (u.x + v.x + w.x);
    assert f * u.y + f * v.y + f * w.y == f * (u.y + v.y + w.y);
  }

  /** ... and once each is rotated. */
  lemma TurnedOffsetsBalance(u: Vec2, v: Vec2, w: Vec2, co: real, si: real)
    requires Add2(Add2(u, v), w) == Zero2
    ensures Add2(Add2(Turn(u, co, si), Turn(v, co, si)), Turn(w, co, si)) == Zero2
  {
    assert co * u.x + co * v.x + co * w.x == co * (u.x + v.x + w.x);
    assert si * u.y + si * v.y + si * w.y == si * (u.y + v.y + w.y);
    assert si * u.x + si * v.x + si * w.x == si * (u.x + v.x + w.x);
    assert co * u.y + co * v.y + co * w.y == co * (u.y + v.y + w.y);
  }

  /** A point around which three corners' offsets balance is their centroid. */
  lemma BalancedIsCentroid(ps: seq<Vec2>, t: int, c: Vec2)
    requires 0 <= t && t + 2 < |ps|
    requires BalancesAt(ps, t, c)
    ensures Centroid(ps, t) == c
  {
  }

  /** Scaling about the centroid keeps the centroid. */
  lemma ScaledKeepsCentroid(ps: seq<Vec2>, t: int, f: real)
    requires 0 <= t && t + 2 < |ps|
    ensures Centroid(ScaledAbout(ps, t, f), t) == Centroid(ps, t)
  {
    var c := Centroid(ps, t);
    var qs := ScaledAbout(ps, t, f);
    ScaledOffsetsBalance(Sub2(ps[t], c), Sub2(ps[t + 1], c), Sub2(ps[t + 2], c), f);
    assert Sub2(qs[t], c) == Scale2(f, Sub2(ps[t], c));
    assert Sub2(qs[t + 1], c) == Scale2(f, Sub2(ps[t + 1], c));
    assert Sub2(qs[t + 2], c) == Scale2(f, Sub2(ps[t + 2], c));
    BalancedIsCentroid(qs, t, c);
  }

  /** Rotating about the centroid keeps the centroid, whatever the cosine and sine. */
  lemma RotatedKeepsCentroid(ps: seq<Vec2>, t: int, co: real, si: real)
    requires 0 <= t && t + 2 < |ps|
    ensures Centroid(RotatedAbout(ps, t, co, si), t) == Centroid(ps, t)
  {
    var c := Centroid(ps, t);
    var qs := RotatedAbout(ps, t, co, si);
    TurnedOffsetsBalance(Sub2(ps[t], c), Sub2(ps[t + 1], c), Sub2(ps[t + 2], c), co, si);
    assert Sub2(qs[t], c) == Turn(Sub2(ps[t], c), co, si);
    assert Sub2(qs[t + 1], c) == Turn(Sub2(ps[t + 1], c), co, si);
    assert Sub2(qs[t + 2], c) == Turn(Sub2(ps[t + 2], c), co, si);
    BalancedIsCentroid(qs, t, c);
  }

  /** Replacing a triangle's corners twice keeps only the second replacement. */
  lemma WithTriangleTwice(ps: seq<Vec2>, t: int, a: Vec2, b: Vec2, c: Vec2, a': Vec2, b': Vec2, c': Vec2)
    requires 0 <= t && t + 2 < |ps|
    ensures WithTriangle(WithTriangle(ps, t, a, b, c), t, a', b', c') == WithTriangle(ps, t, a', b', c')
  {
  }

  /** One corner scaled by `f` and then by `g` about `c` is scaled by `f * g`. */
  lemma ScaleTwice(c: Vec2, p: Vec2, f: real, g: real)
    ensures Add2(c, Scale2(g, Sub2(Add2(c, Scale2(f, Sub2(p, c))), c))) == Add2(c, Scale2(f * g, Sub2(p, c)))
  {
    assert g * (f * (p.x - c.x)) == (f * g) * (p.x - c.x);
    assert g * (f * (p.y - c.y)) == (f * g) * (p.y - c.y);
  }

  /** Scaling by `f` and then by `g` about the centroid is scaling by `f * g`. */
  lemma ScaleCompose(ps: seq<Vec2>, t: int, f: real, g: real)
    requires 0 <= t && t + 2 < |ps|
    ensures ScaledAbout(ScaledAbout(ps, t, f), t, g) == ScaledAbout(ps, t, f * g)
  {
    var c := Centroid(ps, t);
    ScaledKeepsCentroid(ps, t, f);
    ScaleTwice(c, ps[t], f, g);
    ScaleTwice(c, ps[t + 1], f, g);
    ScaleTwice(c, ps[t + 2], f, g);
    var a, b, d := Add2(c, Scale2(f, Sub2(ps[t], c))), Add2(c, Scale2(f, Sub2(ps[t + 1], c))),
                   Add2(c, Scale2(f, Sub2(ps[t + 2], c)));
    WithTriangleTwice(ps, t, a, b, d, Add2(c, Scale2(g, Sub2(a, c))), Add2(c, Scale2(g, Sub2(b, c))),
                      Add2(c, Scale2(g, Sub2(d, c))));
  }

  /** One corner moved by -c, scaled by `f` and moved back by c is scaled about c. */
  lemma ScaleStep(c: Vec2, p: Vec2, f: real)
    ensures Add2(Scale2(f, Add2(p, Scale2(-1.0, c))), c) == Add2(c, Scale2(f, Sub2(p, c)))
  {
  }

  /**
   * The source's three steps for scaling a triangle (move its centroid to the
   * origin, scale its block, move it back) scale it about its centroid.
   */
  lemma ScaledAboutSteps(ps: seq<Vec2>, t: int, f: real)
    requires 0 <= t && t + 2 < |ps|
    ensures var c := Centroid(ps, t);
      var ms := Moved(ps, t, Scale2(-1.0, c));
      Moved(WithTriangle(ms, t, Scale2(f, ms[t]), Scale2(f, ms[t + 1]), Scale2(f, ms[t + 2])), t, c) == ScaledAbout(ps, t, f)
  {
    var c := Centroid(ps, t);
    var d := Scale2(-1.0, c);
    var ms := Moved(ps, t, d);
    var a0, a1, a2 := Add2(ps[t], d), Add2(ps[t + 1], d), Add2(ps[t + 2], d);
    var b0, b1, b2 := Scale2(f, a0), Scale2(f, a1), Scale2(f, a2);
    ScaleStep(c, ps[t], f);
    ScaleStep(c, ps[t + 1], f);
    ScaleStep(c, ps[t + 2], f);
    WithTriangleTwice(ps, t, a0, a1, a2, b0, b1, b2);
    WithTriangleTwice(ps, t, b0, b1, b2, Add2(b0, c), Add2(b1, c), Add2(b2, c));
  }

  /** One corner moved by -c, rotated and moved back by c is rotated about c. */
  lemma TurnStep(c: Vec2, p: Vec2, co: real, si: real)
    ensures Add2(Turn(Add2(p, Scale2(-1.0, c)), co, si), c) == Add2(c, Turn(Sub2(p, c), co, si))
  {
  }

  /** The source's three steps for rotating a triangle rotate it about its centroid. */
  lemma RotatedAboutSteps(ps: seq<Vec2>, t: int, co: real, si: real)
    requires 0 <= t && t + 2 < |ps|
    ensures var c := Centroid(ps, t);
      var ms := Moved(ps, t, Scale2(-1.0, c));
      Moved(WithTriangle(ms, t, Turn(ms[t], co, si), Turn(ms[t + 1], co, si), Turn(ms[t + 2], co, si)), t, c)
        == RotatedAbout(ps, t, co, si)
  {
    var c := Centroid(ps, t);
    var d := Scale2(-1.0, c);
    var a0, a1, a2 := Add2(ps[t], d), Add2(ps[t + 1], d), Add2(ps[t + 2], d);
    var b0, b1, b2 := Turn(a0, co, si), Turn(a1, co, si), Turn(a2, co, si);
    TurnStep(c, ps[t], co, si);
    TurnStep(c, ps[t + 1], co, si);
    TurnStep(c, ps[t + 2], co, si);
    WithTriangleTwice(ps, t, a0, a1, a2, b0, b1, b2);
    WithTriangleTwice(ps, t, b0, b1, b2, Add2(b0, c), Add2(b1, c), Add2(b2, c));
  }

  /** Squared length of a 2-vector. */
  function Norm2(v: Vec2): real { v.x * v.x + v.y * v.y }

  /** A rotation whose cosine and sine satisfy cos^2 + sin^2 = 1 keeps lengths. */
  lemma TurnKeepsLength(v: Vec2, co: real, si: real)
    requires co * co + si * si == 1.0
    ensures Norm2(Turn(v, co, si)) == Norm2(v)
  {
    calc {
      Norm2(Turn(v, co, si));
    ==
      (co * v.x - si * v.y) * (co * v.x - si * v.y) + (si * v.x + co * v.y) * (si * v.x + co * v.y);
    ==
      (co * co + si * si) * (v.x * v.x) + (co * co + si * si) * (v.y * v.y);
    }
  }

  /** The side between two rotated corners is the rotated side. */
  lemma TurnedSide(c: Vec2, p: Vec2, q: Vec2, co: real, si: real)
    ensures Sub2(Add2(c, Turn(Sub2(p, c), co, si)), Add2(c, Turn(Sub2(q, c), co, si))) == Turn(Sub2(p, q), co, si)
  {
    assert co * (p.x - c.x) - co * (q.x - c.x) == co * (p.x - q.x);
    assert si * (p.y - c.y) - si * (q.y - c.y) == si * (p.y - q.y);
    assert si * (p.x - c.x) - si * (q.x - c.x) == si * (p.x - q.x);
    assert co * (p.y - c.y) - co * (q.y - c.y) == co * (p.y - q.y);
  }

  /** Corner `j` of a triangle rotated about its centroid. */
  lemma RotatedCorner(ps: seq<Vec2>, t: int, co: real, si: real, j: int)
    requires 0 <= t && t + 2 < |ps| && t <= j < t + 3
    ensures var c := Centroid(ps, t);
      RotatedAbout(ps, t, co, si)[j] == Add2(c, Turn(Sub2(ps[j], c), co, si))
  {
  }

  /** Rotating a triangle about its centroid keeps the length of each side. */
  lemma RotatedKeepsSides(ps: seq<Vec2>, t: int, co: real, si: real, j: int, k: int)
    requires 0 <= t && t + 2 < |ps| && t <= j < t + 3 && t <= k < t + 3
    requires co * co + si * si == 1.0
    ensures var qs := RotatedAbout(ps, t, co, si);
      Norm2(Sub2(qs[j], qs[k])) == Norm2(Sub2(ps[j], ps[k]))
  {
    RotatedCorner(ps, t, co, si, j);
    RotatedCorner(ps, t, co, si, k);
    TurnedSide(Centroid(ps, t), ps[j], ps[k], co, si);
    TurnKeepsLength(Sub2(ps[j], ps[k]), co, si);
  }

  /** The rotation by the opposite angle undoes a rotation. */
  lemma TurnBack(v: Vec2, co: real, si: real)
    requires co * co + si * si == 1.0
    ensures Turn(Turn(v, co, si), co, -si) == v
  {
    assert co * (co * v.x - si * v.y) - (-si) * (si * v.x + co * v.y) == (co * co + si * si) * v.x;
    assert (-si) * (co * v.x - si * v.y) + co * (si * v.x + co * v.y) == (co * co + si * si) * v.y;
  }

  /** The angle, in radians, for a number of degrees, with the source's PI = 3.14. */
  function Radians(degrees: real): real { degrees * (3.14 / 180.0) }

  /** One corner rotated about `c` and rotated back is where it was. */
  lemma TurnBackAbout(c: Vec2, p: Vec2, co: real, si: real)
    requires co * co + si * si == 1.0
    ensures Add2(c, Turn(Sub2(Add2(c, Turn(Sub2(p, c), co, -si)), c), co, si)) == p
  {
    var v := Sub2(p, c);
    assert Sub2(Add2(c, Turn(v, co, -si)), c) == Turn(v, co, -si);
    TurnBack(v, co, -si);
    assert -(-si) == si;
  }

  /**
   * Key H rotates the selected triangle by -10 degrees and key J by 10: given
   * the trigonometric laws at that angle, pressing H and then J restores it.
   */
  lemma RotateKeysCancel(ps: seq<Vec2>, t: int, an: Analytic)
    requires 0 <= t && t + 2 < |ps|
    requires Utils.TrigLawsAt(an, Radians(10.0))
    ensures var h, j := Radians(CommandOf(KeyH).degrees), Radians(CommandOf(KeyJ).turn);
      RotatedAbout(RotatedAbout(ps, t, an.cos(h), an.sin(h)), t, an.cos(j), an.sin(j)) == ps
  {
    var theta := Radians(10.0);
    assert CommandOf(KeyH).degrees == -10.0 && CommandOf(KeyJ).turn == 10.0;
    hide CommandOf;
    assert Radians(-10.0) == -theta;
    var co, si := an.cos(theta), an.sin(theta);
    var c := Centroid(ps, t);
    RotatedKeepsCentroid(ps, t, co, -si);
    TurnBackAbout(c, ps[t], co, si);
    TurnBackAbout(c, ps[t + 1], co, si);
    TurnBackAbout(c, ps[t + 2], co, si);
    var a, b, d := Add2(c, Turn(Sub2(ps[t], c), co, -si)), Add2(c, Turn(Sub2(ps[t + 1], c), co, -si)),
                   Add2(c, Turn(Sub2(ps[t + 2], c), co, -si));
    WithTriangleTwice(ps, t, a, b, d, Add2(c, Turn(Sub2(a, c), co, si)), Add2(c, Turn(Sub2(b, c), co, si)),
                      Add2(c, Turn(Sub2(d, c), co, si)));
    assert WithTriangle(ps, t, ps[t], ps[t + 1], ps[t + 2]) == ps;
  }

  // ----- the view: panning and zooming (src/part1.cpp:158-188) -----

  /** The canonical-coordinate offset of a fifth of the window, vertically or horizontally. */
  function CanonicalShift(isVertical: bool, width: int, height: int): (r: Vec4)
    requires width > 0 && height > 0
    ensures r == if isVertical then Vec4(-1.0, -0.6, 0.0, 0.0) else Vec4(-0.6, -1.0, 0.0, 0.0)
  {
    var w, h := width as real, height as real;
    var sx := if isVertical then 0.0 else 0.20 * w;
    var sy := if isVertical then 0.20 * h else 0.0;
    assert (0.20 * w) / w == 0.20 && (0.20 * h) / h == 0.20;
    Vec4((sx / w) * 2.0 - 1.0, (sy / h) * 2.0 - 1.0, 0.0, 0.0)
  }

  /** That offset brought back to world coordinates through the inverse of the view. */
  function WorldShift(view: Mat4, isVertical: bool, width: int, height: int, an: Analytic): Vec4
    requires width > 0 && height > 0
  {
    Apply(an.inverse(view), CanonicalShift(isVertical, width, height))
  }

  const MoveDown := true
  const MoveUp := false
  const MoveLeft := false
  const MoveRight := true

  /** The view after `moveVertical`: only its entry (1,3) changes. */
  function VerticallyMoved(view: Mat4, direction: bool, width: int, height: int, an: Analytic): (r: Mat4)
    requires width > 0 && height > 0
    ensures r.r0 == view.r0 && r.r2 == view.r2 && r.r3 == view.r3
    ensures r.r1.(w := view.r1.w) == view.r1
    ensures var s := WorldShift(view, true, width, height, an).y;
      r.r1.w - view.r1.w == if direction == MoveDown then s else -s
  {
    var s := WorldShift(view, true, width, height, an);
    view.(r1 := view.r1.(w := if direction == MoveDown then view.r1.w + s.y else view.r1.w - s.y))
  }

  /** The view after `moveHorizontal`: only its entry (0,3) changes. */
  function HorizontallyMoved(view: Mat4, direction: bool, width: int, height: int, an: Analytic): (r: Mat4)
    requires width > 0 && height > 0
    ensures r.r1 == view.r1 && r.r2 == view.r2 && r.r3 == view.r3
    ensures r.r0.(w := view.r0.w) == view.r0
    ensures var s := WorldShift(view, false, width, height, an).x;
      r.r0.w - view.r0.w == if direction == MoveRight then -s else s
  {
    var p := WorldShift(view, false, width, height, an);
    view.(r0 := view.r0.(w := if direction == MoveRight then view.r0.w - p.x else view.r0.w + p.x))
  }

  /** The view with its three diagonal scale entries multiplied by `f`. */
  function Zoomed(view: Mat4, f: real): Mat4 {
    view.(r0 := view.r0.(x := view.r0.x * f), r1 := view.r1.(y := view.r1.y * f), r2 := view.r2.(z := view.r2.z * f))
  }

  /** Zooming by `f` and then by `g` is zooming by `f * g`. */
  lemma ZoomCompose(view: Mat4, f: real, g: real)
    ensures Zoomed(Zoomed(view, f), g) == Zoomed(view, f * g)
  {
    assert view.r0.x * f * g == view.r0.x * (f * g);
    assert view.r1.y * f * g == view.r1.y * (f * g);
    assert view.r2.z * f * g == view.r2.z * (f * g);
  }

  /** Zooming changes nothing but the diagonal scale entries, and zooming back by 1/f undoes it. */
  lemma ZoomUndone(view: Mat4, f: real)
    requires f != 0.0
    ensures Zoomed(view, f).r3 == view.r3 && TranslationOf(Zoomed(view, f)) == TranslationOf(view)
    ensures Zoomed(Zoomed(view, f), 1.0 / f) == view
  {
    ZoomCompose(view, f, 1.0 / f);
    assert f * (1.0 / f) == 1.0;
  }

  // ----- the editor's state and its mouse and keyboard handlers (src/part1.cpp:190-378) -----

  datatype Mode = TranslationMode | InsertionMode | DeletionMode | ColorMode | AnimationMode
  datatype SubMode = NoSubMode | TranslationMove | AnimationTranslating
  datatype MouseButton = LeftButton | RightButton | MiddleButton
  datatype Action = Press | Release | Repeat
  datatype EditorError = InvalidTriangle

  const Red := Vec3(1.0, 0.0, 0.0)
  const Yellow := Vec3(1.0, 1.0, 0.0)

  /** Stands for the colour columns that `conservativeResize` adds without initialising them. */
  const Unset := Vec3(0.0, 0.0, 0.0)

  /** The colour columns after resizing to `n`: the first ones kept, new ones unset. */
  function Resized(cs: seq<Vec3>, n: nat): (r: seq<Vec3>)
    ensures |r| == n
    ensures forall j :: 0 <= j < n ==> r[j] == if j < |cs| then cs[j] else Unset
  {
    if |cs| >= n then cs[..n] else cs + seq(n - |cs|, _ => Unset)
  }

  /**
   * With `cols` columns and `models` model matrices in step, the point that
   * makes `cols + 1` columns starts a triangle exactly when `cols % 3 == 1`, and
   * then one more model matrix keeps them in step.
   */
  lemma ModelCountStep(cols: int, models: int)
    requires 3 * models - 1 <= cols <= 3 * models + 1
    ensures cols % 3 == 1 <==> cols == 3 * models + 1
  {
  }

  /** The colour keys paint the selected vertex only in colour mode and with a vertex selected. */
  function Painted(colors: seq<Vec3>, mode: Mode, vertex: int, color: Vec3): (r: seq<Vec3>)
    requires -1 <= vertex < |colors|
    ensures |r| == |colors|
    ensures forall j :: 0 <= j < |colors| && j != vertex ==> r[j] == colors[j]
    ensures mode == ColorMode && vertex != -1 ==> r[vertex] == color
    ensures !(mode == ColorMode && vertex != -1) ==> r == colors
  {
    if mode == ColorMode && vertex != -1 then colors[vertex := color] else colors
  }

  /** The scale and rotate keys act only in translation mode, with a triangle selected, on a press. */
  predicate Armed(mode: Mode, selected: int, action: Action) {
    mode == TranslationMode && selected != -1 && action == Press
  }

  datatype Key =
    | KeyO | KeyI | KeyP | KeyC | KeyX | KeyK | KeyL | KeyH | KeyJ
    | Key1 | Key2 | Key3 | Key4 | Key5 | Key6 | Key7 | Key8 | Key9
    | KeyW | KeyA | KeyS | KeyD | KeyMinus | KeyEqual | OtherKey

  /** What a key does once the window's size is known. */
  datatype KeyCommand =
    | SwitchMode(target: Mode)
    | ScaleSelected(factor: real)
    | RotateSelected(degrees: real)
    | RotateThenPaint(turn: real, paint: Vec3)
    | Paint(color: Vec3)
    | PanVertical(down: bool)
    | PanHorizontal(right: bool)
    | Zoom(zoomFactor: real)
    | NoCommand

  /**
   * The switch of `keyListener`. KEY_J has no `break`, so after its rotation
   * it goes on to KEY_1's painting; KEY_1 to KEY_9 pick a fixed palette.
   */
  function CommandOf(key: Key): (r: KeyCommand)
    ensures r.ScaleSelected? ==> r.factor > 0.0
    ensures r.Zoom? ==> r.zoomFactor > 0.0
    ensures r.RotateThenPaint? <==> key == KeyJ
    ensures r.RotateThenPaint? ==> r.turn == 10.0 && r.paint == Yellow
    ensures key == Key1 ==> r == Paint(Yellow)
    ensures r.SwitchMode? <==> key in {KeyO, KeyI, KeyP, KeyC, KeyX}
  {
    match key
    case KeyO => SwitchMode(TranslationMode)
    case KeyI => SwitchMode(InsertionMode)
    case KeyP => SwitchMode(DeletionMode)
    case KeyC => SwitchMode(ColorMode)
    case KeyX => SwitchMode(AnimationMode)
    case KeyK => ScaleSelected(1.25)
    case KeyL => ScaleSelected(0.75)
    case KeyH => RotateSelected(-10.0)
    case KeyJ => RotateThenPaint(10.0, Yellow)
    case Key1 => Paint(Yellow)
    case Key2 => Paint(Vec3(1.0, 0.0, 1.0))
    case Key3 => Paint(Vec3(0.0, 1.0, 1.0))
    case Key4 => Paint(Vec3(0.0, 0.0, 0.0))
    case Key5 => Paint(Vec3(1.0, 1.0, 1.0))
    case Key6 => Paint(Vec3(0.0, 1.0, 0.0))
    case Key7 => Paint(Vec3(0.0, 0.0, 1.0))
    case Key8 => Paint(Red)
    case Key9 => Paint(Vec3(0.5, 0.3, 0.2))
    case KeyW => PanVertical(MoveDown)
    case KeyA => PanHorizontal(MoveRight)
    case KeyS => PanVertical(MoveUp)
    case KeyD => PanHorizontal(MoveLeft)
    case KeyMinus => Zoom(0.8)
    case KeyEqual => Zoom(1.2)
    case OtherKey => NoCommand
  }

  /** Every field but `positions`, to state what an operation leaves alone. */
  datatype Settings = Settings(
    colors: seq<Vec3>, models: seq<Mat4>, view: Mat4, mode: Mode, subMode: SubMode,
    selectedTriangle: int, selectedVertexPosition: int,
    animateTriangle: int, animateFrom: Vec2, animateTo: Vec2)

  class TriangleEditor {
    /** One column per inserted point, and a last column that follows the cursor. */
    var positions: seq<Vec2>
    var colors: seq<Vec3>
    /** One model matrix per triangle begun: the inverse of the view when its first point was placed. */
    var models: seq<Mat4>
    var view: Mat4
    var mode: Mode
    var subMode: SubMode
    var selectedTriangle: int
    var selectedVertexPosition: int
    var animateTriangle: int
    var animateTriangleFrom: Vec2
    var animateTriangleTo: Vec2

    function Others(): Settings
      reads this
    {
      Settings(colors, models, view, mode, subMode, selectedTriangle, selectedVertexPosition,
               animateTriangle, animateTriangleFrom, animateTriangleTo)
    }

    /**
     * The cursor column always exists, every point has a colour, there is one
     * model matrix per triangle begun, and the selections name a complete
     * triangle and an inserted point, or nothing (-1).
     */
    ghost predicate Valid()
      reads this
    {
      && |positions| >= 1
      && |colors| >= |positions|
      && 3 * |models| - 1 <= |positions| <= 3 * |models| + 1
      && (selectedTriangle == -1 || Complete(selectedTriangle, |positions|))
      && -1 <= selectedVertexPosition < |positions| - 1
    }

    /** The state `main1` sets up before its event loop: only the cursor column, in red. */
    constructor()
      ensures Valid()
      ensures positions == [Zero2]
      ensures Others() == Settings([Red], [], Identity, InsertionMode, NoSubMode, -1, -1, 0, Zero2, Zero2)
    {
      positions := [Zero2];
      colors := [Red];
      models := [];
      view := Identity;
      mode := InsertionMode;
      subMode := NoSubMode;
      selectedTriangle := -1;
      selectedVertexPosition := -1;
      animateTriangle := 0;
      animateTriangleFrom := Zero2;
      animateTriangleTo := Zero2;
    }

    /** `getTriangleCentroid`: an error for a column outside the matrix, else the balance point. */
    function TriangleCentroid(t: int): (r: Result<Vec2, EditorError>)
      reads this
      requires t < 0 || t >= |positions| || t + 2 < |positions|
      ensures r.Err? <==> t < 0 || t >= |positions|
      ensures r.Ok? ==> BalancesAt(positions, t, r.value)
    {
      if t < 0 || t >= |positions| then Err(InvalidTriangle) else Ok(Centroid(positions, t))
    }

    method TranslateTriangle(t: int, d: Vec2)
      modifies this
      requires 0 <= t && t + 2 < |positions|
      ensures positions == Moved(old(positions), t, d)
      ensures Others() == old(Others())
    {
      positions := positions[t := Add2(positions[t], d)];
      positions := positions[t + 1 := Add2(positions[t + 1], d)];
      positions := positions[t + 2 := Add2(positions[t + 2], d)];
    }

    method TranslateTriangleTo(t: int, target: Vec2)
      modifies this
      requires 0 <= t && t + 2 < |positions|
      ensures positions == Moved(old(positions), t, Sub2(target, Centroid(old(positions), t)))
      ensures Centroid(positions, t) == target
      ensures Others() == old(Others())
    {
      var c := TriangleCentroid(t).value;
      BalancedIsCentroid(positions, t, c);
      TranslateTriangle(t, Sub2(target, c));
      MovedCentroid(old(positions), t, Sub2(target, c));
    }

    method ScaleTriangle(t: int, factor: real)
      modifies this
      requires selectedTriangle == -1 || (0 <= t && t + 2 < |positions|)
      ensures positions == if old(selectedTriangle) == -1 then old(positions) else ScaledAbout(old(positions), t, factor)
      ensures Others() == old(Others())
      ensures old(Valid()) ==> Valid()
    {
      if selectedTriangle == -1 {
        return;
      }
      var c := TriangleCentroid(t).value;
      BalancedIsCentroid(positions, t, c);
      TranslateTriangle(t, Scale2(-1.0, c));
      positions := WithTriangle(positions, t, Scale2(factor, positions[t]), Scale2(factor, positions[t + 1]),
                                Scale2(factor, positions[t + 2]));
      TranslateTriangle(t, c);
      ScaledAboutSteps(old(positions), t, factor);
    }

    method RotateTriangle(t: int, degrees: real, an: Analytic)
      modifies this
      requires selectedTriangle == -1 || (0 <= t && t + 2 < |positions|)
      ensures positions == if old(selectedTriangle) == -1 then old(positions)
        else RotatedAbout(old(positions), t, an.cos(Radians(degrees)), an.sin(Radians(degrees)))
      ensures Others() == old(Others())
      ensures old(Valid()) ==> Valid()
    {
      if selectedTriangle == -1 {
        return;
      }
      var angle := degrees * (3.14 / 180.0);
      var c := TriangleCentroid(t).value;
      BalancedIsCentroid(positions, t, c);
      TranslateTriangle(t, Scale2(-1.0, c));
      var co, si := an.cos(angle), an.sin(angle);
      positions := WithTriangle(positions, t, Turn(positions[t], co, si), Turn(positions[t + 1], co, si),
                                Turn(positions[t + 2], co, si));
      TranslateTriangle(t, c);
      RotatedAboutSteps(old(positions), t, co, si);
    }

    /** `updateSelectedTriangle`, with each corner taking its own column's x. */
    method SelectTriangle(click: Vec2)
      modifies this
      requires ModelsCover(|positions|, |models|)
      ensures positions == old(positions)
      ensures Others() == old(Others()).(selectedTriangle := selectedTriangle)
      ensures selectedTriangle == TriangleUnder(positions, models, view, click, false, 0)
    {
      hide Mul, Apply, IsPointInTriangle;
      var state := (|positions| - 1) % 3;
      var i := 0;
      while i < |positions| - state - 3
        invariant 0 <= i && i % 3 == 0
        invariant unchanged(this)
        invariant TriangleUnder(positions, models, view, click, false, i) == TriangleUnder(positions, models, view, click, false, 0)
      {
        CompleteInRange(i, |positions|, |models|);
        var m := Mul(view, models[i / 3]);
        var a := Apply(m, Vec4(positions[i].x, positions[i].y, 0.0, 1.0));
        var b := Apply(m, Vec4(positions[i + 1].x, positions[i + 1].y, 0.0, 1.0));
        var c := Apply(m, Vec4(positions[i + 2].x, positions[i + 2].y, 0.0, 1.0));
        assert (a, b, c) == ScreenCorners(positions, models, view, i, false);
        if IsPointInTriangle(click, a, b, c) {
          selectedTriangle := i;
          return;
        }
        i := i + 3;
      }
      selectedTriangle := -1;
    }

    /** `updateSelectedVertexPosition`: the nearest inserted point, the cursor column excluded. */
    method SelectNearestVertex(click: Vec2, an: Analytic)
      modifies this
      requires |positions| >= 1
      ensures positions == old(positions)
      ensures Others() == old(Others()).(selectedVertexPosition := selectedVertexPosition)
      ensures selectedVertexPosition == NearestAmong(positions, click, an, |positions| - 1).index
    {
      var minIndex := -1;
      var minDistance: Option<real> := None;
      var i := 0;
      while i < |positions| - 1
        invariant 0 <= i <= |positions| - 1
        invariant Nearest(minIndex, minDistance) == NearestAmong(positions, click, an, i)
      {
        var d := Distance(click, positions[i], an);
        if minDistance.None? || d < minDistance.value {
          minDistance := Some(d);
          minIndex := i;
        }
        i := i + 1;
      }
      selectedVertexPosition := minIndex;
    }

    method UpdateVertexColor(vertex: int, color: Vec3)
      modifies this
      requires 0 <= vertex < |colors|
      ensures positions == old(positions)
      ensures Others() == old(Others()).(colors := old(colors)[vertex := color])
    {
      colors := colors[vertex := color];
    }

    method MoveVertical(direction: bool, width: int, height: int, an: Analytic)
      modifies this
      requires width > 0 && height > 0
      ensures positions == old(positions)
      ensures Others() == old(Others()).(view := VerticallyMoved(old(view), direction, width, height, an))
      ensures old(Valid()) ==> Valid()
    {
      var shift := WorldShift(view, true, width, height, an);
      if direction == MoveDown {
        view := view.(r1 := view.r1.(w := view.r1.w + shift.y));
      } else {
        view := view.(r1 := view.r1.(w := view.r1.w - shift.y));
      }
    }

    method MoveHorizontal(direction: bool, width: int, height: int, an: Analytic)
      modifies this
      requires width > 0 && height > 0
      ensures positions == old(positions)
      ensures Others() == old(Others()).(view := HorizontallyMoved(old(view), direction, width, height, an))
      ensures old(Valid()) ==> Valid()
    {
      var p := WorldShift(view, false, width, height, an);
      if direction == MoveRight {
        view := view.(r0 := view.r0.(w := view.r0.w - p.x));
      } else {
        view := view.(r0 := view.r0.(w := view.r0.w + p.x));
      }
    }

    method ZoomInBy(factor: real)
      modifies this
      ensures positions == old(positions)
      ensures Others() == old(Others()).(view := Zoomed(old(view), factor))
      ensures old(Valid()) ==> Valid()
    {
      view := view.(r0 := view.r0.(x := view.r0.x * factor));
      view := view.(r1 := view.r1.(y := view.r1.y * factor));
      view := view.(r2 := view.r2.(z := view.r2.z * factor));
    }

    /** A left press in insertion mode: a new point, red, and a model matrix when it starts a triangle. */
    method InsertPoint(click: Vec2, an: Analytic)
      modifies this
      requires Valid()
      ensures Valid()
      ensures positions == old(positions) + [click]
      ensures Others() == old(Others()).(
        colors := Resized(old(colors), |positions| + 1)[|positions| - 1 := Red],
        models := old(models) + (if (|positions| - 1) % 3 == 1 then [an.inverse(old(view))] else []),
        selectedTriangle := -1)
    {
      positions := positions + [click];
      colors := Resized(colors, |positions| + 1);
      colors := colors[|positions| - 1 := Red];
      selectedTriangle := -1;
      var state := (|positions| - 1) % 3;
      ModelCountStep(|positions| - 1, |models|);
      if state == 1 {
        models := models + [an.inverse(view)];
      }
    }

    /** A left press in deletion mode, which falls through into the colour mode's vertex selection. */
    method DeleteAt(click: Vec2, an: Analytic)
      modifies this
      requires Valid()
      ensures Valid()
      ensures var hit := TriangleUnder(old(positions), old(models), old(view), click, false, 0);
        && positions == (if hit == -1 then old(positions) else Cleared(old(positions), hit))
        && Others() == old(Others()).(
             selectedTriangle := hit,
             selectedVertexPosition := NearestAmong(positions, click, an, |positions| - 1).index)
    {
      SelectTriangle(click);
      if selectedTriangle != -1 {
        positions := Cleared(positions, selectedTriangle);
      }
      // the deletion case falls through into the colour case
      SelectNearestVertex(click, an);
    }

    /** A left press in animation mode: select a triangle first, then start moving it to the next click. */
    method AnimateAt(click: Vec2)
      modifies this
      requires Valid()
      ensures Valid()
      ensures positions == old(positions)
      ensures Others() == if old(selectedTriangle) == -1 then
          old(Others()).(selectedTriangle := TriangleUnder(old(positions), old(models), old(view), click, false, 0))
        else
          old(Others()).(subMode := AnimationTranslating, animateTriangle := old(selectedTriangle),
                         animateFrom := Centroid(old(positions), old(selectedTriangle)), animateTo := click)
    {
      if selectedTriangle == -1 {
        SelectTriangle(click);
      } else {
        subMode := AnimationTranslating;
        animateTriangle := selectedTriangle;
        animateTriangleFrom := TriangleCentroid(selectedTriangle).value;
        BalancedIsCentroid(positions, selectedTriangle, animateTriangleFrom);
        animateTriangleTo := click;
      }
    }

    method MouseButtonListener(button: MouseButton, action: Action, click: Vec2, an: Analytic)
      modifies this
      requires Valid()
      ensures Valid()
      ensures mode == old(mode) && view == old(view)
      ensures !(button == LeftButton && action == Press) ==>
        && positions == old(positions)
        && Others() == old(Others()).(
             subMode := if old(mode) == TranslationMode && action == Release then NoSubMode else old(subMode))
      ensures button == LeftButton && action == Press && old(mode) == InsertionMode ==>
        && positions == old(positions) + [click]
        && Others() == old(Others()).(
             colors := Resized(old(colors), |positions| + 1)[|positions| - 1 := Red],
             models := old(models) + (if (|positions| - 1) % 3 == 1 then [an.inverse(old(view))] else []),
             selectedTriangle := -1)
      ensures button == LeftButton && action == Press && old(mode) == TranslationMode ==>
        && positions == old(positions)
        && Others() == old(Others()).(
             subMode := TranslationMove,
             selectedTriangle := TriangleUnder(old(positions), old(models), old(view), click, false, 0))
      ensures button == LeftButton && action == Press && old(mode) == DeletionMode ==>
        var hit := TriangleUnder(old(positions), old(models), old(view), click, false, 0);
        && positions == (if hit == -1 then old(positions) else Cleared(old(positions), hit))
        && Others() == old(Others()).(
             selectedTriangle := hit,
             selectedVertexPosition := NearestAmong(positions, click, an, |positions| - 1).index)
      ensures button == LeftButton && action == Press && old(mode) == ColorMode ==>
        && positions == old(positions)
        && Others() == old(Others()).(
             selectedVertexPosition := NearestAmong(old(positions), click, an, |positions| - 1).index)
      ensures button == LeftButton && action == Press && old(mode) == AnimationMode ==>
        && positions == old(positions)
        && Others() == if old(selectedTriangle) == -1 then
             old(Others()).(selectedTriangle := TriangleUnder(old(positions), old(models), old(view), click, false, 0))
           else
             old(Others()).(subMode := AnimationTranslating, animateTriangle := old(selectedTriangle),
                            animateFrom := Centroid(old(positions), old(selectedTriangle)), animateTo := click)
    {
      hide TriangleUnder, NearestAmong, Resized, Cleared, Centroid;
      var leftPress := button == LeftButton && action == Press;
      match mode {
        case InsertionMode =>
          if leftPress {
            InsertPoint(click, an);
          }
        case TranslationMode =>
          if leftPress {
            SelectTriangle(click);
            subMode := TranslationMove;
          } else if action == Release {
            subMode := NoSubMode;
          }
        case DeletionMode =>
          if leftPress {
            DeleteAt(click, an);
          }
        case ColorMode =>
          if leftPress {
            SelectNearestVertex(click, an);
          }
        case AnimationMode =>
          if leftPress {
            AnimateAt(click);
          }
      }
    }
  
    method KeyListener(key: Key, action: Action, width: int, height: int, an: Analytic)
      modifies this
      requires Valid()
      requires (CommandOf(key).PanVertical? || CommandOf(key).PanHorizontal?) && action == Press ==>
        width > 0 && height > 0
      ensures Valid()
      ensures match CommandOf(key)
        case SwitchMode(m) =>
          positions == old(positions) && Others() == old(Others()).(mode := m, subMode := NoSubMode)
        case ScaleSelected(f) =>
          && Others() == old(Others())
          && positions == if Armed(old(mode), old(selectedTriangle), action)
               then ScaledAbout(old(positions), old(selectedTriangle), f) else old(positions)
        case RotateSelected(d) =>
          && Others() == old(Others())
          && positions == if Armed(old(mode), old(selectedTriangle), action)
               then RotatedAbout(old(positions), old(selectedTriangle), an.cos(Radians(d)), an.sin(Radians(d)))
               else old(positions)
        case RotateThenPaint(d, c) =>
          && Others() == old(Others()).(colors := Painted(old(colors), old(mode), old(selectedVertexPosition), c))
          && positions == if Armed(old(mode), old(selectedTriangle), action)
               then RotatedAbout(old(positions), old(selectedTriangle), an.cos(Radians(d)), an.sin(Radians(d)))
               else old(positions)
        case Paint(c) =>
          && positions == old(positions)
          && Others() == old(Others()).(colors := Painted(old(colors), old(mode), old(selectedVertexPosition), c))
        case PanVertical(down) =>
          && positions == old(positions)
          && Others() == old(Others()).(
               view := if action == Press then VerticallyMoved(old(view), down, width, height, an) else old(view))
        case PanHorizontal(right) =>
          && positions == old(positions)
          && Others() == old(Others()).(
               view := if action == Press then HorizontallyMoved(old(view), right, width, height, an) else old(view))
        case Zoom(f) =>
          && positions == old(positions)
          && Others() == old(Others()).(view := if action == Press then Zoomed(old(view), f) else old(view))
        case NoCommand =>
          positions == old(positions) && Others() == old(Others())
    {
      hide ScaledAbout, RotatedAbout, VerticallyMoved, HorizontallyMoved, Zoomed, Painted;
      match CommandOf(key)
      case SwitchMode(m) =>
        mode := m;
        subMode := NoSubMode;
      case ScaleSelected(f) =>
        if mode == TranslationMode && selectedTriangle != -1 && action == Press {
          ScaleTriangle(selectedTriangle, f);
        }
      case RotateSelected(d) =>
        if mode == TranslationMode && selectedTriangle != -1 && action == Press {
          RotateTriangle(selectedTriangle, d, an);
        }
      case RotateThenPaint(d, c) =>
        if mode == TranslationMode && selectedTriangle != -1 && action == Press {
          RotateTriangle(selectedTriangle, d, an);
        }
        // no `break`: KEY_J goes on into KEY_1
        PaintSelectedVertex(c);
      case Paint(c) =>
        PaintSelectedVertex(c);
      case PanVertical(down) =>
        if action == Press {
          MoveVertical(down, width, height, an);
        }
      case PanHorizontal(right) =>
        if action == Press {
          MoveHorizontal(right, width, height, an);
        }
      case Zoom(f) =>
        if action == Press {
          ZoomInBy(f);
        }
      case NoCommand =>
    }

    /** The body shared by KEY_1 to KEY_9: recolour the selected vertex in colour mode. */
    method PaintSelectedVertex(color: Vec3)
      modifies this
      requires Valid()
      ensures Valid()
      ensures positions == old(positions)
      ensures Others() == old(Others()).(colors := Painted(old(colors), old(mode), old(selectedVertexPosition), color))
    {
      if mode == ColorMode && selectedVertexPosition != -1 {
        UpdateVertexColor(selectedVertexPosition, color);
      }
    }
  }
}
