/**
 * A triangle mesh: its vertices, its faces (three vertex numbers each), the
 * per-corner buffers the renderer draws from, and the model matrix that places
 * it in the world.
 */
module Meshes {
  import opened Algebra
  import opened Utils

  /** A face: the vertex numbers of its three corners. */
  datatype Face = Face(i0: int, i1: int, i2: int)

  /** The vertex number at corner `k` (0, 1 or 2) of a face. */
  function Corner(f: Face, k: int): int
    requires 0 <= k < 3
  {
    if k == 0 then f.i0 else if k == 1 then f.i1 else f.i2
  }

  /** Every corner of every face names one of `n` vertices. */
  predicate ValidFaces(faces: seq<Face>, n: int) {
    forall g, k :: 0 <= g < |faces| && 0 <= k < 3 ==> 0 <= Corner(faces[g], k) < n
  }

  // ===== Per-corner buffers =====

  /** Column `3g + k` holds the position of corner `k` of face `g`. */
  ghost predicate IsTriangleBuffer(tv: seq<Vec3>, faces: seq<Face>, vertices: seq<Vec3>)
    requires ValidFaces(faces, |vertices|)
  {
    && |tv| == 3 * |faces|
    && forall i :: 0 <= i < |tv| ==> tv[i] == vertices[Corner(faces[i / 3], i % 3)]
  }

  /** `Mesh::calculateTriangleVertices`: gathers the corners of every face into one flat buffer. */
  method CalculateTriangleVertices(faces: seq<Face>, vertices: seq<Vec3>) returns (tv: seq<Vec3>)
    requires ValidFaces(faces, |vertices|)
    ensures IsTriangleBuffer(tv, faces, vertices)
  {
    var buffer := new Vec3[3 * |faces|](_ => Zero3);
    var g := 0;
    while g < |faces|
      invariant 0 <= g <= |faces|
      invariant forall i :: 0 <= i < 3 * g ==> buffer[i] == vertices[Corner(faces[i / 3], i % 3)]
    {
      var k := 0;
      while k < 3
        invariant 0 <= k <= 3
        invariant forall i :: 0 <= i < 3 * g + k ==> buffer[i] == vertices[Corner(faces[i / 3], i % 3)]
      {
        assert (3 * g + k) / 3 == g && (3 * g + k) % 3 == k;
        buffer[3 * g + k] := vertices[Corner(faces[g], k)];
        k := k + 1;
      }
      g := g + 1;
    }
    tv := buffer[..];
  }

  /** The unit normal of the triangle `a`, `b`, `c`: the normalized cross product of two edges. */
  function FaceNormal(a: Vec3, b: Vec3, c: Vec3, an: Analytic): (n: Vec3)
    ensures Dot(n, Sub(b, a)) == 0.0 && Dot(n, Sub(c, a)) == 0.0
  {
    var e := Cross(Sub(b, a), Sub(c, a));
    CrossOrthogonal(Sub(b, a), Sub(c, a));
    DotScaleLeft(InverseLength(e, an), e, Sub(b, a));
    DotScaleLeft(InverseLength(e, an), e, Sub(c, a));
    Normalize(e, an)
  }

  /** The normal of triangle `g` of a per-corner buffer. */
  function TriangleNormal(tv: seq<Vec3>, g: int, an: Analytic): Vec3
    requires 0 <= g && 3 * g + 2 < |tv|
  {
    FaceNormal(tv[3 * g], tv[3 * g + 1], tv[3 * g + 2], an)
  }

  /** Every corner of a triangle carries the normal of its triangle. */
  ghost predicate IsFaceNormals(fn: seq<Vec3>, tv: seq<Vec3>, an: Analytic)
    requires |tv| % 3 == 0
  {
    && |fn| == |tv|
    && forall i :: 0 <= i < |fn| ==> fn[i] == TriangleNormal(tv, i / 3, an)
  }

  /** `Mesh::calculateFaceNormals`: one normal per triangle, written into its three columns. */
  method CalculateFaceNormals(tv: seq<Vec3>, an: Analytic) returns (fn: seq<Vec3>)
    requires |tv| % 3 == 0
    ensures IsFaceNormals(fn, tv, an)
  {
    hide TriangleNormal, FaceNormal;
    var normals := new Vec3[|tv|](_ => Zero3);
    ghost var triangles := |tv| / 3;
    assert |tv| == 3 * triangles;
    var i, k := 0, 0;
    while i < |tv|
      invariant 0 <= k <= triangles && i == 3 * k
      invariant forall g {:trigger TriangleNormal(tv, g, an)} :: 0 <= g < k ==>
        Triplicated(normals[..], g, TriangleNormal(tv, g, an))
    {
      var normal := TriangleNormal(tv, k, an);
      FillTriangle(normals, i, normal);
      forall g | 0 <= g < k + 1
        ensures Triplicated(normals[..], g, TriangleNormal(tv, g, an))
      {
        if g < k {
          assert 3 * g + 2 < i;
        } else {
          assert 3 * g == i;
        }
      }
      i, k := i + 3, k + 1;
    }
    fn := normals[..];
    forall j | 0 <= j < |fn|
      ensures fn[j] == TriangleNormal(tv, j / 3, an)
    {
      var g := j / 3;
      assert j == 3 * g || j == 3 * g + 1 || j == 3 * g + 2;
    }
  }

  /** The three columns of triangle `g` of a per-corner buffer hold `v`. */
  predicate Triplicated(s: seq<Vec3>, g: int, v: Vec3) {
    0 <= g && 3 * g + 2 < |s| && s[3 * g] == v && s[3 * g + 1] == v && s[3 * g + 2] == v
  }

  /** Writes `v` into the three columns of the triangle starting at column `i`. */
  method FillTriangle(a: array<Vec3>, i: nat, v: Vec3)
    requires i + 2 < a.Length
    modifies a
    ensures forall j :: 0 <= j < a.Length && j != i && j != i + 1 && j != i + 2 ==> a[j] == old(a[j])
    ensures a[i] == a[i + 1] == a[i + 2] == v
  {
    a[i] := v;
    a[i + 1] := v;
    a[i + 2] := v;
  }

  // ===== Vertex normals =====

  /** How many corners of face `f` are vertex `v`. */
  function CornerCount(f: Face, v: int): nat {
    (if f.i0 == v then 1 else 0) + (if f.i1 == v then 1 else 0) + (if f.i2 == v then 1 else 0)
  }

  /** Face number `g`, listed once for each of the first `k` corners of `f` that is vertex `v`. */
  function Occurrences(f: Face, g: int, v: int, k: int): seq<int> {
    (if 0 < k && f.i0 == v then [g] else []) + (if 1 < k && f.i1 == v then [g] else [])
      + (if 2 < k && f.i2 == v then [g] else [])
  }

  /**
   * The faces among the first `n` that touch vertex `v`, in increasing order,
   * a face listed once per corner it has at `v`: the list the adjacency map
   * holds for `v`.
   */
  function Incident(faces: seq<Face>, v: int, n: int): (r: seq<int>)
    requires 0 <= n <= |faces|
    ensures forall x :: x in r ==> 0 <= x < n
  {
    if n == 0 then [] else Incident(faces, v, n - 1) + Occurrences(faces[n - 1], n - 1, v, 3)
  }

  /** The list of every vertex is in increasing face order. */
  lemma {:induction false} IncidentAscending(faces: seq<Face>, v: int, n: int)
    requires 0 <= n <= |faces|
    ensures Ascending(Incident(faces, v, n))
  {
    if n > 0 {
      IncidentAscending(faces, v, n - 1);
      AscendingAppend(Incident(faces, v, n - 1), Occurrences(faces[n - 1], n - 1, v, 3), n - 1);
    }
  }

  predicate Ascending(s: seq<int>) {
    forall i, j :: 0 <= i <= j < |s| ==> s[i] <= s[j]
  }

  lemma AscendingAppend(s: seq<int>, t: seq<int>, b: int)
    requires Ascending(s) && (forall x :: x in s ==> x < b) && (forall x :: x in t ==> x == b)
    ensures Ascending(s + t)
  {
    forall i, j | 0 <= i <= j < |s + t| ensures (s + t)[i] <= (s + t)[j] {
      if j >= |s| {
        assert (s + t)[j] == t[j - |s|] && t[j - |s|] in t;
        if i < |s| { assert s[i] in s; }
        else { assert (s + t)[i] == t[i - |s|] && t[i - |s|] in t; }
      }
    }
  }

  /** The face list the adjacency map holds for `v` once every face is entered. */
  ghost predicate IsIncidenceMap(m: map<int, seq<int>>, faces: seq<Face>) {
    forall v :: (v in m <==> Incident(faces, v, |faces|) != []) && (v in m ==> m[v] == Incident(faces, v, |faces|))
  }

  /** The lists after faces `0..g-1` and the first `k` corners of face `g`. */
  function PartialIncident(faces: seq<Face>, v: int, g: int, k: int): seq<int>
    requires 0 <= g < |faces| && 0 <= k <= 3
  {
    Incident(faces, v, g) + Occurrences(faces[g], g, v, k)
  }

  ghost predicate AgreesUpTo(m: map<int, seq<int>>, faces: seq<Face>, g: int, k: int)
    requires 0 <= g < |faces| && 0 <= k <= 3
  {
    forall v :: (v in m <==> PartialIncident(faces, v, g, k) != []) && (v in m ==> m[v] == PartialIncident(faces, v, g, k))
  }

  /** Entering corner `k` of face `g` extends exactly the list of that corner's vertex. */
  lemma EnterCorner(m: map<int, seq<int>>, faces: seq<Face>, g: int, k: int)
    requires 0 <= g < |faces| && 0 <= k < 3 && AgreesUpTo(m, faces, g, k)
    ensures var v := Corner(faces[g], k);
            AgreesUpTo(m[v := (if v in m then m[v] else []) + [g]], faces, g, k + 1)
  {
    hide Incident;
    var v := Corner(faces[g], k);
    var m' := m[v := (if v in m then m[v] else []) + [g]];
    forall u
      ensures (u in m' <==> PartialIncident(faces, u, g, k + 1) != [])
      ensures (u in m' ==> m'[u] == PartialIncident(faces, u, g, k + 1))
    {
      assert PartialIncident(faces, u, g, k + 1)
          == PartialIncident(faces, u, g, k) + (if Corner(faces[g], k) == u then [g] else []);
    }
  }

  /**
   * The first loop of `Mesh::calculateVertexNormals`: for each corner of each
   * face, in order, append the face number to its vertex's list, creating the
   * list on first sight.
   */
  method IncidenceMap(faces: seq<Face>) returns (m: map<int, seq<int>>)
    ensures IsIncidenceMap(m, faces)
  {
    m := map[];
    var g := 0;
    while g < |faces|
      invariant 0 <= g <= |faces|
      invariant forall v :: (v in m <==> Incident(faces, v, g) != []) && (v in m ==> m[v] == Incident(faces, v, g))
    {
      assert AgreesUpTo(m, faces, g, 0) by {
        forall v ensures PartialIncident(faces, v, g, 0) == Incident(faces, v, g) {
          assert Occurrences(faces[g], g, v, 0) == [];
        }
      }
      var k := 0;
      while k < 3
        invariant 0 <= k <= 3 && AgreesUpTo(m, faces, g, k)
      {
        var v := Corner(faces[g], k);
        EnterCorner(m, faces, g, k);
        if v !in m {
          m := m[v := []];
        }
        m := m[v := m[v] + [g]];
        k := k + 1;
      }
      assert forall v :: PartialIncident(faces, v, g, 3) == Incident(faces, v, g + 1);
      g := g + 1;
    }
  }

  /** How many times `x` occurs in `s`. */
  function Count(s: seq<int>, x: int): nat {
    if s == [] then 0 else Count(s[..|s| - 1], x) + (if s[|s| - 1] == x then 1 else 0)
  }

  lemma {:induction false} CountAppend(s: seq<int>, t: seq<int>, x: int)
    ensures Count(s + t, x) == Count(s, x) + Count(t, x)
    decreases |t|
  {
    if t != [] {
      CountAppend(s, t[..|t| - 1], x);
      assert (s + t)[..|s + t| - 1] == s + t[..|t| - 1];
    } else {
      assert s + t == s;
    }
  }

  lemma {:induction false} CountPositive(s: seq<int>, x: int)
    ensures Count(s, x) > 0 <==> x in s
  {
    if s != [] {
      CountPositive(s[..|s| - 1], x);
      assert s == s[..|s| - 1] + [s[|s| - 1]];
    }
  }

  /** A face contributes its own number once per corner at `v`. */
  lemma OccurrencesCount(f: Face, h: int, v: int, g: int)
    ensures Count(Occurrences(f, h, v, 3), g) == if g == h then CornerCount(f, v) else 0
  {
    var o1 := if f.i0 == v then [h] else [];
    var o2 := if f.i1 == v then [h] else [];
    var o3 := if f.i2 == v then [h] else [];
    CountAppend(o1, o2, g);
    CountAppend(o1 + o2, o3, g);
  }

  /**
   * Each face appears in the list of `v` exactly as many times as it has
   * corners at `v`; in particular it appears at all exactly when it touches `v`.
   */
  lemma {:induction false} IncidentCount(faces: seq<Face>, v: int, n: int, g: int)
    requires 0 <= n <= |faces|
    ensures Count(Incident(faces, v, n), g) == if 0 <= g < n then CornerCount(faces[g], v) else 0
    ensures g in Incident(faces, v, n) <==> 0 <= g < n && CornerCount(faces[g], v) > 0
  {
    hide Count, Occurrences, CornerCount;
    if n > 0 {
      IncidentCount(faces, v, n - 1, g);
      OccurrencesCount(faces[n - 1], n - 1, v, g);
      CountAppend(Incident(faces, v, n - 1), Occurrences(faces[n - 1], n - 1, v, 3), g);
    }
    CountPositive(Incident(faces, v, n), g);
  }

  /**
   * `acc` plus the normals stored at column `3g` for each face `g` listed,
   * added in the order of the list.
   */
  function SumNormals(fn: seq<Vec3>, gs: seq<int>, acc: Vec3): Vec3
    requires forall i :: 0 <= i < |gs| ==> 0 <= 3 * gs[i] < |fn|
  {
    if gs == [] then acc
    else SumNormals(fn, gs[1..], Add(acc, fn[3 * gs[0]]))
  }

  /** The normal of vertex `v`: the normalized sum of the normals of the faces around it. */
  function VertexNormal(faces: seq<Face>, fn: seq<Vec3>, v: int, an: Analytic): Vec3
    requires |fn| == 3 * |faces|
  {
    var gs := Incident(faces, v, |faces|);
    assert forall i :: 0 <= i < |gs| ==> gs[i] in gs;
    if gs == [] then Zero3 else NormalizedSum(fn, gs[1..], fn[3 * gs[0]], an)
  }

  /**
   * The vertex normal as the loop of `Mesh::calculateVertexNormals` forms it:
   * add the listed face normals to `acc` one by one, then normalize.
   */
  function NormalizedSum(fn: seq<Vec3>, gs: seq<int>, acc: Vec3, an: Analytic): Vec3
    requires forall i :: 0 <= i < |gs| ==> 0 <= 3 * gs[i] < |fn|
  {
    if gs == [] then Normalize(acc, an)
    else NormalizedSum(fn, gs[1..], Add(acc, fn[3 * gs[0]]), an)
  }

  /** Normalizing at the end of the sum is normalizing the sum. */
  lemma {:induction false} NormalizedSumOfSum(fn: seq<Vec3>, gs: seq<int>, acc: Vec3, an: Analytic)
    requires forall i :: 0 <= i < |gs| ==> 0 <= 3 * gs[i] < |fn|
    ensures NormalizedSum(fn, gs, acc, an) == Normalize(SumNormals(fn, gs, acc), an)
  {
    if gs != [] {
      NormalizedSumOfSum(fn, gs[1..], Add(acc, fn[3 * gs[0]]), an);
    }
  }

  /** Every corner carries the normal of the vertex it stands on. */
  ghost predicate IsVertexNormals(vn: seq<Vec3>, faces: seq<Face>, fn: seq<Vec3>, an: Analytic)
    requires |fn| == 3 * |faces|
  {
    && |vn| == 3 * |faces|
    && forall i :: 0 <= i < |vn| ==> vn[i] == VertexNormal(faces, fn, Corner(faces[i / 3], i % 3), an)
  }

  /** The first `n` columns of the vertex-normal buffer, column by column. */
  function NormalColumns(faces: seq<Face>, fn: seq<Vec3>, an: Analytic, n: int): (r: seq<Vec3>)
    requires |fn| == 3 * |faces| && 0 <= n <= 3 * |faces|
    ensures |r| == n
  {
    if n == 0 then []
    else NormalColumns(faces, fn, an, n - 1) + [VertexNormal(faces, fn, Corner(faces[(n - 1) / 3], (n - 1) % 3), an)]
  }

  /** One more column: the normal of the vertex at that corner. */
  lemma NormalColumnsStep(faces: seq<Face>, fn: seq<Vec3>, an: Analytic, g: int, k: int)
    requires |fn| == 3 * |faces| && 0 <= g < |faces| && 0 <= k < 3
    ensures NormalColumns(faces, fn, an, 3 * g + k + 1)
            == NormalColumns(faces, fn, an, 3 * g + k) + [VertexNormal(faces, fn, Corner(faces[g], k), an)]
  {
    hide VertexNormal;
    assert (3 * g + k) / 3 == g && (3 * g + k) % 3 == k;
  }

  /** Column `i` of the buffer is the normal of the vertex at that corner. */
  lemma {:induction false} NormalColumnsAt(faces: seq<Face>, fn: seq<Vec3>, an: Analytic, n: int, i: int)
    requires |fn| == 3 * |faces| && 0 <= i < n <= 3 * |faces|
    ensures NormalColumns(faces, fn, an, n)[i] == VertexNormal(faces, fn, Corner(faces[i / 3], i % 3), an)
  {
    hide VertexNormal;
    if i < n - 1 {
      NormalColumnsAt(faces, fn, an, n - 1, i);
    }
  }

  /** The full buffer gives every corner its vertex normal. */
  lemma NormalColumnsAreVertexNormals(faces: seq<Face>, fn: seq<Vec3>, an: Analytic)
    requires |fn| == 3 * |faces|
    ensures IsVertexNormals(NormalColumns(faces, fn, an, 3 * |faces|), faces, fn, an)
  {
    var vn := NormalColumns(faces, fn, an, 3 * |faces|);
    forall i | 0 <= i < |vn|
      ensures vn[i] == VertexNormal(faces, fn, Corner(faces[i / 3], i % 3), an)
    {
      NormalColumnsAt(faces, fn, an, 3 * |faces|, i);
    }
  }

  /** Two corners standing on the same vertex carry the same normal. */
  lemma SameVertexSameNormal(vn: seq<Vec3>, faces: seq<Face>, fn: seq<Vec3>, an: Analytic, i: int, j: int)
    requires |fn| == 3 * |faces| && IsVertexNormals(vn, faces, fn, an)
    requires 0 <= i < |vn| && 0 <= j < |vn| && Corner(faces[i / 3], i % 3) == Corner(faces[j / 3], j % 3)
    ensures vn[i] == vn[j]
  {
  }

  /**
   * `Mesh::calculateVertexNormals`: build the vertex-to-faces map, then give
   * every corner, face by face, the normalized sum of the face normals around
   * its vertex.
   */
  method CalculateVertexNormals(faces: seq<Face>, fn: seq<Vec3>, an: Analytic) returns (vn: seq<Vec3>)
    requires |fn| == 3 * |faces|
    ensures vn == NormalColumns(faces, fn, an, 3 * |faces|)
    ensures IsVertexNormals(vn, faces, fn, an)
  {
    var m := IncidenceMap(faces);
    hide VertexNormal, NormalColumns, IsIncidenceMap;
    var normals := new Vec3[3 * |faces|](_ => Zero3);
    var g := 0;
    while g < |faces|
      invariant 0 <= g <= |faces|
      invariant normals[..3 * g] == NormalColumns(faces, fn, an, 3 * g)
    {
      FillFaceNormals(normals, faces, fn, m, g, an);
      g := g + 1;
    }
    vn := normals[..];
    assert vn == normals[..3 * |faces|];
    NormalColumnsAreVertexNormals(faces, fn, an);
  }

  /** The corner loop of `Mesh::calculateVertexNormals` for face `g`. */
  method FillFaceNormals(normals: array<Vec3>, faces: seq<Face>, fn: seq<Vec3>, m: map<int, seq<int>>, g: int, an: Analytic)
    requires normals.Length == 3 * |faces| && |fn| == 3 * |faces| && IsIncidenceMap(m, faces)
    requires 0 <= g < |faces| && normals[..3 * g] == NormalColumns(faces, fn, an, 3 * g)
    modifies normals
    ensures normals[..3 * g + 3] == NormalColumns(faces, fn, an, 3 * g + 3)
  {
    hide VertexNormal, NormalColumns, IsIncidenceMap;
    var k := 0;
    while k < 3
      invariant 0 <= k <= 3
      invariant normals[..3 * g + k] == NormalColumns(faces, fn, an, 3 * g + k)
    {
      var normal := CornerNormal(faces, fn, m, Corner(faces[g], k), g, an);
      NormalColumnsStep(faces, fn, an, g, k);
      normals[3 * g + k] := normal;
      assert normals[..3 * g + k + 1] == normals[..3 * g + k] + [normal];
      k := k + 1;
    }
  }

  /** The innermost loop of `Mesh::calculateVertexNormals`: add up the normals of the listed faces. */
  method SumAdjacent(fn: seq<Vec3>, adjacent: seq<int>) returns (sum: Vec3)
    requires forall i :: 0 <= i < |adjacent| ==> 0 <= 3 * adjacent[i] < |fn|
    ensures sum == SumNormals(fn, adjacent, Zero3)
  {
    sum := Zero3;
    var j := 0;
    while j < |adjacent|
      invariant 0 <= j <= |adjacent|
      invariant SumNormals(fn, adjacent[j..], sum) == SumNormals(fn, adjacent, Zero3)
    {
      assert adjacent[j..][1..] == adjacent[j + 1..];
      sum := Add(sum, fn[adjacent[j] * 3]);
      j := j + 1;
    }
  }

  /** The normal of one corner, read through the vertex-to-faces map. */
  method CornerNormal(faces: seq<Face>, fn: seq<Vec3>, m: map<int, seq<int>>, v: int, g: int, an: Analytic)
    returns (normal: Vec3)
    requires |fn| == 3 * |faces| && IsIncidenceMap(m, faces)
    requires 0 <= g < |faces| && CornerCount(faces[g], v) > 0
    ensures normal == VertexNormal(faces, fn, v, an)
  {
    IncidentCount(faces, v, |faces|, g);
    var adjacent := m[v];
    assert forall i :: 0 <= i < |adjacent| ==> adjacent[i] in adjacent;
    var sum := SumAdjacent(fn, adjacent);
    normal := Normalize(sum, an);
    NormalizedSumOfSum(fn, adjacent, Zero3, an);
  }

  // ===== Barycenter =====

  /** The centre of face `g`: the mean of its three corners. */
  function FaceCenter(faces: seq<Face>, vertices: seq<Vec3>, g: int): Vec3
    requires ValidFaces(faces, |vertices|) && 0 <= g < |faces|
  {
    var a, b, c := vertices[Corner(faces[g], 0)], vertices[Corner(faces[g], 1)], vertices[Corner(faces[g], 2)];
    Div(Add(Add(a, b), c), 3.0)
  }

  /** The sum of the centres of the first `n` faces. */
  function CenterSum(faces: seq<Face>, vertices: seq<Vec3>, n: int): Vec3
    requires ValidFaces(faces, |vertices|) && 0 <= n <= |faces|
  {
    if n == 0 then Zero3 else Add(CenterSum(faces, vertices, n - 1), FaceCenter(faces, vertices, n - 1))
  }

  /** The barycenter: the mean over the faces of their centres. */
  function Barycenter(faces: seq<Face>, vertices: seq<Vec3>): Vec3
    requires ValidFaces(faces, |vertices|) && |faces| > 0
  {
    Div(CenterSum(faces, vertices, |faces|), |faces| as real)
  }

  /** `Mesh::calculateBarycenter`: add up the face centres, then divide by the number of faces. */
  method CalculateBarycenter(faces: seq<Face>, vertices: seq<Vec3>) returns (barycenter: Vec3)
    requires ValidFaces(faces, |vertices|) && |faces| > 0
    ensures barycenter == Barycenter(faces, vertices)
  {
    var centroid := Zero3;
    var g := 0;
    while g < |faces|
      invariant 0 <= g <= |faces|
      invariant centroid == CenterSum(faces, vertices, g)
    {
      var a, b, c := vertices[Corner(faces[g], 0)], vertices[Corner(faces[g], 1)], vertices[Corner(faces[g], 2)];
      var center := Div(Add(Add(a, b), c), 3.0);
      centroid := Add(centroid, center);
      g := g + 1;
    }
    barycenter := Div(centroid, |faces| as real);
  }

  /** Every vertex moved by `-d`. */
  function Shifted(vertices: seq<Vec3>, d: Vec3): (r: seq<Vec3>)
    ensures |r| == |vertices|
  {
    seq(|vertices|, i requires 0 <= i < |vertices| => Sub(vertices[i], d))
  }

  /** The recentring loop of `Mesh::fromOffFile`: subtract `d` from every vertex, in place. */
  method Recenter(vertices: array<Vec3>, d: Vec3)
    modifies vertices
    ensures vertices[..] == Shifted(old(vertices[..]), d)
  {
    var i := 0;
    while i < vertices.Length
      invariant 0 <= i <= vertices.Length
      invariant vertices[..i] == Shifted(old(vertices[..]), d)[..i]
      invariant vertices[i..] == old(vertices[..])[i..]
    {
      assert vertices[i] == old(vertices[..])[i];
      vertices[i] := Sub(vertices[i], d);
      i := i + 1;
    }
  }

  lemma FaceCenterShifted(faces: seq<Face>, vertices: seq<Vec3>, d: Vec3, g: int)
    requires ValidFaces(faces, |vertices|) && 0 <= g < |faces|
    ensures FaceCenter(faces, Shifted(vertices, d), g) == Sub(FaceCenter(faces, vertices, g), d)
  {
  }

  lemma {:induction false} CenterSumShifted(faces: seq<Face>, vertices: seq<Vec3>, d: Vec3, n: int)
    requires ValidFaces(faces, |vertices|) && 0 <= n <= |faces|
    ensures CenterSum(faces, Shifted(vertices, d), n) == Sub(CenterSum(faces, vertices, n), Scale(n as real, d))
  {
    if n > 0 {
      hide FaceCenter, Shifted, Add, Sub, Scale;
      CenterSumShifted(faces, vertices, d, n - 1);
      FaceCenterShifted(faces, vertices, d, n - 1);
      AddSubSub(CenterSum(faces, vertices, n - 1), Scale((n - 1) as real, d), FaceCenter(faces, vertices, n - 1), d);
      ScaleStep(n, d);
    }
  }

  lemma AddSubSub(a: Vec3, b: Vec3, c: Vec3, e: Vec3)
    ensures Add(Sub(a, b), Sub(c, e)) == Sub(Add(a, c), Add(b, e))
  {
  }

  lemma ScaleStep(n: int, d: Vec3)
    ensures Add(Scale((n - 1) as real, d), d) == Scale(n as real, d)
  {
  }

  /** Moving every vertex by `-d` moves the barycenter by `-d`. */
  lemma BarycenterShifted(faces: seq<Face>, vertices: seq<Vec3>, d: Vec3)
    requires ValidFaces(faces, |vertices|) && |faces| > 0
    ensures Barycenter(faces, Shifted(vertices, d)) == Sub(Barycenter(faces, vertices), d)
  {
    hide CenterSum, Shifted, Div, Sub, Scale;
    CenterSumShifted(faces, vertices, d, |faces|);
    DivSubScale(CenterSum(faces, vertices, |faces|), |faces| as real, d);
  }

  lemma DivSubScale(s: Vec3, n: real, d: Vec3)
    requires n != 0.0
    ensures Div(Sub(s, Scale(n, d)), n) == Sub(Div(s, n), d)
  {
    DivShift(s.x, n, d.x);
    DivShift(s.y, n, d.y);
    DivShift(s.z, n, d.z);
  }

  lemma DivShift(s: real, n: real, x: real)
    requires n != 0.0
    ensures (s - n * x) / n == s / n - x
  {
  }

  /** After recentring on its barycenter, a mesh has its barycenter at the origin. */
  lemma RecenteredBarycenter(faces: seq<Face>, vertices: seq<Vec3>)
    requires ValidFaces(faces, |vertices|) && |faces| > 0
    ensures Barycenter(faces, Shifted(vertices, Barycenter(faces, vertices))) == Zero3
  {
    BarycenterShifted(faces, vertices, Barycenter(faces, vertices));
  }

  // ===== Bounds for scaleToUnitCube =====

  /** An axis-aligned box given by its lower and upper corners. */
  datatype Box = Box(lo: Vec3, hi: Vec3)

  /** Coordinate `k` of a point: x, y or z. */
  function Coord(v: Vec3, k: int): real
    requires 0 <= k < 3
  {
    if k == 0 then v.x else if k == 1 then v.y else v.z
  }

  /** The running minimum: `if (c < m) m = c`. */
  function Lower(m: real, c: real): real { if c < m then c else m }

  /** The running maximum: `if (c > m) m = c`. */
  function Upper(m: real, c: real): real { if c > m then c else m }

  /** One pass of the loop body of `Mesh::scaleToUnitCube`: widen the box to take in `v`. */
  function Extend(b: Box, v: Vec3): Box {
    Box(Vec3(Lower(b.lo.x, v.x), Lower(b.lo.y, v.y), Lower(b.lo.z, v.z)),
        Vec3(Upper(b.hi.x, v.x), Upper(b.hi.y, v.y), Upper(b.hi.z, v.z)))
  }

  /** The box once the loop, started from `init`, has seen every point of `vs` in order. */
  function Fold(init: Box, vs: seq<Vec3>): Box {
    if vs == [] then init else Extend(Fold(init, vs[..|vs| - 1]), vs[|vs| - 1])
  }

  /** `std::max`: the first argument unless it is less than the second. */
  function Max(a: real, b: real): real { if a < b then b else a }

  /** The longest side of a box. */
  function MaxExtent(b: Box): real {
    Max(Max(b.hi.x - b.lo.x, b.hi.y - b.lo.y), b.hi.z - b.lo.z)
  }

  /** The bounding box of a non-empty list of points: the fold started from the first point. */
  function BoundingBox(vs: seq<Vec3>): Box
    requires |vs| > 0
  {
    Fold(Box(vs[0], vs[0]), vs)
  }

  lemma ExtendCoord(b: Box, v: Vec3, k: int)
    requires 0 <= k < 3
    ensures Coord(Extend(b, v).lo, k) == Lower(Coord(b.lo, k), Coord(v, k))
    ensures Coord(Extend(b, v).hi, k) == Upper(Coord(b.hi, k), Coord(v, k))
  {
  }

  /**
   * The fold bounds every point it has seen, never rises above (falls below)
   * its starting corner, and each corner coordinate is either the starting one
   * or that of a point seen.
   */
  lemma {:induction false} FoldBounds(init: Box, vs: seq<Vec3>, k: int)
    requires 0 <= k < 3
    ensures var b := Fold(init, vs);
      && Coord(b.lo, k) <= Coord(init.lo, k) && Coord(init.hi, k) <= Coord(b.hi, k)
      && (forall i :: 0 <= i < |vs| ==> Coord(b.lo, k) <= Coord(vs[i], k) <= Coord(b.hi, k))
      && (Coord(b.lo, k) == Coord(init.lo, k) || exists i :: 0 <= i < |vs| && Coord(vs[i], k) == Coord(b.lo, k))
      && (Coord(b.hi, k) == Coord(init.hi, k) || exists i :: 0 <= i < |vs| && Coord(vs[i], k) == Coord(b.hi, k))
  {
    if vs != [] {
      var front := vs[..|vs| - 1];
      FoldBounds(init, front, k);
      ExtendCoord(Fold(init, front), vs[|vs| - 1], k);
      var b0, b := Fold(init, front), Fold(init, vs);
      forall i | 0 <= i < |vs| ensures Coord(b.lo, k) <= Coord(vs[i], k) <= Coord(b.hi, k) {
        if i < |vs| - 1 {
          assert vs[i] == front[i];
        }
      }
      if Coord(b.lo, k) != Coord(init.lo, k) {
        if Coord(b.lo, k) == Coord(b0.lo, k) {
          var i :| 0 <= i < |front| && Coord(front[i], k) == Coord(b0.lo, k);
          assert vs[i] == front[i];
        }
      }
      if Coord(b.hi, k) != Coord(init.hi, k) {
        if Coord(b.hi, k) == Coord(b0.hi, k) {
          var i :| 0 <= i < |front| && Coord(front[i], k) == Coord(b0.hi, k);
          assert vs[i] == front[i];
        }
      }
    }
  }

  /** The bounding box is the smallest box holding every point: each side is touched by a point. */
  lemma BoundingBoxTight(vs: seq<Vec3>, k: int)
    requires |vs| > 0 && 0 <= k < 3
    ensures forall i :: 0 <= i < |vs| ==> Coord(BoundingBox(vs).lo, k) <= Coord(vs[i], k) <= Coord(BoundingBox(vs).hi, k)
    ensures exists i :: 0 <= i < |vs| && Coord(vs[i], k) == Coord(BoundingBox(vs).lo, k)
    ensures exists i :: 0 <= i < |vs| && Coord(vs[i], k) == Coord(BoundingBox(vs).hi, k)
  {
    FoldBounds(Box(vs[0], vs[0]), vs, k);
  }

  /** The box `Mesh::scaleToUnitCube` starts from: fixed sentinels rather than the first vertex. */
  const SentinelBox := Box(Vec3(99999.0, 99999.0, 99999.0), Vec3(-999999.0, -999999.0, -999999.0))

  /** The extent `Mesh::scaleToUnitCube` computes as written. */
  function ExtentAsWritten(vs: seq<Vec3>): real {
    MaxExtent(Fold(SentinelBox, vs))
  }

  /**
   * Far from the origin the sentinels are never replaced: two vertices one unit
   * apart near x = 200000 give an extent of 100002 instead of 1.
   */
  lemma SentinelExtentCounterexample()
    ensures var vs := [Vec3(200000.0, 0.0, 0.0), Vec3(200001.0, 0.0, 0.0)];
      ExtentAsWritten(vs) == 100002.0 && MaxExtent(BoundingBox(vs)) == 1.0
  {
    var vs := [Vec3(200000.0, 0.0, 0.0), Vec3(200001.0, 0.0, 0.0)];
    assert vs[..1] == [vs[0]] && [vs[0]][..0] == [];
    assert Fold(SentinelBox, vs) == Extend(Extend(SentinelBox, vs[0]), vs[1]);
    assert Fold(SentinelBox, vs) == Box(Vec3(99999.0, 0.0, 0.0), Vec3(200001.0, 0.0, 0.0));
    var first := Box(vs[0], vs[0]);
    assert Fold(first, vs) == Extend(Extend(first, vs[0]), vs[1]);
    assert Fold(first, vs) == Box(vs[0], vs[1]);
  }

  /** Some point has coordinate `k` at or below 0 and some point has it at or above 0. */
  predicate Straddles(vs: seq<Vec3>, k: int)
    requires 0 <= k < 3
  {
    (exists i :: 0 <= i < |vs| && Coord(vs[i], k) <= 0.0) && (exists i :: 0 <= i < |vs| && Coord(vs[i], k) >= 0.0)
  }

  /**
   * When every axis has a vertex at or below 0 and one at or above 0, the
   * sentinels are replaced on every side and the extent as written is the
   * extent of the vertices themselves.
   */
  lemma ExtentAsWrittenWhenStraddling(vs: seq<Vec3>)
    requires |vs| > 0 && forall k :: 0 <= k < 3 ==> Straddles(vs, k)
    ensures ExtentAsWritten(vs) == MaxExtent(BoundingBox(vs))
  {
    var sentinel, tight := Fold(SentinelBox, vs), BoundingBox(vs);
    forall k | 0 <= k < 3
      ensures Coord(sentinel.lo, k) == Coord(tight.lo, k) && Coord(sentinel.hi, k) == Coord(tight.hi, k)
    {
      assert Straddles(vs, k);
      var i :| 0 <= i < |vs| && Coord(vs[i], k) <= 0.0;
      var j :| 0 <= j < |vs| && Coord(vs[j], k) >= 0.0;
      FoldBounds(SentinelBox, vs, k);
      FoldBounds(Box(vs[0], vs[0]), vs, k);
      assert Coord(sentinel.lo, k) != Coord(SentinelBox.lo, k) && Coord(sentinel.hi, k) != Coord(SentinelBox.hi, k);
    }
    assert sentinel.lo == tight.lo by {
      assert Coord(sentinel.lo, 0) == Coord(tight.lo, 0) && Coord(sentinel.lo, 1) == Coord(tight.lo, 1);
      assert Coord(sentinel.lo, 2) == Coord(tight.lo, 2);
    }
    assert sentinel.hi == tight.hi by {
      assert Coord(sentinel.hi, 0) == Coord(tight.hi, 0) && Coord(sentinel.hi, 1) == Coord(tight.hi, 1);
      assert Coord(sentinel.hi, 2) == Coord(tight.hi, 2);
    }
  }

  /**
   * If every vertex lies strictly on the positive side of axis `k` (or,
   * with `sign` = -1, the negative side), so does every non-empty sum of
   * face centres.
   */
  lemma {:induction false} CenterSumOneSided(faces: seq<Face>, vertices: seq<Vec3>, n: int, k: int, sign: real)
    requires ValidFaces(faces, |vertices|) && 0 < n <= |faces| && 0 <= k < 3 && (sign == 1.0 || sign == -1.0)
    requires forall i :: 0 <= i < |vertices| ==> sign * Coord(vertices[i], k) > 0.0
    ensures sign * Coord(CenterSum(faces, vertices, n), k) > 0.0
  {
    var f := faces[n - 1];
    var a, b, c := vertices[Corner(f, 0)], vertices[Corner(f, 1)], vertices[Corner(f, 2)];
    assert sign * Coord(FaceCenter(faces, vertices, n - 1), k) > 0.0 by {
      assert Coord(FaceCenter(faces, vertices, n - 1), k) == (Coord(a, k) + Coord(b, k) + Coord(c, k)) / 3.0;
    }
    if n > 1 {
      CenterSumOneSided(faces, vertices, n - 1, k, sign);
    }
    assert Coord(CenterSum(faces, vertices, n), k) ==
      Coord(CenterSum(faces, vertices, n - 1), k) + Coord(FaceCenter(faces, vertices, n - 1), k);
  }

  /**
   * The sentinels are harmless where `Mesh::scaleToUnitCube` is called: on a
   * mesh recentred on its barycenter, every axis has vertices on both sides
   * of 0, so the extent as written is the extent of the vertices.
   */
  lemma ExtentAsWrittenWhenCentered(faces: seq<Face>, vertices: seq<Vec3>)
    requires ValidFaces(faces, |vertices|) && |faces| > 0
    requires Barycenter(faces, vertices) == Zero3
    ensures ExtentAsWritten(vertices) == MaxExtent(BoundingBox(vertices))
  {
    assert 0 <= Corner(faces[0], 0) < |vertices|;
    var total := CenterSum(faces, vertices, |faces|);
    assert Div(total, |faces| as real) == Zero3;
    forall k | 0 <= k < 3 ensures Straddles(vertices, k) {
      assert Coord(total, k) / |faces| as real == 0.0;
      assert Coord(total, k) == 0.0;
      if forall i :: 0 <= i < |vertices| ==> 1.0 * Coord(vertices[i], k) > 0.0 {
        CenterSumOneSided(faces, vertices, |faces|, k, 1.0);
      }
      if forall i :: 0 <= i < |vertices| ==> -1.0 * Coord(vertices[i], k) > 0.0 {
        CenterSumOneSided(faces, vertices, |faces|, k, -1.0);
      }
    }
    ExtentAsWrittenWhenStraddling(vertices);
  }

  // ===== The mesh object =====

  /** The colour a mesh gets when none is given. */
  const DefaultColor := Vec3(0.0, 1.1, 2.2)

  /** The fields a mesh's transforms and setters never touch. */
  datatype Geometry = Geometry(vertices: seq<Vec3>, faces: seq<Face>, triangleVertices: seq<Vec3>,
                               faceNormals: seq<Vec3>, vertexNormals: seq<Vec3>)

  /**
   * `Mesh`: vertex positions, faces, the three per-corner buffers derived from
   * them, the accumulated model matrix, a colour and a render type. `an` is
   * the maths library its normals and rotations are computed with.
   */
  class Mesh {
    var vertices: seq<Vec3>
    var faces: seq<Face>
    var triangleVertices: seq<Vec3>
    var faceNormals: seq<Vec3>
    var vertexNormals: seq<Vec3>
    var model: Mat4
    var color: Vec3
    var renderType: RenderType
    const an: Analytic

    /** The derived buffers agree with vertices and faces, and the model matrix is affine. */
    ghost predicate Valid()
      reads this
    {
      && ValidFaces(faces, |vertices|)
      && IsTriangleBuffer(triangleVertices, faces, vertices)
      && IsFaceNormals(faceNormals, triangleVertices, an)
      && IsVertexNormals(vertexNormals, faces, faceNormals, an)
      && Affine(model)
    }

    function Shape(): Geometry
      reads this
    {
      Geometry(vertices, faces, triangleVertices, faceNormals, vertexNormals)
    }

    /** `Mesh(vertices, faces, color, renderType)`: identity model, buffers computed from the geometry. */
    constructor (vertices: seq<Vec3>, faces: seq<Face>, color: Vec3, renderType: RenderType, an: Analytic)
      requires ValidFaces(faces, |vertices|)
      ensures this.vertices == vertices && this.faces == faces
      ensures this.color == color && this.renderType == renderType && this.an == an
      ensures model == Identity
      ensures |triangleVertices| == |faceNormals| == |vertexNormals| == 3 * |faces|
      ensures Valid()
    {
      this.vertices := vertices;
      this.faces := faces;
      this.color := color;
      this.renderType := renderType;
      this.an := an;
      model := Identity;
      var tv := CalculateTriangleVertices(faces, vertices);
      var fn := CalculateFaceNormals(tv, an);
      var vn := CalculateVertexNormals(faces, fn, an);
      triangleVertices, faceNormals, vertexNormals := tv, fn, vn;
    }

    /** `Mesh(vertices, faces)`: the default colour and wireframe rendering. */
    constructor WithDefaults(vertices: seq<Vec3>, faces: seq<Face>, an: Analytic)
      requires ValidFaces(faces, |vertices|)
      ensures this.vertices == vertices && this.faces == faces
      ensures color == DefaultColor && renderType == Wireframe && this.an == an
      ensures model == Identity
      ensures Valid()
    {
      this.vertices := vertices;
      this.faces := faces;
      this.color := DefaultColor;
      this.renderType := Wireframe;
      this.an := an;
      model := Identity;
      var tv := CalculateTriangleVertices(faces, vertices);
      var fn := CalculateFaceNormals(tv, an);
      var vn := CalculateVertexNormals(faces, fn, an);
      triangleVertices, faceNormals, vertexNormals := tv, fn, vn;
    }

    /** `getTranslation`: the top three entries of the last column of the model matrix. */
    function Translation(): Vec3
      reads this
    {
      TranslationOf(model)
    }

    /** `translate`: left-multiply the model by a translation; the translation grows by `v`. */
    method Translate(v: Vec3)
      requires Valid()
      modifies this
      ensures model == Mul(TranslationMatrix(v), old(model))
      ensures Translation() == Add(old(Translation()), v)
      ensures Shape() == old(Shape()) && color == old(color) && renderType == old(renderType)
      ensures Valid()
    {
      var t := TranslationMatrix(v);
      TranslationOfMul(t, model);
      TranslationMoves(v, TranslationOf(model));
      MulAffine(t, model);
      model := Mul(t, model);
    }

    /** `scale`: left-multiply by a scale about the current translation, which therefore stays put. */
    method Scale(factor: real)
      requires Valid()
      modifies this
      ensures model == Mul(ScaleAboutPointMatrix(old(Translation()), factor), old(model))
      ensures Translation() == old(Translation())
      ensures Shape() == old(Shape()) && color == old(color) && renderType == old(renderType)
      ensures Valid()
    {
      var p := Translation();
      var m := ScaleAboutPointMatrix(p, factor);
      TranslationOfMul(m, model);
      ScaleAboutPointFixesCenter(p, factor);
      MulAffine(m, model);
      model := Mul(m, model);
    }

    /** `rotate`: left-multiply by a rotation about the current translation, which therefore stays put. */
    method Rotate(axis: int, radians: real)
      requires Valid() && ValidAxis(axis)
      modifies this
      ensures model == Mul(RotateAboutPointMatrix(axis, radians, old(Translation()), an), old(model))
      ensures Translation() == old(Translation())
      ensures Shape() == old(Shape()) && color == old(color) && renderType == old(renderType)
      ensures Valid()
    {
      var p := Translation();
      var m := RotateAboutPointMatrix(axis, radians, p, an);
      TranslationOfMul(m, model);
      RotateAboutPointFixesCenter(axis, radians, p, an);
      MulAffine(m, model);
      model := Mul(m, model);
    }

    /**
     * `scaleToUnitCube`: measure the bounding box of the vertices (without the
     * model matrix) and scale by one over its longest side. The box starts
     * from the first vertex; see `ExtentAsWritten` for the program's sentinels.
     */
    method ScaleToUnitCube()
      requires Valid() && |vertices| > 0 && MaxExtent(BoundingBox(vertices)) != 0.0
      modifies this
      ensures model == Mul(ScaleAboutPointMatrix(old(Translation()), 1.0 / old(MaxExtent(BoundingBox(vertices)))), old(model))
      ensures Translation() == old(Translation())
      ensures Shape() == old(Shape()) && color == old(color) && renderType == old(renderType)
      ensures Valid()
    {
      var xmin, ymin, zmin := vertices[0].x, vertices[0].y, vertices[0].z;
      var xmax, ymax, zmax := vertices[0].x, vertices[0].y, vertices[0].z;
      var i := 0;
      while i < |vertices|
        invariant 0 <= i <= |vertices|
        invariant Box(Vec3(xmin, ymin, zmin), Vec3(xmax, ymax, zmax)) == Fold(Box(vertices[0], vertices[0]), vertices[..i])
      {
        var v := vertices[i];
        if v.x < xmin { xmin := v.x; }
        if v.x > xmax { xmax := v.x; }
        if v.y < ymin { ymin := v.y; }
        if v.y > ymax { ymax := v.y; }
        if v.z < zmin { zmin := v.z; }
        if v.z > zmax { zmax := v.z; }
        assert vertices[..i + 1][..i] == vertices[..i];
        i := i + 1;
      }
      assert vertices[..i] == vertices;
      Scale(1.0 / Max(Max(xmax - xmin, ymax - ymin), zmax - zmin));
    }

    /** `setRenderType`. */
    method SetRenderType(renderType: RenderType)
      modifies this
      ensures this.renderType == renderType
      ensures old(Valid()) ==> Valid()
      ensures Shape() == old(Shape()) && model == old(model) && color == old(color)
    {
      this.renderType := renderType;
    }

    /** `setColor`. */
    method SetColor(color: Vec3)
      modifies this
      ensures this.color == color
      ensures old(Valid()) ==> Valid()
      ensures Shape() == old(Shape()) && model == old(model) && renderType == old(renderType)
    {
      this.color := color;
    }
  }
}
