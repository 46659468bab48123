/**
 * The viewer's input handling: turning a click into a ray and picking the
 * closest mesh it hits, the keyboard commands that move the camera and edit
 * the selected mesh, and the choice of polygon mode for a render type.
 */
module Viewer {
  import opened Algebra
  import opened Utils
  import opened Meshes
  import opened MeshFiles
  import opened Cameras
  import opened Worlds

  datatype ViewerError =
    | NoViewCamera                            // the view camera number is out of range (`at` throws)
    | ProjectionFailed(projectionError: ProjectionError) // `getProjection` throws
    | NoSuchMesh(index: int)                  // the selection is out of range (`at` throws)
    | LoadFailed(loadError: LoadError)        // `fromOffFile` throws
    | FlatMesh                                // `scaleToUnitCube` would divide by a zero extent

  // ----- from the window to the world -----

  /**
   * Window pixel to normalized device coordinates: x from [0, width] to
   * [-1, 1], y flipped (pixel rows grow downwards) from [height - 1, -1] to
   * [-1, 1].
   */
  function ScreenToNdc(x: real, y: real, width: int, height: int): Vec2
    requires width > 0 && height > 0
  {
    var w, h := width as real, height as real;
    Vec2((x / w) * 2.0 - 1.0, ((h - 1.0 - y) / h) * 2.0 - 1.0)
  }

  /** The pixel can be read back from its device coordinates. */
  lemma NdcRoundTrip(x: real, y: real, width: int, height: int)
    requires width > 0 && height > 0
    ensures var p := ScreenToNdc(x, y, width, height);
      x == (p.x + 1.0) / 2.0 * width as real && y == height as real - 1.0 - (p.y + 1.0) / 2.0 * height as real
  {
    var w, h := width as real, height as real;
    assert x / w * w == x;
    assert (h - 1.0 - y) / h * h == h - 1.0 - y;
  }

  /** Pixels inside the window land in [-1, 1], and a lower pixel row gets a lower y. */
  lemma NdcRange(x: real, y: real, y': real, width: int, height: int)
    requires width > 0 && height > 0
    requires 0.0 <= x <= width as real && -1.0 <= y <= height as real - 1.0
    ensures var p := ScreenToNdc(x, y, width, height);
      -1.0 <= p.x <= 1.0 && -1.0 <= p.y <= 1.0
    ensures y < y' ==> ScreenToNdc(x, y', width, height).y < ScreenToNdc(x, y, width, height).y
  {
    var w, h := width as real, height as real;
    assert 0.0 <= x / w <= 1.0 by {
      assert x / w * w == x;
    }
    assert 0.0 <= (h - 1.0 - y) / h <= 1.0 by {
      assert (h - 1.0 - y) / h * h == h - 1.0 - y;
    }
    if y < y' {
      assert (h - 1.0 - y') / h < (h - 1.0 - y) / h by {
        assert (h - 1.0 - y) / h - (h - 1.0 - y') / h == (y' - y) / h;
      }
    }
  }

  /** The inverse Eigen computes really is a right inverse of `m`. */
  ghost predicate InverseLawAt(an: Analytic, m: Mat4) {
    Mul(m, an.inverse(m)) == Identity
  }

  /** Device coordinates and depth taken back through the inverse projection and the inverse view. */
  function Unproject(ndc: Vec2, depth: real, view: Mat4, projection: Mat4, an: Analytic): Vec4 {
    Apply(an.inverse(view), Apply(an.inverse(projection), Vec4(ndc.x, ndc.y, depth, 1.0)))
  }

  /** With exact inverses, viewing and projecting the unprojected point gives the device point back. */
  lemma UnprojectRoundTrip(ndc: Vec2, depth: real, view: Mat4, projection: Mat4, an: Analytic)
    requires InverseLawAt(an, view) && InverseLawAt(an, projection)
    ensures Apply(projection, Apply(view, Unproject(ndc, depth, view, projection, an))) == Vec4(ndc.x, ndc.y, depth, 1.0)
  {
    var c := Vec4(ndc.x, ndc.y, depth, 1.0);
    var u := Apply(an.inverse(projection), c);
    ApplyMul(view, an.inverse(view), u);
    ApplyIdentity(u);
    ApplyMul(projection, an.inverse(projection), c);
    ApplyIdentity(c);
  }

  /**
   * `screenCoordsToWorldCoords`: the pixel at depth `depth` taken back to
   * world space through the camera's matrices (no division by w).
   */
  function ScreenToWorld(cp: CameraParameters, x: real, y: real, depth: real, width: int, height: int, an: Analytic)
    : (r: Result<Vec3, ProjectionError>)
    requires width > 0 && height > 0
    ensures r.Err? <==> ProjectionMatrix(cp.projectionType, cp.aspectRatio, cp.near, cp.far, cp.fieldOfView, an).Err?
  {
    match ProjectionMatrix(cp.projectionType, cp.aspectRatio, cp.near, cp.far, cp.fieldOfView, an)
    case Err(e) => Err(e)
    case Ok(projection) =>
      Ok(Xyz(Unproject(ScreenToNdc(x, y, width, height), depth, ViewMatrix(cp.position, cp.target, an), projection, an)))
  }

  datatype Ray = Ray(origin: Vec3, direction: Vec3)

  /**
   * The picking ray of a click: it starts at the click on the near side
   * (depth 0) and points away from the eye in perspective, or away from the
   * same pixel at depth 1 otherwise.
   */
  function PickRay(cp: CameraParameters, x: real, y: real, width: int, height: int, an: Analytic)
    : (r: Result<Ray, ProjectionError>)
    requires width > 0 && height > 0
  {
    match ScreenToWorld(cp, x, y, 0.0, width, height, an)
    case Err(e) => Err(e)
    case Ok(origin) =>
      var second := if cp.projectionType == PROJECTION_PERSPECTIVE then cp.position
                    else ScreenToWorld(cp, x, y, 1.0, width, height, an).value;
      Ok(Ray(origin, Normalize(Sub(origin, second), an)))
  }

  lemma CrossScaleSelf(k: real, v: Vec3)
    ensures Cross(Scale(k, v), v) == Zero3
  {
  }

  /**
   * The ray runs through both points it was built from: in perspective its
   * line passes through the eye, otherwise through the pixel at depth 1.
   */
  lemma PickRayLine(cp: CameraParameters, x: real, y: real, width: int, height: int, an: Analytic)
    requires width > 0 && height > 0
    requires PickRay(cp, x, y, width, height, an).Ok?
    ensures var r := PickRay(cp, x, y, width, height, an).value;
      r.origin == ScreenToWorld(cp, x, y, 0.0, width, height, an).value
      && (cp.projectionType == PROJECTION_PERSPECTIVE ==> Cross(r.direction, Sub(r.origin, cp.position)) == Zero3)
      && (cp.projectionType != PROJECTION_PERSPECTIVE ==>
            Cross(r.direction, Sub(r.origin, ScreenToWorld(cp, x, y, 1.0, width, height, an).value)) == Zero3)
  {
    var r := PickRay(cp, x, y, width, height, an).value;
    var second := if cp.projectionType == PROJECTION_PERSPECTIVE then cp.position
                  else ScreenToWorld(cp, x, y, 1.0, width, height, an).value;
    var d := Sub(r.origin, second);
    CrossScaleSelf(InverseLength(d, an), d);
  }

  // ----- picking the closest mesh -----

  /** `Utils::rayTriangleIntersect`: the distance along the ray to the triangle, if the ray hits it. */
  type Intersector = (Vec3, Vec3, Vec3, Vec3, Vec3) -> Option<real>

  /** No hit at or beyond this distance is considered. */
  const FarDistance := 999999.0

  /** One triangle test of the picking loop: the mesh it belongs to and its outcome. */
  datatype Candidate = Candidate(mesh: int, distance: Option<real>)

  /** The loop's state: the closest mesh so far (-1 for none) and its distance. */
  datatype Pick = Pick(index: int, distance: real)

  const NoPick := Pick(-1, FarDistance)

  /** A hit strictly closer than the best so far replaces it. */
  function Step(p: Pick, c: Candidate): Pick {
    if c.distance.Some? && c.distance.value < p.distance then Pick(c.mesh, c.distance.value) else p
  }

  /** The loop's state after the candidates `cs`, in order. */
  function Scan(cs: seq<Candidate>): Pick {
    if cs == [] then NoPick else Step(Scan(cs[..|cs| - 1]), cs[|cs| - 1])
  }

  lemma ScanAppend(cs: seq<Candidate>, c: Candidate)
    ensures Scan(cs + [c]) == Step(Scan(cs), c)
  {
    assert (cs + [c])[..|cs|] == cs;
  }

  /** The triangle at columns i, i+1, i+2, placed by the mesh's model matrix, intersected with the ray. */
  function TriangleCandidate(meshNo: int, model: Mat4, triangles: seq<Vec3>, i: int, ray: Ray, hit: Intersector): Candidate
    requires 0 <= i && i + 2 < |triangles|
  {
    var a := Xyz(Apply(model, Point(triangles[i])));
    var b := Xyz(Apply(model, Point(triangles[i + 1])));
    var c := Xyz(Apply(model, Point(triangles[i + 2])));
    Candidate(meshNo, hit(ray.origin, ray.direction, a, b, c))
  }

  /** The intersection results of the first `n` triangles of one mesh. */
  function MeshCandidates(meshNo: int, model: Mat4, triangles: seq<Vec3>, ray: Ray, hit: Intersector, n: nat)
    : (r: seq<Candidate>)
    requires 3 * n <= |triangles|
    ensures |r| == n && forall i :: 0 <= i < n ==> r[i].mesh == meshNo
  {
    if n == 0 then []
    else MeshCandidates(meshNo, model, triangles, ray, hit, n - 1) + [TriangleCandidate(meshNo, model, triangles, 3 * (n - 1), ray, hit)]
  }

  /** Every mesh's triangle buffer holds whole triangles. */
  predicate WholeTriangles(meshes: seq<Mesh>)
    reads meshes
  {
    forall m :: m in meshes ==> |m.triangleVertices| % 3 == 0
  }

  /** The intersection results of all triangles of the first `n` meshes, in the loop's order. */
  function SceneCandidates(meshes: seq<Mesh>, ray: Ray, hit: Intersector, n: nat): (r: seq<Candidate>)
    requires n <= |meshes| && WholeTriangles(meshes)
    reads meshes
    ensures forall i :: 0 <= i < |r| ==> 0 <= r[i].mesh < n
  {
    if n == 0 then []
    else
      var m := meshes[n - 1];
      var earlier := SceneCandidates(meshes, ray, hit, n - 1);
      var own := MeshCandidates(n - 1, m.model, m.triangleVertices, ray, hit, |m.triangleVertices| / 3);
      assert forall i :: 0 <= i < |own| ==> own[i].mesh == n - 1;
      earlier + own
  }

  /** The candidates come mesh by mesh. */
  lemma {:induction false} SceneCandidatesOrdered(meshes: seq<Mesh>, ray: Ray, hit: Intersector, n: nat, i: int, j: int)
    requires n <= |meshes| && WholeTriangles(meshes)
    requires 0 <= i <= j < |SceneCandidates(meshes, ray, hit, n)|
    ensures SceneCandidates(meshes, ray, hit, n)[i].mesh <= SceneCandidates(meshes, ray, hit, n)[j].mesh
  {
    var m := meshes[n - 1];
    var earlier := SceneCandidates(meshes, ray, hit, n - 1);
    var own := MeshCandidates(n - 1, m.model, m.triangleVertices, ray, hit, |m.triangleVertices| / 3);
    assert SceneCandidates(meshes, ray, hit, n) == earlier + own;
    if j < |earlier| {
      SceneCandidatesOrdered(meshes, ray, hit, n - 1, i, j);
    } else if i >= |earlier| {
      assert own[i - |earlier|].mesh == own[j - |earlier|].mesh;
    }
  }

  /**
   * The closest-hit loop of `mouse_button_callback`: intersects the ray with every triangle of
   * every mesh, in order, and keeps the mesh of the closest hit.
   */
  method ClosestHit(meshes: seq<Mesh>, ray: Ray, hit: Intersector) returns (index: int)
    requires WholeTriangles(meshes)
    ensures index == Scan(SceneCandidates(meshes, ray, hit, |meshes|)).index
  {
    assert Scan(SceneCandidates(meshes, ray, hit, 0)) == NoPick;
    hide Scan, MeshCandidates, TriangleCandidate, Apply;
    var closest := NoPick;
    var meshNo := 0;
    while meshNo < |meshes|
      invariant 0 <= meshNo <= |meshes|
      invariant closest == Scan(SceneCandidates(meshes, ray, hit, meshNo))
    {
      closest := ScanMesh(closest, meshNo, meshes[meshNo].model, meshes[meshNo].triangleVertices, ray, hit,
                          SceneCandidates(meshes, ray, hit, meshNo));
      meshNo := meshNo + 1;
    }
    index := closest.index;
  }

  /**
   * The inner loop over one mesh's triangles, three columns at a time: the
   * state after it is the state before it advanced over the mesh's triangles.
   */
  method ScanMesh(closest: Pick, meshNo: int, model: Mat4, triangles: seq<Vec3>, ray: Ray, hit: Intersector,
                  ghost earlier: seq<Candidate>)
    returns (after: Pick)
    requires |triangles| % 3 == 0 && closest == Scan(earlier)
    ensures after == Scan(earlier + MeshCandidates(meshNo, model, triangles, ray, hit, |triangles| / 3))
  {
    hide Apply;
    after := closest;
    var i := 0;
    ghost var k := 0;
    assert earlier + MeshCandidates(meshNo, model, triangles, ray, hit, 0) == earlier;
    while i < |triangles|
      invariant 0 <= i <= |triangles| && i == 3 * k
      invariant after == Scan(earlier + MeshCandidates(meshNo, model, triangles, ray, hit, k))
    {
      var a := Xyz(Apply(model, Point(triangles[i])));
      var b := Xyz(Apply(model, Point(triangles[i + 1])));
      var c := Xyz(Apply(model, Point(triangles[i + 2])));
      var t := hit(ray.origin, ray.direction, a, b, c);
      ghost var before := earlier + MeshCandidates(meshNo, model, triangles, ray, hit, k);
      ghost var candidate := TriangleCandidate(meshNo, model, triangles, i, ray, hit);
      ScanAppend(before, candidate);
      if t.Some? && t.value < after.distance {
        after := Pick(meshNo, t.value);
      }
      assert before + [candidate] == earlier + MeshCandidates(meshNo, model, triangles, ray, hit, k + 1);
      i, k := i + 3, k + 1;
    }
  }

  /**
   * What the scan finds: nothing closer than its distance; -1 exactly when no
   * hit is closer than `FarDistance`; otherwise a candidate of the chosen mesh
   * at exactly that distance with every earlier candidate strictly farther
   * (ties go to the earliest).
   */
  lemma {:induction false} ScanFindsNearest(cs: seq<Candidate>)
    requires forall i :: 0 <= i < |cs| ==> cs[i].mesh >= 0
    ensures var p := Scan(cs);
      && p.distance <= FarDistance
      && (p.index == -1 ==> p.distance == FarDistance)
      && (p.index != -1 ==> p.index >= 0 && p.distance < FarDistance)
      && (forall i :: 0 <= i < |cs| && cs[i].distance.Some? ==> cs[i].distance.value >= p.distance)
      && (p.index == -1 <==> forall i :: 0 <= i < |cs| && cs[i].distance.Some? ==> cs[i].distance.value >= FarDistance)
      && (p.index != -1 ==> exists i :: 0 <= i < |cs| && cs[i].mesh == p.index && cs[i].distance == Some(p.distance)
                                && forall j :: 0 <= j < i && cs[j].distance.Some? ==> cs[j].distance.value > p.distance)
  {
    if cs != [] {
      var init := cs[..|cs| - 1];
      var c := cs[|cs| - 1];
      ScanFindsNearest(init);
      var p := Scan(init);
      assert forall i :: 0 <= i < |init| ==> init[i] == cs[i];
      if p.index != -1 {
        var i :| 0 <= i < |init| && init[i].mesh == p.index && init[i].distance == Some(p.distance)
                 && forall j :: 0 <= j < i && init[j].distance.Some? ==> init[j].distance.value > p.distance;
        assert cs[i].mesh == p.index;
      }
      if c.distance.Some? && c.distance.value < p.distance {
        assert cs[|cs| - 1] == c;
      }
    }
  }

  /**
   * After a click the selection is a mesh with a hit no farther than any
   * other hit, and every mesh before it only has strictly farther hits; -1
   * when no hit is closer than `FarDistance`.
   */
  lemma ClosestHitIsNearest(meshes: seq<Mesh>, ray: Ray, hit: Intersector)
    requires WholeTriangles(meshes)
    ensures var cs := SceneCandidates(meshes, ray, hit, |meshes|);
      var p := Scan(cs);
      && -1 <= p.index < |meshes|
      && (p.index == -1 <==> forall i :: 0 <= i < |cs| && cs[i].distance.Some? ==> cs[i].distance.value >= FarDistance)
      && (forall i :: 0 <= i < |cs| && cs[i].distance.Some? ==> cs[i].distance.value >= p.distance)
      && (p.index != -1 ==>
            (exists i :: 0 <= i < |cs| && cs[i].mesh == p.index && cs[i].distance == Some(p.distance))
            && forall j :: 0 <= j < |cs| && cs[j].mesh < p.index && cs[j].distance.Some? ==> cs[j].distance.value > p.distance)
  {
    var cs := SceneCandidates(meshes, ray, hit, |meshes|);
    ScanFindsNearest(cs);
    var p := Scan(cs);
    if p.index != -1 {
      var i :| 0 <= i < |cs| && cs[i].mesh == p.index && cs[i].distance == Some(p.distance)
               && forall j :: 0 <= j < i && cs[j].distance.Some? ==> cs[j].distance.value > p.distance;
      forall j | 0 <= j < |cs| && cs[j].mesh < p.index && cs[j].distance.Some?
        ensures cs[j].distance.value > p.distance
      {
        if j >= i {
          SceneCandidatesOrdered(meshes, ray, hit, |meshes|, i, j);
        }
      }
    }
  }

  // ----- the mouse -----

  datatype MouseButton = LeftButton | RightButton | MiddleButton

  datatype Action = Press | Release | Repeat

  /** A valid scene's triangle buffers hold whole triangles. */
  lemma ValidSceneWholeTriangles(world: World)
    requires world.Valid()
    ensures WholeTriangles(world.meshes)
  {
    forall m | m in world.meshes
      ensures |m.triangleVertices| % 3 == 0
    {
      assert m.Valid();
    }
  }

  /** The ray of a click through the view camera. */
  function ClickRay(world: World, x: real, y: real, width: int, height: int, an: Analytic): Result<Ray, ViewerError>
    requires width > 0 && height > 0
    reads world, world.cameras
  {
    match world.ViewCamera()
    case None => Err(NoViewCamera)
    case Some(camera) =>
      match PickRay(camera.Parameters(), x, y, width, height, an)
      case Err(e) => Err(ProjectionFailed(e))
      case Ok(ray) => Ok(ray)
  }

  /**
   * `mouse_button_callback`: a left press casts the click's ray and selects
   * the closest mesh it hits, or none (-1); any other button or action does
   * nothing. The window size and cursor position are parameters.
   */
  method MouseButtonCallback(world: World, button: MouseButton, action: Action, x: real, y: real,
                             width: int, height: int, hit: Intersector, an: Analytic)
    returns (r: Outcome<ViewerError>)
    requires world.Valid()
    requires button == LeftButton && action == Press ==> width > 0 && height > 0
    modifies world
    ensures world.meshes == old(world.meshes) && world.cameras == old(world.cameras)
    ensures world.viewCamera == old(world.viewCamera)
    ensures world.Valid() && WholeTriangles(world.meshes)
    ensures !(button == LeftButton && action == Press) ==>
      r == Pass && world.selectedMeshIndex == old(world.selectedMeshIndex)
    ensures button == LeftButton && action == Press ==>
      match old(ClickRay(world, x, y, width, height, an))
      case Err(e) => r == Fail(e) && world.selectedMeshIndex == old(world.selectedMeshIndex)
      case Ok(ray) =>
        && r == Pass
        && world.selectedMeshIndex == Scan(SceneCandidates(world.meshes, ray, hit, |world.meshes|)).index
        && -1 <= world.selectedMeshIndex < |world.meshes|
  {
    if !(button == LeftButton && action == Press) {
      return Pass;
    }
    var click := ClickRay(world, x, y, width, height, an);
    if click.Err? {
      return Fail(click.error);
    }
    ValidSceneWholeTriangles(world);
    var index := ClosestHit(world.meshes, click.value, hit);
    ClosestHitIsNearest(world.meshes, click.value, hit);
    world.SetSelectedMeshIndex(index);
    r := Pass;
  }

  // ----- render types and projections -----

  /** The OpenGL polygon mode a render type is drawn with. */
  datatype PolygonMode = Line | Fill

  /** `getPolygonDrawType`: outlines for wireframe, filled polygons for both shadings. */
  function PolygonDrawType(renderType: RenderType): (r: PolygonMode)
    ensures r == Line <==> renderType == Wireframe
  {
    match renderType
    case Wireframe => Line
    case FlatShade => Fill
    case PhongShade => Fill
  }

  /** The render type the left shift key switches a mesh to: Phong, wireframe, flat, Phong, ... */
  function NextRenderType(renderType: RenderType): (r: RenderType)
    ensures r != renderType
  {
    match renderType
    case PhongShade => Wireframe
    case Wireframe => FlatShade
    case FlatShade => PhongShade
  }

  /** Three presses bring a mesh back to its render type, after showing each of the three. */
  lemma RenderTypeCycle(renderType: RenderType)
    ensures NextRenderType(NextRenderType(NextRenderType(renderType))) == renderType
    ensures {renderType, NextRenderType(renderType), NextRenderType(NextRenderType(renderType))}
            == {Wireframe, FlatShade, PhongShade}
  {
  }

  /** The field of view set when switching to perspective: 90 degrees with pi taken as 3.14. */
  const PerspectiveFieldOfView := (3.14 / 180.0) * 90.0

  /** The field of view set when switching to orthographic: 140 degrees with pi taken as 3.14. */
  const OrthographicFieldOfView := (3.14 / 180.0) * 140.0

  /**
   * The tab key: an orthographic camera becomes perspective, any other
   * becomes orthographic, each with its own field of view; nothing else
   * about the camera changes.
   */
  function Toggled(cp: CameraParameters): (r: CameraParameters)
    ensures r.projectionType == PROJECTION_ORTHOGRAPHIC || r.projectionType == PROJECTION_PERSPECTIVE
    ensures r.projectionType == PROJECTION_PERSPECTIVE <==> cp.projectionType == PROJECTION_ORTHOGRAPHIC
    ensures r.(projectionType := cp.projectionType, fieldOfView := cp.fieldOfView) == cp
  {
    if cp.projectionType == PROJECTION_ORTHOGRAPHIC then
      cp.(projectionType := PROJECTION_PERSPECTIVE, fieldOfView := PerspectiveFieldOfView)
    else
      cp.(projectionType := PROJECTION_ORTHOGRAPHIC, fieldOfView := OrthographicFieldOfView)
  }

  /**
   * Toggling twice restores a camera the tab key has toggled before, and a
   * toggled camera never has an invalid projection type.
   */
  lemma ToggleTwice(cp: CameraParameters, an: Analytic)
    ensures Toggled(Toggled(Toggled(cp))) == Toggled(cp)
    ensures var t := Toggled(cp);
      ProjectionMatrix(t.projectionType, t.aspectRatio, t.near, t.far, t.fieldOfView, an).Err? ==>
        ProjectionMatrix(t.projectionType, t.aspectRatio, t.near, t.far, t.fieldOfView, an).error == DegenerateFrustum
  {
  }

  /** The tab key's update of the view camera, through its setters. */
  method ToggleCamera(camera: Camera)
    modifies camera
    ensures camera.Parameters() == Toggled(old(camera.Parameters()))
  {
    if camera.projectionType == PROJECTION_ORTHOGRAPHIC {
      camera.SetProjectionType(PROJECTION_PERSPECTIVE);
      camera.SetFieldOfView(PerspectiveFieldOfView);
    } else {
      camera.SetProjectionType(PROJECTION_ORTHOGRAPHIC);
      camera.SetFieldOfView(OrthographicFieldOfView);
    }
  }

  // ----- the keyboard -----

  datatype Key =
    | Key1 | Key2 | Key3
    | KeyUp | KeyDown | KeyLeft | KeyRight | KeyRightBracket | KeySlash
    | KeyTab | KeyLeftShift
    | KeyA | KeyD | KeyW | KeyS | KeyQ | KeyZ
    | KeyE | KeyR | KeyF | KeyG | KeyC | KeyV
    | KeyP | KeyL
    | OtherKey

  /** A change to the selected mesh's model matrix. */
  datatype Edit = TranslateBy(displacement: Vec3) | RotateBy(axis: int, angle: real) | ScaleBy(factor: real)

  /** What a key does. */
  datatype Command =
    | LoadMesh(path: string, color: Vec3, offset: Vec3)
    | MoveCamera(step: Vec3)
    | ToggleProjection
    | CycleRenderType
    | EditMesh(edit: Edit)
    | NoCommand

  /** The key bindings of `key_callback`. */
  function CommandOf(key: Key): (c: Command)
    ensures c.EditMesh? && c.edit.RotateBy? ==> ValidAxis(c.edit.axis)
    ensures c.EditMesh? && c.edit.ScaleBy? ==> c.edit.factor > 0.0
  {
    match key
    case Key1 => LoadMesh("../data/unit_cube.off", Vec3(1.0, 1.0, 0.0), Zero3)
    case Key2 => LoadMesh("../data/bunny.off", Vec3(0.0, 1.0, 0.0), Vec3(-0.072, -0.1, 0.0))
    case Key3 => LoadMesh("../data/bumpy_cube.off", Vec3(1.0, 0.0, 0.0), Zero3)
    case KeyUp => MoveCamera(Vec3(0.0, 0.5, 0.0))
    case KeyDown => MoveCamera(Vec3(0.0, -0.5, 0.0))
    case KeyLeft => MoveCamera(Vec3(-0.5, 0.0, 0.0))
    case KeyRight => MoveCamera(Vec3(0.5, 0.0, 0.0))
    case KeyRightBracket => MoveCamera(Vec3(0.0, 0.0, -0.1))
    case KeySlash => MoveCamera(Vec3(0.0, 0.0, 0.1))
    case KeyTab => ToggleProjection
    case KeyLeftShift => CycleRenderType
    case KeyA => EditMesh(TranslateBy(Vec3(-0.1, 0.0, 0.0)))
    case KeyD => EditMesh(TranslateBy(Vec3(0.1, 0.0, 0.0)))
    case KeyW => EditMesh(TranslateBy(Vec3(0.0, 0.0, -0.1)))
    case KeyS => EditMesh(TranslateBy(Vec3(0.0, 0.0, 0.1)))
    case KeyQ => EditMesh(TranslateBy(Vec3(0.0, 0.1, 0.0)))
    case KeyZ => EditMesh(TranslateBy(Vec3(0.0, -0.1, 0.0)))
    case KeyE => EditMesh(RotateBy(AXIS_Z, -0.1))
    case KeyR => EditMesh(RotateBy(AXIS_Z, 0.1))
    case KeyF => EditMesh(RotateBy(AXIS_X, -0.1))
    case KeyG => EditMesh(RotateBy(AXIS_X, 0.1))
    case KeyC => EditMesh(RotateBy(AXIS_Y, -0.1))
    case KeyV => EditMesh(RotateBy(AXIS_Y, 0.1))
    case KeyP => EditMesh(ScaleBy(1.1))
    case KeyL => EditMesh(ScaleBy(1.0 / 1.1))
    case OtherKey => NoCommand
  }

  /** An edit is well-formed when a rotation names one of the three axes. */
  predicate WellFormedEdit(edit: Edit) {
    edit.RotateBy? ==> ValidAxis(edit.axis)
  }

  /** The matrix an edit multiplies the model by, for a mesh positioned at `p`. */
  function EditMatrix(edit: Edit, p: Vec3, an: Analytic): Mat4
    requires WellFormedEdit(edit)
  {
    match edit
    case TranslateBy(v) => TranslationMatrix(v)
    case RotateBy(axis, angle) => RotateAboutPointMatrix(axis, angle, p, an)
    case ScaleBy(f) => ScaleAboutPointMatrix(p, f)
  }

  /**
   * The model matrix after an edit, as `Mesh::translate`, `rotate` and
   * `scale` compute it: rotations and scales are about the mesh's current
   * translation.
   */
  function EditedModel(edit: Edit, model: Mat4, an: Analytic): Mat4
    requires WellFormedEdit(edit)
  {
    Mul(EditMatrix(edit, TranslationOf(model), an), model)
  }

  /** Rotations and scales leave the mesh where it is; translations move it by their displacement. */
  lemma EditedPosition(edit: Edit, model: Mat4, an: Analytic)
    requires WellFormedEdit(edit) && Affine(model)
    ensures Affine(EditedModel(edit, model, an))
    ensures TranslationOf(EditedModel(edit, model, an)) ==
      if edit.TranslateBy? then Add(TranslationOf(model), edit.displacement) else TranslationOf(model)
  {
    var p := TranslationOf(model);
    match edit
    case TranslateBy(v) =>
      var t := TranslationMatrix(v);
      MulAffine(t, model);
      TranslationOfMul(t, model);
      TranslationMoves(v, p);
    case RotateBy(axis, angle) =>
      var t := RotateAboutPointMatrix(axis, angle, p, an);
      MulAffine(t, model);
      TranslationOfMul(t, model);
      RotateAboutPointFixesCenter(axis, angle, p, an);
    case ScaleBy(f) =>
      var t := ScaleAboutPointMatrix(p, f);
      MulAffine(t, model);
      TranslationOfMul(t, model);
      ScaleAboutPointFixesCenter(p, f);
  }

  /** The key that undoes a mesh-editing key: A and D, W and S, Q and Z, E and R, F and G, C and V, P and L. */
  function OppositeKey(key: Key): (r: Option<Key>)
    ensures r.Some? <==> CommandOf(key).EditMesh?
    ensures r.Some? ==> r.value != key
  {
    match key
    case KeyA => Some(KeyD)
    case KeyD => Some(KeyA)
    case KeyW => Some(KeyS)
    case KeyS => Some(KeyW)
    case KeyQ => Some(KeyZ)
    case KeyZ => Some(KeyQ)
    case KeyE => Some(KeyR)
    case KeyR => Some(KeyE)
    case KeyF => Some(KeyG)
    case KeyG => Some(KeyF)
    case KeyC => Some(KeyV)
    case KeyV => Some(KeyC)
    case KeyP => Some(KeyL)
    case KeyL => Some(KeyP)
    case _ => None
  }

  /** Being opposite is symmetric. */
  lemma OppositeSymmetric(first: Key, second: Key)
    requires OppositeKey(first) == Some(second)
    ensures OppositeKey(second) == Some(first)
  {
  }

  lemma TrigLawsNegate(an: Analytic, theta: real)
    requires TrigLawsAt(an, theta)
    ensures TrigLawsAt(an, -theta)
  {
  }

  lemma ScaleByOne(p: Vec3)
    ensures ScaleAboutPointMatrix(p, 1.0) == Identity
  {
  }

  /** The edit that undoes `edit`: the opposite displacement, angle or reciprocal factor. */
  function Inverse(edit: Edit): (r: Edit)
    requires edit.ScaleBy? ==> edit.factor != 0.0
    ensures edit.TranslateBy? ==> r.TranslateBy? && Add(r.displacement, edit.displacement) == Zero3
    ensures edit.RotateBy? ==> r.RotateBy? && r.axis == edit.axis && r.angle + edit.angle == 0.0
    ensures edit.ScaleBy? ==> r.ScaleBy? && r.factor * edit.factor == 1.0
  {
    match edit
    case TranslateBy(v) => TranslateBy(Neg(v))
    case RotateBy(axis, angle) => RotateBy(axis, -angle)
    case ScaleBy(f) => ScaleBy(1.0 / f)
  }

  /** Two translations whose displacements sum to zero cancel. */
  lemma TranslationsCancel(v: Vec3, w: Vec3, model: Mat4, an: Analytic)
    requires Add(w, v) == Zero3
    ensures EditedModel(TranslateBy(w), EditedModel(TranslateBy(v), model, an), an) == model
  {
    MulAssoc(TranslationMatrix(w), TranslationMatrix(v), model);
    TranslationCompose(w, v);
    assert TranslationMatrix(Zero3) == Identity;
    MulIdentity(model);
  }

  /** A rotation about the mesh's position followed by the opposite rotation about the same axis cancel. */
  lemma RotationsCancel(axis: int, angle: real, model: Mat4, an: Analytic)
    requires ValidAxis(axis) && Affine(model) && TrigLawsAt(an, -angle)
    ensures EditedModel(RotateBy(axis, -angle), EditedModel(RotateBy(axis, angle), model, an), an) == model
  {
    hide Mul, RotateAboutPointMatrix;
    var p := TranslationOf(model);
    var a := RotateAboutPointMatrix(axis, angle, p, an);
    var b := RotateAboutPointMatrix(axis, -angle, p, an);
    EditedPosition(RotateBy(axis, angle), model, an);
    MulAssoc(b, a, model);
    assert angle == -(-angle);
    RotateAboutPointInverse(axis, -angle, p, an);
    MulIdentity(model);
  }

  /** Two scales about the mesh's position whose factors multiply to one cancel. */
  lemma ScalesCancel(f: real, g: real, model: Mat4, an: Analytic)
    requires Affine(model) && g * f == 1.0
    ensures EditedModel(ScaleBy(g), EditedModel(ScaleBy(f), model, an), an) == model
  {
    hide Mul, ScaleAboutPointMatrix;
    var p := TranslationOf(model);
    EditedPosition(ScaleBy(f), model, an);
    MulAssoc(ScaleAboutPointMatrix(p, g), ScaleAboutPointMatrix(p, f), model);
    ScaleAboutPointCompose(p, f, g);
    ScaleByOne(p);
    MulIdentity(model);
  }

  /**
   * An edit followed by its inverse restores the model matrix exactly (with
   * exact arithmetic, and for a rotation a sine and cosine that obey the
   * Pythagorean and parity laws at its angle).
   */
  lemma InverseCancels(edit: Edit, model: Mat4, an: Analytic)
    requires WellFormedEdit(edit) && Affine(model)
    requires edit.ScaleBy? ==> edit.factor != 0.0
    requires edit.RotateBy? ==> TrigLawsAt(an, edit.angle)
    ensures EditedModel(Inverse(edit), EditedModel(edit, model, an), an) == model
  {
    match edit
    case TranslateBy(v) =>
      TranslationsCancel(v, Neg(v), model, an);
    case RotateBy(axis, angle) =>
      TrigLawsNegate(an, angle);
      RotationsCancel(axis, angle, model, an);
    case ScaleBy(f) =>
      ScalesCancel(f, 1.0 / f, model, an);
  }

  /** The opposite of a mesh-editing key is bound to the inverse edit. */
  lemma OppositeKeyInverts(first: Key, second: Key)
    requires OppositeKey(first) == Some(second)
    ensures CommandOf(first).EditMesh? && CommandOf(second).EditMesh?
    ensures var e := CommandOf(first).edit;
      && (e.ScaleBy? ==> e.factor != 0.0)
      && (e.RotateBy? ==> e.angle == 0.1 || e.angle == -0.1)
      && CommandOf(second).edit == Inverse(e)
  {
    match first
    case KeyA => case KeyD => case KeyW => case KeyS => case KeyQ => case KeyZ =>
    case KeyE => case KeyR => case KeyF => case KeyG => case KeyC => case KeyV =>
    case KeyP => case KeyL =>
    case _ => assert false;
  }

  /**
   * Pressing a key and then its opposite restores the selected mesh's
   * model matrix exactly (with exact arithmetic and a sine and cosine of
   * 0.1 that obey the Pythagorean and parity laws).
   */
  lemma OppositeKeysCancel(first: Key, second: Key, model: Mat4, an: Analytic)
    requires OppositeKey(first) == Some(second) && Affine(model) && TrigLawsAt(an, 0.1)
    ensures CommandOf(first).EditMesh? && CommandOf(second).EditMesh?
    ensures EditedModel(CommandOf(second).edit, EditedModel(CommandOf(first).edit, model, an), an) == model
  {
    OppositeKeyInverts(first, second);
    TrigLawsNegate(an, 0.1);
    hide CommandOf, OppositeKey, EditedModel;
    InverseCancels(CommandOf(first).edit, model, an);
  }

  // ----- the key callback -----

  /**
   * The selected mesh `m` kept its geometry and colour and took the
   * command's effect: the next render type, or the edited model matrix.
   */
  twostate predicate EditedBy(m: Mesh, command: Command)
    requires command.EditMesh? ==> WellFormedEdit(command.edit)
    reads m
  {
    && m.Shape() == old(m.Shape()) && m.color == old(m.color)
    && (command.CycleRenderType? ==> m.renderType == NextRenderType(old(m.renderType)) && m.model == old(m.model))
    && (command.EditMesh? ==>
          m.renderType == old(m.renderType) && m.model == EditedModel(command.edit, old(m.model), m.an))
  }

  /**
   * The outcome of a key that acts on the selected mesh: nothing happens
   * without a selection, a selection out of range fails, and otherwise
   * exactly the selected mesh changes, as `EditedBy` says.
   */
  twostate predicate SelectionEdited(world: World, command: Command, new r: Outcome<ViewerError>)
    requires command.EditMesh? ==> WellFormedEdit(command.edit)
    reads world, world.meshes, world.cameras
  {
    && unchanged(world) && unchanged(world.cameras)
    && var index := world.selectedMeshIndex;
    && (index == NO_SELECTION ==> r == Pass && unchanged(world.meshes))
    && (index != NO_SELECTION && world.SelectedMesh().None? ==> r == Fail(NoSuchMesh(index)) && unchanged(world.meshes))
    && (world.SelectedMesh().Some? ==>
          var m := world.SelectedMesh().value;
          r == Pass && EditedBy(m, command) && forall other :: other in world.meshes && other != m ==> unchanged(other))
  }

  /** The keys that act on the selected mesh. */
  method EditSelection(world: World, command: Command) returns (r: Outcome<ViewerError>)
    requires world.Valid()
    requires command.CycleRenderType? || (command.EditMesh? && WellFormedEdit(command.edit))
    modifies world.meshes
    ensures world.Valid()
    ensures SelectionEdited(world, command, r)
  {
    var index := world.selectedMeshIndex;
    if index == NO_SELECTION {
      return Pass;
    }
    var selected := world.SelectedMesh();
    if selected.None? {
      return Fail(NoSuchMesh(index));
    }
    var m := selected.value;
    r := Pass;
    match command {
      case CycleRenderType =>
        if m.renderType == PhongShade {
          m.SetRenderType(Wireframe);
        } else if m.renderType == Wireframe {
          m.SetRenderType(FlatShade);
        } else if m.renderType == FlatShade {
          m.SetRenderType(PhongShade);
        }
      case EditMesh(TranslateBy(v)) => m.Translate(v);
      case EditMesh(RotateBy(axis, angle)) => m.Rotate(axis, angle);
      case EditMesh(ScaleBy(f)) => m.Scale(f);
    }
  }

  /** The vertices of a loaded mesh, moved so that their barycenter is at the origin. */
  function Recentered(data: OffData): (vs: seq<Vec3>)
    requires ValidFaces(data.faces, |data.vertices|) && |data.faces| > 0
    ensures |vs| == |data.vertices| > 0
    ensures Barycenter(data.faces, vs) == Zero3
  {
    assert 0 <= Corner(data.faces[0], 0) < |data.vertices|;
    RecenteredBarycenter(data.faces, data.vertices);
    Shifted(data.vertices, Barycenter(data.faces, data.vertices))
  }

  /**
   * The outcome of loading `file` for the keys 1 to 3: a read error or a
   * flat mesh leaves the scene alone; otherwise one new mesh is appended,
   * recentred, flat shaded, scaled so that its longest side is 1 and then
   * moved by `offset`.
   */
  twostate predicate MeshLoaded(world: World, new file: Option<TextFile>, ps: Parsers, color: Vec3, offset: Vec3,
                                an: Analytic, new r: Outcome<ViewerError>)
    reads world, world.meshes, world.cameras
  {
    && world.cameras == old(world.cameras) && unchanged(world.cameras)
    && world.viewCamera == old(world.viewCamera) && world.selectedMeshIndex == old(world.selectedMeshIndex)
    && |old(world.meshes)| <= |world.meshes| && world.meshes[..|old(world.meshes)|] == old(world.meshes)
    && (forall i :: 0 <= i < |old(world.meshes)| ==> unchanged(world.meshes[i]))
    && match ReadOff(file, ps)
    case Err(e) => r == Fail(LoadFailed(e)) && world.meshes == old(world.meshes)
    case Ok(data) =>
      var vs := Recentered(data);
      var extent := MaxExtent(BoundingBox(vs));
      if extent == 0.0 then r == Fail(FlatMesh) && world.meshes == old(world.meshes)
      else
        && r == Pass
        && |world.meshes| == |old(world.meshes)| + 1
        && var m := world.meshes[|old(world.meshes)|];
           && fresh(m) && m.an == an
           && m.vertices == vs && m.faces == data.faces
           && m.color == color && m.renderType == FlatShade
           && m.model == Mul(TranslationMatrix(offset), ScaleAboutPointMatrix(Zero3, 1.0 / extent))
  }

  /** Keys 1 to 3: load, scale to the unit cube, move by the offset, add to the scene. */
  method AddMeshFromFile(world: World, file: Option<TextFile>, ps: Parsers, color: Vec3, offset: Vec3, an: Analytic)
    returns (r: Outcome<ViewerError>)
    requires world.Valid()
    modifies world
    ensures world.Valid()
    ensures MeshLoaded(world, file, ps, color, offset, an, r)
  {
    hide Shifted, Barycenter, BoundingBox, MaxExtent, Mul, TranslationMatrix, ScaleAboutPointMatrix, ReadOff;
    var loaded := FromOffFile(file, ps, color, FlatShade, an);
    if loaded.Err? {
      return Fail(LoadFailed(loaded.error));
    }
    var mesh := loaded.value;
    ghost var data := ReadOff(file, ps).value;
    assert mesh.vertices == Recentered(data);
    var extent := MaxExtent(BoundingBox(mesh.vertices));
    if extent == 0.0 {
      return Fail(FlatMesh);
    }
    mesh.ScaleToUnitCube();
    assert TranslationOf(Identity) == Zero3;
    MulIdentity(ScaleAboutPointMatrix(Zero3, 1.0 / extent));
    assert mesh.model == ScaleAboutPointMatrix(Zero3, 1.0 / extent);
    mesh.Translate(offset);
    assert mesh.vertices == Recentered(data) && mesh.faces == data.faces;
    ghost var before := world.meshes;
    world.AddMesh(mesh);
    assert world.meshes[|before|] == mesh && world.meshes[..|before|] == before;
    r := Pass;
  }

  /** Nothing in the scene changed. */
  twostate predicate SceneUnchanged(world: World)
    reads world, world.meshes, world.cameras
  {
    unchanged(world) && unchanged(world.meshes) && unchanged(world.cameras)
  }

  /** Of the whole scene, only the camera `camera` changed. */
  twostate predicate OnlyCameraChanged(world: World, camera: Camera)
    reads world, world.meshes, world.cameras
  {
    unchanged(world) && unchanged(world.meshes) && forall c :: c in world.cameras && c != camera ==> unchanged(c)
  }

  /**
   * `key_callback`: every key first needs the view camera; the camera keys
   * act on press, repeat and release alike, every other bound key only on
   * press, and unbound keys do nothing. The file system is the function
   * `files` from a path to the file's text.
   */
  method KeyCallback(world: World, key: Key, action: Action, files: string -> Option<TextFile>, ps: Parsers,
                     an: Analytic)
    returns (r: Outcome<ViewerError>)
    requires world.Valid()
    modifies world, world.meshes, world.cameras
    ensures world.Valid()
    ensures old(world.ViewCamera()).None? ==> r == Fail(NoViewCamera) && SceneUnchanged(world)
    ensures old(world.ViewCamera()).Some? && (CommandOf(key).NoCommand? || (action != Press && !CommandOf(key).MoveCamera?)) ==>
      r == Pass && SceneUnchanged(world)
    ensures old(world.ViewCamera()).Some? && CommandOf(key).MoveCamera? ==>
      var camera := old(world.ViewCamera()).value;
      && r == Pass && OnlyCameraChanged(world, camera)
      && camera.Parameters() == old(camera.Parameters()).(position := Add(old(camera.position), CommandOf(key).step))
    ensures old(world.ViewCamera()).Some? && action == Press && CommandOf(key).ToggleProjection? ==>
      var camera := old(world.ViewCamera()).value;
      r == Pass && OnlyCameraChanged(world, camera) && camera.Parameters() == Toggled(old(camera.Parameters()))
    ensures old(world.ViewCamera()).Some? && action == Press && (CommandOf(key).CycleRenderType? || CommandOf(key).EditMesh?) ==>
      SelectionEdited(world, CommandOf(key), r)
    ensures old(world.ViewCamera()).Some? && action == Press && CommandOf(key).LoadMesh? ==>
      var command := CommandOf(key);
      MeshLoaded(world, files(command.path), ps, command.color, command.offset, an, r)
  {
    hide CommandOf, EditedBy, MeshLoaded, Toggled, SelectionEdited;
    var camera := world.ViewCamera();
    if camera.None? {
      return Fail(NoViewCamera);
    }
    var command := CommandOf(key);
    if command.NoCommand? {
      return Pass;
    }
    if command.MoveCamera? {
      camera.value.TranslateBy(command.step);
      return Pass;
    }
    if action != Press {
      return Pass;
    }
    match command {
      case ToggleProjection => ToggleCamera(camera.value); r := Pass;
      case LoadMesh(path, color, offset) => r := AddMeshFromFile(world, files(path), ps, color, offset, an);
      case CycleRenderType => r := EditSelection(world, command);
      case EditMesh(_) => r := EditSelection(world, command);
    }
  }
}
