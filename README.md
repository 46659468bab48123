# Mesh viewer and triangle editor, modelled in Dafny

This project models the core of a small OpenGL program in two parts.

The first part is a 3D mesh viewer. It:
- loads triangle meshes from OFF files;
- computes the triangle buffer and the face and vertex normals;
- recentres each mesh on its barycenter and scales it to the unit cube;
- keeps the meshes and cameras in a `World`;
- builds view and projection matrices;
- turns a click into a ray and selects the closest mesh the ray hits;
- lets the keyboard move the camera, switch the projection, cycle the render type, and translate, rotate or scale the selected mesh.

The second part is a 2D triangle editor (`part1.cpp`). Clicks insert points, three points make a triangle, and the mode keys switch between insertion, translation, deletion, colouring and animation.

The model uses exact arithmetic: `real` stands in for `float`. Functions the program takes from its maths libraries are kept abstract in the datatype `Algebra.Analytic`, as uninterpreted function values:
- sine, cosine and tangent;
- square root;
- the inverse of a 4x4 matrix.

A lemma that needs one of their laws states it as a precondition (`SqrtLawsAt`, `TrigLawsAt`, `InverseLawAt`).

The files are:
- `algebra.dfy` (module `Algebra`): vectors, 4x4 matrices by rows, and the matrix laws the other proofs rely on.
- `utils.dfy` (module `Utils`): `splitString` and the transformation matrices of `Utils.cpp`.
- `meshes.dfy` (module `Meshes`): the per-mesh computations of `Mesh.cpp`, and the class `Mesh`.
- `mesh_files.dfy` (module `MeshFiles`): `Mesh::fromOffFile`. A file is its lines and whether the last one ends with a newline, read one line at a time as `std::getline` reads it. `stoi`/`stof` are parameters.
- `cameras.dfy` (module `Cameras`): the class `Camera`, its view matrix and its projection matrix.
- `worlds.dfy` (module `Worlds`): the class `World`.
- `viewer.dfy` (module `Viewer`): from `main.cpp`, these parts:
  - the screen-to-world conversion;
  - the closest-hit picking loop;
  - `key_callback`;
  - `getPolygonDrawType`.
- `editor2d.dfy` (module `Editor2D`): `part1.cpp`. Its global state is the class `TriangleEditor`.

Where a C++ call throws or reads out of bounds, the model returns an error value instead (`Result`, `Outcome` or `Option`). Two error values stand for a floating-point division by zero that the program does not catch; they are listed under "## Left out".

## Model

| member | source | states |
|---|---|---|
| Utils.Find | src/Utils.cpp:13 | Finds the first occurrence of the delimiter, or reports that there is none. |
| Utils.FindFrom | src/Utils.cpp:13 | Finds the first occurrence at or after a position, or reports that there is none after it. |
| Utils.SplitString | src/Utils.cpp:10-21 | The tokens are the pieces between delimiters, with a trailing empty piece dropped. No token contains the delimiter. Joining the pieces with the delimiter gives back the input. |
| Utils.SplitHasNoDelimiter | src/Utils.cpp:10-21 | No token of a split contains the delimiter. |
| Utils.SplitJoin | src/Utils.cpp:10-21 | Joining the pieces with the delimiter gives back the input. The pieces are the tokens, with the trailing empty piece put back when no tail remains. |
| Utils.PiecesStep | src/Utils.cpp:13-16 | One loop iteration emits the text before the first delimiter and continues after that delimiter. |
| Utils.SplitEmpty | src/Utils.cpp:17-19 | A split with no tokens comes only from the empty string. |
| Utils.SplitCount | src/Utils.cpp:10-21 | The number of tokens is the number of delimiters consumed, plus one when a non-empty tail remains. |
| Utils.ConsumedEndsWithDelimiter | src/Utils.cpp:17-19 | When no tail remains, a non-empty input ends with the delimiter. |
| Utils.RestIsSuffix | src/Utils.cpp:13-19 | The tail left after the loop is a suffix of the input and contains no delimiter. |
| Utils.SingleCharDelimiterTail | src/Utils.cpp:17-19 | With a one-character delimiter, the tail is empty exactly when the input is empty or ends with the delimiter. |
| Utils.EmptyDelimiterMakesNoProgress | src/Utils.cpp:13-16 | An empty delimiter is found at position 0 and erasing it leaves the string unchanged, so the loop would not terminate. |
| Utils.TranslationMatrix | src/Utils.cpp:57-64 | The matrix is affine and its translation column is the given vector. |
| Utils.TranslationMoves | src/Utils.cpp:57-64 | The translation matrix moves every point by the vector. |
| Utils.TranslationCompose | src/Utils.cpp:57-64 | Two translations compose to the translation by the sum. |
| Utils.ScaleMatrix | src/Utils.cpp:23-30 | The scale matrix is affine with no translation. |
| Utils.ScaleMoves | src/Utils.cpp:23-30 | It multiplies every point by the factor. |
| Utils.ScaleAboutPointMatrix | src/Utils.cpp:66-73 | Scaling about a point is affine. |
| Utils.ScaleAboutPointMoves | src/Utils.cpp:66-73 | A point q goes to p + f(q - p). |
| Utils.ScaleAboutPointFixesCenter | src/Utils.cpp:66-73 | The centre point is fixed. |
| Utils.ScaleAboutPointFactors | src/Utils.cpp:66-73 | Scaling about p equals translate(p) * scale(f) * translate(-p). |
| Utils.ScaleAboutPointCompose | src/Utils.cpp:66-73 | Scaling by f and then by g about the same point equals scaling by g*f. |
| Utils.RotationMatrix | src/Utils.cpp:32-55 | For axes Z, X and Y, the rotation matrix is affine with no translation. |
| Utils.RotationKeepsAxis | src/Utils.cpp:34-52 | A rotation about an axis leaves that coordinate of every point unchanged. |
| Utils.RotationInverse | src/Utils.cpp:32-55 | Rotating by theta and then by -theta about the same axis gives the identity, given cos² + sin² = 1. |
| Utils.RotateAboutPointMatrix | src/Utils.cpp:75-90 | Rotating about a point is affine. |
| Utils.RotateAboutPointFixesCenter | src/Utils.cpp:75-90 | The centre point is fixed. |
| Utils.RotateAboutPointInverse | src/Utils.cpp:75-90 | Rotating by theta and then by -theta about the same point gives the identity. |
| MeshFiles.ReadsLineAt | src/Mesh.cpp:54-72 | After the `std::getline` calls for lines 0 to k, the string holds line k of the text. Past the end it holds an empty line when the text ends with a newline, and the last line again when it does not. End-of-file is set exactly when the calls have gone past the last line, or have read a last line that has no newline. |
| MeshFiles.ReadsStep | src/Mesh.cpp:54-72 | Each further call continues from the stream the earlier calls left. |
| MeshFiles.NextVertex | src/Mesh.cpp:62-67 | One turn of the vertex loop: the stream advances to the one left by the read of line k, and the result is the vertex read as line k. |
| MeshFiles.NextFace | src/Mesh.cpp:72-77 | One turn of the face loop: the stream advances to the one left by the read of line k, and the result is the face read as line k. |
| MeshFiles.ReadVertices | src/Mesh.cpp:60-68 | Reading n vertex lines yields exactly n vertices when it succeeds. |
| MeshFiles.ReadVerticesLines | src/Mesh.cpp:60-68 | Reading n vertex lines from `start` succeeds exactly when each of the reads of lines `start` to `start + n - 1` holds a vertex; vertex `i` is then the one read as line `start + i`, and otherwise the error is that of the first line that fails. |
| MeshFiles.ReadFaces | src/Mesh.cpp:70-78 | Reading n face lines yields exactly n faces when it succeeds. |
| MeshFiles.ReadFacesLines | src/Mesh.cpp:70-78 | Reading n face lines from `start` succeeds exactly when each of those reads holds a face; face `i` is then the one read as line `start + i`, and otherwise the error is that of the first line that fails. |
| MeshFiles.FirstBadFace | src/Mesh.cpp:70-78 | Returns a face that names a missing vertex with every earlier face in range, and None exactly when every face is in range. |
| MeshFiles.ReadOff | src/Mesh.cpp:46-87 | A file that loads has at least one face, and every face names existing vertices. |
| MeshFiles.ReadOffSteps | src/Mesh.cpp:54-78 | A file that loads has readable, non-negative counts on line 1, and its data is exactly what the vertex and face reads at those counts returned. |
| MeshFiles.ReadOffLayout | src/Mesh.cpp:54-78 | In a file that loads, line 1 holds the vertex and face counts, vertex `i` comes from line `2 + i` and face `j` from line `2 + nv + j`, where `nv` is the vertex count. |
| MeshFiles.ReadVerticesErrorStays | src/Mesh.cpp:60-68 | Once a vertex line fails, reading more lines reports the same error. |
| MeshFiles.ReadFacesErrorStays | src/Mesh.cpp:70-78 | Once a face line fails, reading more lines reports the same error. |
| MeshFiles.CountsOf | src/Mesh.cpp:56-58 | Succeeds exactly when line 1 has two tokens and both convert to integers, and then yields those two integers. A missing field is reported exactly when there is no token 0, or token 0 converts and there is no token 1. Any other failure is a bad number on line 1. |
| MeshFiles.VertexOf | src/Mesh.cpp:62-67 | Succeeds exactly when the line has at least three tokens and tokens 0 to 2 convert to reals, and then yields them as x, y, z. A short line is reported exactly when there are fewer than three tokens. Any other failure is a bad number on that line. |
| MeshFiles.FaceOf | src/Mesh.cpp:72-77 | Succeeds exactly when the line has at least four tokens and tokens 1 to 3 convert to integers, and then yields them as the three corners. A short line is reported exactly when there are fewer than four tokens. Any other failure is a bad number on that line. |
| MeshFiles.FaceIgnoresCornerCount | src/Mesh.cpp:72-77 | Token 0 of a face line does not affect the face read from it. |
| MeshFiles.ReadCounts | src/Mesh.cpp:54-58 | Computes `CountsOf` of line 1 by splitting it and converting tokens 0 and 1. |
| MeshFiles.ReadVertex | src/Mesh.cpp:62-67 | Computes `VertexOf` of one vertex line by splitting it and converting tokens 0 to 2. |
| MeshFiles.ReadFace | src/Mesh.cpp:72-77 | Computes `FaceOf` of one face line by splitting it and converting tokens 1 to 3. |
| MeshFiles.LoadVertices | src/Mesh.cpp:60-68 | From the stream left by the read of line `start - 1`, the loop fills a fresh array equal to the vertex list read from line `start` on, or returns the same error. On success the stream is the one left by the last line read. |
| MeshFiles.LoadFaces | src/Mesh.cpp:70-78 | From the stream left by the read of line `start - 1`, the loop fills a fresh array equal to the face list read from line `start` on, or returns the same error. On success the stream is the one left by the last line read. |
| MeshFiles.FromOffFile | src/Mesh.cpp:46-87 | Reading every line through one stream, it fails exactly when the file does not load, with the same error. Otherwise it returns a fresh valid mesh: the faces as read, the vertices shifted by their barycenter, an identity model, and the given colour and render type. |
| MeshFiles.LoadedMeshCentered | src/Mesh.cpp:81-85 | After loading, the barycenter is the origin. |
| MeshFiles.ReadVerticesIgnoresEarlierLines | src/Mesh.cpp:60-68 | Reading vertices depends only on the lines from its start on, and on the last line when it has no newline (it may be read again). |
| MeshFiles.ReadFacesIgnoresEarlierLines | src/Mesh.cpp:70-78 | Reading faces depends only on the lines from its start on, and on the last line when it has no newline. |
| MeshFiles.FirstLineIgnored | src/Mesh.cpp:52-58 | The first line of the file does not affect the result, unless it is the only line and has no newline; then the read of line 1 repeats it. |
| MeshFiles.FinalNewlineFileIsComplete | src/Mesh.cpp:60-78 | A file that ends with a newline and loads has at least the two header lines plus one line per vertex and per face: a read past its end is an empty line, which holds no face. |
| MeshFiles.TruncatedFileRepeatsLastLine | src/Mesh.cpp:61-78 | In a file without a final newline, every line past the end reads as the last line again, both as a vertex and as a face. |
| MeshFiles.ShortFileRepeatsFace | src/Mesh.cpp:54-78 | The file "OFF", "3 2", "0 0 0", "1 0 0", "0 1 0", "3 0 1 2" with no final newline loads with three vertices and the face (0, 1, 2) twice. |
| MeshFiles.ShortFileWithNewlineFails | src/Mesh.cpp:70-78 | The same file ending with a newline does not load: line 6 reads as empty, a short face line. |
| MeshFiles.ShortFileTokens | src/Utils.cpp:10-21 | The tokens of the short file's lines and of the empty line. |
| MeshFiles.SplitEmptyLine | src/Utils.cpp:10-21 | An empty line has no tokens. |
| MeshFiles.SplitOneChar | src/Utils.cpp:10-21 | A one-character token followed by a space is the first token, and the rest of the line gives the remaining tokens. |
| MeshFiles.SplitLastChar | src/Utils.cpp:10-21 | A one-character line with no space is one token. |
| MeshFiles.SameLineFrom | src/Mesh.cpp:61-72 | Two files of the same shape that agree from line `start` on, and on a last line with no newline, read the same line at every position from `start` on. |
| MeshFiles.SameVertexFrom | src/Mesh.cpp:62-67 | Such files read the same vertex at every position from `start` on. |
| MeshFiles.SameFaceFrom | src/Mesh.cpp:72-77 | Such files read the same face at every position from `start` on. |
| Meshes.CalculateTriangleVertices | src/Mesh.cpp:102-111 | Column 3g+k of the buffer is the vertex at corner k of face g. |
| Meshes.FaceNormal | src/Mesh.cpp:113-126 | The face normal is orthogonal to both edges from the first corner. |
| Meshes.CalculateFaceNormals | src/Mesh.cpp:113-126 | Column j holds the normal of triangle j/3, three equal columns per face. |
| Meshes.FillTriangle | src/Mesh.cpp:121-123 | Writes one normal into the three columns of a face and changes no other column. |
| Meshes.Incident | src/Mesh.cpp:131-140 | The adjacency list of a vertex only names faces that have been read so far. |
| Meshes.IncidentAscending | src/Mesh.cpp:131-140 | A vertex's adjacency list is in ascending face order. |
| Meshes.IncidentCount | src/Mesh.cpp:131-140 | Face g appears in vertex v's list as many times as v is a corner of g. It appears there exactly when v is a corner of g. |
| Meshes.EnterCorner | src/Mesh.cpp:134-138 | Entering one corner appends the face to that vertex's list and leaves the other vertices' lists unchanged. |
| Meshes.IncidenceMap | src/Mesh.cpp:131-140 | The map sends each vertex to its full adjacency list. |
| Meshes.CountAppend | src/Mesh.cpp:131-140 | Occurrence counts add over concatenation. |
| Meshes.CountPositive | src/Mesh.cpp:131-140 | A count is positive exactly for members of the list. |
| Meshes.NormalColumnsAt | src/Mesh.cpp:142-154 | Column i of the vertex-normal buffer is the normal of the vertex at corner i%3 of face i/3. |
| Meshes.NormalColumnsAreVertexNormals | src/Mesh.cpp:142-154 | The whole column sequence is the vertex-normal buffer. |
| Meshes.SameVertexSameNormal | src/Mesh.cpp:142-154 | Two columns that show the same vertex have the same normal. |
| Meshes.NormalizedSumOfSum | src/Mesh.cpp:147-152 | Summing the adjacent face normals and then normalising is the vertex normal. |
| Meshes.CalculateVertexNormals | src/Mesh.cpp:128-156 | The method returns the vertex-normal buffer. Every column gets the normalised sum of the normals of all faces around its vertex. |
| Meshes.FillFaceNormals | src/Mesh.cpp:144-153 | One outer iteration extends the correct prefix of the buffer by the three columns of a face. |
| Meshes.SumAdjacent | src/Mesh.cpp:147-151 | The inner loop adds up the face normals of the adjacency list. |
| Meshes.CornerNormal | src/Mesh.cpp:145-152 | The normal written for a corner is that vertex's normal. |
| Meshes.CalculateBarycenter | src/Mesh.cpp:89-100 | Returns the average over faces of each face's mean corner position. |
| Meshes.Recenter | src/Mesh.cpp:81-85 | Every vertex is shifted by the same vector, in place. |
| Meshes.Shifted | src/Mesh.cpp:81-85 | Shifting keeps the number of vertices. |
| Meshes.FaceCenterShifted | src/Mesh.cpp:89-100 | Shifting the vertices shifts each face centre by the same vector. |
| Meshes.CenterSumShifted | src/Mesh.cpp:89-100 | Shifting the vertices shifts the sum of n face centres by n times the vector. |
| Meshes.BarycenterShifted | src/Mesh.cpp:89-100 | Shifting the vertices shifts the barycenter by the same vector. |
| Meshes.RecenteredBarycenter | src/Mesh.cpp:81-100 | After subtracting the barycenter, the barycenter is the origin. |
| Meshes.ExtendCoord | src/Mesh.cpp:162-181 | One loop step takes the minimum and maximum of each coordinate. |
| Meshes.FoldBounds | src/Mesh.cpp:162-181 | The running box bounds every vertex seen so far, and each bound is either a seen vertex's coordinate or the initial value. |
| Meshes.BoundingBoxTight | src/Mesh.cpp:158-184 | Started from the first vertex, the box bounds every vertex on each axis and is attained on both sides. |
| Meshes.SentinelExtentCounterexample | src/Mesh.cpp:159-161 | With the program's sentinels, two vertices one unit apart near x = 200000 measure 100002 instead of 1. |
| Meshes.ExtentAsWritten | src/Mesh.cpp:158-184 | Computes the longest side of the box as the program does, started from the sentinels 99999 and -999999. `SentinelExtentCounterexample` and `ExtentAsWrittenWhenCentered` state when it differs from the true extent. |
| Meshes.ExtentAsWrittenWhenStraddling | src/Mesh.cpp:158-184 | When each axis has a vertex at or below 0 and one at or above 0, the extent as written is the extent of the vertices. |
| Meshes.CenterSumOneSided | src/Mesh.cpp:89-100 | If every vertex lies strictly on one side of 0 on an axis, so does a non-empty sum of face centres. |
| Meshes.ExtentAsWrittenWhenCentered | src/Mesh.cpp:158-184 | For a mesh whose barycenter is the origin, as after loading, the extent as written is the extent of the vertices. |
| Meshes.Mesh.constructor | src/Mesh.cpp:25-40 | Stores the vertices, faces, colour and render type and sets an identity model. The three buffers have 3 columns per face. |
| Meshes.Mesh.WithDefaults | src/Mesh.cpp:17-23 | Uses the default colour, wireframe rendering and an identity model. |
| Meshes.Mesh.Translate | src/Mesh.cpp:202-204 | The model is left-multiplied by the translation, which moves the mesh's position by v. Nothing else changes. |
| Meshes.Mesh.Scale | src/Mesh.cpp:206-208 | The model is left-multiplied by a scale about the mesh's position, which stays where it was. |
| Meshes.Mesh.Rotate | src/Mesh.cpp:210-212 | The model is left-multiplied by a rotation about the mesh's position, which stays where it was. |
| Meshes.Mesh.ScaleToUnitCube | src/Mesh.cpp:158-184 | Scales about the mesh's position by one over the longest side of the vertices' bounding box. |
| Meshes.Mesh.SetRenderType | src/Mesh.cpp:190-192 | Changes only the render type. |
| Meshes.Mesh.SetColor | src/Mesh.cpp:198-200 | Changes only the colour. |
| Cameras.Camera.constructor | src/Camera.cpp:10-19 | Stores all seven parameters. |
| Cameras.Camera.SetPosition | src/Camera.cpp:21-23 | Changes only the position. |
| Cameras.Camera.SetTarget | src/Camera.cpp:25-27 | Changes only the target. |
| Cameras.Camera.SetProjectionType | src/Camera.cpp:29-31 | Changes only the projection type. |
| Cameras.Camera.SetAspectRatio | src/Camera.cpp:33-35 | Changes only the aspect ratio. |
| Cameras.Camera.SetNear | src/Camera.cpp:37-39 | Changes only the near plane. |
| Cameras.Camera.SetFar | src/Camera.cpp:41-43 | Changes only the far plane. |
| Cameras.Camera.SetFieldOfView | src/Camera.cpp:45-47 | Changes only the field of view. |
| Cameras.Camera.TranslateBy | src/Camera.cpp:77-79 | The position moves by the vector and nothing else changes. |
| Cameras.ViewMatrix | src/Camera.cpp:90-110 | The view matrix is affine. |
| Cameras.Orientation | src/Camera.cpp:96-100 | Computes the rotation whose rows are the right, up and backward directions. |
| Cameras.Backward | src/Camera.cpp:92 | Computes the normalised direction from the target to the eye. |
| Cameras.Right | src/Camera.cpp:93 | Computes the normalised cross product of the world's up vector with the backward direction. |
| Cameras.CameraUp | src/Camera.cpp:94 | Computes the cross product of the backward and right directions. `ViewOfPoint`, `TargetOnViewAxis` and `TargetDepth` state what the view does with these directions. |
| Cameras.OrientedTranslation | src/Camera.cpp:90-110 | Orientation times translation(-eye) sends q to the dot products of the basis with q - eye. |
| Cameras.ViewOfPoint | src/Camera.cpp:90-110 | A point's view coordinates are its offset from the eye along right, up and backward. |
| Cameras.ViewMovesEyeToOrigin | src/Camera.cpp:90-110 | The eye goes to the origin. |
| Cameras.TargetOnViewAxis | src/Camera.cpp:90-110 | The target lands on the view axis (x = y = 0). |
| Cameras.TargetDepth | src/Camera.cpp:90-110 | The target lands at depth minus its distance from the eye. |
| Cameras.ProjectionMatrix | src/Camera.cpp:112-152 | An unknown projection type is an error that carries the type. A known type with a zero-size frustum is a degenerate-frustum error. Otherwise the result is a matrix. |
| Cameras.ProjectionFrustum | src/Camera.cpp:126-147 | A projection that succeeds has non-zero half width and half height and different near and far distances. It is the orthographic or the perspective matrix of its type. |
| Cameras.OrthographicShape | src/Camera.cpp:132-139 | The orthographic matrix is affine with no x or y offset. |
| Cameras.PerspectiveShape | src/Camera.cpp:140-147 | The perspective matrix's last row is (0, 0, -1, 0) and x and y are not mixed with depth. |
| Cameras.Orthographic | src/Camera.cpp:132-139 | Computes the orthographic matrix of the symmetric box with the given half width, half height, near and far. `OrthographicShape`, `OrthographicEdges` and `OrthographicDepth` state its properties. |
| Cameras.Perspective | src/Camera.cpp:140-147 | Computes the perspective matrix of the symmetric frustum. `PerspectiveShape`, `PerspectiveCorner` and `PerspectiveDepth` state its properties. |
| Cameras.OrthographicEdges | src/Camera.cpp:132-139 | The frustum edges (±r, ±t) map to ±1. |
| Cameras.OrthographicCorners | src/Camera.cpp:126-139 | The corners of the camera's own frustum map to ±1. |
| Cameras.OrthographicDepth | src/Camera.cpp:132-139 | The near plane maps to depth -1 and the far plane to depth 1. |
| Cameras.OrthographicDepthRange | src/Camera.cpp:126-139 | The camera's near and far planes map to -1 and 1. |
| Cameras.PerspectiveCorner | src/Camera.cpp:140-147 | The top-right corner of the near plane maps to x = y = w = \|n\|, that is (1, 1) after division. |
| Cameras.PerspectiveDepth | src/Camera.cpp:140-147 | The near plane maps to z = -w and the far plane to z = w = \|f\|, that is depths -1 and 1. |
| Worlds.World.constructor | src/World.h:17-20 | An empty world with view camera 0 and no selection. |
| Worlds.World.AddMesh | src/World.cpp:7-9 | Appends the mesh and changes nothing else. |
| Worlds.World.AddCamera | src/World.cpp:15-17 | Appends the camera, changes nothing else and keeps a view camera that was valid. |
| Worlds.World.SetViewCamera | src/World.cpp:23-25 | Sets only the view camera number. |
| Worlds.World.ViewCamera | src/World.cpp:27-29 | There is a view camera exactly when its number is in range, and it is that camera. |
| Worlds.World.SetSelectedMeshIndex | src/World.h:35-37 | Sets only the selection. The lines cited only declare it: no source file defines it, so the model gives it the evident setter's effect. |
| Worlds.World.SelectedMesh | src/World.h:35-37 | There is a selected mesh exactly when the index is in range, and none when nothing is selected. The getter cited is only declared: no source file defines it. |
| Viewer.NdcRoundTrip | src/main.cpp:50-51 | The pixel can be read back from its normalised device coordinates. |
| Viewer.NdcRange | src/main.cpp:50-51 | Pixels in the window land in [-1, 1], and y is flipped. |
| Viewer.ScreenToNdc | src/main.cpp:48-51 | Computes the device coordinates of a pixel: x scaled from [0, width] and y flipped from the pixel rows. `NdcRoundTrip` and `NdcRange` state its properties. |
| Viewer.UnprojectRoundTrip | src/main.cpp:52-53 | Projecting the unprojected point gives back the device coordinates, given that the inverses are inverses. |
| Viewer.Unproject | src/main.cpp:52-53 | Computes the device point taken back through the inverse projection and the inverse view. `UnprojectRoundTrip` states that projecting it gives the device point back. |
| Viewer.ScreenToWorld | src/main.cpp:40-56 | Fails exactly when the camera's projection fails. |
| Viewer.PickRayLine | src/main.cpp:64-73 | The ray starts at the click's point at depth 0. In perspective it points along the line from the eye. Otherwise it points along the line to the same pixel at depth 1. |
| Viewer.PickRay | src/main.cpp:64-73 | Computes the picking ray from the click at depth 0, pointing away from the eye in perspective and away from the same pixel at depth 1 otherwise; a projection error is passed on. `PickRayLine` states its line. |
| Viewer.MeshCandidates | src/main.cpp:81-96 | One candidate per triangle, tagged with the mesh. |
| Viewer.SceneCandidates | src/main.cpp:75-97 | Candidates name meshes that exist. |
| Viewer.SceneCandidatesOrdered | src/main.cpp:75-97 | Candidates come in mesh order. |
| Viewer.ScanMesh | src/main.cpp:78-96 | The inner loop runs the closest-hit step over one mesh's triangles. |
| Viewer.ClosestHit | src/main.cpp:75-97 | The loop returns the closest-hit scan over all candidates. |
| Viewer.ScanFindsNearest | src/main.cpp:75-97 | The result is no farther than any hit. It is -1 exactly when no hit is nearer than the far limit. Otherwise it is the first candidate at that distance. |
| Viewer.ClosestHitIsNearest | src/main.cpp:75-97 | The selection is -1 or a mesh index. Its hit is no farther than any other, and every earlier candidate is strictly farther. |
| Viewer.ValidSceneWholeTriangles | src/main.cpp:75-97 | The triangle buffer of every mesh in a valid world has whole triangles. |
| Viewer.MouseButtonCallback | src/main.cpp:58-100 | Only a left press acts. A projection error is reported and leaves the selection as it was. Otherwise the selection becomes the closest-hit mesh, or -1. Meshes and cameras are unchanged. |
| Viewer.PolygonDrawType | src/main.cpp:264-275 | Lines exactly for wireframe, fill otherwise. |
| Viewer.NextRenderType | src/main.cpp:168-170 | The shift key always changes the render type. |
| Viewer.RenderTypeCycle | src/main.cpp:168-170 | Three presses return to the start and visit all three types. |
| Viewer.Toggled | src/main.cpp:155-161 | Tab switches orthographic to perspective and anything else to orthographic, and changes only the type and the field of view. |
| Viewer.ToggleTwice | src/main.cpp:155-161 | Toggling is periodic. After toggling, the projection can only fail as a degenerate frustum. |
| Viewer.ToggleCamera | src/main.cpp:153-163 | The camera becomes its toggled parameters. |
| Viewer.CommandOf | src/main.cpp:173-256 | Rotation keys use a real axis and scale keys a positive factor. |
| Viewer.EditedPosition | src/main.cpp:173-256 | Every mesh edit keeps the model affine. Only a translation moves the mesh's position, by its displacement. |
| Viewer.EditedModel | src/main.cpp:173-256 | Computes the model after a mesh edit, as `Mesh::translate`, `rotate` and `scale` do, about the mesh's current position. `EditedPosition` and `InverseCancels` state its properties. |
| Viewer.OppositeKey | src/main.cpp:173-256 | Exactly the mesh-edit keys have an opposite, and it is a different key. |
| Viewer.OppositeSymmetric | src/main.cpp:173-256 | Being opposite keys is symmetric. |
| Viewer.Inverse | src/main.cpp:173-256 | The inverse edit negates a translation or a rotation angle and inverts a scale factor. |
| Viewer.TranslationsCancel | src/Mesh.cpp:202-204 | Translating by v and then by -v restores the model. |
| Viewer.RotationsCancel | src/Mesh.cpp:210-212 | Rotating by an angle and then by its negation restores an affine model. |
| Viewer.ScalesCancel | src/Mesh.cpp:206-208 | Scaling by f and then by 1/f restores an affine model. |
| Viewer.InverseCancels | src/main.cpp:173-256 | Any edit followed by its inverse restores the model. |
| Viewer.OppositeKeyInverts | src/main.cpp:173-256 | The opposite key's edit is the inverse of the key's edit. |
| Viewer.OppositeKeysCancel | src/main.cpp:173-256 | Pressing a mesh key and then its opposite restores the model. |
| Viewer.EditSelection | src/main.cpp:164-256 | With no selection nothing changes. An out-of-range selection fails. Otherwise only the selected mesh changes: its render type cycles, or its model takes the edit. |
| Viewer.Recentered | src/Mesh.cpp:81-85 | The recentred vertices keep their number and have the origin as barycenter. |
| Viewer.AddMeshFromFile | src/main.cpp:106-132 | A load error is reported and a flat mesh is refused, with the scene unchanged. Otherwise one fresh mesh is appended: recentred vertices, flat shading, and a model that scales by one over the extent and then translates by the offset. Existing meshes and cameras are untouched. |
| Viewer.KeyCallback | src/main.cpp:103-258 | Without a view camera it fails and changes nothing. Unbound keys, and bound keys that are not pressed, change nothing, except that the camera arrow keys act on every action. The arrow keys move only the view camera. Tab toggles only the view camera. The other keys edit the selection or load a mesh, as above. |
| Editor2D.TestBySides | src/part1.cpp:60-71 | The test is "s lies on the same side of all three edges", written with cross products. |
| Editor2D.IsPointInTriangle | src/part1.cpp:60-71 | Computes the program's sign test on the x and y of the corners. `TestBySides`, `InsideAccepted` and `OutsideRejected` state what it decides. |
| Editor2D.InsideAccepted | src/part1.cpp:60-71 | A point strictly inside a triangle of either orientation is accepted. |
| Editor2D.OutsideRejected | src/part1.cpp:60-71 | A point strictly outside some edge is rejected. |
| Editor2D.TestIgnoresDepth | src/part1.cpp:60-71 | Only x and y of the corners matter. |
| Editor2D.TriangleUnder | src/part1.cpp:73-93 | Returns -1 or the first complete triangle whose transformed corners contain the click, and no earlier triangle contains it. |
| Editor2D.ClickInsideSelects | src/part1.cpp:73-93 | A click strictly inside a complete triangle selects that triangle or an earlier one. |
| Editor2D.AsWrittenMissesTriangle | src/part1.cpp:77-79 | With the corners as written, a click strictly inside the only triangle selects nothing. The corrected corners select it. |
| Editor2D.NearestAmong | src/part1.cpp:95-106 | Returns -1 exactly for no candidates. Otherwise it returns the first index at the minimum distance. |
| Editor2D.Centroid | src/part1.cpp:108-113 | The centroid balances the three corners. |
| Editor2D.WithTriangle | src/part1.cpp:115-151 | Replaces the three columns of one triangle and keeps all others. |
| Editor2D.Moved | src/part1.cpp:115-119 | Computes the positions with the three columns of one triangle displaced by a vector. `MovedCentroid` states that the centroid moves by that vector. |
| Editor2D.MovedCentroid | src/part1.cpp:115-123 | Moving a triangle moves its centroid by the same vector. |
| Editor2D.ScaledAbout | src/part1.cpp:125-135 | Scaling keeps the number of columns. |
| Editor2D.ScaledKeepsCentroid | src/part1.cpp:125-135 | Scaling about the centroid keeps the centroid. |
| Editor2D.ScaleCompose | src/part1.cpp:125-135 | Scaling by f and then by g is scaling by f*g. |
| Editor2D.ScaledAboutSteps | src/part1.cpp:125-135 | Translating to the origin, scaling and translating back scales each corner about the centroid. |
| Editor2D.RotatedAbout | src/part1.cpp:137-151 | Rotating keeps the number of columns. |
| Editor2D.RotatedKeepsCentroid | src/part1.cpp:137-151 | Rotating about the centroid keeps the centroid. |
| Editor2D.RotatedAboutSteps | src/part1.cpp:137-151 | Translating to the origin, turning and translating back rotates each corner about the centroid. |
| Editor2D.RotatedKeepsSides | src/part1.cpp:137-151 | A rotation keeps the triangle's side lengths. |
| Editor2D.TurnBackAbout | src/part1.cpp:137-151 | Turning by -theta and then by theta about a point restores it. |
| Editor2D.RotateKeysCancel | src/part1.cpp:287-295 | Pressing H and then J restores the triangle. |
| Editor2D.CanonicalShift | src/part1.cpp:158-164 | The device coordinates of the pixel (0, 0.2 height) for a vertical move and of (0.2 width, 0) for a horizontal one. They are the fixed points (-1, -0.6, 0, 0) and (-0.6, -1, 0, 0), whatever the window size. |
| Editor2D.WorldShift | src/part1.cpp:158-164 | Computes that device point taken back through the inverse of the view. `VerticallyMoved` and `HorizontallyMoved` use its y and x. |
| Editor2D.VerticallyMoved | src/part1.cpp:166-173 | Only the y translation of the view changes, by the unprojected step, with its sign set by the direction. |
| Editor2D.HorizontallyMoved | src/part1.cpp:175-182 | Only the x translation of the view changes, by the unprojected step, with its sign set by the direction. |
| Editor2D.Zoomed | src/part1.cpp:184-188 | Computes the view with its three diagonal entries multiplied by the factor. `ZoomCompose` and `ZoomUndone` state its properties. |
| Editor2D.ZoomCompose | src/part1.cpp:184-188 | Zooming by f and then by g is zooming by f*g. |
| Editor2D.ZoomUndone | src/part1.cpp:184-188 | Zooming keeps the translation, and zooming by 1/f undoes zooming by f. |
| Editor2D.Resized | src/part1.cpp:201-202 | A resize keeps the existing colours and leaves the new columns unset. |
| Editor2D.ModelCountStep | src/part1.cpp:207-210 | A new model is pushed exactly when the new point starts a triangle. |
| Editor2D.Painted | src/part1.cpp:296-349 | Only the selected vertex takes the colour, only in colour mode, and only when a vertex is selected. |
| Editor2D.CommandOf | src/part1.cpp:252-378 | Mode keys switch modes. Scale and zoom factors are positive. J rotates by 10 degrees and falls through to painting yellow. Key 1 paints yellow. |
| Editor2D.TriangleEditor.constructor | src/part1.cpp:380-435 | One point at the origin, one red colour, no models, identity view, insertion mode, nothing selected. |
| Editor2D.TriangleEditor.TriangleCentroid | src/part1.cpp:108-113 | Fails exactly for a start column outside the positions. Otherwise it returns the centroid. |
| Editor2D.TriangleEditor.TranslateTriangle | src/part1.cpp:115-119 | Moves the triangle's three columns by the vector and nothing else. |
| Editor2D.TriangleEditor.TranslateTriangleTo | src/part1.cpp:121-123 | Afterwards the triangle's centroid is the target. |
| Editor2D.TriangleEditor.ScaleTriangle | src/part1.cpp:125-135 | With a selection, the triangle is scaled about its centroid. Without one nothing changes. |
| Editor2D.TriangleEditor.RotateTriangle | src/part1.cpp:137-151 | With a selection, the triangle is rotated about its centroid. Without one nothing changes. |
| Editor2D.TriangleEditor.SelectTriangle | src/part1.cpp:73-93 | The selection becomes the first triangle under the click, or -1. |
| Editor2D.TriangleEditor.SelectNearestVertex | src/part1.cpp:95-106 | The selected vertex becomes the nearest position other than the last, or -1. |
| Editor2D.TriangleEditor.UpdateVertexColor | src/part1.cpp:153-156 | Changes one colour and nothing else. |
| Editor2D.TriangleEditor.MoveVertical | src/part1.cpp:166-173 | The view is moved vertically and nothing else changes. |
| Editor2D.TriangleEditor.MoveHorizontal | src/part1.cpp:175-182 | The view is moved horizontally and nothing else changes. |
| Editor2D.TriangleEditor.ZoomInBy | src/part1.cpp:184-188 | The view is zoomed and nothing else changes. |
| Editor2D.TriangleEditor.InsertPoint | src/part1.cpp:196-211 | The click is appended. The colours grow with a red entry. A model is pushed when a triangle starts. The selection is cleared. |
| Editor2D.TriangleEditor.DeleteAt | src/part1.cpp:221-233 | The triangle under the click is zeroed, and then the nearest vertex is selected (the case falls through). |
| Editor2D.TriangleEditor.AnimateAt | src/part1.cpp:235-247 | Without a selection, selects the triangle under the click. Otherwise starts moving the selected triangle from its centroid to the click. |
| Editor2D.TriangleEditor.MouseButtonListener | src/part1.cpp:190-250 | The mouse listener's effect, stated for each mode, for a left press and for a release. |
| Editor2D.TriangleEditor.KeyListener | src/part1.cpp:252-378 | The key listener's effect, stated for each key command, including J falling through to key 1. |
| Editor2D.TriangleEditor.PaintSelectedVertex | src/part1.cpp:296-349 | The selected vertex takes the colour in colour mode. Otherwise nothing changes. |

## Left out

- File input and output. A file is its lines and whether the last one ends with a newline, or `None` when it cannot be opened. The stream keeps its end-of-file flag; its fail bit is not kept apart, since here it is only set with end-of-file or after it. `std::stoi` and `std::stof` are the `Parsers` parameter. In `KeyCallback` the file system is a function from a path to the file's text.
- Transcendental functions and matrix inversion. `sin`, `cos`, `tan`, `sqrt` and Eigen's `inverse()` are uninterpreted fields of `Analytic`.
- `Utils::rayTriangleIntersect`. It has no body here, so picking takes the intersection test as a parameter (`Viewer.Intersector`).
- Floating-point rounding and overflow. `float` is modelled as exact `real`.
- Everything that draws: OpenGL, GLFW windows, shaders, buffer uploads, the render loops of `main.cpp` and `part1.cpp`, and `Editor.cpp`.
- `rough.cpp`: scratch code the program does not use.
- `Camera::translateByAngle`. It is not called by the modelled code.
- The plain getters of `Mesh`, `Camera` and `World`. Fields are read directly.
- The `meshes[100]` array and `reference_wrapper` in `main.cpp`. The world holds references to `Mesh` objects. The 100-mesh limit of that array is not modelled.
- The animation in `part1.cpp` (lines 444-494), which is driven by the clock. The model keeps only the state a click sets up (`AnimateAt`).
- The cursor-following column and console output in `part1.cpp`.
- Colour columns the program leaves uninitialised after `conservativeResize`. They are the value `Unset`.
- Editor2D.TriangleEditor.TriangleCentroid: requires that a start column inside the positions has two more columns after it. The program reads past the end in that case, which has no defined result.
- Viewer.ScreenToNdc and the editor's movement methods: require a positive window width and height. The program divides by them. `Viewer.MouseButtonCallback` requires it only for a left press and `Editor2D.TriangleEditor.KeyListener` only for a press of a pan key, the two cases that divide.
- Meshes.Mesh.ScaleToUnitCube: requires a non-empty mesh with a non-zero extent. For a zero extent the program scales by an infinite factor. For an empty mesh its sentinels give an extent of -1099998 and a finite negative factor. `Viewer.AddMeshFromFile` reports `FlatMesh` instead of a zero extent, and a loaded mesh always has vertices.
- Meshes.Mesh.ScaleToUnitCube: measures the box from the first vertex, not from the program's sentinels. See Findings.
- Editor2D.TriangleEditor.SelectTriangle: uses the corrected corners, with each corner's x taken from its own column. See Findings.
- Editor2D.TriangleEditor.DeleteAt: selects through `SelectTriangle`, so it uses the corrected corners too.
- Editor2D.TriangleEditor.AnimateAt: selects through `SelectTriangle`, so it uses the corrected corners too.
- Editor2D.TriangleEditor.MouseButtonListener: its translation, deletion and animation modes select with the corrected corners.
- Editor2D.ClickInsideSelects: is stated for the corrected corners (`TriangleUnder`); with the corners as written it fails (`Editor2D.AsWrittenMissesTriangle`).
- Utils.SplitString: requires a non-empty delimiter. With an empty one the program's loop never ends (`Utils.EmptyDelimiterMakesNoProgress`).
- Cameras.ProjectionFrustum: the perspective frustum is stated corner by corner and plane by plane (`Cameras.PerspectiveCorner`, `Cameras.PerspectiveDepth`), not as one statement about the camera's own frustum.
- Thrown exceptions (`at`, `getProjection`, `fromOffFile`). They become error values of `Result` or `Outcome`. The callbacks leave the state as it was when they fail.
- Cameras.ProjectionMatrix: returns `DegenerateFrustum` where the program divides by zero (a zero frustum height or aspect ratio, or equal near and far distances, src/Camera.cpp:133-146). The program throws only for an unknown projection type (src/Camera.cpp:148); for a degenerate frustum it returns a matrix of infinities or NaN, which the model does not represent. `Viewer.MouseButtonCallback`, which builds on the matrix, reports the error on the same cases and leaves the selection as it was.
- MeshFiles.ReadOff: returns `NoFaces` for a file with zero faces, where `calculateBarycenter` divides by the face count (src/Mesh.cpp:99). The program builds that mesh with non-finite coordinates and carries on; the model refuses the file. `MeshFiles.FromOffFile` and `Viewer.AddMeshFromFile` fail on the same files.

## Findings

| source | as written | input that shows it | evidently intended | confidence | as-written member | corrected member |
|---|---|---|---|---|---|---|
| src/Mesh.cpp:159-161 | The bounding box starts from the sentinels min = 99999 and max = -999999. | Two vertices (200000, 0, 0) and (200001, 0, 0): the x minimum stays 99999, so the extent is 100002 instead of 1. The defect is latent in this program: every call (src/main.cpp:109, 118, 127) follows a recentring on the barycenter, and then the two extents agree (`Meshes.ExtentAsWrittenWhenCentered`). | The extent of the vertices themselves, with the box started from the first vertex. | not executed | Meshes.SentinelExtentCounterexample | Meshes.BoundingBoxTight |
| src/part1.cpp:77-79 | Corners b and c take their x coordinate from column i, not from i+1 and i+2. | The triangle (0,0), (2,0), (0,2) with identity view and model, clicked at (0.5, 0.5): the click is strictly inside, but no triangle is selected. | Each corner built from its own column. | not executed | Editor2D.AsWrittenMissesTriangle | Editor2D.TriangleEditor.SelectTriangle |
