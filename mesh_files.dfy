/**
 * Loading a mesh from an OFF-style text file (`Mesh::fromOffFile`). The file
 * is given as its lines and whether the last one ends with a newline (or None
 * when it cannot be opened); the number parsers `std::stoi` / `std::stof` are
 * parameters.
 *
 * Layout: line 0 is ignored; line 1 holds the vertex and face counts as its
 * first two tokens; then one line per vertex (tokens 0-2 are x, y, z) and one
 * line per face (token 0, the corner count, is skipped; tokens 1-3 are the
 * vertex numbers). Tokens are separated by single spaces.
 *
 * Every line is read by `std::getline` into the same string, and no read is
 * checked. Past the end of the text a read fails: a file that ends with a
 * newline then reads as empty lines, and one that does not repeats its last
 * line, because the failing call leaves the string as it was.
 */
module MeshFiles {
  import opened Algebra
  import opened Utils
  import opened Meshes

  /** `std::stoi` and `std::stof`; None where the library call throws. */
  datatype Parsers = Parsers(toInt: string -> Option<int>, toReal: string -> Option<real>)

  /** A text file as `std::getline` reads it. */
  datatype TextFile = TextFile(lines: seq<string>, finalNewline: bool)

  /**
   * The input stream between two `std::getline` calls: the next line of the
   * text, whether end-of-file has been hit, and the string the calls write
   * into. The fail bit is not kept apart: here it is only ever set together
   * with end-of-file or after it.
   */
  datatype Stream = Stream(next: nat, eof: bool, line: string)

  /**
   * One `std::getline(inputFile, line)`. Once end-of-file is set the call
   * fails before it clears `line`. Otherwise it clears `line` and reads the
   * next line: at the end of the text it reads nothing and sets end-of-file,
   * and a last line with no newline after it sets end-of-file as it is read.
   */
  function Getline(file: TextFile, s: Stream): Stream {
    if s.eof then s
    else if s.next >= |file.lines| then Stream(s.next, true, "")
    else Stream(s.next + 1, s.next + 1 == |file.lines| && !file.finalNewline, file.lines[s.next])
  }

  /** The stream after the calls that read lines 0 to `k`, from a fresh stream. */
  function Reads(file: TextFile, k: nat): Stream {
    var s := if k == 0 then Stream(0, false, "") else Reads(file, k - 1);
    Getline(file, s)
  }

  /**
   * What the read of line `k` leaves in the string: line `k` of the text or,
   * past its end, an empty line after a final newline and the last line again
   * without one.
   */
  function LineAt(file: TextFile, k: nat): string {
    if k < |file.lines| then file.lines[k]
    else if file.finalNewline || |file.lines| == 0 then ""
    else file.lines[|file.lines| - 1]
  }

  /** Reading line after line with `Getline` leaves line `k` as `LineAt` says. */
  lemma {:induction false} ReadsLineAt(file: TextFile, k: nat)
    ensures Reads(file, k).line == LineAt(file, k)
    ensures Reads(file, k).next == if k < |file.lines| then k + 1 else |file.lines|
    ensures Reads(file, k).eof <==>
      k + 1 > |file.lines| || (k + 1 == |file.lines| && !file.finalNewline)
  {
    if k > 0 {
      ReadsLineAt(file, k - 1);
    }
  }

  /** One more call continues from where the reads of lines 0 to `k` left off. */
  lemma ReadsStep(file: TextFile, k: nat)
    ensures Reads(file, k + 1) == Getline(file, Reads(file, k))
  {
  }

  /**
   * Why a file does not load. All but `NoFaces` are an exception or undefined
   * behaviour in the program; `NoFaces` is where the program divides by zero
   * and carries on with a non-finite barycenter, which the model refuses.
   */
  datatype LoadError =
    | CannotOpen              // the file does not open
    | MissingField            // line 1 has fewer than two tokens (`vector::at` throws)
    | ShortLine(line: nat)    // a vertex or face line with too few tokens (unchecked indexing)
    | BadNumber(line: nat)    // a token `stoi` / `stof` rejects
    | NegativeCount           // a negative vertex or face count (no matrix of that size)
    | NoFaces                 // no faces: the program's barycenter divides by zero
    | BadFaceIndex(face: nat) // a face names a vertex that does not exist

  /** What the file holds, before recentring. */
  datatype OffData = OffData(vertices: seq<Vec3>, faces: seq<Face>)

  const Space := " "

  /** The vertex and face counts from line 1: tokens 0 and 1, read in that order. */
  function CountsOf(line: string, ps: Parsers): (r: Result<(int, int), LoadError>)
    ensures var t := Split(line, Space);
      r.Ok? <==> |t| >= 2 && ps.toInt(t[0]).Some? && ps.toInt(t[1]).Some?
    ensures var t := Split(line, Space);
      r.Ok? ==> r.value == (ps.toInt(t[0]).value, ps.toInt(t[1]).value)
    // token 0 is converted before token 1 is looked up
    ensures var t := Split(line, Space);
      r == Err(MissingField) <==> |t| == 0 || (|t| == 1 && ps.toInt(t[0]).Some?)
    ensures r.Err? ==> r.error == MissingField || r.error == BadNumber(1)
  {
    var meta := Split(line, Space);
    if |meta| < 1 then Err(MissingField)
    else match ps.toInt(meta[0])
      case None => Err(BadNumber(1))
      case Some(nv) =>
        if |meta| < 2 then Err(MissingField)
        else match ps.toInt(meta[1])
          case None => Err(BadNumber(1))
          case Some(nf) => Ok((nv, nf))
  }

  /** A vertex from line `k`: tokens 0, 1 and 2 as x, y and z. */
  function VertexOf(line: string, k: nat, ps: Parsers): (r: Result<Vec3, LoadError>)
    ensures var t := Split(line, Space);
      r.Ok? <==> |t| >= 3 && forall j :: 0 <= j < 3 ==> ps.toReal(t[j]).Some?
    ensures var t := Split(line, Space);
      r.Ok? ==> r.value == Vec3(ps.toReal(t[0]).value, ps.toReal(t[1]).value, ps.toReal(t[2]).value)
    ensures r == Err(ShortLine(k)) <==> |Split(line, Space)| < 3
    ensures r.Err? ==> r.error == ShortLine(k) || r.error == BadNumber(k)
  {
    var t := Split(line, Space);
    if |t| < 3 then Err(ShortLine(k))
    else match (ps.toReal(t[0]), ps.toReal(t[1]), ps.toReal(t[2]))
      case (Some(x), Some(y), Some(z)) => Ok(Vec3(x, y, z))
      case _ => Err(BadNumber(k))
  }

  /** A face from line `k`: token 0 is skipped, tokens 1, 2 and 3 are its corners. */
  function FaceOf(line: string, k: nat, ps: Parsers): (r: Result<Face, LoadError>)
    ensures var t := Split(line, Space);
      r.Ok? <==> |t| >= 4 && forall j :: 1 <= j < 4 ==> ps.toInt(t[j]).Some?
    ensures var t := Split(line, Space);
      r.Ok? ==> r.value == Face(ps.toInt(t[1]).value, ps.toInt(t[2]).value, ps.toInt(t[3]).value)
    ensures r == Err(ShortLine(k)) <==> |Split(line, Space)| < 4
    ensures r.Err? ==> r.error == ShortLine(k) || r.error == BadNumber(k)
  {
    var t := Split(line, Space);
    if |t| < 4 then Err(ShortLine(k))
    else match (ps.toInt(t[1]), ps.toInt(t[2]), ps.toInt(t[3]))
      case (Some(a), Some(b), Some(c)) => Ok(Face(a, b, c))
      case _ => Err(BadNumber(k))
  }

  /** The vertex read as line `k` of the file, or why there is none. */
  function VertexAt(file: TextFile, k: nat, ps: Parsers): Result<Vec3, LoadError> {
    VertexOf(LineAt(file, k), k, ps)
  }

  /** The face read as line `k` of the file, or why there is none. */
  function FaceAt(file: TextFile, k: nat, ps: Parsers): Result<Face, LoadError> {
    FaceOf(LineAt(file, k), k, ps)
  }

  /** The `n` vertices read as the lines from `start` on; the first failing line decides the error. */
  function ReadVertices(file: TextFile, start: nat, n: nat, ps: Parsers): (r: Result<seq<Vec3>, LoadError>)
    ensures r.Ok? ==> |r.value| == n
  {
    if n == 0 then Ok([])
    else match ReadVertices(file, start, n - 1, ps)
      case Err(e) => Err(e)
      case Ok(vs) =>
        match VertexAt(file, start + n - 1, ps)
          case Err(e) => Err(e)
          case Ok(v) => Ok(vs + [v])
  }

  /** The `n` faces read as the lines from `start` on. */
  function ReadFaces(file: TextFile, start: nat, n: nat, ps: Parsers): (r: Result<seq<Face>, LoadError>)
    ensures r.Ok? ==> |r.value| == n
  {
    if n == 0 then Ok([])
    else match ReadFaces(file, start, n - 1, ps)
      case Err(e) => Err(e)
      case Ok(fs) =>
        match FaceAt(file, start + n - 1, ps)
          case Err(e) => Err(e)
          case Ok(f) => Ok(fs + [f])
  }

  /** Face `g` names only existing vertices. */
  predicate FaceInRange(f: Face, nv: int) {
    0 <= f.i0 < nv && 0 <= f.i1 < nv && 0 <= f.i2 < nv
  }

  /** The first of the first `n` faces naming a missing vertex, if any. */
  function FirstBadFace(faces: seq<Face>, nv: int, n: nat): (r: Option<nat>)
    requires n <= |faces|
    ensures r.None? <==> forall g :: 0 <= g < n ==> FaceInRange(faces[g], nv)
    ensures r.Some? ==> r.value < n && !FaceInRange(faces[r.value], nv)
    ensures r.Some? ==> forall g :: 0 <= g < r.value ==> FaceInRange(faces[g], nv)
  {
    if n == 0 then None
    else match FirstBadFace(faces, nv, n - 1)
      case Some(g) => Some(g)
      case None => if FaceInRange(faces[n - 1], nv) then None else Some(n - 1)
  }

  /** What `Mesh::fromOffFile` reads from a file, before recentring it. */
  function ReadOff(file: Option<TextFile>, ps: Parsers): (r: Result<OffData, LoadError>)
    ensures r.Ok? ==> ValidFaces(r.value.faces, |r.value.vertices|) && |r.value.faces| > 0
  {
    if file.None? then Err(CannotOpen)
    else
      var f := file.value;
      match CountsOf(LineAt(f, 1), ps)
        case Err(e) => Err(e)
        case Ok((nv, nf)) =>
          if nv < 0 || nf < 0 then Err(NegativeCount)
          else match ReadVertices(f, 2, nv, ps)
            case Err(e) => Err(e)
            case Ok(vs) =>
              match ReadFaces(f, 2 + nv, nf, ps)
                case Err(e) => Err(e)
                case Ok(fs) =>
                  match FirstBadFace(fs, nv, nf)
                    case Some(g) => Err(BadFaceIndex(g))
                    case None =>
                      if nf == 0 then Err(NoFaces)
                      else
                        assert ValidFaces(fs, |vs|) by {
                          forall g, k | 0 <= g < |fs| && 0 <= k < 3 ensures 0 <= Corner(fs[g], k) < |vs| {
                            assert FaceInRange(fs[g], nv);
                          }
                        }
                        Ok(OffData(vs, fs))
  }

  /** Once a read fails, reading more lines fails the same way. */
  lemma {:induction false} ReadVerticesErrorStays(file: TextFile, start: nat, i: nat, n: nat, ps: Parsers)
    requires i <= n && ReadVertices(file, start, i, ps).Err?
    ensures ReadVertices(file, start, n, ps) == ReadVertices(file, start, i, ps)
  {
    if i < n {
      ReadVerticesErrorStays(file, start, i, n - 1, ps);
    }
  }

  lemma {:induction false} ReadFacesErrorStays(file: TextFile, start: nat, i: nat, n: nat, ps: Parsers)
    requires i <= n && ReadFaces(file, start, i, ps).Err?
    ensures ReadFaces(file, start, n, ps) == ReadFaces(file, start, i, ps)
  {
    if i < n {
      ReadFacesErrorStays(file, start, i, n - 1, ps);
    }
  }

  /**
   * `ReadVertices` succeeds exactly when every line it reads holds a vertex; it
   * then holds those vertices in line order, and otherwise fails with the error
   * of the first line that does not.
   */
  lemma {:induction false} ReadVerticesLines(file: TextFile, start: nat, n: nat, ps: Parsers)
    ensures ReadVertices(file, start, n, ps).Ok? <==>
      forall k :: start <= k < start + n ==> VertexAt(file, k, ps).Ok?
    ensures var r := ReadVertices(file, start, n, ps);
      r.Ok? ==> forall i :: 0 <= i < n ==> VertexAt(file, start + i, ps) == Ok(r.value[i])
    ensures var r := ReadVertices(file, start, n, ps);
      r.Err? ==>
        exists k :: start <= k < start + n && VertexAt(file, k, ps) == Err(r.error) &&
          forall j :: start <= j < k ==> VertexAt(file, j, ps).Ok?
  {
    hide VertexAt;
    if n > 0 {
      ReadVerticesLines(file, start, n - 1, ps);
      var k := start + n - 1;
      if ReadVertices(file, start, n - 1, ps).Ok? && VertexAt(file, k, ps).Err? {
        assert VertexAt(file, k, ps) == Err(ReadVertices(file, start, n, ps).error);
      }
    }
  }

  /** The same for `ReadFaces`. */
  lemma {:induction false} ReadFacesLines(file: TextFile, start: nat, n: nat, ps: Parsers)
    ensures ReadFaces(file, start, n, ps).Ok? <==>
      forall k :: start <= k < start + n ==> FaceAt(file, k, ps).Ok?
    ensures var r := ReadFaces(file, start, n, ps);
      r.Ok? ==> forall i :: 0 <= i < n ==> FaceAt(file, start + i, ps) == Ok(r.value[i])
    ensures var r := ReadFaces(file, start, n, ps);
      r.Err? ==>
        exists k :: start <= k < start + n && FaceAt(file, k, ps) == Err(r.error) &&
          forall j :: start <= j < k ==> FaceAt(file, j, ps).Ok?
  {
    hide FaceAt;
    if n > 0 {
      ReadFacesLines(file, start, n - 1, ps);
      var k := start + n - 1;
      if ReadFaces(file, start, n - 1, ps).Ok? && FaceAt(file, k, ps).Err? {
        assert FaceAt(file, k, ps) == Err(ReadFaces(file, start, n, ps).error);
      }
    }
  }

  /** A file that loads has passed each reading step, and holds what they read. */
  lemma ReadOffSteps(file: TextFile, ps: Parsers)
    requires ReadOff(Some(file), ps).Ok?
    ensures CountsOf(LineAt(file, 1), ps).Ok?
    ensures var (nv, nf) := CountsOf(LineAt(file, 1), ps).value;
      nv >= 0 && nf >= 0 && ReadVertices(file, 2, nv, ps).Ok? && ReadFaces(file, 2 + nv, nf, ps).Ok? &&
      ReadOff(Some(file), ps).value ==
        OffData(ReadVertices(file, 2, nv, ps).value, ReadFaces(file, 2 + nv, nf, ps).value)
  {
    hide CountsOf, ReadVertices, ReadFaces, FirstBadFace, ValidFaces;
  }

  /**
   * Where a loaded file's data comes from: the counts from line 1, vertex `i`
   * from line `2 + i`, face `j` from the line after the vertices and `j` more.
   */
  lemma ReadOffLayout(file: TextFile, ps: Parsers)
    requires ReadOff(Some(file), ps).Ok?
    ensures CountsOf(LineAt(file, 1), ps).Ok?
    ensures var d := ReadOff(Some(file), ps).value;
      CountsOf(LineAt(file, 1), ps).value == (|d.vertices|, |d.faces|)
    ensures var d := ReadOff(Some(file), ps).value;
      forall i :: 0 <= i < |d.vertices| ==> VertexAt(file, 2 + i, ps) == Ok(d.vertices[i])
    ensures var d := ReadOff(Some(file), ps).value;
      forall j :: 0 <= j < |d.faces| ==> FaceAt(file, 2 + |d.vertices| + j, ps) == Ok(d.faces[j])
  {
    hide ReadOff, ReadVertices, ReadFaces, CountsOf, VertexAt, FaceAt, FirstBadFace, ValidFaces, LineAt;
    ReadOffSteps(file, ps);
    var (nv, nf) := CountsOf(LineAt(file, 1), ps).value;
    var vs, fs := ReadVertices(file, 2, nv, ps), ReadFaces(file, 2 + nv, nf, ps);
    ReadVerticesLines(file, 2, nv, ps);
    ReadFacesLines(file, 2 + nv, nf, ps);
    var d := ReadOff(Some(file), ps).value;
    assert d.vertices == vs.value && d.faces == fs.value;
    forall j | 0 <= j < |d.faces|
      ensures FaceAt(file, 2 + |d.vertices| + j, ps) == Ok(d.faces[j])
    {
      assert 2 + |d.vertices| + j == 2 + nv + j;
    }
  }

  /**
   * A file that ends with a newline and loads holds every line its counts
   * announce: a read past the end gives an empty line, which holds no face.
   */
  lemma FinalNewlineFileIsComplete(file: TextFile, ps: Parsers)
    requires file.finalNewline && ReadOff(Some(file), ps).Ok?
    ensures var d := ReadOff(Some(file), ps).value;
      2 + |d.vertices| + |d.faces| <= |file.lines|
  {
    ReadOffLayout(file, ps);
    var d := ReadOff(Some(file), ps).value;
    var j := |d.faces| - 1;
    var k := 2 + |d.vertices| + j;
    assert FaceAt(file, k, ps).Ok?;
  }

  /**
   * A file without a final newline that announces more faces than it holds
   * reads its last line again for each missing face.
   */
  lemma TruncatedFileRepeatsLastLine(file: TextFile, k: nat, ps: Parsers)
    requires !file.finalNewline && 0 < |file.lines| <= k
    ensures FaceAt(file, k, ps) == FaceOf(file.lines[|file.lines| - 1], k, ps)
    ensures VertexAt(file, k, ps) == VertexOf(file.lines[|file.lines| - 1], k, ps)
  {
  }

  /** The lines of a small file that announces two faces and holds one. */
  const ShortFileLines: seq<string> := ["OFF", "3 2", "0 0 0", "1 0 0", "0 1 0", "3 0 1 2"]

  /** The tokens of those lines. */
  lemma ShortFileTokens()
    ensures Split("3 2", Space) == ["3", "2"]
    ensures Split("0 0 0", Space) == ["0", "0", "0"]
    ensures Split("1 0 0", Space) == ["1", "0", "0"]
    ensures Split("0 1 0", Space) == ["0", "1", "0"]
    ensures Split("3 0 1 2", Space) == ["3", "0", "1", "2"]
    ensures Split("", Space) == []
  {
    hide Split, Find, FindFrom;
    SplitEmptyLine();
    SplitOneChar('3', "2", "3 2");
    SplitLastChar('2', "2");
    SplitLastChar('0', "0");
    SplitOneChar('0', "0", "0 0");
    SplitOneChar('0', "0 0", "0 0 0");
    SplitOneChar('1', "0 0", "1 0 0");
    SplitOneChar('1', "0", "1 0");
    SplitOneChar('0', "1 0", "0 1 0");
    SplitOneChar('1', "2", "1 2");
    SplitOneChar('0', "1 2", "0 1 2");
    SplitOneChar('3', "0 1 2", "3 0 1 2");
  }

  /**
   * Without a final newline the short file loads with its one face twice: the
   * read of line 6 fails and leaves line 5 in the string.
   */
  lemma ShortFileRepeatsFace(ps: Parsers)
    requires ps.toInt("3") == Some(3) && ps.toInt("2") == Some(2)
    requires ps.toInt("0") == Some(0) && ps.toInt("1") == Some(1)
    requires ps.toReal("0") == Some(0.0) && ps.toReal("1") == Some(1.0)
    ensures ReadOff(Some(TextFile(ShortFileLines, false)), ps) ==
      Ok(OffData([Vec3(0.0, 0.0, 0.0), Vec3(1.0, 0.0, 0.0), Vec3(0.0, 1.0, 0.0)], [Face(0, 1, 2), Face(0, 1, 2)]))
  {
    hide Split, Find, FindFrom;
    var f := TextFile(ShortFileLines, false);
    ShortFileTokens();
    assert CountsOf(LineAt(f, 1), ps) == Ok((3, 2));
    var v0, v1, v2 := Vec3(0.0, 0.0, 0.0), Vec3(1.0, 0.0, 0.0), Vec3(0.0, 1.0, 0.0);
    assert VertexAt(f, 2, ps) == Ok(v0);
    assert VertexAt(f, 3, ps) == Ok(v1);
    assert VertexAt(f, 4, ps) == Ok(v2);
    assert FaceAt(f, 5, ps) == Ok(Face(0, 1, 2));
    assert LineAt(f, 6) == LineAt(f, 5);
    assert FaceAt(f, 6, ps) == Ok(Face(0, 1, 2));
    hide VertexAt, FaceAt, CountsOf, LineAt;
    ReadVerticesLines(f, 2, 3, ps);
    ReadFacesLines(f, 5, 2, ps);
    assert ReadVertices(f, 2, 3, ps).value == [v0, v1, v2];
    assert ReadFaces(f, 5, 2, ps).value == [Face(0, 1, 2), Face(0, 1, 2)];
    assert FirstBadFace([Face(0, 1, 2), Face(0, 1, 2)], 3, 2) == None;
  }

  /** With a final newline the same file does not load: line 6 reads as empty. */
  lemma ShortFileWithNewlineFails(ps: Parsers)
    requires ps.toInt("3") == Some(3) && ps.toInt("2") == Some(2)
    requires ps.toInt("0") == Some(0) && ps.toInt("1") == Some(1)
    requires ps.toReal("0") == Some(0.0) && ps.toReal("1") == Some(1.0)
    ensures ReadOff(Some(TextFile(ShortFileLines, true)), ps) == Err(ShortLine(6))
  {
    hide Split, Find, FindFrom;
    var f := TextFile(ShortFileLines, true);
    ShortFileTokens();
    assert CountsOf(LineAt(f, 1), ps) == Ok((3, 2));
    var v0, v1, v2 := Vec3(0.0, 0.0, 0.0), Vec3(1.0, 0.0, 0.0), Vec3(0.0, 1.0, 0.0);
    assert VertexAt(f, 2, ps) == Ok(v0);
    assert VertexAt(f, 3, ps) == Ok(v1);
    assert VertexAt(f, 4, ps) == Ok(v2);
    assert FaceAt(f, 5, ps) == Ok(Face(0, 1, 2));
    assert LineAt(f, 6) == "";
    assert FaceAt(f, 6, ps) == Err(ShortLine(6));
    hide VertexAt, FaceAt, CountsOf, LineAt;
    ReadVerticesLines(f, 2, 3, ps);
    ReadFacesLines(f, 5, 2, ps);
    assert ReadFaces(f, 5, 2, ps) == Err(ShortLine(6));
  }

  /** An empty line has no tokens. */
  lemma SplitEmptyLine()
    ensures Split("", Space) == []
  {
  }

  /** A one-character token followed by a space splits off as a token. */
  lemma SplitOneChar(c: char, rest: string, s: string)
    requires c != ' ' && s == [c, ' '] + rest
    ensures Split(s, Space) == [[c]] + Split(rest, Space)
  {
    assert FindFrom(s, Space, 1) == Some(1) by {
      assert s[1..2] == Space;
    }
    assert Find(s, Space) == Some(1) by {
      assert s[0..1][0] != Space[0];
    }
    assert s[..1] == [c] && s[2..] == rest;
  }

  /** A last one-character token is the only token. */
  lemma SplitLastChar(c: char, s: string)
    requires c != ' ' && s == [c]
    ensures Split(s, Space) == [s]
  {
    assert FindFrom(s, Space, 0) == None by {
      assert s[0..1][0] != Space[0];
    }
  }

  /** A face line's token 0, the corner count, does not affect the face read from it. */
  lemma FaceIgnoresCornerCount(line: string, other: string, k: nat, ps: Parsers)
    requires |Split(line, Space)| == |Split(other, Space)| > 0
    requires Split(line, Space)[1..] == Split(other, Space)[1..]
    ensures FaceOf(line, k, ps) == FaceOf(other, k, ps)
  {
  }

  /** Line 1: split it and convert tokens 0 and 1. */
  method ReadCounts(line: string, ps: Parsers) returns (r: Result<(int, int), LoadError>)
    ensures r == CountsOf(line, ps)
  {
    var meta := SplitString(line, Space);
    if |meta| < 1 {
      return Err(MissingField);
    }
    var numVertices := ps.toInt(meta[0]);
    if numVertices.None? {
      return Err(BadNumber(1));
    }
    if |meta| < 2 {
      return Err(MissingField);
    }
    var numFaces := ps.toInt(meta[1]);
    if numFaces.None? {
      return Err(BadNumber(1));
    }
    return Ok((numVertices.value, numFaces.value));
  }

  /** One turn of the vertex loop: read line `k` with `std::getline` and convert it. */
  method NextVertex(file: TextFile, s: Stream, k: nat, ps: Parsers) returns (r: Result<Vec3, LoadError>, s': Stream)
    requires k > 0 && s == Reads(file, k - 1)
    ensures s' == Reads(file, k) && r == VertexAt(file, k, ps)
  {
    s' := Getline(file, s);
    ReadsLineAt(file, k);
    r := ReadVertex(s'.line, k, ps);
  }

  /**
   * The vertex loop: reads `n` lines from `start` on into a fresh array. The
   * stream `s` is the one left by the read of line `start - 1`.
   */
  method LoadVertices(file: TextFile, s: Stream, start: nat, n: nat, ps: Parsers)
    returns (r: Result<array<Vec3>, LoadError>, s': Stream)
    requires start > 0 && s == Reads(file, start - 1)
    ensures r.Err? <==> ReadVertices(file, start, n, ps).Err?
    ensures r.Err? ==> r.error == ReadVertices(file, start, n, ps).error
    ensures r.Ok? ==> fresh(r.value) && r.value[..] == ReadVertices(file, start, n, ps).value
    ensures r.Ok? ==> s' == Reads(file, start + n - 1)
  {
    hide VertexAt, Reads;
    var vertices := new Vec3[n](_ => Zero3);
    s' := s;
    var i := 0;
    while i < n
      invariant 0 <= i <= n
      invariant s' == Reads(file, start + i - 1)
      invariant ReadVertices(file, start, i, ps).Ok? && vertices[..i] == ReadVertices(file, start, i, ps).value
    {
      var k := start + i;
      var vertex;
      vertex, s' := NextVertex(file, s', k, ps);
      if vertex.Err? {
        ReadVerticesErrorStays(file, start, i + 1, n, ps);
        return Err(vertex.error), s';
      }
      vertices[i] := vertex.value;
      assert vertices[..i + 1] == vertices[..i] + [vertex.value];
      i := i + 1;
    }
    assert vertices[..] == vertices[..n];
    return Ok(vertices), s';
  }

  /** One turn of the face loop: read line `k` with `std::getline` and convert it. */
  method NextFace(file: TextFile, s: Stream, k: nat, ps: Parsers) returns (r: Result<Face, LoadError>, s': Stream)
    requires k > 0 && s == Reads(file, k - 1)
    ensures s' == Reads(file, k) && r == FaceAt(file, k, ps)
  {
    s' := Getline(file, s);
    ReadsLineAt(file, k);
    r := ReadFace(s'.line, k, ps);
  }

  /**
   * The face loop: reads `n` lines from `start` on into a fresh array, from
   * the stream left by the read of line `start - 1`.
   */
  method LoadFaces(file: TextFile, s: Stream, start: nat, n: nat, ps: Parsers)
    returns (r: Result<array<Face>, LoadError>, s': Stream)
    requires start > 0 && s == Reads(file, start - 1)
    ensures r.Err? <==> ReadFaces(file, start, n, ps).Err?
    ensures r.Err? ==> r.error == ReadFaces(file, start, n, ps).error
    ensures r.Ok? ==> fresh(r.value) && r.value[..] == ReadFaces(file, start, n, ps).value
    ensures r.Ok? ==> s' == Reads(file, start + n - 1)
  {
    hide FaceAt, Reads;
    var faces := new Face[n](_ => Face(0, 0, 0));
    s' := s;
    var i := 0;
    while i < n
      invariant 0 <= i <= n
      invariant s' == Reads(file, start + i - 1)
      invariant ReadFaces(file, start, i, ps).Ok? && faces[..i] == ReadFaces(file, start, i, ps).value
    {
      var k := start + i;
      var face;
      face, s' := NextFace(file, s', k, ps);
      if face.Err? {
        ReadFacesErrorStays(file, start, i + 1, n, ps);
        return Err(face.error), s';
      }
      faces[i] := face.value;
      assert faces[..i + 1] == faces[..i] + [face.value];
      i := i + 1;
    }
    assert faces[..] == faces[..n];
    return Ok(faces), s';
  }

  /**
   * `Mesh::fromOffFile`: read the header and the counts, the vertex lines and
   * the face lines with one stream, recentre the vertices on the barycenter
   * and build the mesh.
   */
  method FromOffFile(file: Option<TextFile>, ps: Parsers, color: Vec3, renderType: RenderType, an: Analytic)
    returns (r: Result<Mesh, LoadError>)
    ensures r.Err? <==> ReadOff(file, ps).Err?
    ensures r.Err? ==> r.error == ReadOff(file, ps).error
    ensures r.Ok? ==> var data := ReadOff(file, ps).value;
      && fresh(r.value) && r.value.Valid() && r.value.model == Identity
      && r.value.color == color && r.value.renderType == renderType && r.value.an == an
      && r.value.faces == data.faces
      && r.value.vertices == Shifted(data.vertices, Barycenter(data.faces, data.vertices))
  {
    hide ReadVertices, ReadFaces, CountsOf, Barycenter, Shifted, Getline, LineAt, VertexAt, FaceAt;
    if file.None? {
      return Err(CannotOpen);
    }
    var f := file.value;
    var s := Getline(f, Stream(0, false, ""));
    s := Getline(f, s);
    ReadsLineAt(f, 1);
    var counts := ReadCounts(s.line, ps);
    if counts.Err? {
      return Err(counts.error);
    }
    var nv, nf := counts.value.0, counts.value.1;
    if nv < 0 || nf < 0 {
      return Err(NegativeCount);
    }
    var readVertices;
    readVertices, s := LoadVertices(f, s, 2, nv, ps);
    if readVertices.Err? {
      return Err(readVertices.error);
    }
    var readFaces;
    readFaces, s := LoadFaces(f, s, 2 + nv, nf, ps);
    if readFaces.Err? {
      return Err(readFaces.error);
    }
    var vertices, faces := readVertices.value, readFaces.value;
    var bad := FirstBadFace(faces[..], nv, nf);
    if bad.Some? {
      return Err(BadFaceIndex(bad.value));
    }
    if nf == 0 {
      return Err(NoFaces);
    }
    var baryCenter := CalculateBarycenter(faces[..], vertices[..]);
    Recenter(vertices, baryCenter);
    var mesh := new Mesh(vertices[..], faces[..], color, renderType, an);
    return Ok(mesh);
  }

  /** One vertex line: split it and convert tokens 0-2. */
  method ReadVertex(line: string, k: nat, ps: Parsers) returns (r: Result<Vec3, LoadError>)
    ensures r == VertexOf(line, k, ps)
  {
    var t := SplitString(line, Space);
    if |t| < 3 {
      return Err(ShortLine(k));
    }
    var x, y, z := ps.toReal(t[0]), ps.toReal(t[1]), ps.toReal(t[2]);
    if x.None? || y.None? || z.None? {
      return Err(BadNumber(k));
    }
    return Ok(Vec3(x.value, y.value, z.value));
  }

  /** One face line: split it and convert tokens 1-3. */
  method ReadFace(line: string, k: nat, ps: Parsers) returns (r: Result<Face, LoadError>)
    ensures r == FaceOf(line, k, ps)
  {
    var t := SplitString(line, Space);
    if |t| < 4 {
      return Err(ShortLine(k));
    }
    var a, b, c := ps.toInt(t[1]), ps.toInt(t[2]), ps.toInt(t[3]);
    if a.None? || b.None? || c.None? {
      return Err(BadNumber(k));
    }
    return Ok(Face(a.value, b.value, c.value));
  }

  /** A loaded mesh has its barycenter at the origin. */
  lemma LoadedMeshCentered(file: Option<TextFile>, ps: Parsers)
    requires ReadOff(file, ps).Ok?
    ensures var data := ReadOff(file, ps).value;
      Barycenter(data.faces, Shifted(data.vertices, Barycenter(data.faces, data.vertices))) == Zero3
  {
    var data := ReadOff(file, ps).value;
    RecenteredBarycenter(data.faces, data.vertices);
  }

  /**
   * Two files of the same shape read the same from `start` on when they agree
   * on the lines from `start` on and, for the repeated last line, on that line.
   */
  predicate SameFrom(file: TextFile, file': TextFile, start: nat) {
    && |file.lines| == |file'.lines| && file.finalNewline == file'.finalNewline
    && forall k :: 0 <= k < |file.lines| && (start <= k || (k == |file.lines| - 1 && !file.finalNewline)) ==>
         file.lines[k] == file'.lines[k]
  }

  /** Such files read the same line `k` for every `k` from `start` on. */
  lemma SameLineFrom(file: TextFile, file': TextFile, start: nat, k: nat)
    requires SameFrom(file, file', start) && start <= k
    ensures LineAt(file, k) == LineAt(file', k)
  {
  }

  /** ... and so the same vertex and the same face. */
  lemma SameVertexFrom(file: TextFile, file': TextFile, start: nat, k: nat, ps: Parsers)
    requires SameFrom(file, file', start) && start <= k
    ensures VertexAt(file, k, ps) == VertexAt(file', k, ps)
  {
    SameLineFrom(file, file', start, k);
  }

  lemma SameFaceFrom(file: TextFile, file': TextFile, start: nat, k: nat, ps: Parsers)
    requires SameFrom(file, file', start) && start <= k
    ensures FaceAt(file, k, ps) == FaceAt(file', k, ps)
  {
    SameLineFrom(file, file', start, k);
  }

  /** Reading lines from `start` on does not look at the lines before `start` (except a repeated last line). */
  lemma {:induction false} ReadVerticesIgnoresEarlierLines(file: TextFile, file': TextFile, start: nat, n: nat, ps: Parsers)
    requires SameFrom(file, file', start)
    ensures ReadVertices(file, start, n, ps) == ReadVertices(file', start, n, ps)
  {
    hide VertexAt, SameFrom;
    if n > 0 {
      ReadVerticesIgnoresEarlierLines(file, file', start, n - 1, ps);
      SameVertexFrom(file, file', start, start + n - 1, ps);
    }
  }

  lemma {:induction false} ReadFacesIgnoresEarlierLines(file: TextFile, file': TextFile, start: nat, n: nat, ps: Parsers)
    requires SameFrom(file, file', start)
    ensures ReadFaces(file, start, n, ps) == ReadFaces(file', start, n, ps)
  {
    hide FaceAt, SameFrom;
    if n > 0 {
      ReadFacesIgnoresEarlierLines(file, file', start, n - 1, ps);
      SameFaceFrom(file, file', start, start + n - 1, ps);
    }
  }

  /**
   * The first line of the file (the "OFF" header) is not looked at, unless it
   * is the only line and has no newline: then it is read again as line 1.
   */
  lemma FirstLineIgnored(file: TextFile, header: string, ps: Parsers)
    requires |file.lines| > 1 || (|file.lines| == 1 && file.finalNewline)
    ensures ReadOff(Some(file), ps) == ReadOff(Some(TextFile(file.lines[0 := header], file.finalNewline)), ps)
  {
    hide ReadVertices, ReadFaces, CountsOf, FirstBadFace;
    var file' := TextFile(file.lines[0 := header], file.finalNewline);
    assert LineAt(file, 1) == LineAt(file', 1);
    match CountsOf(LineAt(file, 1), ps)
    case Err(_) =>
    case Ok((nv, nf)) =>
      if nv >= 0 && nf >= 0 {
        assert SameFrom(file, file', 2);
        ReadVerticesIgnoresEarlierLines(file, file', 2, nv, ps);
        ReadFacesIgnoresEarlierLines(file, file', 2 + nv, nf, ps);
      }
  }
}
