/** The geometry bookkeeping shared by the 3-D renderers: vertices and 1-based triangular
    faces, the Wavefront OBJ line dispatch of both `load_from_file`s, the grid mesh of
    `new_plane`, and the edges `draw_object` draws for a list of faces. Vertex
    coordinates are `f32` in the source and exact reals here. */
module Mesh {
  import opened Outcomes
  import opened Grid
  import opened Bresenham

  /** A point in 3-D space. */
  datatype Vertex = Vertex(x: real, y: real, z: real)

  /** A triangle: three 1-based indices into the vertex buffer (`Face` in the model
      module, `Triangle` in renderer3d.rs). */
  datatype Face = Face(a: int, b: int, c: int)

  // ---- the OBJ line dispatch ----

  /** A number parser such as `str::parse::<f32>` or `str::parse::<usize>`: `None` is its
      `Err`, which `?` passes on. */
  type Parser<T> = string -> Option<T>

  /** What the loader has after some lines: the buffers so far, the `Err` of a failed
      parse, or the index panic of a "v" or "f" line with too few values. */
  datatype Loading = Loaded(vertices: seq<Vertex>, faces: seq<Face>) | Failed | Panicked

  /** The three values after the tag are parsed left to right; each `values[k]` is
      indexed only after the ones before it parsed, so a short line panics only if its
      values parse up to the missing one. */
  function ParseTriple<T>(values: seq<string>, parse: Parser<T>, k: nat): (r: Result<seq<T>>)
    requires 1 <= k <= 4
    ensures r.Ok? ==> |r.value| == 4 - k
    decreases 4 - k
  {
    if k == 4 then Ok([])
    else if |values| <= k then Err
    else match parse(values[k])
      case None => Err
      case Some(v) =>
        match ParseTriple(values, parse, k + 1)
        case Err => Err
        case Ok(rest) => Ok([v] + rest)
  }

  /** Parsing the triple indexes past the end of the line (an index panic), as opposed
      to stopping at a value that does not parse. */
  predicate RunsShort<T>(values: seq<string>, parse: Parser<T>, k: nat)
    requires 1 <= k <= 4
    decreases 4 - k
  {
    if k == 4 then false
    else if |values| <= k then true
    else parse(values[k]).Some? && RunsShort(values, parse, k + 1)
  }

  /** One line of the file, split at whitespace: an empty line and a line whose first
      value is neither "v" nor "f" are skipped; "v" pushes a vertex, "f" a face. */
  function LoadLine(acc: Loading, values: seq<string>, coord: Parser<real>, index: Parser<int>): Loading
    requires acc.Loaded?
  {
    if |values| == 0 then acc
    else if values[0] == "v" then
      if RunsShort(values, coord, 1) then Panicked
      else match ParseTriple(values, coord, 1)
        case Err => Failed
        case Ok(p) => Loaded(acc.vertices + [Vertex(p[0], p[1], p[2])], acc.faces)
    else if values[0] == "f" then
      if RunsShort(values, index, 1) then Panicked
      else match ParseTriple(values, index, 1)
        case Err => Failed
        case Ok(p) => Loaded(acc.vertices, acc.faces + [Face(p[0], p[1], p[2])])
    else acc
  }

  /** `load_from_file` over the lines of a file: the first failure or panic ends it. */
  function Load(lines: seq<seq<string>>, coord: Parser<real>, index: Parser<int>): Loading {
    if lines == [] then Loaded([], [])
    else
      var acc := Load(lines[..|lines| - 1], coord, index);
      if acc.Loaded? then LoadLine(acc, lines[|lines| - 1], coord, index) else acc
  }

  /** The number of lines whose first value is `tag`. */
  function Tagged(lines: seq<seq<string>>, tag: string): nat {
    if lines == [] then 0
    else
      var last := lines[|lines| - 1];
      Tagged(lines[..|lines| - 1], tag) + (if |last| > 0 && last[0] == tag then 1 else 0)
  }

  /** A line the loader skips: empty, or with a first value other than "v" and "f". */
  predicate Skipped(values: seq<string>) {
    |values| == 0 || (values[0] != "v" && values[0] != "f")
  }

  /** After a failure or a panic no later line matters. */
  lemma {:induction false} LoadStops(lines: seq<seq<string>>, coord: Parser<real>, index: Parser<int>, i: nat)
    requires i <= |lines| && !Load(lines[..i], coord, index).Loaded?
    ensures Load(lines, coord, index) == Load(lines[..i], coord, index)
    decreases |lines| - i
  {
    if i < |lines| {
      assert lines[..i + 1][..i] == lines[..i];
      LoadStops(lines, coord, index, i + 1);
    } else {
      assert lines[..i] == lines;
    }
  }

  /** A loaded file has one vertex per "v" line and one face per "f" line. */
  lemma {:induction false} LoadCounts(lines: seq<seq<string>>, coord: Parser<real>, index: Parser<int>)
    requires Load(lines, coord, index).Loaded?
    ensures |Load(lines, coord, index).vertices| == Tagged(lines, "v")
    ensures |Load(lines, coord, index).faces| == Tagged(lines, "f")
  {
    if lines != [] {
      var front := lines[..|lines| - 1];
      LoadCounts(front, coord, index);
    }
  }

  /** A loaded file keeps every vertex and face in file order: loading more lines only
      appends to the buffers. */
  lemma {:induction false} LoadExtends(lines: seq<seq<string>>, coord: Parser<real>, index: Parser<int>, i: nat)
    requires i <= |lines| && Load(lines, coord, index).Loaded?
    ensures Load(lines[..i], coord, index).Loaded?
    ensures var l, m := Load(lines[..i], coord, index), Load(lines, coord, index);
      l.vertices <= m.vertices && l.faces <= m.faces
    decreases |lines| - i
  {
    if i == |lines| {
      assert lines[..i] == lines;
    } else {
      var front := lines[..|lines| - 1];
      assert front[..i] == lines[..i];
      LoadExtends(front, coord, index, i);
    }
  }

  /** Skipped lines can be dropped anywhere without changing what the file loads to. */
  lemma {:induction false} LoadIgnoresSkipped(a: seq<seq<string>>, skip: seq<string>, b: seq<seq<string>>,
                                              coord: Parser<real>, index: Parser<int>)
    requires Skipped(skip)
    ensures Load(a + [skip] + b, coord, index) == Load(a + b, coord, index)
    decreases |b|
  {
    if b == [] {
      assert (a + [skip] + b)[..|a|] == a && a + b == a;
    } else {
      var n := |b| - 1;
      LoadIgnoresSkipped(a, skip, b[..n], coord, index);
      assert (a + [skip] + b)[..|a + [skip] + b| - 1] == a + [skip] + b[..n];
      assert (a + b)[..|a + b| - 1] == a + b[..n];
    }
  }

  /** A line that loads without a panic cannot be where the file panics: once the
      loader panics it stays panicked (`LoadStops`). */
  lemma NoPanicAt(lines: seq<seq<string>>, coord: Parser<real>, index: Parser<int>, i: nat)
    requires i < |lines| && !Load(lines, coord, index).Panicked?
    ensures !Load(lines[..i + 1], coord, index).Panicked?
  {
    if Load(lines[..i + 1], coord, index).Panicked? {
      LoadStops(lines, coord, index, i + 1);
      assert false;
    }
  }

  /** `values[1].parse()?, values[2].parse()?, values[3].parse()?`: the first value that
      does not parse returns `Err` from the loader. */
  method ParseValues<T>(values: seq<string>, parse: Parser<T>) returns (r: Result<seq<T>>)
    requires !RunsShort(values, parse, 1)
    ensures r == ParseTriple(values, parse, 1)
  {
    var v1 := parse(values[1]);
    if v1.None? { return Err; }
    var v2 := parse(values[2]);
    if v2.None? { return Err; }
    var v3 := parse(values[3]);
    if v3.None? { return Err; }
    assert ParseTriple(values, parse, 3) == Ok([v3.value] + []);
    assert [v3.value] + [] == [v3.value];
    assert ParseTriple(values, parse, 2) == Ok([v2.value] + [v3.value]);
    assert [v2.value] + [v3.value] == [v2.value, v3.value];
    assert ParseTriple(values, parse, 1) == Ok([v1.value] + [v2.value, v3.value]);
    assert [v1.value] + [v2.value, v3.value] == [v1.value, v2.value, v3.value];
    return Ok([v1.value, v2.value, v3.value]);
  }

  /** The loop of `load_from_file` over the lines of the file, pushing into the vertex and
      index buffers; the same loop in src/renderer/model.rs and src/renderer3d.rs. */
  method LoadLines(lines: seq<seq<string>>, coord: Parser<real>, index: Parser<int>)
    returns (r: Result<(seq<Vertex>, seq<Face>)>)
    requires !Load(lines, coord, index).Panicked?
    ensures r.Ok? <==> Load(lines, coord, index).Loaded?
    ensures r.Ok? ==> r.value == (Load(lines, coord, index).vertices, Load(lines, coord, index).faces)
  {
    var vertexBuffer: seq<Vertex> := [];
    var indexBuffer: seq<Face> := [];
    for i := 0 to |lines|
      invariant Load(lines[..i], coord, index) == Loaded(vertexBuffer, indexBuffer)
    {
      var values := lines[i];
      assert lines[..i + 1][..i] == lines[..i];
      NoPanicAt(lines, coord, index, i);
      if |values| == 0 {
        continue;
      }
      if values[0] == "v" {
        var p := ParseValues(values, coord);
        if p.Err? {
          LoadStops(lines, coord, index, i + 1);
          return Err;
        }
        vertexBuffer := vertexBuffer + [Vertex(p.value[0], p.value[1], p.value[2])];
      } else if values[0] == "f" {
        var p := ParseValues(values, index);
        if p.Err? {
          LoadStops(lines, coord, index, i + 1);
          return Err;
        }
        indexBuffer := indexBuffer + [Face(p.value[0], p.value[1], p.value[2])];
      }
    }
    assert lines[..|lines|] == lines;
    return Ok((vertexBuffer, indexBuffer));
  }

  // ---- the grid mesh of new_plane ----

  /** The number of vertices along one side: `0..div + 1` is empty for div < 0. */
  function Side(div: int): nat { if div >= 0 then div + 1 else 0 }

  /** The number of cells along one side: `0..div`. */
  function CellsAcross(div: int): nat { if div >= 0 then div else 0 }

  /** Vertex (x, y) of the plane: `div_length = width / div`, `offset = width / 2`, at
      (x * div_length - offset, y * div_length - offset, 0). */
  function PlaneVertex(div: int, width: real, x: int, y: int): Vertex
    requires div != 0
  {
    var divLength := width / div as real;
    Vertex(x as real * divLength - width / 2.0, y as real * divLength - width / 2.0, 0.0)
  }

  /** The vertices pushed for one value of the outer loop variable x, y running inside. */
  function PlaneColumn(div: int, width: real, x: int): (col: seq<Vertex>)
    requires div != 0
    ensures |col| == Side(div)
  {
    seq(Side(div), y requires 0 <= y < Side(div) => PlaneVertex(div, width, x, y))
  }

  /** Entry y of column x, spelled as `new_plane` computes it. */
  lemma PlaneColumnAt(div: int, width: real, x: int, y: int)
    requires div != 0 && 0 <= y < Side(div)
    ensures PlaneColumn(div, width, x)[y]
         == Vertex(x as real * (width / div as real) - width / 2.0, y as real * (width / div as real) - width / 2.0, 0.0)
  {
  }

  function PlaneColumns(div: int, width: real): (cols: seq<seq<Vertex>>)
    requires div != 0
    ensures |cols| == Side(div)
    ensures forall x :: 0 <= x < |cols| ==> |cols[x]| == Side(div)
  {
    seq(Side(div), x requires 0 <= x < Side(div) => PlaneColumn(div, width, x))
  }

  /** Every vertex `new_plane` pushes, in order: x in the outer loop, y in the inner. */
  function PlaneVertices(div: int, width: real): seq<Vertex>
    requires div != 0
  {
    Concat(PlaneColumns(div, width))
  }

  /** The two faces of grid cell (x, y): with `c = (x + 1) + y * (div + 1)`, the faces
      (c, c + div + 1, c + 1) and (c + 1, c + div + 1, c + 1 + div + 1). */
  function CellFaces(div: int, x: int, y: int): (fs: seq<Face>)
    ensures |fs| == 2
  {
    var c := (x + 1) + y * (div + 1);
    [Face(c, c + (div + 1), c + 1), Face(c + 1, c + (div + 1), c + 1 + (div + 1))]
  }

  function RowCells(div: int, y: int): (cells: seq<seq<Face>>)
    ensures |cells| == CellsAcross(div)
    ensures forall x :: 0 <= x < |cells| ==> |cells[x]| == 2
  {
    seq(CellsAcross(div), x requires 0 <= x < CellsAcross(div) => CellFaces(div, x, y))
  }

  /** The faces pushed for one value of the outer loop variable y, x running inside. */
  function FaceRow(div: int, y: int): (row: seq<Face>)
    ensures |row| == 2 * CellsAcross(div)
  {
    ConcatLength(RowCells(div, y), 2);
    Concat(RowCells(div, y))
  }

  function FaceRows(div: int): (rows: seq<seq<Face>>)
    ensures |rows| == CellsAcross(div)
    ensures forall y :: 0 <= y < |rows| ==> |rows[y]| == 2 * CellsAcross(div)
  {
    seq(CellsAcross(div), y requires 0 <= y < CellsAcross(div) => FaceRow(div, y))
  }

  /** Every face `new_plane` pushes, in order: y in the outer loop, x in the inner. */
  function PlaneFaces(div: int): seq<Face> {
    Concat(FaceRows(div))
  }

  /** The i16 computation of `curr_index` cannot overflow. */
  predicate PlaneFits(div: int) {
    I16(div) && div != 0 && (div > 0 ==> div * div + div - 1 <= 32767)
  }

  /** Every index of every face lies in [1, n], so `vertex_at(index - 1)` is in bounds. */
  predicate IndicesInRange(faces: seq<Face>, n: int) {
    forall k :: 0 <= k < |faces| ==>
      1 <= faces[k].a <= n && 1 <= faces[k].b <= n && 1 <= faces[k].c <= n
  }

  /** (div + 1)^2 vertices, or none for a negative div. */
  lemma PlaneVertexCount(div: int, width: real)
    requires div != 0
    ensures |PlaneVertices(div, width)| == Side(div) * Side(div)
  {
    ConcatLength(PlaneColumns(div, width), Side(div));
  }

  /** Vertex (x, y) sits at position x * (div + 1) + y of the buffer. */
  lemma PlaneVertexAt(div: int, width: real, x: nat, y: nat)
    requires div > 0 && x <= div && y <= div
    ensures x * (div + 1) + y < |PlaneVertices(div, width)|
    ensures PlaneVertices(div, width)[x * (div + 1) + y] == PlaneVertex(div, width, x, y)
  {
    ConcatAt(PlaneColumns(div, width), div + 1, x, y);
  }

  /** 2 * div^2 faces, or none for a negative div. */
  lemma PlaneFaceCount(div: int)
    ensures |PlaneFaces(div)| == 2 * CellsAcross(div) * CellsAcross(div)
  {
    var n := CellsAcross(div);
    ConcatLength(FaceRows(div), 2 * n);
    assert n * (2 * n) == 2 * n * n;
  }

  /** Within row y, the faces of cell x sit at positions 2 * x and 2 * x + 1. */
  lemma FaceRowAt(div: int, x: nat, y: nat)
    requires 0 < div && x < div
    ensures FaceRow(div, y)[2 * x] == CellFaces(div, x, y)[0]
    ensures FaceRow(div, y)[2 * x + 1] == CellFaces(div, x, y)[1]
  {
    ConcatAt(RowCells(div, y), 2, x, 0);
    ConcatAt(RowCells(div, y), 2, x, 1);
  }

  /** The faces of cell (x, y) sit at positions 2 * (y * div + x) and the one after. */
  lemma PlaneFaceAt(div: int, x: nat, y: nat)
    requires 0 < div && x < div && y < div
    ensures 2 * (y * div + x) + 1 < |PlaneFaces(div)|
    ensures PlaneFaces(div)[2 * (y * div + x)] == CellFaces(div, x, y)[0]
    ensures PlaneFaces(div)[2 * (y * div + x) + 1] == CellFaces(div, x, y)[1]
  {
    var rows := FaceRows(div);
    FaceRowAt(div, x, y);
    ConcatAt(rows, 2 * div, y, 2 * x);
    ConcatAt(rows, 2 * div, y, 2 * x + 1);
    MulDouble(y, div);
  }

  /** `curr_index = (x + 1) + y * (div + 1)` is computed in i16 and does not overflow. */
  lemma CurrIndexFits(div: int, x: int, y: int)
    requires PlaneFits(div) && 0 <= x < div && 0 <= y < div
    ensures I16(div + 1) && I16(x + 1) && I16(y * (div + 1))
    ensures I16((x + 1) + y * (div + 1))
  {
    MulMonotone(div + 1, 0, y);
    MulMonotone(div + 1, y, div - 1);
    assert (div + 1) * (div - 1) == div * div - 1;
  }

  /** The faces of one cell use indices between 1 and (div + 1)^2. */
  lemma CellFacesInRange(div: int, x: int, y: int)
    requires 0 <= x < div && 0 <= y < div
    ensures IndicesInRange(CellFaces(div, x, y), (div + 1) * (div + 1))
  {
    var c := (x + 1) + y * (div + 1);
    MulMonotone(div + 1, 0, y);
    MulMonotone(div + 1, y, div - 1);
    assert (div + 1) * (div - 1) + 2 * (div + 1) == (div + 1) * (div + 1);
    assert 1 <= c && c + 1 + (div + 1) <= (div + 1) * (div + 1);
  }

  /** Every face `new_plane` builds indexes an existing vertex (1-based). */
  lemma PlaneIndicesInRange(div: int, width: real)
    requires div != 0
    ensures IndicesInRange(PlaneFaces(div), |PlaneVertices(div, width)|)
  {
    PlaneVertexCount(div, width);
    var n := Side(div) * Side(div);
    var faces := PlaneFaces(div);
    forall k | 0 <= k < |faces|
      ensures 1 <= faces[k].a <= n && 1 <= faces[k].b <= n && 1 <= faces[k].c <= n
    {
      var y, j := ConcatIndex(FaceRows(div), 2 * CellsAcross(div), k);
      var x, m := ConcatIndex(RowCells(div, y), 2, j);
      CellFacesInRange(div, x, y);
    }
  }

  // ---- the edges of draw_object ----

  /** `draw_object` on one face with screen points p0, p1, p2: the lines v0 -> v1,
      v1 -> v2, v2 -> v0, in that order. */
  function EdgePoints(p0: Point, p1: Point, p2: Point): seq<Point> {
    LinePoints(p0.0, p0.1, p1.0, p1.1) + LinePoints(p1.0, p1.1, p2.0, p2.1) + LinePoints(p2.0, p2.1, p0.0, p0.1)
  }

  /** The points `draw_object` plots for each face, where `placed[i]` is the screen
      point of vertex i (0-based). */
  function FaceEdges(faces: seq<Face>, placed: seq<Point>): (edges: seq<seq<Point>>)
    requires IndicesInRange(faces, |placed|)
    ensures |edges| == |faces|
  {
    seq(|faces|, k requires 0 <= k < |faces| => FaceEdge(faces[k], placed))
  }

  /** The outline of one face, drawn corner a to b, b to c and c back to a. */
  function FaceEdge(f: Face, placed: seq<Point>): seq<Point>
    requires 1 <= f.a <= |placed| && 1 <= f.b <= |placed| && 1 <= f.c <= |placed|
  {
    EdgePoints(placed[f.a - 1], placed[f.b - 1], placed[f.c - 1])
  }

  /** Every point `draw_object` plots for `faces`: face by face, in buffer order. */
  function FacePoints(faces: seq<Face>, placed: seq<Point>): seq<Point>
    requires IndicesInRange(faces, |placed|)
  {
    Concat(FaceEdges(faces, placed))
  }

  /** Every edge `draw_object` draws fits the i16 arithmetic of `draw_line`. */
  predicate EdgesFit(faces: seq<Face>, placed: seq<Point>)
    requires IndicesInRange(faces, |placed|)
  {
    forall k :: 0 <= k < |faces| ==>
      var p0, p1, p2 := placed[faces[k].a - 1], placed[faces[k].b - 1], placed[faces[k].c - 1];
      && LineFits(p0.0, p0.1, p1.0, p1.1)
      && LineFits(p1.0, p1.1, p2.0, p2.1)
      && LineFits(p2.0, p2.1, p0.0, p0.1)
  }

  /** `draw_object` plots every corner of every face: each edge starts at a corner. */
  lemma CornersPlotted(faces: seq<Face>, placed: seq<Point>, k: nat)
    requires IndicesInRange(faces, |placed|) && k < |faces|
    ensures placed[faces[k].a - 1] in FacePoints(faces, placed)
    ensures placed[faces[k].b - 1] in FacePoints(faces, placed)
    ensures placed[faces[k].c - 1] in FacePoints(faces, placed)
  {
    var p0, p1, p2 := placed[faces[k].a - 1], placed[faces[k].b - 1], placed[faces[k].c - 1];
    EdgeCorners(p0, p1, p2);
    FaceDrawn(faces, placed, k);
    assert FaceEdge(faces[k], placed) == EdgePoints(p0, p1, p2);
  }

  /** Face k's edges are the k-th block of the plotted points. */
  lemma FaceDrawn(faces: seq<Face>, placed: seq<Point>, k: nat)
    requires IndicesInRange(faces, |placed|) && k < |faces|
    ensures FaceEdges(faces, placed)[k] == FaceEdge(faces[k], placed)
    ensures forall p :: p in FaceEdges(faces, placed)[k] ==> p in FacePoints(faces, placed)
  {
    InConcatAll(FaceEdges(faces, placed), k);
  }

  /** Each of a face's three edges starts at one of its corners. */
  lemma EdgeCorners(p0: Point, p1: Point, p2: Point)
    ensures p0 in EdgePoints(p0, p1, p2) && p1 in EdgePoints(p0, p1, p2) && p2 in EdgePoints(p0, p1, p2)
  {
    var e0, e1, e2 := LinePoints(p0.0, p0.1, p1.0, p1.1), LinePoints(p1.0, p1.1, p2.0, p2.1), LinePoints(p2.0, p2.1, p0.0, p0.1);
    assert EdgePoints(p0, p1, p2) == e0 + e1 + e2;
    assert e0[0] == p0 && e1[0] == p1 && e2[0] == p2;
    assert (e0 + e1 + e2)[|e0|] == p1;
    assert (e0 + e1 + e2)[|e0| + |e1|] == p2;
  }
}
