/** src/renderer/model.rs: a model is a vertex buffer, an index buffer of 1-based faces,
    a translation and a rotation. It is loaded from an OBJ file or generated as a flat
    grid by `new_plane`. */
module Model {
  import opened Outcomes
  import opened Grid
  import opened Mesh

  /** A translation (x, y, z). */
  type Translation = (real, real, real)

  /** The rotation as the Euler angles, in degrees, that `rotate` was given; the source
      converts them to radians and to a unit quaternion. (0, 0, 0) is the identity. */
  type EulerDegrees = (real, real, real)

  const ORIGIN: Translation := (0.0, 0.0, 0.0)
  const IDENTITY: EulerDegrees := (0.0, 0.0, 0.0)

  class Model {
    var vertexBuffer: seq<Vertex>
    var indexBuffer: seq<Face>
    var position: Translation
    var rotation: EulerDegrees

    /** Both constructors end with `Model { vertex_buffer, index_buffer, position:
        Translation3::new(0.0, 0.0, 0.0), rotation: from_euler_angles(0.0, 0.0, 0.0) }`. */
    constructor Make(vertices: seq<Vertex>, faces: seq<Face>)
      ensures vertexBuffer == vertices && indexBuffer == faces
      ensures position == ORIGIN && rotation == IDENTITY
    {
      vertexBuffer := vertices;
      indexBuffer := faces;
      position := ORIGIN;
      rotation := IDENTITY;
    }

    /** `load_from_file` on the lines of the file, each split at whitespace: one vertex
        per "v" line and one face per "f" line, in file order, or `Err` at the first value
        that does not parse. A "v" or "f" line with fewer than three values panics on its
        missing index, which the precondition rules out. */
    static method LoadFromFile(lines: seq<seq<string>>, coord: Parser<real>, index: Parser<int>)
      returns (r: Result<Model>)
      requires !Load(lines, coord, index).Panicked?
      ensures r.Ok? <==> Load(lines, coord, index).Loaded?
      ensures r.Ok? ==> fresh(r.value)
      ensures r.Ok? ==> r.value.vertexBuffer == Load(lines, coord, index).vertices
      ensures r.Ok? ==> r.value.indexBuffer == Load(lines, coord, index).faces
      ensures r.Ok? ==> r.value.position == ORIGIN && r.value.rotation == IDENTITY
    {
      var buffers := LoadLines(lines, coord, index);
      if buffers.Err? {
        return Err;
      }
      var m := new Model.Make(buffers.value.0, buffers.value.1);
      return Ok(m);
    }

    /** `new_plane(div, width)`: the (div + 1)^2 grid vertices and the 2 * div^2 faces of
        the grid cells, at the origin and unrotated. */
    static method NewPlane(div: int, width: real) returns (m: Model)
      requires PlaneFits(div)
      ensures fresh(m)
      ensures m.vertexBuffer == PlaneVertices(div, width) && m.indexBuffer == PlaneFaces(div)
      ensures m.position == ORIGIN && m.rotation == IDENTITY
    {
      var vertices := PlaneVertexLoop(div, width);
      var faces := PlaneFaceLoop(div);
      m := new Model.Make(vertices, faces);
    }

    /** The first loop nest of `new_plane`: x outer, y inner. */
    static method PlaneVertexLoop(div: int, width: real) returns (vertices: seq<Vertex>)
      requires div != 0
      ensures vertices == PlaneVertices(div, width)
    {
      var columns := PlaneColumns(div, width);
      vertices := [];
      var x := 0;
      while x < div + 1
        invariant 0 <= x <= Side(div) && vertices == Concat(columns[..x])
      {
        var column := PlaneColumnLoop(div, width, x);
        ConcatSnoc(columns, x);
        vertices := vertices + column;
        x := x + 1;
      }
      assert columns[..x] == columns;
    }

    /** The inner loop of the first nest: the vertices (x, 0), ..., (x, div). */
    static method PlaneColumnLoop(div: int, width: real, x: int) returns (column: seq<Vertex>)
      requires div != 0
      ensures column == PlaneColumn(div, width, x)
    {
      ghost var goal := PlaneColumn(div, width, x);
      var divLength := width / div as real;
      column := [];
      var y := 0;
      while y < div + 1
        invariant 0 <= y <= Side(div) && column == goal[..y]
      {
        var offset := width / 2.0;
        var vertex := Vertex(x as real * divLength - offset, y as real * divLength - offset, 0.0);
        PlaneColumnAt(div, width, x, y);
        assert goal[y] == vertex;
        assert goal[..y + 1] == goal[..y] + [vertex];
        column := column + [vertex];
        y := y + 1;
      }
      assert goal[..y] == goal;
    }

    /** The second loop nest of `new_plane`: y outer, x inner. */
    static method PlaneFaceLoop(div: int) returns (faces: seq<Face>)
      requires PlaneFits(div)
      ensures faces == PlaneFaces(div)
    {
      var rows := FaceRows(div);
      faces := [];
      var y := 0;
      while y < div
        invariant 0 <= y <= CellsAcross(div) && faces == Concat(rows[..y])
      {
        var row := FaceRowLoop(div, y);
        ConcatSnoc(rows, y);
        faces := faces + row;
        y := y + 1;
      }
      assert rows[..y] == rows;
    }

    /** The inner loop of the second nest: the two faces of each cell (x, y) of row y. */
    static method FaceRowLoop(div: int, y: int) returns (row: seq<Face>)
      requires PlaneFits(div) && 0 <= y < div
      ensures row == FaceRow(div, y)
    {
      var cells := RowCells(div, y);
      row := [];
      var x := 0;
      while x < div
        invariant 0 <= x <= div && row == Concat(cells[..x])
      {
        CurrIndexFits(div, x, y);
        var curr := (x + 1) + y * (div + 1);
        ConcatSnoc(cells, x);
        row := row + [Face(curr, curr + (div + 1), curr + 1)];
        row := row + [Face(curr + 1, curr + (div + 1), curr + 1 + (div + 1))];
        x := x + 1;
      }
      assert cells[..x] == cells;
    }

    /** `vertex_at(index)`: a copy of vertex `index`; an index past the buffer panics. */
    function VertexAt(i: int): (v: Vertex)
      reads this
      requires 0 <= i < |vertexBuffer|
      ensures v == vertexBuffer[i]
    {
      vertexBuffer[i]
    }

    /** `translate` replaces the position and keeps everything else. */
    method Translate(x: real, y: real, z: real)
      modifies this
      ensures position == (x, y, z)
      ensures rotation == old(rotation)
      ensures vertexBuffer == old(vertexBuffer) && indexBuffer == old(indexBuffer)
    {
      position := (x, y, z);
    }

    /** `rotate` replaces the rotation and keeps everything else. */
    method Rotate(x: real, y: real, z: real)
      modifies this
      ensures rotation == (x, y, z)
      ensures position == old(position)
      ensures vertexBuffer == old(vertexBuffer) && indexBuffer == old(indexBuffer)
    {
      rotation := (x, y, z);
    }
  }

  /** Every face of a generated plane indexes one of its vertices, so each `vertex_at(index
      - 1)` of `draw_object` on it is in bounds. */
  lemma PlaneDrawable(m: Model, div: int, width: real)
    requires div != 0
    requires m.vertexBuffer == PlaneVertices(div, width) && m.indexBuffer == PlaneFaces(div)
    ensures IndicesInRange(m.indexBuffer, |m.vertexBuffer|)
    ensures forall k :: 0 <= k < |m.indexBuffer| ==> m.VertexAt(m.indexBuffer[k].a - 1) in m.vertexBuffer
  {
    PlaneIndicesInRange(div, width);
  }
}
