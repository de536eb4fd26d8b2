/** src/renderer3d.rs: the wireframe 3-D renderer. Objects are loaded from OBJ files and
    carry a transform; the renderer draws each triangle's three edges into its pixel grid
    and encodes the grid as Braille glyphs. */
module Renderer3d {
  import opened Outcomes
  import opened Grid
  import opened Colors
  import opened Braille
  import opened Frame
  import opened Bresenham
  import opened Mesh
  import opened Raster

  type Triple = (real, real, real)

  // ---- vertices and transforms ----

  /** `Vertex::translate`: each coordinate moved by its component of `t`. */
  function Translated(v: Vertex, t: Triple): (w: Vertex)
    ensures w.x - v.x == t.0 && w.y - v.y == t.1 && w.z - v.z == t.2
  {
    Vertex(v.x + t.0, v.y + t.1, v.z + t.2)
  }

  /** `Vertex::scale`: each coordinate multiplied by its component of `s`. */
  function Scaled(v: Vertex, s: Triple): Vertex {
    Vertex(v.x * s.0, v.y * s.1, v.z * s.2)
  }

  /** Translating by t and then by -t restores the vertex. */
  lemma TranslateInverse(v: Vertex, t: Triple)
    ensures Translated(Translated(v, t), (-t.0, -t.1, -t.2)) == v
  {
  }

  /** Scaling by s and then by the reciprocals of s restores the vertex. */
  lemma ScaleInverse(v: Vertex, s: Triple)
    requires s.0 != 0.0 && s.1 != 0.0 && s.2 != 0.0
    ensures Scaled(Scaled(v, s), (1.0 / s.0, 1.0 / s.1, 1.0 / s.2)) == v
  {
    assert v.x * s.0 * (1.0 / s.0) == v.x;
    assert v.y * s.1 * (1.0 / s.1) == v.y;
    assert v.z * s.2 * (1.0 / s.2) == v.z;
  }

  /** An object's position, scale and rotation (Euler angles in degrees). */
  datatype Transform = Transform(position: Triple, scale: Triple, rotation: Triple)

  /** `Transform::new`: no translation, unit scale, no rotation. */
  function NewTransform(): (t: Transform)
    ensures forall v :: Translated(Scaled(v, t.scale), t.position) == v
    ensures t.rotation == (0.0, 0.0, 0.0)
  {
    Transform((0.0, 0.0, 0.0), (1.0, 1.0, 1.0), (0.0, 0.0, 0.0))
  }

  // ---- objects ----

  class Object {
    var vertexBuffer: seq<Vertex>
    var indexBuffer: seq<Face>
    var transform: Transform

    constructor Make(vertices: seq<Vertex>, faces: seq<Face>)
      ensures vertexBuffer == vertices && indexBuffer == faces && transform == NewTransform()
    {
      vertexBuffer := vertices;
      indexBuffer := faces;
      transform := NewTransform();
    }

    /** `Object::load_from_file` on the lines of the file, each split at whitespace: one
        vertex per "v" line and one triangle per "f" line, in file order, the identity
        transform, or `Err` at the first value that does not parse. A "v" or "f" line
        with fewer than three values panics on its missing index, which the precondition
        rules out. */
    static method LoadFromFile(lines: seq<seq<string>>, coord: Parser<real>, index: Parser<int>)
      returns (r: Result<Object>)
      requires !Load(lines, coord, index).Panicked?
      ensures r.Ok? <==> Load(lines, coord, index).Loaded?
      ensures r.Ok? ==> fresh(r.value)
      ensures r.Ok? ==> r.value.vertexBuffer == Load(lines, coord, index).vertices
      ensures r.Ok? ==> r.value.indexBuffer == Load(lines, coord, index).faces
      ensures r.Ok? ==> r.value.transform == NewTransform()
    {
      var buffers := LoadLines(lines, coord, index);
      if buffers.Err? {
        return Err;
      }
      var loaded := new Object.Make(buffers.value.0, buffers.value.1);
      return Ok(loaded);
    }

    /** `translate`: the position is replaced; scale, rotation and the buffers stay. */
    method Translate(x: real, y: real, z: real)
      modifies this
      ensures transform == old(transform).(position := (x, y, z))
      ensures vertexBuffer == old(vertexBuffer) && indexBuffer == old(indexBuffer)
    {
      transform := transform.(position := (x, y, z));
    }

    /** `scale`: the scale is replaced; position, rotation and the buffers stay. */
    method Scale(x: real, y: real, z: real)
      modifies this
      ensures transform == old(transform).(scale := (x, y, z))
      ensures vertexBuffer == old(vertexBuffer) && indexBuffer == old(indexBuffer)
    {
      transform := transform.(scale := (x, y, z));
    }

    /** `rotate`: the rotation is replaced; position, scale and the buffers stay. */
    method Rotate(x: real, y: real, z: real)
      modifies this
      ensures transform == old(transform).(rotation := (x, y, z))
      ensures vertexBuffer == old(vertexBuffer) && indexBuffer == old(indexBuffer)
    {
      transform := transform.(rotation := (x, y, z));
    }
  }

  /** Setting one component twice keeps only the second value, and setting different
      components does not interfere. */
  lemma SettersReplace(t: Transform, p: Triple, q: Triple, s: Triple)
    ensures t.(position := p).(position := q) == t.(position := q)
    ensures t.(position := p).(scale := s).position == p
    ensures t.(position := p).(scale := s).scale == s
    ensures t.(position := p).(scale := s).rotation == t.rotation
  {
  }

  // ---- the screen and the renderer ----

  /** `Screen::new` for a terminal of `columns` x `rows` cells: two pixels per column and
      four per row. The `u16` products must not overflow. */
  function ScreenSize(columns: int, rows: int): (size: (int, int))
    requires U16(columns) && U16(rows) && columns * 2 <= 65535 && rows * 4 <= 65535
    ensures U16(size.0) && U16(size.1) && size.0 % 2 == 0 && size.1 % 4 == 0
    ensures size.0 / 2 == columns && size.1 / 4 == rows
  {
    (columns * 2, rows * 4)
  }

  class Renderer {
    /** `screen.size`, fixed by `new`. */
    const screenSize: (int, int)
    var pixelGrid: array2<bool>

    /** The grid has `screen.size`, which fits `u16` and tiles into whole Braille cells. */
    predicate Valid()
      reads this
    {
      && pixelGrid.Length0 == screenSize.0 && pixelGrid.Length1 == screenSize.1
      && U16(screenSize.0) && U16(screenSize.1) && screenSize.0 % 2 == 0 && screenSize.1 % 4 == 0
    }

    /** `Renderer::new`: a `screen.size.0` x `screen.size.1` grid with every pixel off. */
    constructor New(columns: int, rows: int)
      requires U16(columns) && U16(rows) && columns * 2 <= 65535 && rows * 4 <= 65535
      ensures screenSize == ScreenSize(columns, rows)
      ensures Valid() && fresh(pixelGrid) && AllOff(Cells(pixelGrid))
    {
      var size := ScreenSize(columns, rows);
      var grid := NewGrid(size.0, size.1);
      screenSize := size;
      pixelGrid := grid;
    }

    /** `screen_size`: the pixel size, an even width and a height divisible by 4. */
    function GetScreenSize(): (s: (int, int))
      reads this
      requires Valid()
      ensures s == screenSize && U16(s.0) && U16(s.1) && s.0 % 2 == 0 && s.1 % 4 == 0
    {
      screenSize
    }

    /** `draw_object`: for each triangle, the edges v0 -> v1, v1 -> v2, v2 -> v0 between
        the screen points of its corners. `placed[i]` is where vertex i lands after
        `get_transformed` and the `as i16` casts of `draw_line`; every index must lie in
        [1, vertex count], since `index - 1` underflows at 0 and indexes past the buffer
        above it. */
    method DrawObject(obj: Object, placed: seq<Point>)
      requires Valid() && SmallGrid(pixelGrid) && |placed| == |obj.vertexBuffer|
      requires IndicesInRange(obj.indexBuffer, |placed|)
      requires EdgesFit(obj.indexBuffer, placed)
      modifies pixelGrid
      ensures Cells(pixelGrid) == Paint(old(Cells(pixelGrid)), FacePoints(obj.indexBuffer, placed))
    {
      DrawFaces(pixelGrid, obj.indexBuffer, placed);
    }

    method DrawPixel(x: int, y: int)
      requires Valid() && SmallGrid(pixelGrid) && I16(x) && I16(y)
      modifies pixelGrid
      ensures Cells(pixelGrid) == Paint(old(Cells(pixelGrid)), [(x, y)])
    {
      Raster.DrawPixel(pixelGrid, x, y);
    }

    /** `draw_line(v1, v2)` between the points the two vertices' `as i16` casts give. */
    method DrawLine(p1: Point, p2: Point)
      requires Valid() && SmallGrid(pixelGrid) && LineFits(p1.0, p1.1, p2.0, p2.1)
      modifies pixelGrid
      ensures Cells(pixelGrid) == Paint(old(Cells(pixelGrid)), LinePoints(p1.0, p1.1, p2.0, p2.1))
    {
      Raster.DrawLine(pixelGrid, p1.0, p1.1, p2.0, p2.1);
    }

    /** `into_braille`: the shared Braille loop. */
    static method IntoBraille(t: seq<seq<bool>>) returns (c: char)
      requires IsTile(t)
      ensures c == Glyph(t) && IsBrailleGlyph(c) && Decode(c) == t
    {
      c := Braille.IntoBraille(t);
      DecodeGlyph(t);
    }

    /** `draw_chars`: `MoveTo(0, 0)`, then the glyphs of the row blocks from the highest y
        down, tiles left to right. */
    static method DrawChars(v: seq<seq<bool>>) returns (out: seq<Command>)
      requires IsFrameGrid(v)
      ensures out == BoolFrame(v)
    {
      out := Frame.DrawChars(v);
    }

    /** `render`: the Braille frame of the grid; the grid is not changed. */
    method Render() returns (out: seq<Command>)
      requires Valid() && IsFrameGrid(Cells(pixelGrid))
      ensures out == BoolFrame(Cells(pixelGrid))
    {
      out := DrawChars(Cells(pixelGrid));
    }

    /** `clear`: a fresh all-off grid of the screen's size. */
    method Clear()
      requires Valid()
      modifies this
      ensures Valid() && fresh(pixelGrid) && AllOff(Cells(pixelGrid))
    {
      pixelGrid := NewGrid(screenSize.0, screenSize.1);
    }
  }
}
