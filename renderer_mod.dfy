/** src/renderer/mod.rs: the renderer that owns a viewport and a pixel grid of the
    viewport's size, and draws models as wireframes. */
module ViewportRenderer {
  import opened Grid
  import opened Bresenham
  import opened Mesh
  import opened Raster
  import V = Viewport
  import M = Model

  class Renderer {
    const viewport: V.Viewport
    var pixelGrid: array2<bool>

    /** The grid has the viewport's pixel size. */
    predicate Valid()
      reads this
    {
      viewport.Valid() && pixelGrid.Length0 == viewport.size.0 && pixelGrid.Length1 == viewport.size.1
    }

    /** `Renderer::new`: a viewport over the whole terminal of `columns` x `rows` cells (the
        size query is not modelled) and an all-off grid of its size. */
    constructor New(columns: int, rows: int)
      requires U16(columns) && U16(rows) && columns * 2 <= 65535 && rows * 4 <= 65535
      ensures Valid() && fresh(viewport) && fresh(pixelGrid)
      ensures viewport.size == (columns * 2, rows * 4) && viewport.origin == (0, 0)
      ensures AllOff(Cells(pixelGrid))
    {
      var whole := new V.Viewport.New(columns, rows);
      var size := whole.Size();
      var grid := NewGrid(size.0, size.1);
      viewport := whole;
      pixelGrid := grid;
    }

    /** `with_viewport(viewport)`: the given viewport and an all-off grid of its size. */
    constructor WithViewport(viewport: V.Viewport)
      requires viewport.Valid()
      ensures this.viewport == viewport
      ensures Valid() && fresh(pixelGrid) && AllOff(Cells(pixelGrid))
    {
      var size := viewport.Size();
      var grid := NewGrid(size.0, size.1);
      this.viewport := viewport;
      pixelGrid := grid;
    }

    /** `viewport_size`: the viewport's pixel size, which is also the grid's. */
    function ViewportSize(): (s: (int, int))
      reads this
      requires Valid()
      ensures s == viewport.size && s == (pixelGrid.Length0, pixelGrid.Length1)
      ensures s.0 % 2 == 0 && s.1 % 4 == 0
    {
      viewport.Size()
    }

    /** `draw_object`: for each face of the model, its three corners
        `transform_and_get_vertex_at(index - 1)`, placed on the screen at `placed`,
        joined by the edges v0 -> v1, v1 -> v2, v2 -> v0. Every index must lie in
        [1, vertex count]. */
    method DrawObject(model: M.Model, placed: seq<Point>)
      requires Valid() && SmallGrid(pixelGrid) && |placed| == |model.vertexBuffer|
      requires IndicesInRange(model.indexBuffer, |model.vertexBuffer|)
      requires EdgesFit(model.indexBuffer, placed)
      modifies pixelGrid
      ensures Cells(pixelGrid) == Paint(old(Cells(pixelGrid)), FacePoints(model.indexBuffer, placed))
    {
      DrawFaces(pixelGrid, model.indexBuffer, placed);
    }

    method DrawPixel(x: int, y: int)
      requires Valid() && SmallGrid(pixelGrid) && I16(x) && I16(y)
      modifies pixelGrid
      ensures Cells(pixelGrid) == Paint(old(Cells(pixelGrid)), [(x, y)])
    {
      Raster.DrawPixel(pixelGrid, x, y);
    }

    /** `draw_line(v1, v2)` between the points the two vertices' `as i16` casts give. */
    method DrawLine(p1: Point, p2: Point)
      requires Valid() && SmallGrid(pixelGrid) && LineFits(p1.0, p1.1, p2.0, p2.1)
      modifies pixelGrid
      ensures Cells(pixelGrid) == Paint(old(Cells(pixelGrid)), LinePoints(p1.0, p1.1, p2.0, p2.1))
    {
      Raster.DrawLine(pixelGrid, p1.0, p1.1, p2.0, p2.1);
    }

    /** `clear`: a fresh all-off grid of the viewport's size. */
    method Clear()
      requires Valid()
      modifies this
      ensures Valid() && fresh(pixelGrid) && AllOff(Cells(pixelGrid))
    {
      var size := viewport.Size();
      pixelGrid := NewGrid(size.0, size.1);
    }
  }
}
