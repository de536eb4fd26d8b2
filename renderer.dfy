/** src/renderer.rs: the renderer that draws models through a camera onto a viewport.
    Its screen buffer has one cell per viewport pixel. */
module CameraRenderer {
  import opened Grid
  import opened Bresenham
  import opened Mesh
  import opened Raster
  import V = Viewport
  import M = Model

  class Renderer {
    /** The viewport the renderer draws onto, moved in by `new`. */
    const viewport: V.Viewport
    var screenBuffer: array2<bool>

    /** The buffer has the viewport's pixel size. */
    predicate Valid()
      reads this
    {
      viewport.Valid() && screenBuffer.Length0 == viewport.size.0 && screenBuffer.Length1 == viewport.size.1
    }

    /** `Renderer::new(viewport)`: a `viewport.size()` buffer with every pixel off. */
    constructor New(viewport: V.Viewport)
      requires viewport.Valid()
      ensures this.viewport == viewport
      ensures Valid() && fresh(screenBuffer) && AllOff(Cells(screenBuffer))
    {
      var size := viewport.Size();
      var buffer := NewGrid(size.0, size.1);
      this.viewport := viewport;
      screenBuffer := buffer;
    }

    /** `clear`: a fresh all-off buffer of the viewport's size. */
    method Clear()
      requires Valid()
      modifies this
      ensures Valid() && fresh(screenBuffer) && AllOff(Cells(screenBuffer))
    {
      var size := viewport.Size();
      screenBuffer := NewGrid(size.0, size.1);
    }

    /** `draw_object`: for each face of the model, the corners `vertex_at(index - 1)`,
        projected to the screen points `placed`, joined by the edges (v0, v1), (v1, v2),
        (v2, v0) in that order. Each `vertex_at(index - 1)` needs the index in
        [1, vertex count]: 0 underflows and a larger index is past the buffer. */
    method DrawObject(model: M.Model, placed: seq<Point>)
      requires Valid() && SmallGrid(screenBuffer) && |placed| == |model.vertexBuffer|
      requires IndicesInRange(model.indexBuffer, |model.vertexBuffer|)
      requires EdgesFit(model.indexBuffer, placed)
      modifies screenBuffer
      ensures Cells(screenBuffer) == Paint(old(Cells(screenBuffer)), FacePoints(model.indexBuffer, placed))
    {
      DrawFaces(screenBuffer, model.indexBuffer, placed);
    }

    method DrawPixel(x: int, y: int)
      requires Valid() && SmallGrid(screenBuffer) && I16(x) && I16(y)
      modifies screenBuffer
      ensures Cells(screenBuffer) == Paint(old(Cells(screenBuffer)), [(x, y)])
    {
      Raster.DrawPixel(screenBuffer, x, y);
    }

    /** `draw_line(v1, v2)` between the points the two vertices' `as i16` casts give. */
    method DrawLine(p1: Point, p2: Point)
      requires Valid() && SmallGrid(screenBuffer) && LineFits(p1.0, p1.1, p2.0, p2.1)
      modifies screenBuffer
      ensures Cells(screenBuffer) == Paint(old(Cells(screenBuffer)), LinePoints(p1.0, p1.1, p2.0, p2.1))
    {
      Raster.DrawLine(screenBuffer, p1.0, p1.1, p2.0, p2.1);
    }
  }
}
