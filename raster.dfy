/** The pixel-grid primitives that renderer2d.rs, renderer3d.rs, renderer.rs and
    renderer/mod.rs each carry a verbatim copy of: `draw_pixel`, `draw_line`,
    `draw_circle`, `draw_filled_circle` and the all-false grid of `new` and `clear`.
    Each renderer's own methods run these on its grid. */
module Raster {
  import opened Outcomes
  import opened Grid
  import opened Bresenham
  import opened CircleDda
  import opened Mesh

  /** The grid sizes are `u16` values cast `as i16` before the bounds test; a grid no wider
      or taller than 32767 keeps that cast exact. */
  predicate SmallGrid(g: array2<bool>) {
    g.Length0 <= 32767 && g.Length1 <= 32767
  }

  /** Every cell of the grid is off. */
  predicate AllOff(v: seq<seq<bool>>) {
    forall i, j :: 0 <= i < |v| && 0 <= j < |v[i]| ==> !v[i][j]
  }

  /** `vec![vec![false; height]; width]`: a fresh width x height grid with every cell off. */
  method NewGrid(width: nat, height: nat) returns (g: array2<bool>)
    ensures fresh(g) && g.Length0 == width && g.Length1 == height
    ensures AllOff(Cells(g))
  {
    g := new bool[width, height]((_, _) => false);
  }

  /** `draw_pixel(x, y)`: the one write of `Light`, switching on cell (x, y) when it lies
      inside the grid (`PaintMeaning` spells out what that means cell by cell). */
  method DrawPixel(g: array2<bool>, x: int, y: int)
    requires SmallGrid(g) && I16(x) && I16(y)
    modifies g
    ensures Cells(g) == Paint(old(Cells(g)), [(x, y)])
  {
    var xSize := g.Length0;
    var ySize := g.Length1;
    if x >= 0 && x < xSize && y >= 0 && y < ySize {
      g[x, y] := true;
    }
    assert Cells(g) == Light(old(Cells(g)), (x, y)) by {
      var w := Light(old(Cells(g)), (x, y));
      forall i | 0 <= i < g.Length0 ensures Cells(g)[i] == w[i] {
      }
    }
  }

  /** `draw_line(x1, y1, x2, y2)`: writes exactly the points of the Bresenham trace from
      (x1, y1) to (x2, y2), in order. None of the i16 intermediates overflows. */
  method DrawLine(g: array2<bool>, x1: int, y1: int, x2: int, y2: int)
    requires SmallGrid(g) && LineFits(x1, y1, x2, y2)
    modifies g
    ensures Cells(g) == Paint(old(Cells(g)), LinePoints(x1, y1, x2, y2))
  {
    var dx: int := Abs(x2 - x1);
    var dy: int := 0 - Abs(y2 - y1);
    var sx := if x1 < x2 then 1 else -1;
    var sy := if y1 < y2 then 1 else -1;
    var err := dy + dx;
    var x, y := x1, y1;
    ghost var l := Setup(x1, y1, x2, y2);
    ghost var before := Cells(g);
    ghost var drawn: seq<Point> := [];
    ghost var target := LinePoints(x1, y1, x2, y2);
    LoopStarts(x1, y1, x2, y2);
    while true
      invariant l == Line(x2, y2, dx, dy, sx, sy)
      invariant LoopInv(l, x1, y1, State(x, y, err), drawn, target)
      invariant Cells(g) == Paint(before, drawn)
      decreases Distance(l, State(x, y, err))
    {
      ghost var s := State(x, y, err);
      DrawPixel(g, x, y);
      PaintAppend(before, drawn, [(x, y)]);
      var stop, nx, ny, nerr := LineStep(Line(x2, y2, dx, dy, sx, sy), x, y, err);
      if stop {
        LoopFinishes(l, x1, y1, s, drawn, target);
        break;
      }
      LoopContinues(l, x1, y1, s, State(nx, ny, nerr), drawn, target);
      x, y, err := nx, ny, nerr;
      drawn := drawn + [(s.x, s.y)];
    }
  }

  /** The rest of one `draw_line` iteration, after the pixel: `stop` where one of the
      three breaks fires, otherwise the next `x1`, `y1` and `err`. `2 * err` and the new
      `err` stay inside i16. */
  method LineStep(l: Line, x: int, y: int, err: int) returns (stop: bool, nx: int, ny: int, nerr: int)
    requires I16(x) && I16(y) && l.dx <= 8191 && -8191 <= l.dy && ErrBound(l, State(x, y, err))
    ensures stop <==> || (x == l.x2 && y == l.y2)
                      || (2 * err >= l.dy && x == l.x2)
                      || (2 * err <= l.dx && y == l.y2)
    ensures !stop ==> if 2 * err >= l.dy then nx == x + l.sx else nx == x
    ensures !stop ==> if 2 * err <= l.dx then ny == y + l.sy else ny == y
    ensures !stop ==> nerr == err + (if 2 * err >= l.dy then l.dy else 0) + (if 2 * err <= l.dx then l.dx else 0)
    ensures !stop ==> I16(nerr)
  {
    nx, ny, nerr := x, y, err;
    if x == l.x2 && y == l.y2 {
      return true, nx, ny, nerr;
    }
    var err2 := 2 * err;
    assert I16(err2);
    if err2 >= l.dy {
      if x == l.x2 {
        return true, nx, ny, nerr;
      }
      nerr := nerr + l.dy;
      nx := x + l.sx;
    }
    if err2 <= l.dx {
      if y == l.y2 {
        return true, nx, ny, nerr;
      }
      nerr := nerr + l.dx;
      ny := y + l.sy;
    }
    assert I16(nerr);
    stop := false;
  }

  /** The end of one iteration of both circle loops: `d += dy; dy -= 4; y += 1` and, when
      `d < 0`, `d += dx; dx -= 4; x -= 1`. */
  method DdaStep(x: int, y: int, dy: int, dx: int, d: int) returns (x': int, y': int, dy': int, dx': int, d': int)
    ensures Dda(x', y', dy', dx', d') == Advance(Dda(x, y, dy, dx, d))
  {
    x', y', dy', dx', d' := x, y, dy, dx, d;
    d' := d' + dy';
    dy' := dy' - 4;
    y' := y' + 1;
    if d' < 0 {
      d' := d' + dx';
      dx' := dx' - 4;
      x' := x' - 1;
    }
  }

  /** The eight `draw_pixel` calls of one `draw_circle` iteration: they write exactly the
      eight reflections of the offset (x, y). The source writes the eight calls out one
      after another; here they run over the reflections, in the same order. */
  method PlotReflections(g: array2<bool>, cx: int, cy: int, x: int, y: int)
    requires SmallGrid(g) && I16(cx) && I16(cy) && 0 <= y <= x
    requires I16(cx - x) && I16(cx + x) && I16(cy - x) && I16(cy + x)
    modifies g
    ensures Cells(g) == Paint(old(Cells(g)), Reflections(cx, cy, x, y))
  {
    ghost var before := Cells(g);
    for k := 0 to 8
      invariant Cells(g) == Paint(before, ReflectionsUpTo(cx, cy, x, y, k))
    {
      var p := Reflection(cx, cy, x, y, k);
      ReflectionFits(cx, cy, x, y, k);
      DrawPixel(g, p.0, p.1);
      PaintAppend(before, ReflectionsUpTo(cx, cy, x, y, k), [p]);
    }
  }

  /** One iteration of `draw_circle`: after its eight plots, the iterations still to come
      paint what the iterations from this one on would have painted. */
  method PlotIteration(g: array2<bool>, cx: int, cy: int, x: int, y: int,
                       ghost s: Dda, ghost goal: seq<seq<bool>>)
    requires SmallGrid(g) && I16(cx) && I16(cy) && 0 <= y <= x && s.x == x && s.y == y
    requires I16(cx - x) && I16(cx + x) && I16(cy - x) && I16(cy + x)
    requires Paint(Cells(g), Ring(cx, cy, Octant(s))) == goal
    modifies g
    ensures Paint(Cells(g), Ring(cx, cy, Octant(Advance(s)))) == goal
  {
    ghost var c := Cells(g);
    PlotReflections(g, cx, cy, x, y);
    RingRest(c, cx, cy, s);
  }

  /** `draw_circle(cx, cy, r)`: writes exactly the eight reflections of every offset the
      DDA loop visits, iteration by iteration. */
  method DrawCircle(g: array2<bool>, cx: int, cy: int, r: int)
    requires SmallGrid(g) && CircleFits(cx, cy, r)
    modifies g
    ensures Cells(g) == Paint(old(Cells(g)), CirclePoints(cx, cy, r))
  {
    var r2 := r + r;
    var x := r;
    var y := 0;
    var dy := -2;
    var dx := r2 + r2 - 4;
    var d := r2 - 1;
    ghost var goal := Paint(Cells(g), CirclePoints(cx, cy, r));
    BeginInv(r);
    assert Dda(x, y, dy, dx, d) == Begin(r);
    while y <= x
      invariant Inv(r, Dda(x, y, dy, dx, d))
      invariant Paint(Cells(g), Ring(cx, cy, Octant(Dda(x, y, dy, dx, d)))) == goal
      decreases x - y + 1
    {
      ghost var s := Dda(x, y, dy, dx, d);
      PlotIteration(g, cx, cy, x, y, s, goal);
      AdvanceInv(r, s);
      x, y, dy, dx, d := DdaStep(x, y, dy, dx, d);
    }
    assert Octant(Dda(x, y, dy, dx, d)) == [];
  }

  /** The eight `draw_line` calls of one `draw_filled_circle` iteration: a spoke from each
      reflection of (x, y) to the centre. The source writes the eight calls out one after
      another; here they run over the reflections, in the same order. */
  method DrawSpokes(g: array2<bool>, cx: int, cy: int, x: int, y: int)
    requires SmallGrid(g) && I16(cx) && I16(cy) && 0 <= y <= x <= 8191
    requires I16(cx - x) && I16(cx + x) && I16(cy - x) && I16(cy + x)
    modifies g
    ensures Cells(g) == Paint(old(Cells(g)), Spokes(cx, cy, x, y))
  {
    ghost var before := Cells(g);
    for k := 0 to 8
      invariant Cells(g) == Paint(before, SpokesUpTo(cx, cy, x, y, k))
    {
      var e := Reflection(cx, cy, x, y, k);
      ReflectionFits(cx, cy, x, y, k);
      DrawLine(g, e.0, e.1, cx, cy);
      PaintAppend(before, SpokesUpTo(cx, cy, x, y, k), LinePoints(e.0, e.1, cx, cy));
    }
  }

  /** One iteration of `draw_filled_circle`: after its eight spokes, the iterations still
      to come paint what the iterations from this one on would have painted. */
  method FillIteration(g: array2<bool>, cx: int, cy: int, x: int, y: int,
                       ghost s: Dda, ghost goal: seq<seq<bool>>)
    requires SmallGrid(g) && I16(cx) && I16(cy) && 0 <= y <= x <= 8191 && s.x == x && s.y == y
    requires I16(cx - x) && I16(cx + x) && I16(cy - x) && I16(cy + x)
    requires Paint(Cells(g), Fan(cx, cy, Octant(s))) == goal
    modifies g
    ensures Paint(Cells(g), Fan(cx, cy, Octant(Advance(s)))) == goal
  {
    ghost var c := Cells(g);
    DrawSpokes(g, cx, cy, x, y);
    FanRest(c, cx, cy, s);
  }

  /** `draw_filled_circle(cx, cy, r)`: the same DDA iteration, drawing a Bresenham line
      from each of the eight reflections to the centre. */
  method DrawFilledCircle(g: array2<bool>, cx: int, cy: int, r: int)
    requires SmallGrid(g) && CircleFits(cx, cy, r)
    modifies g
    ensures Cells(g) == Paint(old(Cells(g)), FilledPoints(cx, cy, r))
  {
    var r2 := r + r;
    var x := r;
    var y := 0;
    var dy := -2;
    var dx := r2 + r2 - 4;
    var d := r2 - 1;
    ghost var goal := Paint(Cells(g), FilledPoints(cx, cy, r));
    BeginInv(r);
    assert Dda(x, y, dy, dx, d) == Begin(r);
    while y <= x
      invariant Inv(r, Dda(x, y, dy, dx, d))
      invariant Paint(Cells(g), Fan(cx, cy, Octant(Dda(x, y, dy, dx, d)))) == goal
      decreases x - y + 1
    {
      ghost var s := Dda(x, y, dy, dx, d);
      FillIteration(g, cx, cy, x, y, s, goal);
      AdvanceInv(r, s);
      x, y, dy, dx, d := DdaStep(x, y, dy, dx, d);
    }
    assert Octant(Dda(x, y, dy, dx, d)) == [];
  }

  /** One face of `draw_object`: the lines p0 to p1, p1 to p2 and p2 back to p0. */
  method DrawFace(g: array2<bool>, p0: Point, p1: Point, p2: Point)
    requires SmallGrid(g)
    requires LineFits(p0.0, p0.1, p1.0, p1.1) && LineFits(p1.0, p1.1, p2.0, p2.1)
    requires LineFits(p2.0, p2.1, p0.0, p0.1)
    modifies g
    ensures Cells(g) == Paint(old(Cells(g)), EdgePoints(p0, p1, p2))
  {
    ghost var v := Cells(g);
    ghost var e0, e1, e2 := LinePoints(p0.0, p0.1, p1.0, p1.1), LinePoints(p1.0, p1.1, p2.0, p2.1),
                            LinePoints(p2.0, p2.1, p0.0, p0.1);
    DrawLine(g, p0.0, p0.1, p1.0, p1.1);
    DrawLine(g, p1.0, p1.1, p2.0, p2.1);
    PaintAppend(v, e0, e1);
    DrawLine(g, p2.0, p2.1, p0.0, p0.1);
    PaintAppend(v, e0 + e1, e2);
  }

  /** The loop of `draw_object` over the index buffer: face by face, its three edges drawn
      between the screen points `placed` of its corners (indices are 1-based). */
  method DrawFaces(g: array2<bool>, faces: seq<Face>, placed: seq<Point>)
    requires SmallGrid(g) && IndicesInRange(faces, |placed|) && EdgesFit(faces, placed)
    modifies g
    ensures Cells(g) == Paint(old(Cells(g)), FacePoints(faces, placed))
  {
    ghost var v := Cells(g);
    ghost var edges := FaceEdges(faces, placed);
    for i := 0 to |faces|
      invariant Cells(g) == Paint(v, Concat(edges[..i]))
    {
      var face := faces[i];
      var p0, p1, p2 := placed[face.a - 1], placed[face.b - 1], placed[face.c - 1];
      ghost var before := Concat(edges[..i]);
      DrawFace(g, p0, p1, p2);
      assert edges[i] == EdgePoints(p0, p1, p2);
      PaintAppend(v, before, edges[i]);
      ConcatSnoc(edges, i);
    }
    assert edges[..|faces|] == edges;
  }
}
