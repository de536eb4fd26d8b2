/** The DDA circle of `draw_circle` and `draw_filled_circle`: the (x, y) offsets the loop
    visits in one octant, their eight reflections, and the spokes of the filled variant. */
module CircleDda {
  import opened Grid
  import opened Bresenham

  /** The loop variables `x`, `y`, `dy`, `dx`, `d` at the top of an iteration. */
  datatype Dda = Dda(x: int, y: int, dy: int, dx: int, d: int)

  /** `r2 = r + r; x = r; y = 0; dy = -2; dx = r2 + r2 - 4; d = r2 - 1`. */
  function Begin(r: int): Dda {
    var r2 := r + r;
    Dda(r, 0, -2, r2 + r2 - 4, r2 - 1)
  }

  /** The body after the eight plots: `d += dy; dy -= 4; y += 1` and, when `d < 0`,
      `d += dx; dx -= 4; x -= 1`. */
  function Advance(s: Dda): (n: Dda)
    ensures n.y == s.y + 1 && (n.x == s.x || n.x == s.x - 1)
  {
    var d := s.d + s.dy;
    if d < 0 then Dda(s.x - 1, s.y + 1, s.dy - 4, s.dx - 4, d + s.dx)
    else Dda(s.x, s.y + 1, s.dy - 4, s.dx, d)
  }

  /** The (x, y) pairs of the iterations from `s` on, while `y <= x`. */
  function Octant(s: Dda): seq<Point>
    decreases s.x - s.y + 1
  {
    if s.y <= s.x then [(s.x, s.y)] + Octant(Advance(s)) else []
  }

  /** The offsets the loop visits for radius r. */
  function Offsets(r: int): seq<Point> {
    Octant(Begin(r))
  }

  /** Plot `k` (0 to 7) of one iteration, in the source's order: the offset (x, y)
      mirrored across the centre's two axes and its diagonal. */
  function Reflection(cx: int, cy: int, x: int, y: int, k: nat): Point
    requires k < 8
  {
    if k == 0 then (cx - x, cy - y)
    else if k == 1 then (cx + x, cy - y)
    else if k == 2 then (cx - x, cy + y)
    else if k == 3 then (cx + x, cy + y)
    else if k == 4 then (cx - y, cy - x)
    else if k == 5 then (cx + y, cy - x)
    else if k == 6 then (cx - y, cy + x)
    else (cx + y, cy + x)
  }

  /** The first `k` plots of one iteration. */
  function ReflectionsUpTo(cx: int, cy: int, x: int, y: int, k: nat): (pts: seq<Point>)
    requires k <= 8
    ensures |pts| == k
  {
    if k == 0 then [] else ReflectionsUpTo(cx, cy, x, y, k - 1) + [Reflection(cx, cy, x, y, k - 1)]
  }

  /** The eight points one iteration of `draw_circle` plots, in the source's order. */
  function Reflections(cx: int, cy: int, x: int, y: int): (pts: seq<Point>)
    ensures |pts| == 8
  {
    ReflectionsUpTo(cx, cy, x, y, 8)
  }

  /** The points plotted for a list of offsets, iteration by iteration. */
  function Ring(cx: int, cy: int, offs: seq<Point>): seq<Point> {
    if offs == [] then []
    else Ring(cx, cy, offs[..|offs| - 1]) + Reflections(cx, cy, offs[|offs| - 1].0, offs[|offs| - 1].1)
  }

  /** `draw_circle(cx, cy, r)`: every point the loop plots, in order. */
  function CirclePoints(cx: int, cy: int, r: int): seq<Point> {
    Ring(cx, cy, Offsets(r))
  }

  /** The first `k` spokes of one iteration of `draw_filled_circle`: a `draw_line` from
      each of the first `k` reflections to the centre. */
  function SpokesUpTo(cx: int, cy: int, x: int, y: int, k: nat): seq<Point>
    requires k <= 8
  {
    if k == 0 then []
    else
      var e := Reflection(cx, cy, x, y, k - 1);
      SpokesUpTo(cx, cy, x, y, k - 1) + LinePoints(e.0, e.1, cx, cy)
  }

  /** The eight spokes one iteration of `draw_filled_circle` draws, in the source's order. */
  function Spokes(cx: int, cy: int, x: int, y: int): seq<Point> {
    SpokesUpTo(cx, cy, x, y, 8)
  }

  function Fan(cx: int, cy: int, offs: seq<Point>): seq<Point> {
    if offs == [] then []
    else Fan(cx, cy, offs[..|offs| - 1]) + Spokes(cx, cy, offs[|offs| - 1].0, offs[|offs| - 1].1)
  }

  /** `draw_filled_circle(cx, cy, r)`: every point the spokes plot, in order. */
  function FilledPoints(cx: int, cy: int, r: int): seq<Point> {
    Fan(cx, cy, Offsets(r))
  }

  /** The i16 arithmetic of both circle loops cannot overflow: `r + r + r + r - 4` and
      `dy - 4` stay in range, and so do `cx ± r` and `cy ± r` for a non-negative radius. */
  predicate CircleFits(cx: int, cy: int, r: int) {
    && I16(cx) && I16(cy)
    && -8191 <= r <= 8191
    && (r >= 0 ==> I16(cx - r) && I16(cx + r) && I16(cy - r) && I16(cy + r))
  }

  /** The radius bound of `CircleFits` is exactly the range for which the setup
      `r2 = r + r` and `dx = r2 + r2 - 4` of both circle loops does not overflow i16. */
  lemma RadiusBoundExact(r: int)
    requires I16(r)
    ensures -8191 <= r <= 8191 <==> I16(r + r) && I16((r + r) + (r + r)) && I16((r + r) + (r + r) - 4)
  {
  }

  lemma OctantStep(s: Dda)
    requires s.y <= s.x
    ensures Octant(s) == [(s.x, s.y)] + Octant(Advance(s))
  {
  }

  lemma RingSnoc(cx: int, cy: int, offs: seq<Point>, x: int, y: int)
    ensures Ring(cx, cy, offs + [(x, y)]) == Ring(cx, cy, offs) + Reflections(cx, cy, x, y)
  {
    assert (offs + [(x, y)])[..|offs|] == offs;
  }

  /** Every reflection of an iteration fits the i16 arguments of `draw_pixel`, and, for
      an offset of at most 8191, the bounds of `draw_line` to the centre. */
  lemma ReflectionFits(cx: int, cy: int, x: int, y: int, k: nat)
    requires I16(cx) && I16(cy) && 0 <= y <= x && k < 8
    requires I16(cx - x) && I16(cx + x) && I16(cy - x) && I16(cy + x)
    ensures I16(Reflection(cx, cy, x, y, k).0) && I16(Reflection(cx, cy, x, y, k).1)
    ensures x <= 8191 ==> LineFits(Reflection(cx, cy, x, y, k).0, Reflection(cx, cy, x, y, k).1, cx, cy)
  {
  }

  /** The eight reflections written out. */
  lemma ReflectionsListed(cx: int, cy: int, x: int, y: int)
    ensures Reflections(cx, cy, x, y) ==
      [(cx - x, cy - y), (cx + x, cy - y), (cx - x, cy + y), (cx + x, cy + y),
       (cx - y, cy - x), (cx + y, cy - x), (cx - y, cy + x), (cx + y, cy + x)]
  {
    assert ReflectionsUpTo(cx, cy, x, y, 1) == [(cx - x, cy - y)];
    assert ReflectionsUpTo(cx, cy, x, y, 2) == [(cx - x, cy - y), (cx + x, cy - y)];
    assert ReflectionsUpTo(cx, cy, x, y, 3) == [(cx - x, cy - y), (cx + x, cy - y), (cx - x, cy + y)];
    assert ReflectionsUpTo(cx, cy, x, y, 4)
        == [(cx - x, cy - y), (cx + x, cy - y), (cx - x, cy + y), (cx + x, cy + y)];
    assert ReflectionsUpTo(cx, cy, x, y, 5)
        == [(cx - x, cy - y), (cx + x, cy - y), (cx - x, cy + y), (cx + x, cy + y), (cx - y, cy - x)];
    assert ReflectionsUpTo(cx, cy, x, y, 6)
        == [(cx - x, cy - y), (cx + x, cy - y), (cx - x, cy + y), (cx + x, cy + y), (cx - y, cy - x),
            (cx + y, cy - x)];
    assert ReflectionsUpTo(cx, cy, x, y, 7)
        == [(cx - x, cy - y), (cx + x, cy - y), (cx - x, cy + y), (cx + x, cy + y), (cx - y, cy - x),
            (cx + y, cy - x), (cx - y, cy + x)];
  }

  lemma FanSnoc(cx: int, cy: int, offs: seq<Point>, x: int, y: int)
    ensures Fan(cx, cy, offs + [(x, y)]) == Fan(cx, cy, offs) + Spokes(cx, cy, x, y)
  {
    assert (offs + [(x, y)])[..|offs|] == offs;
  }

  /** The points of a list of offsets are those of its first offset, then the rest's. */
  lemma {:induction false} RingCons(cx: int, cy: int, p: Point, offs: seq<Point>)
    ensures Ring(cx, cy, [p] + offs) == Reflections(cx, cy, p.0, p.1) + Ring(cx, cy, offs)
  {
    if offs != [] {
      var front := offs[..|offs| - 1];
      var last := offs[|offs| - 1];
      assert [p] + offs == ([p] + front) + [last];
      assert offs == front + [last];
      RingSnoc(cx, cy, [p] + front, last.0, last.1);
      RingSnoc(cx, cy, front, last.0, last.1);
      RingCons(cx, cy, p, front);
      AppendAssoc(Reflections(cx, cy, p.0, p.1), Ring(cx, cy, front), Reflections(cx, cy, last.0, last.1));
    }
  }

  lemma {:induction false} FanCons(cx: int, cy: int, p: Point, offs: seq<Point>)
    ensures Fan(cx, cy, [p] + offs) == Spokes(cx, cy, p.0, p.1) + Fan(cx, cy, offs)
  {
    if offs != [] {
      var front := offs[..|offs| - 1];
      var last := offs[|offs| - 1];
      assert [p] + offs == ([p] + front) + [last];
      assert offs == front + [last];
      FanSnoc(cx, cy, [p] + front, last.0, last.1);
      FanSnoc(cx, cy, front, last.0, last.1);
      FanCons(cx, cy, p, front);
      AppendAssoc(Spokes(cx, cy, p.0, p.1), Fan(cx, cy, front), Spokes(cx, cy, last.0, last.1));
    }
  }

  /** Plotting the reflections of the current offset, then the points of the iterations
      still to come, paints what the iterations from the current one on would paint. */
  lemma RingRest(v: seq<seq<bool>>, cx: int, cy: int, s: Dda)
    requires s.y <= s.x
    ensures Paint(Paint(v, Reflections(cx, cy, s.x, s.y)), Ring(cx, cy, Octant(Advance(s))))
         == Paint(v, Ring(cx, cy, Octant(s)))
  {
    OctantStep(s);
    RingCons(cx, cy, (s.x, s.y), Octant(Advance(s)));
    PaintAppend(v, Reflections(cx, cy, s.x, s.y), Ring(cx, cy, Octant(Advance(s))));
  }

  /** The same for the spokes of the filled circle. */
  lemma FanRest(v: seq<seq<bool>>, cx: int, cy: int, s: Dda)
    requires s.y <= s.x
    ensures Paint(Paint(v, Spokes(cx, cy, s.x, s.y)), Fan(cx, cy, Octant(Advance(s))))
         == Paint(v, Fan(cx, cy, Octant(s)))
  {
    OctantStep(s);
    FanCons(cx, cy, (s.x, s.y), Octant(Advance(s)));
    PaintAppend(v, Spokes(cx, cy, s.x, s.y), Fan(cx, cy, Octant(Advance(s))));
  }

  // ---- the decision variable ----

  /** r² - x² - y² + x: `d` is twice this minus one. */
  function Slack(r: int, x: int, y: int): int {
    r * r - x * x - y * y + x
  }

  /** The loop invariant: `dy == -2 - 4y`, `dx == 4x - 4`, `d == 2 * Slack - 1`, and while
      the loop runs, 0 <= Slack <= 2x and 0 <= y <= x <= r. */
  predicate Inv(r: int, s: Dda) {
    && s.dy == -2 - 4 * s.y
    && s.dx == 4 * s.x - 4
    && s.d == 2 * Slack(r, s.x, s.y) - 1
    && 0 <= s.y
    && s.x <= r
    && (s.y <= s.x ==> 0 <= Slack(r, s.x, s.y) <= 2 * s.x)
  }

  lemma BeginInv(r: int)
    ensures Inv(r, Begin(r))
  {
  }

  lemma SlackStepY(r: int, x: int, y: int)
    ensures Slack(r, x, y + 1) == Slack(r, x, y) - 2 * y - 1
  {
    assert (y + 1) * (y + 1) == y * y + 2 * y + 1;
  }

  lemma SlackStepX(r: int, x: int, y: int)
    ensures Slack(r, x - 1, y) == Slack(r, x, y) + 2 * x - 2
  {
    assert (x - 1) * (x - 1) == x * x - 2 * x + 1;
  }

  /** One iteration keeps the invariant; every intermediate value of the body fits i16
      when r <= 8191. */
  lemma AdvanceInv(r: int, s: Dda)
    requires Inv(r, s) && s.y <= s.x
    ensures Inv(r, Advance(s))
    ensures r <= 8191 ==> I16(s.d + s.dy) && I16(s.dy - 4) && I16(s.y + 1)
    ensures r <= 8191 && s.d + s.dy < 0 ==> I16(s.d + s.dy + s.dx) && I16(s.dx - 4) && I16(s.x - 1)
  {
    var f := Slack(r, s.x, s.y);
    SlackStepY(r, s.x, s.y);
    var f1 := Slack(r, s.x, s.y + 1);
    assert s.d + s.dy == 2 * f1 - 1;
    if s.d + s.dy < 0 {
      SlackStepX(r, s.x, s.y + 1);
      assert Slack(r, s.x - 1, s.y + 1) == f1 + 2 * s.x - 2;
    }
  }

  // ---- properties of the visited offsets ----

  lemma {:induction false} OctantShape(r: int, s: Dda)
    requires Inv(r, s)
    ensures forall k :: 0 <= k < |Octant(s)| ==> Octant(s)[k].1 == s.y + k
    ensures forall p :: p in Octant(s) ==> 0 <= p.1 <= p.0 <= r
    ensures forall p :: p in Octant(s) ==>
      p.0 * p.0 + p.1 * p.1 - p.0 <= r * r <= p.0 * p.0 + p.1 * p.1 + p.0
    decreases s.x - s.y + 1
  {
    if s.y <= s.x {
      AdvanceInv(r, s);
      OctantShape(r, Advance(s));
      var o := Octant(s);
      assert o == [(s.x, s.y)] + Octant(Advance(s));
      forall k | 0 <= k < |o| ensures o[k].1 == s.y + k {
        if k > 0 { assert o[k] == Octant(Advance(s))[k - 1]; }
      }
    }
  }

  /** Every visited offset (x, y) has 0 <= y <= x <= r and lies on the ring
      x² + y² - x <= r² <= x² + y² + x; iteration k has y == k. */
  lemma OffsetsShape(r: int)
    ensures forall k :: 0 <= k < |Offsets(r)| ==> Offsets(r)[k].1 == k
    ensures forall p :: p in Offsets(r) ==> 0 <= p.1 <= p.0 <= r
    ensures forall p :: p in Offsets(r) ==>
      p.0 * p.0 + p.1 * p.1 - p.0 <= r * r <= p.0 * p.0 + p.1 * p.1 + p.0
  {
    BeginInv(r);
    OctantShape(r, Begin(r));
  }

  /** x never grows from one iteration to the next. */
  lemma {:induction false} OctantXNonIncreasing(s: Dda)
    ensures forall k :: 0 < k < |Octant(s)| ==> Octant(s)[k].0 <= Octant(s)[k - 1].0
    decreases s.x - s.y + 1
  {
    if s.y <= s.x {
      OctantXNonIncreasing(Advance(s));
      var o := Octant(s);
      var rest := Octant(Advance(s));
      assert o == [(s.x, s.y)] + rest;
      forall k | 0 < k < |o| ensures o[k].0 <= o[k - 1].0 {
        assert o[k] == rest[k - 1];
        if k > 1 { assert o[k - 1] == rest[k - 2]; }
        else if |rest| > 0 { assert rest[0].0 == Advance(s).x; }
      }
    }
  }

  /** With a negative radius the loop never runs, so nothing is drawn. */
  lemma NegativeRadiusDrawsNothing(cx: int, cy: int, r: int)
    requires r < 0
    ensures CirclePoints(cx, cy, r) == [] && FilledPoints(cx, cy, r) == []
  {
  }

  /** For r >= 0 the first iteration plots the four axis points (cx ± r, cy) and
      (cx, cy ± r). */
  lemma FirstIteration(cx: int, cy: int, r: int)
    requires r >= 0
    ensures |CirclePoints(cx, cy, r)| >= 8
    ensures CirclePoints(cx, cy, r)[..8] ==
      [(cx - r, cy), (cx + r, cy), (cx - r, cy), (cx + r, cy),
       (cx, cy - r), (cx, cy - r), (cx, cy + r), (cx, cy + r)]
  {
    var offs := Offsets(r);
    assert offs[0] == (r, 0);
    var head := Ring(cx, cy, offs[..1]);
    ReflectionsListed(cx, cy, r, 0);
    assert head == Reflections(cx, cy, r, 0) by {
      assert offs[..1][..0] == [];
      assert offs[..1][0] == (r, 0);
      assert Ring(cx, cy, []) == [];
    }
    RingPrefix(cx, cy, offs, 1);
  }

  /** The ring of a prefix of the offsets is a prefix of the ring. */
  lemma {:induction false} RingPrefix(cx: int, cy: int, offs: seq<Point>, n: nat)
    requires n <= |offs|
    ensures |Ring(cx, cy, offs[..n])| == 8 * n <= |Ring(cx, cy, offs)|
    ensures Ring(cx, cy, offs)[..8 * n] == Ring(cx, cy, offs[..n])
    decreases |offs|
  {
    if n < |offs| {
      var front := offs[..|offs| - 1];
      assert front[..n] == offs[..n];
      RingPrefix(cx, cy, front, n);
      RingPrefix(cx, cy, front, |front|);
      assert front[..|front|] == front;
    } else {
      assert offs[..n] == offs;
      RingLength(cx, cy, offs);
    }
  }

  lemma {:induction false} RingLength(cx: int, cy: int, offs: seq<Point>)
    ensures |Ring(cx, cy, offs)| == 8 * |offs|
    decreases |offs|
  {
    if offs != [] {
      RingLength(cx, cy, offs[..|offs| - 1]);
    }
  }

  /** A point of the ring comes from one iteration's reflections. */
  lemma {:induction false} InRing(cx: int, cy: int, offs: seq<Point>, p: Point)
    requires p in Ring(cx, cy, offs)
    ensures exists o :: o in offs && p in Reflections(cx, cy, o.0, o.1)
    decreases |offs|
  {
    var last := offs[|offs| - 1];
    if p in Reflections(cx, cy, last.0, last.1) {
      assert last in offs;
    } else {
      InRing(cx, cy, offs[..|offs| - 1], p);
      var o :| o in offs[..|offs| - 1] && p in Reflections(cx, cy, o.0, o.1);
      assert o in offs;
    }
  }

  /** Every reflection of an iteration is in the ring. */
  lemma {:induction false} RingHas(cx: int, cy: int, offs: seq<Point>, o: Point)
    requires o in offs
    ensures forall q :: q in Reflections(cx, cy, o.0, o.1) ==> q in Ring(cx, cy, offs)
    decreases |offs|
  {
    if o != offs[|offs| - 1] {
      assert o in offs[..|offs| - 1];
      RingHas(cx, cy, offs[..|offs| - 1], o);
    }
  }

  /** The eight reflections are closed under mirroring across x = cx, across y = cy, and
      across the diagonal through the centre. */
  lemma ReflectionsSymmetric(cx: int, cy: int, x: int, y: int, p: Point)
    requires p in Reflections(cx, cy, x, y)
    ensures (2 * cx - p.0, p.1) in Reflections(cx, cy, x, y)
    ensures (p.0, 2 * cy - p.1) in Reflections(cx, cy, x, y)
    ensures (cx + (p.1 - cy), cy + (p.0 - cx)) in Reflections(cx, cy, x, y)
  {
    ReflectionsListed(cx, cy, x, y);
  }

  /** The outline is 8-way symmetric about its centre: mirroring any plotted point across
      x = cx, across y = cy, or across the diagonal gives a plotted point. */
  lemma CircleSymmetric(cx: int, cy: int, r: int, p: Point)
    requires p in CirclePoints(cx, cy, r)
    ensures (2 * cx - p.0, p.1) in CirclePoints(cx, cy, r)
    ensures (p.0, 2 * cy - p.1) in CirclePoints(cx, cy, r)
    ensures (cx + (p.1 - cy), cy + (p.0 - cx)) in CirclePoints(cx, cy, r)
  {
    InRing(cx, cy, Offsets(r), p);
    var o :| o in Offsets(r) && p in Reflections(cx, cy, o.0, o.1);
    ReflectionsSymmetric(cx, cy, o.0, o.1, p);
    RingHas(cx, cy, Offsets(r), o);
  }

  // ---- the filled variant ----

  /** A spoke starts at its reflection and ends at the centre. */
  lemma SpokeEnds(x1: int, y1: int, cx: int, cy: int)
    ensures (x1, y1) in LinePoints(x1, y1, cx, cy) && (cx, cy) in LinePoints(x1, y1, cx, cy)
  {
    var line := LinePoints(x1, y1, cx, cy);
    LineEndsAtEnd(x1, y1, cx, cy);
    assert line[|line| - 1] == (cx, cy);
  }

  /** The first `k` spokes pass through their starting reflections and, once there is
      one, through the centre. */
  lemma {:induction false} SpokesUpToCover(cx: int, cy: int, x: int, y: int, k: nat)
    requires k <= 8
    ensures k > 0 ==> (cx, cy) in SpokesUpTo(cx, cy, x, y, k)
    ensures forall j :: 0 <= j < k ==> Reflection(cx, cy, x, y, j) in SpokesUpTo(cx, cy, x, y, k)
  {
    if k > 0 {
      var e := Reflection(cx, cy, x, y, k - 1);
      SpokesUpToCover(cx, cy, x, y, k - 1);
      SpokeEnds(e.0, e.1, cx, cy);
    }
  }

  /** The spokes of one iteration pass through its eight reflections and the centre. */
  lemma SpokesCover(cx: int, cy: int, x: int, y: int)
    ensures (cx, cy) in Spokes(cx, cy, x, y)
    ensures forall q :: q in Reflections(cx, cy, x, y) ==> q in Spokes(cx, cy, x, y)
  {
    SpokesUpToCover(cx, cy, x, y, 8);
    forall q | q in Reflections(cx, cy, x, y) ensures q in Spokes(cx, cy, x, y) {
      ReflectionsIndexed(cx, cy, x, y, 8, q);
    }
  }

  /** A point among the first `k` reflections is reflection `j` for some `j < k`. */
  lemma {:induction false} ReflectionsIndexed(cx: int, cy: int, x: int, y: int, k: nat, q: Point)
    requires k <= 8 && q in ReflectionsUpTo(cx, cy, x, y, k)
    ensures exists j :: 0 <= j < k && q == Reflection(cx, cy, x, y, j)
  {
    if q != Reflection(cx, cy, x, y, k - 1) {
      ReflectionsIndexed(cx, cy, x, y, k - 1, q);
    }
  }

  lemma {:induction false} FanCovers(cx: int, cy: int, offs: seq<Point>)
    ensures offs != [] ==> (cx, cy) in Fan(cx, cy, offs)
    ensures forall q :: q in Ring(cx, cy, offs) ==> q in Fan(cx, cy, offs)
    decreases |offs|
  {
    if offs != [] {
      var front := offs[..|offs| - 1];
      FanCovers(cx, cy, front);
      SpokesCover(cx, cy, offs[|offs| - 1].0, offs[|offs| - 1].1);
    }
  }

  /** For r >= 0 the filled circle plots its centre, and it plots every point of the
      outline of the same radius (each spoke starts on the outline). */
  lemma FilledCoversOutline(cx: int, cy: int, r: int)
    ensures r >= 0 ==> (cx, cy) in FilledPoints(cx, cy, r)
    ensures forall q :: q in CirclePoints(cx, cy, r) ==> q in FilledPoints(cx, cy, r)
  {
    FanCovers(cx, cy, Offsets(r));
  }
}
