/** The all-octant, single-error-term Bresenham line of every renderer's `draw_line`,
    as the sequence of points the loop plots. */
module Bresenham {
  import opened Outcomes
  import opened Grid

  /** The values fixed before the loop: the end point, `dx = |x2 - x1|`,
      `dy = -|y2 - y1|` and the step directions `sx`, `sy`. */
  datatype Line = Line(x2: int, y2: int, dx: int, dy: int, sx: int, sy: int)

  /** The variables the loop updates: `x1`, `y1` and `err`. */
  datatype State = State(x: int, y: int, err: int)

  /** `if a < b { 1 } else { -1 }`. */
  function Direction(a: int, b: int): int { if a < b then 1 else -1 }

  function Setup(x1: int, y1: int, x2: int, y2: int): (l: Line)
    ensures l.dx >= 0 && l.dy <= 0
  {
    Line(x2, y2, Abs(x2 - x1), 0 - Abs(y2 - y1), Direction(x1, x2), Direction(y1, y2))
  }

  /** Stepping `v` by `s` moves it toward `target` until it gets there. */
  predicate Toward(v: int, target: int, s: int) {
    (s == 1 && v <= target) || (s == -1 && target <= v)
  }

  /** The loop's state never overshoots the end point. */
  predicate Heading(l: Line, s: State) {
    l.dy <= 0 <= l.dx && Toward(s.x, l.x2, l.sx) && Toward(s.y, l.y2, l.sy)
  }

  /** The remaining distance, which every iteration shrinks. */
  function Distance(l: Line, s: State): nat {
    Abs(l.x2 - s.x) + Abs(l.y2 - s.y)
  }

  /** One iteration after the pixel is plotted: `None` where the loop breaks, otherwise
      the state at the top of the next iteration. A step changes each coordinate by at
      most one, toward the end point, and moves at least one of them. */
  function Next(l: Line, s: State): (r: Option<State>)
    requires Heading(l, s)
    ensures r.Some? ==> Heading(l, r.value) && Distance(l, r.value) < Distance(l, s)
    ensures r.Some? ==> Between(s.x, r.value.x, l.x2) && Between(s.y, r.value.y, l.y2)
    ensures r.Some? ==> Abs(r.value.x - s.x) <= 1 && Abs(r.value.y - s.y) <= 1
  {
    if s.x == l.x2 && s.y == l.y2 then None
    else
      var e2 := 2 * s.err;
      if e2 >= l.dy && s.x == l.x2 then None
      else
        var x := if e2 >= l.dy then s.x + l.sx else s.x;
        var err := if e2 >= l.dy then s.err + l.dy else s.err;
        if e2 <= l.dx && s.y == l.y2 then None
        else if e2 <= l.dx then Some(State(x, s.y + l.sy, err + l.dx))
        else Some(State(x, s.y, err))
  }

  /** The points plotted from loop state `s` on, in order. */
  function Trace(l: Line, s: State): (pts: seq<Point>)
    requires Heading(l, s)
    ensures |pts| >= 1 && pts[0] == (s.x, s.y)
    decreases Distance(l, s)
  {
    match Next(l, s)
    case None => [(s.x, s.y)]
    case Some(n) => [(s.x, s.y)] + Trace(l, n)
  }

  function Start(x1: int, y1: int, x2: int, y2: int): State {
    var l := Setup(x1, y1, x2, y2);
    State(x1, y1, l.dy + l.dx)
  }

  /** `draw_line(x1, y1, x2, y2)`: the points the loop plots, starting at (x1, y1). */
  function LinePoints(x1: int, y1: int, x2: int, y2: int): (pts: seq<Point>)
    ensures |pts| >= 1 && pts[0] == (x1, y1)
  {
    var l := Setup(x1, y1, x2, y2);
    assert Heading(l, Start(x1, y1, x2, y2));
    Trace(l, Start(x1, y1, x2, y2))
  }

  /** The i16 arithmetic of the loop cannot overflow: both end points are i16 values and
      each axis spans at most 8191, so `2 * err` stays within 4 * 8191. */
  predicate LineFits(x1: int, y1: int, x2: int, y2: int) {
    I16(x1) && I16(y1) && I16(x2) && I16(y2) && Abs(x2 - x1) <= 8191 && Abs(y2 - y1) <= 8191
  }

  // ---- the error term ----

  /** `err` stays within [2 * dy, 2 * dx]; this is what keeps `2 * err` inside i16. */
  predicate ErrBound(l: Line, s: State) {
    2 * l.dy <= s.err <= 2 * l.dx
  }

  lemma NextKeepsErrBound(l: Line, s: State)
    requires Heading(l, s) && ErrBound(l, s)
    ensures Next(l, s).Some? ==> ErrBound(l, Next(l, s).value)
  {
  }

  /** The error term as a function of the remaining distances a = |x2 - x| and
      b = |y2 - y|. */
  function ExactErr(l: Line, a: int, b: int): int {
    l.dx * (1 - b) - l.dy * (a - 1)
  }

  lemma ExactErrStepX(l: Line, a: int, b: int)
    ensures ExactErr(l, a - 1, b) == ExactErr(l, a, b) + l.dy
  {
    assert l.dy * (a - 1 - 1) == l.dy * (a - 1) - l.dy;
  }

  lemma ExactErrStepY(l: Line, a: int, b: int)
    ensures ExactErr(l, a, b - 1) == ExactErr(l, a, b) + l.dx
  {
    assert l.dx * (1 - (b - 1)) == l.dx * (1 - b) + l.dx;
  }

  /** `err == dx * (1 - B) - dy * (A - 1)` for the remaining distances A = |x2 - x| and
      B = |y2 - y|, with A <= dx and B <= -dy. */
  predicate ErrExact(l: Line, s: State) {
    && Abs(l.x2 - s.x) <= l.dx
    && Abs(l.y2 - s.y) <= -l.dy
    && s.err == ExactErr(l, Abs(l.x2 - s.x), Abs(l.y2 - s.y))
  }

  lemma StartExact(x1: int, y1: int, x2: int, y2: int)
    ensures ErrExact(Setup(x1, y1, x2, y2), Start(x1, y1, x2, y2))
  {
    var l := Setup(x1, y1, x2, y2);
    assert l.dx * (1 + l.dy) - l.dy * (l.dx - 1) == l.dx + l.dy;
  }

  lemma NextKeepsExact(l: Line, s: State)
    requires Heading(l, s) && ErrExact(l, s) && Next(l, s).Some?
    ensures ErrExact(l, Next(l, s).value)
  {
    var n := Next(l, s).value;
    var a: int, b: int := Abs(l.x2 - s.x), Abs(l.y2 - s.y);
    var e2 := 2 * s.err;
    var a1: int := if e2 >= l.dy then a - 1 else a;
    var err1 := if e2 >= l.dy then s.err + l.dy else s.err;
    ExactErrStepX(l, a, b);
    assert Abs(l.x2 - n.x) == a1;
    assert err1 == ExactErr(l, a1, b);
    ExactErrStepY(l, a1, b);
    if e2 <= l.dx {
      assert Abs(l.y2 - n.y) == b - 1 && n.err == err1 + l.dx;
    } else {
      assert Abs(l.y2 - n.y) == b && n.err == err1;
    }
  }

  /** An iteration that does not break: x steps when `2 * err >= dy`, y steps when
      `2 * err <= dx`, and `err` collects the matching corrections. */
  lemma NextContinues(l: Line, s: State, n: State)
    requires Heading(l, s) && !(s.x == l.x2 && s.y == l.y2)
    requires if 2 * s.err >= l.dy then s.x != l.x2 && n.x == s.x + l.sx else n.x == s.x
    requires if 2 * s.err <= l.dx then s.y != l.y2 && n.y == s.y + l.sy else n.y == s.y
    requires n.err == s.err + (if 2 * s.err >= l.dy then l.dy else 0) + (if 2 * s.err <= l.dx then l.dx else 0)
    ensures Next(l, s) == Some(n)
  {
  }

  /** The trace from `s` is its point followed by the trace from the next state. */
  lemma TraceStep(l: Line, s: State)
    requires Heading(l, s) && Next(l, s).Some?
    ensures Trace(l, s) == [(s.x, s.y)] + Trace(l, Next(l, s).value)
  {
  }

  /** What `draw_line`'s loop keeps at the top of every iteration: the state heads for
      the end point inside the box of the two end points, `err` stays bounded, and the
      points plotted so far followed by the trace from here make up the whole line. */
  ghost predicate LoopInv(l: Line, x1: int, y1: int, s: State, drawn: seq<Point>, target: seq<Point>) {
    && Heading(l, s) && ErrBound(l, s)
    && Between(x1, s.x, l.x2) && Between(y1, s.y, l.y2)
    && drawn + Trace(l, s) == target
  }

  lemma LoopStarts(x1: int, y1: int, x2: int, y2: int)
    ensures LoopInv(Setup(x1, y1, x2, y2), x1, y1, Start(x1, y1, x2, y2), [], LinePoints(x1, y1, x2, y2))
  {
  }

  /** An iteration that does not break keeps the loop invariant, with its point plotted,
      and brings the end point closer. */
  lemma LoopContinues(l: Line, x1: int, y1: int, s: State, n: State, drawn: seq<Point>, target: seq<Point>)
    requires LoopInv(l, x1, y1, s, drawn, target) && !(s.x == l.x2 && s.y == l.y2)
    requires if 2 * s.err >= l.dy then s.x != l.x2 && n.x == s.x + l.sx else n.x == s.x
    requires if 2 * s.err <= l.dx then s.y != l.y2 && n.y == s.y + l.sy else n.y == s.y
    requires n.err == s.err + (if 2 * s.err >= l.dy then l.dy else 0) + (if 2 * s.err <= l.dx then l.dx else 0)
    ensures LoopInv(l, x1, y1, n, drawn + [(s.x, s.y)], target)
    ensures Distance(l, n) < Distance(l, s)
  {
    NextContinues(l, s, n);
    NextKeepsErrBound(l, s);
    TraceStep(l, s);
    AppendAssoc(drawn, [(s.x, s.y)], Trace(l, n));
  }

  /** An iteration that breaks has plotted the last point of the line: it breaks at the
      end point, or when the coordinate due to step is already at its end. */
  lemma LoopFinishes(l: Line, x1: int, y1: int, s: State, drawn: seq<Point>, target: seq<Point>)
    requires LoopInv(l, x1, y1, s, drawn, target)
    requires || (s.x == l.x2 && s.y == l.y2)
             || (2 * s.err >= l.dy && s.x == l.x2)
             || (2 * s.err <= l.dx && s.y == l.y2)
    ensures drawn + [(s.x, s.y)] == target
  {
  }

  /** With the exact error term the loop only ever breaks at the end point: the two inner
      breaks (`x1 == x2` and `y1 == y2`) cannot fire while the other coordinate still
      has to move. */
  lemma BreaksOnlyAtEnd(l: Line, s: State)
    requires Heading(l, s) && ErrExact(l, s)
    ensures Next(l, s).None? <==> s.x == l.x2 && s.y == l.y2
  {
    var a: int, b: int := Abs(l.x2 - s.x), Abs(l.y2 - s.y);
    if a == 0 && b >= 1 {
      // err == dx * (1 - b) + dy <= dy < 0: the x branch is skipped and y moves
      MulMonotone(l.dx, 1 - b, 0);
      assert s.err <= l.dy < 0;
      assert Next(l, s) == Some(State(s.x, s.y + l.sy, s.err + l.dx));
    } else if a >= 1 && b == 0 {
      // err == dx - dy * (a - 1) >= dx >= 1: x moves and the y branch is skipped
      MulMonotone(-l.dy, 0, a - 1);
      assert s.err >= l.dx >= 1;
      assert Next(l, s) == Some(State(s.x + l.sx, s.y, s.err + l.dy));
    }
  }

  lemma {:induction false} TraceEnds(l: Line, s: State)
    requires Heading(l, s) && ErrExact(l, s)
    ensures Trace(l, s)[|Trace(l, s)| - 1] == (l.x2, l.y2)
    decreases Distance(l, s)
  {
    match Next(l, s)
    case None =>
      BreaksOnlyAtEnd(l, s);
    case Some(n) =>
      NextKeepsExact(l, s);
      TraceEnds(l, n);
  }

  /** `draw_line` ends at (x2, y2). */
  lemma LineEndsAtEnd(x1: int, y1: int, x2: int, y2: int)
    ensures LinePoints(x1, y1, x2, y2)[|LinePoints(x1, y1, x2, y2)| - 1] == (x2, y2)
  {
    StartExact(x1, y1, x2, y2);
    TraceEnds(Setup(x1, y1, x2, y2), Start(x1, y1, x2, y2));
  }

  // ---- shape of the plotted path ----

  /** From state `s` on, every point lies between the current point and the end point. */
  lemma {:induction false} TraceInBox(l: Line, s: State)
    requires Heading(l, s)
    ensures forall p :: p in Trace(l, s) ==> Between(s.x, p.0, l.x2) && Between(s.y, p.1, l.y2)
    decreases Distance(l, s)
  {
    match Next(l, s)
    case None =>
    case Some(n) =>
      TraceInBox(l, n);
  }

  /** Every plotted point lies in the bounding box of the two end points. */
  lemma LineInBox(x1: int, y1: int, x2: int, y2: int)
    ensures forall p :: p in LinePoints(x1, y1, x2, y2) ==> Between(x1, p.0, x2) && Between(y1, p.1, y2)
  {
    TraceInBox(Setup(x1, y1, x2, y2), Start(x1, y1, x2, y2));
  }

  /** Consecutive points of the path are neighbours: each coordinate changes by at most one. */
  predicate Connected(pts: seq<Point>) {
    forall k :: 0 <= k < |pts| - 1 ==> Abs(pts[k + 1].0 - pts[k].0) <= 1 && Abs(pts[k + 1].1 - pts[k].1) <= 1
  }

  /** A point next to the head of a connected path extends it. */
  lemma ConnectedCons(p: Point, rest: seq<Point>)
    requires Connected(rest) && |rest| >= 1
    requires Abs(rest[0].0 - p.0) <= 1 && Abs(rest[0].1 - p.1) <= 1
    ensures Connected([p] + rest)
  {
    var t := [p] + rest;
    forall k | 0 <= k < |t| - 1
      ensures Abs(t[k + 1].0 - t[k].0) <= 1 && Abs(t[k + 1].1 - t[k].1) <= 1
    {
      if k > 0 {
        assert t[k] == rest[k - 1] && t[k + 1] == rest[k];
      }
    }
  }

  lemma {:induction false} TraceConnected(l: Line, s: State)
    requires Heading(l, s)
    ensures Connected(Trace(l, s))
    decreases Distance(l, s)
  {
    match Next(l, s)
    case None =>
    case Some(n) =>
      TraceConnected(l, n);
      TraceStep(l, s);
      ConnectedCons((s.x, s.y), Trace(l, n));
  }

  /** Consecutive plotted points differ by at most one unit per axis. */
  lemma LineConnected(x1: int, y1: int, x2: int, y2: int)
    ensures Connected(LinePoints(x1, y1, x2, y2))
  {
    TraceConnected(Setup(x1, y1, x2, y2), Start(x1, y1, x2, y2));
  }

  /** A line from a point to itself plots that one point. */
  lemma LineToSelf(x: int, y: int)
    ensures LinePoints(x, y, x, y) == [(x, y)]
  {
  }

  /** A shallow line (dx = 3, dy = -1): y steps once, half-way. */
  lemma LineExample()
    ensures LinePoints(0, 0, 3, 1) == [(0, 0), (1, 0), (2, 1), (3, 1)]
  {
    var l := Setup(0, 0, 3, 1);
    assert l == Line(3, 1, 3, -1, 1, 1) && Start(0, 0, 3, 1) == State(0, 0, 2);
    ExampleTrace(l);
  }

  /** The loop of the example line, iteration by iteration. */
  lemma ExampleTrace(l: Line)
    requires l == Line(3, 1, 3, -1, 1, 1)
    ensures Heading(l, State(0, 0, 2)) && Trace(l, State(0, 0, 2)) == [(0, 0), (1, 0), (2, 1), (3, 1)]
  {
    var s0, s1, s2, s3 := State(0, 0, 2), State(1, 0, 1), State(2, 1, 3), State(3, 1, 2);
    NextContinues(l, s2, s3);
    TraceStep(l, s2);
    assert Trace(l, s2) == [(2, 1), (3, 1)];
    NextContinues(l, s1, s2);
    TraceStep(l, s1);
    assert Trace(l, s1) == [(1, 0), (2, 1), (3, 1)];
    NextContinues(l, s0, s1);
    TraceStep(l, s0);
  }
}
