/** The two outcome wrappers used across the model. */
module Outcomes {
  datatype Option<T> = None | Some(value: T)

  datatype Result<T> = Ok(value: T) | Err
}

/** Vocabulary shared by every renderer: pixel positions, the integer ranges of
    the Rust types the renderers compute in, and the value of a pixel grid. */
module Grid {

  /** A pixel position (x, y); x indexes the outer vector of a grid, y the inner one. */
  type Point = (int, int)

  /** `v` fits an `i16`. */
  predicate I16(v: int) { -32768 <= v <= 32767 }

  /** `v` fits a `u16`. */
  predicate U16(v: int) { 0 <= v <= 65535 }

  function Abs(v: int): nat { if v < 0 then -v else v }

  /** `v` lies between `a` and `b`, whichever is larger. */
  predicate Between(a: int, v: int, b: int) {
    (a <= v <= b) || (b <= v <= a)
  }

  /** The grid held in a 2-D array, as the `Vec<Vec<_>>` value the source indexes `[x][y]`. */
  function Cells<T>(g: array2<T>): (v: seq<seq<T>>)
    reads g
    ensures |v| == g.Length0
    ensures forall i :: 0 <= i < |v| ==> |v[i]| == g.Length1
    ensures forall i, j :: 0 <= i < g.Length0 && 0 <= j < g.Length1 ==> v[i][j] == g[i, j]
  {
    seq(g.Length0, i requires 0 <= i < g.Length0 reads g =>
      seq(g.Length1, j requires 0 <= j < g.Length1 reads g => g[i, j]))
  }

  /** The grid has the same shape as `v`. */
  predicate SameShape<T>(w: seq<seq<T>>, v: seq<seq<T>>) {
    |w| == |v| && forall i :: 0 <= i < |v| ==> |w[i]| == |v[i]|
  }

  /** One pixel write: cell `p` switched on when it lies inside the grid; a point outside
      the grid leaves the grid as it was. */
  function Light(v: seq<seq<bool>>, p: Point): (w: seq<seq<bool>>)
    ensures SameShape(w, v)
  {
    if 0 <= p.0 < |v| && 0 <= p.1 < |v[p.0]| then v[p.0 := v[p.0][p.1 := true]] else v
  }

  /** The grid after writing the points of `pts` in order. */
  function Paint(v: seq<seq<bool>>, pts: seq<Point>): (w: seq<seq<bool>>)
    ensures SameShape(w, v)
  {
    if pts == [] then v else Light(Paint(v, pts[..|pts| - 1]), pts[|pts| - 1])
  }

  /** `after` is `before` with the in-grid points of `pts` switched on: a cell is lit iff it
      was lit before or is one of the points; points outside the grid change nothing. */
  predicate Painted(after: seq<seq<bool>>, before: seq<seq<bool>>, pts: seq<Point>) {
    && SameShape(after, before)
    && forall i, j :: 0 <= i < |after| && 0 <= j < |after[i]| ==>
         after[i][j] == (before[i][j] || (i, j) in pts)
  }

  lemma PaintSnoc(v: seq<seq<bool>>, pts: seq<Point>, p: Point)
    ensures Paint(v, pts + [p]) == Light(Paint(v, pts), p)
  {
    assert (pts + [p])[..|pts|] == pts;
  }

  /** Writing `p` and then `q` is writing `p + q`. */
  lemma {:induction false} PaintAppend(v: seq<seq<bool>>, p: seq<Point>, q: seq<Point>)
    ensures Paint(Paint(v, p), q) == Paint(v, p + q)
    decreases |q|
  {
    if q == [] {
      assert p + q == p;
    } else {
      var n := |q|;
      PaintAppend(v, p, q[..n - 1]);
      assert (p + q)[..|p + q| - 1] == p + q[..n - 1];
    }
  }

  /** Writing points only ever switches cells on, and exactly the cells of the points. */
  lemma {:induction false} PaintMeaning(v: seq<seq<bool>>, pts: seq<Point>)
    ensures Painted(Paint(v, pts), v, pts)
    decreases |pts|
  {
    if pts != [] {
      var n := |pts|;
      var front := pts[..n - 1];
      PaintMeaning(v, front);
      var w := Paint(v, front);
      forall i, j | 0 <= i < |v| && 0 <= j < |v[i]|
        ensures Paint(v, pts)[i][j] == (v[i][j] || (i, j) in pts)
      {
        assert pts == front + [pts[n - 1]];
        assert (i, j) in pts <==> (i, j) in front || (i, j) == pts[n - 1];
      }
    }
  }

  lemma AppendAssoc<T>(a: seq<T>, b: seq<T>, c: seq<T>)
    ensures (a + b) + c == a + (b + c)
  {
  }

  function Concat<T>(blocks: seq<seq<T>>): seq<T> {
    if blocks == [] then [] else Concat(blocks[..|blocks| - 1]) + blocks[|blocks| - 1]
  }

  /** Concatenating blocks of equal length m puts element k of block i at i * m + k. */
  lemma {:induction false} ConcatAt<T>(blocks: seq<seq<T>>, m: nat, i: nat, k: nat)
    requires forall j :: 0 <= j < |blocks| ==> |blocks[j]| == m
    requires i < |blocks| && k < m
    ensures |Concat(blocks)| == |blocks| * m
    ensures i * m + k < |Concat(blocks)| && Concat(blocks)[i * m + k] == blocks[i][k]
  {
    var n := |blocks|;
    var front := blocks[..n - 1];
    if i < n - 1 {
      ConcatAt(front, m, i, k);
    } else {
      ConcatLength(front, m);
    }
    MulSucc(n - 1, m);
  }

  lemma {:induction false} ConcatLength<T>(blocks: seq<seq<T>>, m: nat)
    requires forall j :: 0 <= j < |blocks| ==> |blocks[j]| == m
    ensures |Concat(blocks)| == |blocks| * m
  {
    if blocks != [] {
      var n := |blocks|;
      ConcatLength(blocks[..n - 1], m);
      MulSucc(n - 1, m);
    }
  }

  /** Position k of a concatenation of blocks of length m is element k % m of block k / m. */
  lemma ConcatIndex<T>(blocks: seq<seq<T>>, m: nat, k: nat) returns (i: nat, j: nat)
    requires forall b :: 0 <= b < |blocks| ==> |blocks[b]| == m
    requires k < |Concat(blocks)|
    ensures i < |blocks| && j < m && k == i * m + j
    ensures Concat(blocks)[k] == blocks[i][j]
  {
    ConcatLength(blocks, m);
    i, j := k / m, k % m;
    if i >= |blocks| {
      MulMonotone(m, |blocks|, i);
      assert false;
    }
    ConcatAt(blocks, m, i, j);
  }

  /** An element of one block is an element of the concatenation. */
  lemma {:induction false} InConcat<T>(blocks: seq<seq<T>>, i: nat, e: T)
    requires i < |blocks| && e in blocks[i]
    ensures e in Concat(blocks)
  {
    var n := |blocks| - 1;
    if i < n {
      assert blocks[..n][i] == blocks[i];
      InConcat(blocks[..n], i, e);
    }
  }

  /** Every element of one block is an element of the concatenation. */
  lemma InConcatAll<T>(blocks: seq<seq<T>>, i: nat)
    requires i < |blocks|
    ensures forall e :: e in blocks[i] ==> e in Concat(blocks)
  {
    forall e | e in blocks[i] ensures e in Concat(blocks) {
      InConcat(blocks, i, e);
    }
  }

  /** The same after a one-command header. */
  lemma HeadedConcatAt<T>(head: T, blocks: seq<seq<T>>, m: nat, i: nat, k: nat)
    requires forall j :: 0 <= j < |blocks| ==> |blocks[j]| == m
    requires i < |blocks| && k < m
    ensures |[head] + Concat(blocks)| == 1 + |blocks| * m
    ensures ([head] + Concat(blocks))[0] == head
    ensures 1 + i * m + k < |[head] + Concat(blocks)|
    ensures ([head] + Concat(blocks))[1 + i * m + k] == blocks[i][k]
  {
    ConcatAt(blocks, m, i, k);
  }

  lemma ConcatSnoc<T>(blocks: seq<seq<T>>, i: nat)
    requires i < |blocks|
    ensures Concat(blocks[..i + 1]) == Concat(blocks[..i]) + blocks[i]
  {
    assert blocks[..i + 1][..i] == blocks[..i];
  }

  /** One more copy of `a`. */
  lemma MulSucc(n: int, a: int)
    ensures (n + 1) * a == n * a + a
  {
  }

  /** Doubling one factor doubles the product. */
  lemma MulDouble(a: int, b: int)
    ensures a * (2 * b) == 2 * (a * b)
  {
  }

  /** a <= b scales by a non-negative factor. */
  lemma MulMonotone(k: int, a: int, b: int)
    requires 0 <= k && a <= b
    ensures k * a <= k * b
  {
    assert k * b - k * a == k * (b - a);
  }
}
