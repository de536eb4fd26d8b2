/** RGB dots and the per-glyph colour average of the colour frame buffer. */
module Colors {
  import opened Grid

  /** A `u8` channel value. */
  type Byte = x: int | 0 <= x < 256

  /** An RGB triple, the `Color(u8, u8, u8)` of a dot and the `Color::Rgb` of a glyph. */
  datatype Rgb = Rgb(r: Byte, g: Byte, b: Byte) {
    function Get(ch: Channel): Byte {
      match ch
      case Red => r
      case Green => g
      case Blue => b
    }
  }

  datatype Channel = Red | Green | Blue

  /** A 2x4 tile `[[T; 4]; 2]`: two columns of four dots, top to bottom. */
  predicate IsTile<T>(t: seq<seq<T>>) {
    |t| == 2 && |t[0]| == 4 && |t[1]| == 4
  }

  /** The eight dots of a tile in `tile.into_iter().flatten()` order: left column, then right. */
  function Flatten<T>(t: seq<seq<T>>): (dots: seq<T>)
    requires IsTile(t)
    ensures |dots| == 8
  {
    t[0] + t[1]
  }

  /** Sum of one channel over a sequence of dots (the `sum_r`, `sum_g`, `sum_b` accumulators). */
  function Sum(dots: seq<Rgb>, ch: Channel): nat {
    if dots == [] then 0 else Sum(dots[..|dots| - 1], ch) + dots[|dots| - 1].Get(ch)
  }

  /** The `as u8` cast: keeps the low eight bits. */
  function AsU8(v: nat): Byte { v % 256 }

  /** `average_color`: each channel is the channel sum over the 8 dots divided by 8, cast to `u8`. */
  function Average(t: seq<seq<Rgb>>): Rgb
    requires IsTile(t)
  {
    var dots := Flatten(t);
    Rgb(AsU8(Sum(dots, Red) / 8), AsU8(Sum(dots, Green) / 8), AsU8(Sum(dots, Blue) / 8))
  }

  /** Every dot's channel lies in [lo, hi], so the sum lies in [n * lo, n * hi]. */
  lemma {:induction false} SumWithin(dots: seq<Rgb>, ch: Channel, lo: int, hi: int)
    requires forall k :: 0 <= k < |dots| ==> lo <= dots[k].Get(ch) <= hi
    ensures |dots| * lo <= Sum(dots, ch) <= |dots| * hi
  {
    if dots != [] {
      var n := |dots|;
      SumWithin(dots[..n - 1], ch, lo, hi);
      MulSucc(n - 1, lo);
      MulSucc(n - 1, hi);
    }
  }

  /** The channel sums of a tile never exceed 8 * 255 = 2040, so the `as u8` cast in
      `average_color` never truncates: each channel is exactly the truncated mean. */
  lemma AverageIsMean(t: seq<seq<Rgb>>, ch: Channel)
    requires IsTile(t)
    ensures Sum(Flatten(t), ch) <= 2040
    ensures Average(t).Get(ch) == Sum(Flatten(t), ch) / 8
  {
    SumWithin(Flatten(t), ch, 0, 255);
  }

  /** Each channel of the average lies between the smallest and the largest value of that
      channel among the eight dots. */
  lemma AverageWithin(t: seq<seq<Rgb>>, ch: Channel, lo: int, hi: int)
    requires IsTile(t)
    requires forall c, k :: 0 <= c < 2 && 0 <= k < 4 ==> lo <= t[c][k].Get(ch) <= hi
    ensures lo <= Average(t).Get(ch) <= hi
  {
    var dots := Flatten(t);
    forall k | 0 <= k < 8 ensures lo <= dots[k].Get(ch) <= hi {
      if k < 4 { assert dots[k] == t[0][k]; } else { assert dots[k] == t[1][k - 4]; }
    }
    SumWithin(dots, ch, lo, hi);
    AverageIsMean(t, ch);
  }

  /** A tile whose eight dots all have colour `c` averages to `c`. */
  lemma AverageOfUniform(t: seq<seq<Rgb>>, c: Rgb)
    requires IsTile(t)
    requires forall i, k :: 0 <= i < 2 && 0 <= k < 4 ==> t[i][k] == c
    ensures Average(t) == c
  {
    AverageWithin(t, Red, c.r, c.r);
    AverageWithin(t, Green, c.g, c.g);
    AverageWithin(t, Blue, c.b, c.b);
  }
}
