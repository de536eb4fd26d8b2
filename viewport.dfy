/** `renderer/viewport.rs`: the drawable area of the terminal and the colour frame
    encoder, which prints every 2x4 tile as its Braille glyph in the tile's average
    colour. */
module Viewport {
  import opened Grid
  import opened Colors
  import opened Braille
  import opened Frame

  /** A viewport: its size in pixels, two per terminal column and four per terminal row,
      and its upper left-hand terminal cell. Neither changes after construction. */
  class Viewport {
    const size: (int, int)
    const origin: (int, int)

    /** Both pairs are `u16` values; the pixel width is even and the pixel height a
        multiple of 4, one Braille cell being 2 x 4 pixels. */
    predicate Valid() {
      && U16(size.0) && U16(size.1) && U16(origin.0) && U16(origin.1)
      && size.0 % 2 == 0 && size.1 % 4 == 0
    }

    /** `Viewport::new`: the whole terminal, `columns` x `rows` cells as reported by the
        terminal (the query itself is not modelled), with the origin at (0, 0). The `u16`
        products must not overflow. */
    constructor New(columns: int, rows: int)
      requires U16(columns) && U16(rows) && columns * 2 <= 65535 && rows * 4 <= 65535
      ensures Valid()
      ensures size == (columns * 2, rows * 4) && origin == (0, 0)
    {
      size := (columns * 2, rows * 4);
      origin := (0, 0);
    }

    /** `Viewport::with_size_and_pos(w, h, x0, y0)`: a w x h cell area whose upper left
        cell is (x0, y0). */
    constructor WithSizeAndPos(w: int, h: int, x0: int, y0: int)
      requires U16(w) && U16(h) && U16(x0) && U16(y0) && w * 2 <= 65535 && h * 4 <= 65535
      ensures Valid()
      ensures size == (w * 2, h * 4) && origin == (x0, y0)
    {
      size := (w * 2, h * 4);
      origin := (x0, y0);
    }

    /** `size()`: the pixel size, an even width and a height that is a multiple of 4. */
    function Size(): (s: (int, int))
      requires Valid()
      ensures s == size && s.0 % 2 == 0 && s.1 % 4 == 0
    {
      size
    }

    /** `average_color`: the channel sums `sum_r`, `sum_g`, `sum_b` over the eight dots in
        flattened order, each divided by 8 and cast to `u8`. */
    static method AverageColor(t: seq<seq<Rgb>>) returns (color: Rgb)
      requires IsTile(t)
      ensures color == Average(t)
    {
      var dots := Flatten(t);
      var sumR, sumG, sumB := 0, 0, 0;
      for k := 0 to 8
        invariant sumR == Sum(dots[..k], Red)
        invariant sumG == Sum(dots[..k], Green)
        invariant sumB == Sum(dots[..k], Blue)
      {
        var dot := dots[k];
        assert dots[..k + 1][..k] == dots[..k];
        sumR := sumR + dot.r;
        sumG := sumG + dot.g;
        sumB := sumB + dot.b;
      }
      assert dots[..8] == dots;
      color := Rgb(AsU8(sumR / 8), AsU8(sumG / 8), AsU8(sumB / 8));
    }

    /** The colour `into_braille`: `pattern += dot << i` over the ordered dots, a dot
        counting 1 when any channel is non-zero, then the shift into the Braille block. */
    static method IntoBraille(t: seq<seq<Rgb>>) returns (c: char)
      requires IsTile(t)
      ensures c == ColorGlyph(t)
    {
      var dots := OrderedDots(t);
      var pattern := 0;
      for i := 0 to 8
        invariant pattern == ColorPattern(dots[..i])
      {
        var dot := dots[i];
        var bit := if dot.r != 0 || dot.g != 0 || dot.b != 0 then 1 else 0;
        ColorPatternSnoc(dots[..i], dot);
        assert dots[..i + 1] == dots[..i] + [dot];
        pattern := pattern + bit * Pow2(i);
      }
      assert dots[..8] == dots;
      assert Pow2(8) == 256;
      pattern := pattern + BLANK;
      c := pattern as char;
    }

    /** The inner loop of `draw_chars`: for each tile of the row block whose top row is
        `row`, left to right, its average colour and then its glyph. */
    static method DrawColorRow(v: seq<seq<Rgb>>, row: int) returns (out: seq<Command>)
      requires IsFrameGrid(v) && 3 <= row < |v[0]|
      ensures out == ColorRow(v, row)
    {
      ghost var cmds := ColorRow(v, row);
      out := [];
      var col := 0;
      ghost var k := 0;
      while col < |v|
        invariant 0 <= k <= |v| / 2 && col == 2 * k
        invariant out == cmds[..2 * k]
      {
        var tile := [[v[col][row], v[col][row - 1], v[col][row - 2], v[col][row - 3]],
                     [v[col + 1][row], v[col + 1][row - 1], v[col + 1][row - 2], v[col + 1][row - 3]]];
        assert tile == TileAt(v, col, row);
        var color := AverageColor(tile);
        var c := IntoBraille(tile);
        ColorRowAt(v, row, k);
        assert cmds[..2 * k + 2] == out + [SetForeground(color), PrintGlyph(c)];
        out := out + [SetForeground(color), PrintGlyph(c)];
        col := col + 2;
        k := k + 1;
      }
      assert cmds[..2 * k] == cmds;
    }

    /** `draw_chars`: a cursor move to the origin, then for each row block, from the
        highest y down, a cursor move to terminal row `origin.1 + i` and the block's
        tiles. The `u16` sum `i + origin.1` must not overflow. */
    method DrawChars(v: seq<seq<Rgb>>) returns (out: seq<Command>)
      requires Valid() && IsFrameGrid(v) && origin.1 + |v[0]| / 4 <= 65536
      ensures out == ColorFrame(v, origin)
    {
      ghost var bs := ColorBlocks(v, origin);
      ghost var head := [MoveTo(origin.0, origin.1)];
      out := [MoveTo(origin.0, origin.1)];
      var row := |v[0]| - 1;
      var i := 0;
      BlockRowRange(v, 0);
      while row >= 0
        invariant 0 <= i <= |v[0]| / 4 && row == BlockRow(v, i)
        invariant out == head + Concat(bs[..i])
        decreases row + 1
      {
        BlockRowRange(v, i);
        var move := MoveTo(origin.0, i + origin.1);
        var cmds := DrawColorRow(v, row);
        assert bs[i] == [move] + cmds;
        ConcatSnoc(bs, i);
        AppendAssoc(head, Concat(bs[..i]), bs[i]);
        out := out + ([move] + cmds);
        row := row - 4;
        i := i + 1;
      }
      BlockRowRange(v, i);
      assert bs[..i] == bs;
    }
  }

  /** The colour of the unit tests' lit dots. */
  const WHITE: Rgb := Rgb(255, 255, 255)

  /** The colour of the unit tests' unlit dots. */
  const BLACK: Rgb := Rgb(0, 0, 0)

  /** All eight dots (255, 255, 255): U+28FF. */
  lemma ColorGlyphAllWhite(t: seq<seq<Rgb>>)
    requires t == [[WHITE, WHITE, WHITE, WHITE], [WHITE, WHITE, WHITE, WHITE]]
    ensures ColorGlyph(t) == '\U{28FF}'
  {
    ColorGlyphOfMask(t);
    assert LitTile(t) == [[true, true, true, true], [true, true, true, true]];
    GlyphAll();
  }

  /** All eight dots black: U+2800. */
  lemma ColorGlyphAllBlack(t: seq<seq<Rgb>>)
    requires t == [[BLACK, BLACK, BLACK, BLACK], [BLACK, BLACK, BLACK, BLACK]]
    ensures ColorGlyph(t) == '\U{2800}'
  {
    ColorGlyphOfMask(t);
    assert LitTile(t) == [[false, false, false, false], [false, false, false, false]];
    GlyphNone();
  }

  /** White dots at {left0, left3, right0, right2}, the rest black: U+2869. */
  lemma ColorGlyphMixed(t: seq<seq<Rgb>>)
    requires t == [[WHITE, BLACK, BLACK, WHITE], [WHITE, BLACK, WHITE, BLACK]]
    ensures ColorGlyph(t) == '\U{2869}'
  {
    ColorGlyphOfMask(t);
    assert LitTile(t) == [[true, false, false, true], [true, false, true, false]];
    GlyphSome();
  }
}
