/** The output of `draw_chars`: the terminal command stream that encodes a whole frame
    buffer as Braille glyphs. Row blocks run from the highest y down in steps of 4,
    tiles run left to right in steps of 2. */
module Frame {
  import opened Grid
  import opened Colors
  import opened Braille

  /** One queued terminal command: `cursor::MoveTo(column, row)`, `SetForegroundColor`,
      `Print` of a glyph, `Print` of a text. */
  datatype Command =
    | MoveTo(column: int, row: int)
    | SetForeground(color: Rgb)
    | PrintGlyph(ch: char)
    | PrintText(text: string)

  /** A grid `draw_chars` can encode without panicking: non-empty, rectangular, an even
      number of columns and a multiple of 4 rows (the source indexes `v[0]`, `v[col + 1]`
      and `v[col][row - 3]`). */
  predicate IsFrameGrid<T>(v: seq<seq<T>>) {
    && |v| > 0
    && |v| % 2 == 0
    && |v[0]| % 4 == 0
    && forall c :: 0 <= c < |v| ==> |v[c]| == |v[0]|
  }

  /** The tile whose top-left dot is `v[col][row]`: `tile[c][k] == v[col + c][row - k]`. */
  function TileAt<T>(v: seq<seq<T>>, col: int, row: int): (t: seq<seq<T>>)
    requires IsFrameGrid(v) && 0 <= col && col + 1 < |v| && 3 <= row < |v[0]|
    ensures IsTile(t)
    ensures forall c, k :: 0 <= c < 2 && 0 <= k < 4 ==> t[c][k] == v[col + c][row - k]
  {
    [[v[col][row], v[col][row - 1], v[col][row - 2], v[col][row - 3]],
     [v[col + 1][row], v[col + 1][row - 1], v[col + 1][row - 2], v[col + 1][row - 3]]]
  }

  /** The grid row at the top of row block `i` (block 0 holds y = H - 1). */
  function BlockRow<T>(v: seq<seq<T>>, i: int): int
    requires |v| > 0
  {
    |v[0]| - 1 - 4 * i
  }

  // ---- boolean frame: renderer2d, renderer3d and screen ----

  /** The glyphs of one row block, one per tile, left to right. */
  function GlyphRow(v: seq<seq<bool>>, row: int): (r: seq<Command>)
    requires IsFrameGrid(v) && 3 <= row < |v[0]|
    ensures |r| == |v| / 2
  {
    seq(|v| / 2, k requires 0 <= k < |v| / 2 => PrintGlyph(Glyph(TileAt(v, 2 * k, row))))
  }

  function GlyphBlocks(v: seq<seq<bool>>): (bs: seq<seq<Command>>)
    requires IsFrameGrid(v)
    ensures |bs| == |v[0]| / 4
    ensures forall i :: 0 <= i < |bs| ==> |bs[i]| == |v| / 2
  {
    seq(|v[0]| / 4, i requires 0 <= i < |v[0]| / 4 => GlyphRow(v, BlockRow(v, i)))
  }

  /** Everything a boolean `draw_chars` queues: one cursor move to (0, 0), then the glyphs. */
  function BoolFrame(v: seq<seq<bool>>): seq<Command>
    requires IsFrameGrid(v)
  {
    [MoveTo(0, 0)] + Concat(GlyphBlocks(v))
  }

  /** The boolean frame is one `MoveTo(0, 0)` followed by exactly (W/2) * (H/4) glyphs;
      glyph k of row block i encodes the tile at column 2k whose top row is H - 1 - 4i. */
  lemma BoolFrameLayout(v: seq<seq<bool>>, i: nat, k: nat)
    requires IsFrameGrid(v) && 4 * i + 4 <= |v[0]| && 2 * k + 2 <= |v|
    ensures |BoolFrame(v)| == 1 + (|v[0]| / 4) * (|v| / 2)
    ensures BoolFrame(v)[0] == MoveTo(0, 0)
    ensures var n := 1 + i * (|v| / 2) + k;
      n < |BoolFrame(v)| && BoolFrame(v)[n] == PrintGlyph(Glyph(TileAt(v, 2 * k, BlockRow(v, i))))
  {
    var bs := GlyphBlocks(v);
    var row := BlockRow(v, i);
    var m := |v| / 2;
    assert BoolFrame(v) == [MoveTo(0, 0)] + Concat(bs);
    HeadedConcatAt(MoveTo(0, 0), bs, m, i, k);
    assert bs[i] == GlyphRow(v, row);
    assert GlyphRow(v, row)[k] == PrintGlyph(Glyph(TileAt(v, 2 * k, row)));
  }

  /** A grid without rows produces the cursor move alone. */
  lemma BoolFrameOfEmptyColumns(v: seq<seq<bool>>)
    requires IsFrameGrid(v) && |v[0]| == 0
    ensures BoolFrame(v) == [MoveTo(0, 0)]
  {
  }

  /** A grid three tiles wide and one row block high produces the cursor move and the
      glyphs of its three tiles, left to right, each read from y = 3 down. */
  lemma BoolFrameOfThreeTiles(v: seq<seq<bool>>)
    requires IsFrameGrid(v) && |v| == 6 && |v[0]| == 4
    ensures BoolFrame(v) == [MoveTo(0, 0), PrintGlyph(Glyph(TileAt(v, 0, 3))),
                             PrintGlyph(Glyph(TileAt(v, 2, 3))), PrintGlyph(Glyph(TileAt(v, 4, 3)))]
  {
    var bs := GlyphBlocks(v);
    var row := GlyphRow(v, 3);
    assert bs == [row];
    assert bs[..|bs| - 1] == [];
    assert Concat(bs) == Concat(bs[..|bs| - 1]) + bs[0];
    assert row == [row[0], row[1], row[2]];
  }

  /** A 6-wide, 4-high grid: columns 0 and 1 all lit, column 2 is {T, F, F, T}, column 3
      {T, F, T, F}, columns 4 and 5 unlit (indexes are y). The tile is read from y = 3
      down, so the middle glyph shows column 3 upside down: U+28D1. */
  lemma BoolFrameExample(v: seq<seq<bool>>)
    requires v == [[true, true, true, true], [true, true, true, true],
                   [true, false, false, true], [true, false, true, false],
                   [false, false, false, false], [false, false, false, false]]
    ensures BoolFrame(v)
         == [MoveTo(0, 0), PrintGlyph('\U{28FF}'), PrintGlyph('\U{28D1}'), PrintGlyph('\U{2800}')]
  {
    BoolFrameOfThreeTiles(v);
    assert TileAt(v, 0, 3) == [[true, true, true, true], [true, true, true, true]];
    assert TileAt(v, 2, 3) == [[true, false, false, true], [false, true, false, true]];
    assert TileAt(v, 4, 3) == [[false, false, false, false], [false, false, false, false]];
    GlyphAll();
    GlyphSomeFlipped();
    GlyphNone();
  }

  /** The row scan of `draw_chars` visits exactly the H/4 blocks: the top row of block i
      is on the grid iff i < H/4, and then the whole block is. */
  lemma BlockRowRange<T>(v: seq<seq<T>>, i: int)
    requires IsFrameGrid(v) && 0 <= i <= |v[0]| / 4
    ensures BlockRow(v, i) >= 0 <==> i < |v[0]| / 4
    ensures i < |v[0]| / 4 ==> 3 <= BlockRow(v, i) < |v[0]|
  {
  }

  /** The inner loop of the boolean `draw_chars`: the tiles of the row block whose top
      row is `row`, left to right in steps of 2, each printed as its glyph. */
  method DrawGlyphRow(v: seq<seq<bool>>, row: int) returns (out: seq<Command>)
    requires IsFrameGrid(v) && 3 <= row < |v[0]|
    ensures out == GlyphRow(v, row)
  {
    ghost var glyphs := GlyphRow(v, row);
    out := [];
    var col := 0;
    ghost var k := 0;
    while col < |v|
      invariant 0 <= k <= |v| / 2 && col == 2 * k
      invariant out == glyphs[..k]
    {
      var tile := [[v[col][row], v[col][row - 1], v[col][row - 2], v[col][row - 3]],
                   [v[col + 1][row], v[col + 1][row - 1], v[col + 1][row - 2], v[col + 1][row - 3]]];
      assert tile == TileAt(v, col, row);
      var c := IntoBraille(tile);
      assert glyphs[..k + 1] == out + [PrintGlyph(c)];
      out := out + [PrintGlyph(c)];
      col := col + 2;
      k := k + 1;
    }
    assert glyphs[..k] == glyphs;
  }

  /** The boolean `draw_chars` scan: a cursor move to (0, 0), then the row blocks from the
      highest y down in steps of 4. */
  method DrawChars(v: seq<seq<bool>>) returns (out: seq<Command>)
    requires IsFrameGrid(v)
    ensures out == BoolFrame(v)
  {
    ghost var bs := GlyphBlocks(v);
    out := [MoveTo(0, 0)];
    var row := |v[0]| - 1;
    ghost var i := 0;
    BlockRowRange(v, 0);
    while row >= 0
      invariant 0 <= i <= |v[0]| / 4 && row == BlockRow(v, i)
      invariant out == [MoveTo(0, 0)] + Concat(bs[..i])
      decreases row + 1
    {
      BlockRowRange(v, i);
      var glyphs := DrawGlyphRow(v, row);
      ConcatSnoc(bs, i);
      AppendAssoc([MoveTo(0, 0)], Concat(bs[..i]), bs[i]);
      out := out + glyphs;
      row := row - 4;
      i := i + 1;
    }
    assert bs[..i] == bs;
  }

  // ---- colour frame: viewport ----

  /** The commands for one row block of a colour grid: for each tile, its average colour
      then its glyph. Command p belongs to tile p / 2. */
  function ColorRow(v: seq<seq<Rgb>>, row: int): (r: seq<Command>)
    requires IsFrameGrid(v) && 3 <= row < |v[0]|
    ensures |r| == |v|
  {
    seq(|v|, p requires 0 <= p < |v| =>
      var tile := TileAt(v, 2 * (p / 2), row);
      if p % 2 == 0 then SetForeground(Average(tile)) else PrintGlyph(ColorGlyph(tile)))
  }

  /** Row block i: a cursor move to the start of terminal row `origin.1 + i`, then the tiles. */
  function ColorBlocks(v: seq<seq<Rgb>>, origin: (int, int)): (bs: seq<seq<Command>>)
    requires IsFrameGrid(v)
    ensures |bs| == |v[0]| / 4
    ensures forall i :: 0 <= i < |bs| ==> |bs[i]| == |v| + 1
  {
    seq(|v[0]| / 4, i requires 0 <= i < |v[0]| / 4 =>
      [MoveTo(origin.0, origin.1 + i)] + ColorRow(v, BlockRow(v, i)))
  }

  /** Everything the viewport's `draw_chars` queues: a cursor move to the origin, then
      the row blocks. */
  function ColorFrame(v: seq<seq<Rgb>>, origin: (int, int)): seq<Command>
    requires IsFrameGrid(v)
  {
    [MoveTo(origin.0, origin.1)] + Concat(ColorBlocks(v, origin))
  }

  /** Tile k of a colour row: its average colour at 2k, its glyph at 2k + 1. */
  lemma ColorRowAt(v: seq<seq<Rgb>>, row: int, k: nat)
    requires IsFrameGrid(v) && 3 <= row < |v[0]| && 2 * k + 2 <= |v|
    ensures ColorRow(v, row)[2 * k] == SetForeground(Average(TileAt(v, 2 * k, row)))
    ensures ColorRow(v, row)[2 * k + 1] == PrintGlyph(ColorGlyph(TileAt(v, 2 * k, row)))
  {
    assert (2 * k) / 2 == k && (2 * k) % 2 == 0 && (2 * k + 1) / 2 == k && (2 * k + 1) % 2 == 1;
  }

  /** The colour frame is a cursor move to the origin, then per row block a cursor move to
      the block's terminal row followed by the block's colour row. */
  lemma ColorFrameAt(v: seq<seq<Rgb>>, origin: (int, int), i: nat, p: nat)
    requires IsFrameGrid(v) && 4 * i + 4 <= |v[0]| && p < |v|
    ensures |ColorFrame(v, origin)| == 1 + (|v[0]| / 4) * (|v| + 1)
    ensures ColorFrame(v, origin)[0] == MoveTo(origin.0, origin.1)
    ensures 1 + i * (|v| + 1) + 1 + p < |ColorFrame(v, origin)|
    ensures ColorFrame(v, origin)[1 + i * (|v| + 1)] == MoveTo(origin.0, origin.1 + i)
    ensures ColorFrame(v, origin)[1 + i * (|v| + 1) + 1 + p] == ColorRow(v, BlockRow(v, i))[p]
  {
    var bs := ColorBlocks(v, origin);
    var m := |v| + 1;
    var head := MoveTo(origin.0, origin.1);
    assert bs[i] == [MoveTo(origin.0, origin.1 + i)] + ColorRow(v, BlockRow(v, i));
    HeadedConcatAt(head, bs, m, i, 0);
    HeadedConcatAt(head, bs, m, i, 1 + p);
    assert bs[i][1 + p] == ColorRow(v, BlockRow(v, i))[p];
    assert 1 + i * (|v| + 1) + 1 + p == 1 + i * m + (1 + p);
  }

  /** Layout of the colour frame: 1 + (H/4) * (W + 1) commands; row block i starts with
      `MoveTo(origin.0, origin.1 + i)`, and tile k of the block is its average colour
      immediately followed by its glyph. */
  lemma ColorFrameLayout(v: seq<seq<Rgb>>, origin: (int, int), i: nat, k: nat)
    requires IsFrameGrid(v) && 4 * i + 4 <= |v[0]| && 2 * k + 2 <= |v|
    ensures |ColorFrame(v, origin)| == 1 + (|v[0]| / 4) * (|v| + 1)
    ensures ColorFrame(v, origin)[0] == MoveTo(origin.0, origin.1)
    ensures var start := 1 + i * (|v| + 1);
      var tile := TileAt(v, 2 * k, BlockRow(v, i));
      && start + 2 + 2 * k < |ColorFrame(v, origin)|
      && ColorFrame(v, origin)[start] == MoveTo(origin.0, origin.1 + i)
      && ColorFrame(v, origin)[start + 1 + 2 * k] == SetForeground(Average(tile))
      && ColorFrame(v, origin)[start + 2 + 2 * k] == PrintGlyph(ColorGlyph(tile))
  {
    ColorFrameAt(v, origin, i, 2 * k);
    ColorFrameAt(v, origin, i, 2 * k + 1);
    ColorRowAt(v, BlockRow(v, i), k);
  }
}
