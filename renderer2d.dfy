/** src/renderer2d.rs: the 2-D renderer. A pixel grid two pixels per terminal column and
    four per terminal row, drawn into with points, lines and circles, plus text labels
    printed over the Braille frame. */
module Renderer2d {
  import opened Colors
  import opened Grid
  import opened Braille
  import opened Frame
  import opened Bresenham
  import opened CircleDda
  import opened Raster

  /** Extra pixels between Braille cells; both zero, so tiles are 2 x 4 and adjacent. */
  const CHAR_SPACE: int := 0
  const LINE_SPACE: int := 0

  /** A text label: the message and the `(row, col)` pair `write_label` stores. */
  datatype TextLabel = TextLabel(message: string, position: (int, int))

  // ---- the text stream: as written and corrected ----

  /** What `draw_text_buffer` queues for one label as written: `MoveTo(pos.0, pos.1)`,
      which takes the stored row as the column and the stored column as the row. */
  function LabelCommandsAsWritten(l: TextLabel): seq<Command> {
    [MoveTo(l.position.0, l.position.1), PrintText(l.message)]
  }

  function LabelBlocksAsWritten(labels: seq<TextLabel>): (bs: seq<seq<Command>>)
    ensures |bs| == |labels|
    ensures forall i :: 0 <= i < |bs| ==> |bs[i]| == 2
  {
    seq(|labels|, i requires 0 <= i < |labels| => LabelCommandsAsWritten(labels[i]))
  }

  /** The text stream `draw_text_buffer` queues as written. */
  function TextCommandsAsWritten(labels: seq<TextLabel>): seq<Command> {
    Concat(LabelBlocksAsWritten(labels))
  }

  /** The intended commands for one label: the cursor to the label's column and row, then
      the message. */
  function LabelCommands(l: TextLabel): seq<Command> {
    [MoveTo(l.position.1, l.position.0), PrintText(l.message)]
  }

  function LabelBlocks(labels: seq<TextLabel>): (bs: seq<seq<Command>>)
    ensures |bs| == |labels|
    ensures forall i :: 0 <= i < |bs| ==> |bs[i]| == 2
  {
    seq(|labels|, i requires 0 <= i < |labels| => LabelCommands(labels[i]))
  }

  /** The intended text stream: label by label, in the order they were written. */
  function TextCommands(labels: seq<TextLabel>): seq<Command> {
    Concat(LabelBlocks(labels))
  }

  /** As written, a label stored by `write_label(0, 5, msg)` is printed with its cursor at
      column 0 and row 5, not at column 5 and row 0. */
  lemma LabelSwapped(msg: string)
    ensures TextCommandsAsWritten([TextLabel(msg, (0, 5))])[0] == MoveTo(0, 5)
    ensures TextCommandsAsWritten([TextLabel(msg, (0, 5))])[0] != MoveTo(5, 0)
  {
    LabelPrintedAtAsWritten([TextLabel(msg, (0, 5))], 0);
  }

  /** As written: label i of the buffer is printed as `MoveTo(pos.0, pos.1)` followed by
      its message, at positions 2i and 2i + 1 of the text stream. */
  lemma LabelPrintedAtAsWritten(labels: seq<TextLabel>, i: nat)
    requires i < |labels|
    ensures |TextCommandsAsWritten(labels)| == 2 * |labels|
    ensures TextCommandsAsWritten(labels)[2 * i] == MoveTo(labels[i].position.0, labels[i].position.1)
    ensures TextCommandsAsWritten(labels)[2 * i + 1] == PrintText(labels[i].message)
  {
    ConcatLength(LabelBlocksAsWritten(labels), 2);
    ConcatAt(LabelBlocksAsWritten(labels), 2, i, 0);
    ConcatAt(LabelBlocksAsWritten(labels), 2, i, 1);
  }

  /** Corrected: label i of the buffer is printed as a cursor move to its column and row
      followed by its message, at positions 2i and 2i + 1 of the text stream. */
  lemma LabelPrintedAt(labels: seq<TextLabel>, i: nat)
    requires i < |labels|
    ensures |TextCommands(labels)| == 2 * |labels|
    ensures TextCommands(labels)[2 * i] == MoveTo(labels[i].position.1, labels[i].position.0)
    ensures TextCommands(labels)[2 * i + 1] == PrintText(labels[i].message)
  {
    ConcatLength(LabelBlocks(labels), 2);
    ConcatAt(LabelBlocks(labels), 2, i, 0);
    ConcatAt(LabelBlocks(labels), 2, i, 1);
  }

  /** Corrected: the label `write_label(row, col, message)` adds is printed last, at
      column `col` of terminal row `row`. */
  lemma WrittenLabelPrinted(labels: seq<TextLabel>, row: int, col: int, message: string)
    ensures TextCommands(labels + [TextLabel(message, (row, col))])
         == TextCommands(labels) + [MoveTo(col, row), PrintText(message)]
  {
    var after := labels + [TextLabel(message, (row, col))];
    assert LabelBlocks(after)[..|labels|] == LabelBlocks(labels);
    ConcatSnoc(LabelBlocks(after), |labels|);
    assert LabelBlocks(after)[..|labels| + 1] == LabelBlocks(after);
  }

  /** `draw_text_buffer` as written: `MoveTo(pos.0, pos.1)` and the message, per label. */
  method DrawTextBufferAsWritten(labels: seq<TextLabel>) returns (out: seq<Command>)
    ensures out == TextCommandsAsWritten(labels)
  {
    ghost var blocks := LabelBlocksAsWritten(labels);
    out := [];
    for i := 0 to |labels|
      invariant out == Concat(blocks[..i])
    {
      var pos := labels[i].position;
      ConcatSnoc(blocks, i);
      out := out + [MoveTo(pos.0, pos.1), PrintText(labels[i].message)];
    }
    assert blocks[..|labels|] == blocks;
  }

  /** `draw_text_buffer` corrected: the cursor goes to the stored column `pos.1` and row
      `pos.0`. */
  method DrawTextBuffer(labels: seq<TextLabel>) returns (out: seq<Command>)
    ensures out == TextCommands(labels)
  {
    ghost var blocks := LabelBlocks(labels);
    out := [];
    for i := 0 to |labels|
      invariant out == Concat(blocks[..i])
    {
      var pos := labels[i].position;
      ConcatSnoc(blocks, i);
      out := out + [MoveTo(pos.1, pos.0), PrintText(labels[i].message)];
    }
    assert blocks[..|labels|] == blocks;
  }

  // ---- the renderer ----

  class Renderer {
    /** The pixel size (`term_size`), fixed by `new`. */
    const termSize: (int, int)
    var pixelGrid: array2<bool>
    var textBuffer: seq<TextLabel>

    /** The grid is `term_size.0` columns of `term_size.1` pixels each, and that size fits
        `u16` and tiles into whole Braille cells. */
    predicate Valid()
      reads this
    {
      && pixelGrid.Length0 == termSize.0 && pixelGrid.Length1 == termSize.1
      && U16(termSize.0) && U16(termSize.1) && termSize.0 % 2 == 0 && termSize.1 % 4 == 0
    }

    /** `Renderer::new` for a terminal of `columns` x `rows` cells (the size query is not
        modelled): `(2 + CHAR_SPACE) * columns` by `(4 + LINE_SPACE) * rows` pixels, all
        off, and no labels. The `u16` products must not overflow. */
    constructor New(columns: int, rows: int)
      requires U16(columns) && U16(rows)
      requires columns * (2 + CHAR_SPACE) <= 65535 && rows * (4 + LINE_SPACE) <= 65535
      ensures Valid() && fresh(pixelGrid)
      ensures termSize == (2 * columns, 4 * rows)
      ensures AllOff(Cells(pixelGrid)) && textBuffer == []
    {
      var width := columns * (2 + CHAR_SPACE);
      var height := rows * (4 + LINE_SPACE);
      var grid := NewGrid(width, height);
      termSize := (width, height);
      pixelGrid := grid;
      textBuffer := [];
    }

    /** `terminal_size`: the pixel size, an even width and a height divisible by 4. */
    function TerminalSize(): (s: (int, int))
      reads this
      requires Valid()
      ensures s == termSize && U16(s.0) && U16(s.1) && s.0 % 2 == 0 && s.1 % 4 == 0
    {
      termSize
    }

    /** `into_braille`: the shared Braille loop. */
    static method IntoBraille(t: seq<seq<bool>>) returns (c: char)
      requires IsTile(t)
      ensures c == Glyph(t) && IsBrailleGlyph(c) && Decode(c) == t
    {
      c := Braille.IntoBraille(t);
      DecodeGlyph(t);
    }

    /** `draw_chars`: `MoveTo(0, 0)`, then the glyphs, row blocks stepping down by
        `4 + LINE_SPACE` and tiles stepping right by `2 + CHAR_SPACE`. */
    static method DrawChars(v: seq<seq<bool>>) returns (out: seq<Command>)
      requires IsFrameGrid(v)
      ensures out == BoolFrame(v)
    {
      assert 4 + LINE_SPACE == 4 && 2 + CHAR_SPACE == 2;
      out := Frame.DrawChars(v);
    }

    /** `write_label(row, col, message)`: one more label at the end of the buffer, stored
        as `(row, col)`; the pixels are untouched. */
    method WriteLabel(row: int, col: int, message: string)
      modifies this
      ensures textBuffer == old(textBuffer) + [TextLabel(message, (row, col))]
      ensures pixelGrid == old(pixelGrid)
    {
      textBuffer := textBuffer + [TextLabel(message, (row, col))];
    }

    method DrawPixel(x: int, y: int)
      requires Valid() && SmallGrid(pixelGrid) && I16(x) && I16(y)
      modifies pixelGrid
      ensures Cells(pixelGrid) == Paint(old(Cells(pixelGrid)), [(x, y)])
    {
      Raster.DrawPixel(pixelGrid, x, y);
    }

    method DrawLine(x1: int, y1: int, x2: int, y2: int)
      requires Valid() && SmallGrid(pixelGrid) && LineFits(x1, y1, x2, y2)
      modifies pixelGrid
      ensures Cells(pixelGrid) == Paint(old(Cells(pixelGrid)), LinePoints(x1, y1, x2, y2))
    {
      Raster.DrawLine(pixelGrid, x1, y1, x2, y2);
    }

    method DrawCircle(cx: int, cy: int, r: int)
      requires Valid() && SmallGrid(pixelGrid) && CircleFits(cx, cy, r)
      modifies pixelGrid
      ensures Cells(pixelGrid) == Paint(old(Cells(pixelGrid)), CirclePoints(cx, cy, r))
    {
      Raster.DrawCircle(pixelGrid, cx, cy, r);
    }

    method DrawFilledCircle(cx: int, cy: int, r: int)
      requires Valid() && SmallGrid(pixelGrid) && CircleFits(cx, cy, r)
      modifies pixelGrid
      ensures Cells(pixelGrid) == Paint(old(Cells(pixelGrid)), FilledPoints(cx, cy, r))
    {
      Raster.DrawFilledCircle(pixelGrid, cx, cy, r);
    }

    /** `render`: the Braille frame of the grid, then the labels as `draw_text_buffer`
        queues them, with `MoveTo(pos.0, pos.1)`; nothing in the renderer changes. */
    method Render() returns (out: seq<Command>)
      requires Valid() && IsFrameGrid(Cells(pixelGrid))
      ensures out == BoolFrame(Cells(pixelGrid)) + TextCommandsAsWritten(textBuffer)
    {
      var frame := DrawChars(Cells(pixelGrid));
      var text := DrawTextBufferAsWritten(textBuffer);
      out := frame + text;
    }

    /** `render` with the corrected `draw_text_buffer`: each label is printed at its own
        column and row. */
    method RenderIntended() returns (out: seq<Command>)
      requires Valid() && IsFrameGrid(Cells(pixelGrid))
      ensures out == BoolFrame(Cells(pixelGrid)) + TextCommands(textBuffer)
    {
      var frame := DrawChars(Cells(pixelGrid));
      var text := DrawTextBuffer(textBuffer);
      out := frame + text;
    }

    /** `clear`: a fresh all-off grid of the same size and no labels. */
    method Clear()
      requires Valid()
      modifies this
      ensures Valid() && fresh(pixelGrid) && AllOff(Cells(pixelGrid)) && textBuffer == []
    {
      pixelGrid := NewGrid(termSize.0, termSize.1);
      textBuffer := [];
    }
  }
}
