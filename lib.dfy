/** src/lib.rs: the first renderer, which keeps a pixel buffer of two pixels per
    terminal column and four per terminal row and encodes tiles as Braille glyphs. */
module Lib {
  import opened Grid
  import opened Colors
  import opened Braille
  import opened Raster

  class Renderer {
    /** The terminal size in cells, as reported at `init`. */
    const termSize: (int, int)
    var pixelBuffer: array2<bool>

    /** The buffer is two pixels per cell across and four down. */
    predicate Valid()
      reads this
    {
      U16(termSize.0) && U16(termSize.1)
      && pixelBuffer.Length0 == 2 * termSize.0 && pixelBuffer.Length1 == 4 * termSize.1
    }

    /** `Renderer::init` for a terminal of `columns` x `rows` cells (the size query is not
        modelled): an all-off buffer of `columns * 2` x `rows * 4` pixels. */
    constructor Init(columns: int, rows: int)
      requires U16(columns) && U16(rows)
      ensures termSize == (columns, rows) && Valid()
      ensures fresh(pixelBuffer) && pixelBuffer.Length0 == 2 * columns && pixelBuffer.Length1 == 4 * rows
      ensures AllOff(Cells(pixelBuffer))
    {
      var buffer := NewGrid(columns * 2, rows * 4);
      termSize := (columns, rows);
      pixelBuffer := buffer;
    }

    /** `terminal_size`: the size in cells, so the pixel buffer is twice as wide and four
        times as tall. */
    function TerminalSize(): (s: (int, int))
      reads this
      requires Valid()
      ensures s == termSize && U16(s.0) && U16(s.1)
      ensures pixelBuffer.Length0 == 2 * s.0 && pixelBuffer.Length1 == 4 * s.1
    {
      termSize
    }

    /** `into_braille`: `pattern += (dot as u32) << i`, the shared Braille loop. */
    static method IntoBraille(t: seq<seq<bool>>) returns (c: char)
      requires IsTile(t)
      ensures c == Glyph(t) && IsBrailleGlyph(c) && Decode(c) == t
    {
      c := Braille.IntoBraille(t);
      DecodeGlyph(t);
    }
  }
}
