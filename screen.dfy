/** src/renderer/screen.rs: the terminal screen, two pixels per column and four per row,
    that encodes a boolean pixel grid as Braille glyphs. */
module TerminalScreen {
  import opened Grid
  import opened Colors
  import opened Braille
  import opened Frame

  class Screen {
    /** The pixel size, fixed by `new`. */
    const size: (int, int)

    /** The size fits `u16` and tiles into whole Braille cells. */
    predicate Valid() {
      U16(size.0) && U16(size.1) && size.0 % 2 == 0 && size.1 % 4 == 0
    }

    /** `Screen::new` for a terminal of `columns` x `rows` cells (the size query is not
        modelled): `(columns * 2, rows * 4)` pixels. The `u16` products must not overflow. */
    constructor New(columns: int, rows: int)
      requires U16(columns) && U16(rows) && columns * 2 <= 65535 && rows * 4 <= 65535
      ensures size == (columns * 2, rows * 4) && Valid()
    {
      size := (columns * 2, rows * 4);
    }

    /** `get_size`: the pixel size; a grid of that size tiles into whole Braille cells. */
    function GetSize(): (s: (int, int))
      requires Valid()
      ensures s == size && U16(s.0) && U16(s.1) && s.0 % 2 == 0 && s.1 % 4 == 0
    {
      size
    }

    /** `into_braille`: the shared Braille loop. */
    static method IntoBraille(t: seq<seq<bool>>) returns (c: char)
      requires IsTile(t)
      ensures c == Glyph(t) && IsBrailleGlyph(c) && Decode(c) == t
    {
      c := Braille.IntoBraille(t);
      DecodeGlyph(t);
    }

    /** `draw_chars`: `MoveTo(0, 0)`, then the glyphs of the row blocks from the highest y
        down in steps of 4, tiles left to right in steps of 2. */
    method DrawChars(v: seq<seq<bool>>) returns (out: seq<Command>)
      requires IsFrameGrid(v)
      ensures out == BoolFrame(v)
    {
      out := Frame.DrawChars(v);
    }
  }
}
