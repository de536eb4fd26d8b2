/** The Braille glyph encoder shared by every renderer: a 2x4 tile of dots becomes one
    code point of the Unicode Braille Patterns block, U+2800 to U+28FF (the Unicode
    Standard, Braille section of the Symbols chapter). Dots 1 to 8 of a cell are bits 0
    to 7 of the offset from U+2800. */
module Braille {
  import opened Colors

  /** The empty Braille cell, U+2800. */
  const BLANK: int := 0x2800

  /** The full Braille cell, U+28FF. */
  const FULL: int := 0x28FF

  function Pow2(n: nat): (p: nat)
    ensures p >= 1
  {
    if n == 0 then 1 else 2 * Pow2(n - 1)
  }

  /** Bit `i` of `n`: the low bit of `n` shifted right `i` times. */
  predicate Bit(n: nat, i: nat) {
    if i == 0 then n % 2 == 1 else Bit(n / 2, i - 1)
  }

  /** The number whose bit `i` is `dots[i]`: `sum of (dot << i)`. */
  function Pattern(dots: seq<bool>): (p: nat)
    ensures p < Pow2(|dots|)
  {
    if dots == [] then 0 else (if dots[0] then 1 else 0) + 2 * Pattern(dots[1..])
  }

  /** The first `k` bits of `n`, lowest first. */
  function Bits(n: nat, k: nat): (dots: seq<bool>)
    ensures |dots| == k
  {
    seq(k, i requires 0 <= i < k => Bit(n, i))
  }

  /** `ordered_dots`: the tile's dots in Braille dot order 1..8, that is
      `[left0, left1, left2, right0, right1, right2, left3, right3]`. */
  function OrderedDots<T>(t: seq<seq<T>>): (dots: seq<T>)
    requires IsTile(t)
    ensures |dots| == 8
  {
    [t[0][0], t[0][1], t[0][2], t[1][0], t[1][1], t[1][2], t[0][3], t[1][3]]
  }

  /** The tile whose ordered dots are `dots`: the inverse of `OrderedDots`. */
  function TileOf<T>(dots: seq<T>): (t: seq<seq<T>>)
    requires |dots| == 8
    ensures IsTile(t)
  {
    [[dots[0], dots[1], dots[2], dots[6]], [dots[3], dots[4], dots[5], dots[7]]]
  }

  /** `into_braille` on a boolean tile: U+2800 plus the pattern of its ordered dots.
      The conversion to `char` is where the source's `char::from_u32(..).expect(..)` sits;
      it is well defined because the code point lies inside the Braille block. */
  function Glyph(t: seq<seq<bool>>): (c: char)
    requires IsTile(t)
    ensures BLANK <= c as int <= FULL
  {
    assert Pow2(8) == 256;
    (BLANK + Pattern(OrderedDots(t))) as char
  }

  predicate IsBrailleGlyph(c: char) { BLANK <= c as int <= FULL }

  /** The tile a Braille glyph shows. */
  function Decode(c: char): (t: seq<seq<bool>>)
    requires IsBrailleGlyph(c)
    ensures IsTile(t)
  {
    TileOf(Bits(c as int - BLANK, 8))
  }

  /** A dot of the colour variant is lit when any channel is non-zero. */
  predicate Lit(c: Rgb) { c.r != 0 || c.g != 0 || c.b != 0 }

  /** The on/off mask of a colour tile. */
  function LitTile(t: seq<seq<Rgb>>): (m: seq<seq<bool>>)
    requires IsTile(t)
    ensures IsTile(m)
  {
    [[Lit(t[0][0]), Lit(t[0][1]), Lit(t[0][2]), Lit(t[0][3])],
     [Lit(t[1][0]), Lit(t[1][1]), Lit(t[1][2]), Lit(t[1][3])]]
  }

  /** The pattern of the colour variant: bit `i` is set when dot `i` is lit. */
  function ColorPattern(dots: seq<Rgb>): (p: nat)
    ensures p < Pow2(|dots|)
  {
    if dots == [] then 0 else (if Lit(dots[0]) then 1 else 0) + 2 * ColorPattern(dots[1..])
  }

  /** `into_braille` on a colour tile: U+2800 plus the pattern of its ordered dots, a dot
      counting as set when any of its channels is non-zero. */
  function ColorGlyph(t: seq<seq<Rgb>>): (c: char)
    requires IsTile(t)
    ensures BLANK <= c as int <= FULL
  {
    assert Pow2(8) == 256;
    (BLANK + ColorPattern(OrderedDots(t))) as char
  }

  // ---- the accumulation loop ----

  /** Adding the next dot as bit |s| extends the pattern: this is one step of the
      source's loop `pattern += dot << i`. */
  lemma {:induction false} PatternSnoc(s: seq<bool>, b: bool)
    ensures Pattern(s + [b]) == Pattern(s) + (if b then Pow2(|s|) else 0)
  {
    if s != [] {
      assert (s + [b])[1..] == s[1..] + [b];
      PatternSnoc(s[1..], b);
    }
  }

  /** The loop of every boolean `into_braille`: `pattern += dot << i` over the ordered
      dots, then the shift into the Braille block. */
  method IntoBraille(t: seq<seq<bool>>) returns (c: char)
    requires IsTile(t)
    ensures c == Glyph(t)
  {
    var dots := OrderedDots(t);
    var pattern := 0;
    for i := 0 to 8
      invariant pattern == Pattern(dots[..i])
    {
      var dot := if dots[i] then 1 else 0;
      PatternSnoc(dots[..i], dots[i]);
      assert dots[..i + 1] == dots[..i] + [dots[i]];
      pattern := pattern + dot * Pow2(i);
    }
    assert dots[..8] == dots;
    assert Pow2(8) == 256;
    pattern := pattern + BLANK;
    c := pattern as char;
  }

  /** The colour loop's step: dot `|s|` adds bit `|s|` when it is lit. */
  lemma {:induction false} ColorPatternSnoc(s: seq<Rgb>, c: Rgb)
    ensures ColorPattern(s + [c]) == ColorPattern(s) + (if Lit(c) then Pow2(|s|) else 0)
  {
    if s != [] {
      assert (s + [c])[1..] == s[1..] + [c];
      ColorPatternSnoc(s[1..], c);
    }
  }

  // ---- bits and round trips ----

  /** Bit `i` of the pattern is set iff dot `i` is lit. */
  lemma {:induction false} PatternBit(dots: seq<bool>, i: nat)
    requires i < |dots|
    ensures Bit(Pattern(dots), i) == dots[i]
  {
    var p := Pattern(dots);
    var low := if dots[0] then 1 else 0;
    assert p == low + 2 * Pattern(dots[1..]);
    assert p % 2 == low && p / 2 == Pattern(dots[1..]);
    if i > 0 {
      PatternBit(dots[1..], i - 1);
    }
  }

  /** Reading back the pattern's bits gives the dots. */
  lemma BitsOfPattern(dots: seq<bool>)
    ensures Bits(Pattern(dots), |dots|) == dots
  {
    forall i | 0 <= i < |dots| ensures Bits(Pattern(dots), |dots|)[i] == dots[i] {
      PatternBit(dots, i);
    }
  }

  /** Packing the first `k` bits of `n < 2^k` gives back `n`. */
  lemma {:induction false} PatternOfBits(n: nat, k: nat)
    requires n < Pow2(k)
    ensures Pattern(Bits(n, k)) == n
  {
    if k > 0 {
      var bs := Bits(n, k);
      assert bs[1..] == Bits(n / 2, k - 1) by {
        forall i | 0 <= i < k - 1 ensures bs[1..][i] == Bits(n / 2, k - 1)[i] {
          assert bs[1..][i] == Bit(n, i + 1) == Bit(n / 2, i);
        }
      }
      PatternOfBits(n / 2, k - 1);
      assert bs[0] == (n % 2 == 1);
    }
  }

  /** The glyph's code point minus U+2800 has bit `i` set iff ordered dot `i` of the tile
      is lit; dot order is `[left0, left1, left2, right0, right1, right2, left3, right3]`. */
  lemma GlyphBits(t: seq<seq<bool>>, i: nat)
    requires IsTile(t) && i < 8
    ensures Bit(Glyph(t) as int - BLANK, i) <==> OrderedDots(t)[i]
  {
    PatternBit(OrderedDots(t), i);
  }

  /** The tile can be recovered from its glyph. */
  lemma DecodeGlyph(t: seq<seq<bool>>)
    requires IsTile(t)
    ensures IsBrailleGlyph(Glyph(t)) && Decode(Glyph(t)) == t
  {
    var dots := OrderedDots(t);
    BitsOfPattern(dots);
    assert Glyph(t) as int - BLANK == Pattern(dots);
    assert TileOf(dots) == t by {
      assert TileOf(dots)[0] == t[0];
      assert TileOf(dots)[1] == t[1];
    }
  }

  /** Every code point of the Braille block is the glyph of exactly the tile it decodes to. */
  lemma GlyphDecode(c: char)
    requires IsBrailleGlyph(c)
    ensures Glyph(Decode(c)) == c
  {
    var n := c as int - BLANK;
    assert Pow2(8) == 256;
    PatternOfBits(n, 8);
    var bs := Bits(n, 8);
    assert OrderedDots(TileOf(bs)) == bs;
  }

  /** Distinct tiles give distinct glyphs. */
  lemma GlyphInjective(t1: seq<seq<bool>>, t2: seq<seq<bool>>)
    requires IsTile(t1) && IsTile(t2)
    requires Glyph(t1) == Glyph(t2)
    ensures t1 == t2
  {
    DecodeGlyph(t1);
    DecodeGlyph(t2);
  }

  /** The colour pattern is the boolean pattern of the dots' lit flags. */
  lemma {:induction false} ColorPatternOfLit(dots: seq<Rgb>)
    ensures ColorPattern(dots) == Pattern(seq(|dots|, k requires 0 <= k < |dots| => Lit(dots[k])))
  {
    var lit := seq(|dots|, k requires 0 <= k < |dots| => Lit(dots[k]));
    if dots != [] {
      assert lit[1..] == seq(|dots| - 1, k requires 0 <= k < |dots| - 1 => Lit(dots[1..][k]));
      ColorPatternOfLit(dots[1..]);
    }
  }

  /** A colour glyph shows the tile's lit mask: decoding it gives back which dots have a
      non-zero channel. */
  lemma DecodeColorGlyph(t: seq<seq<Rgb>>)
    requires IsTile(t)
    ensures Decode(ColorGlyph(t)) == LitTile(t)
  {
    var dots := OrderedDots(t);
    var lit := seq(8, k requires 0 <= k < 8 => Lit(dots[k]));
    ColorPatternOfLit(dots);
    BitsOfPattern(lit);
    assert ColorGlyph(t) as int - BLANK == Pattern(lit);
    assert TileOf(lit) == LitTile(t);
  }

  /** A colour tile shows the same glyph as its lit mask: the colour variant is the
      boolean encoder applied to "any channel non-zero". */
  lemma ColorGlyphOfMask(t: seq<seq<Rgb>>)
    requires IsTile(t)
    ensures ColorGlyph(t) == Glyph(LitTile(t))
  {
    DecodeColorGlyph(t);
    GlyphDecode(ColorGlyph(t));
  }

  /** In the colour variant, bit `i` is set iff ordered dot `i` has a non-zero channel. */
  lemma ColorGlyphBits(t: seq<seq<Rgb>>, i: nat)
    requires IsTile(t) && i < 8
    ensures Bit(ColorGlyph(t) as int - BLANK, i) <==> Lit(OrderedDots(t)[i])
  {
    var dots := OrderedDots(t);
    var lit := seq(8, k requires 0 <= k < 8 => Lit(dots[k]));
    ColorPatternOfLit(dots);
    PatternBit(lit, i);
  }

  // ---- the unit tests' tiles ----

  lemma PatternAllLit(n: nat)
    ensures Pattern(seq(n, _ => true)) == Pow2(n) - 1
  {
    if n > 0 {
      assert seq(n, _ => true)[1..] == seq(n - 1, _ => true);
      PatternAllLit(n - 1);
    }
  }

  lemma PatternNoneLit(n: nat)
    ensures Pattern(seq(n, _ => false)) == 0
  {
    if n > 0 {
      assert seq(n, _ => false)[1..] == seq(n - 1, _ => false);
      PatternNoneLit(n - 1);
    }
  }

  /** All eight dots lit: U+28FF. */
  lemma GlyphAll()
    ensures Glyph([[true, true, true, true], [true, true, true, true]]) == '\U{28FF}'
  {
    var t := [[true, true, true, true], [true, true, true, true]];
    assert OrderedDots(t) == seq(8, _ => true);
    PatternAllLit(8);
    assert Pow2(8) == 256;
  }

  /** No dot lit: U+2800. */
  lemma GlyphNone()
    ensures Glyph([[false, false, false, false], [false, false, false, false]]) == '\U{2800}'
  {
    var t := [[false, false, false, false], [false, false, false, false]];
    assert OrderedDots(t) == seq(8, _ => false);
    PatternNoneLit(8);
  }

  /** Lit dots {left0, left3, right0, right2}: U+2869. */
  lemma GlyphSome()
    ensures Glyph([[true, false, false, true], [true, false, true, false]]) == '\U{2869}'
  {
    var dots := OrderedDots([[true, false, false, true], [true, false, true, false]]);
    assert dots == [true, false, false, true, false, true, true, false];
    assert Pattern(dots) == 0x69 by {
      assert dots[1..] == [false, false, true, false, true, true, false];
      assert dots[2..] == [false, true, false, true, true, false];
      assert dots[3..] == [true, false, true, true, false];
      assert dots[4..] == [false, true, true, false];
      assert dots[5..] == [true, true, false];
      assert dots[6..] == [true, false];
      assert dots[7..] == [false];
      assert dots[8..] == [];
    }
  }

  /** The same four dots, each column turned upside down ({left0, left3, right1, right3}):
      U+28D1. */
  lemma GlyphSomeFlipped()
    ensures Glyph([[true, false, false, true], [false, true, false, true]]) == '\U{28D1}'
  {
    var dots := OrderedDots([[true, false, false, true], [false, true, false, true]]);
    assert dots == [true, false, false, false, true, false, true, true];
    assert Pattern(dots) == 0xD1 by {
      assert dots[1..] == [false, false, false, true, false, true, true];
      assert dots[2..] == [false, false, true, false, true, true];
      assert dots[3..] == [false, true, false, true, true];
      assert dots[4..] == [true, false, true, true];
      assert dots[5..] == [false, true, true];
      assert dots[6..] == [true, true];
      assert dots[7..] == [true];
      assert dots[8..] == [];
    }
  }
}
