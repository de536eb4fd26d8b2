# bren: the integer back end of a terminal rasteriser

bren draws into a grid of on/off pixels and shows the grid in a terminal. Each 2 x 4
block of pixels (a *tile*) becomes one character of the Unicode Braille Patterns block,
U+2800 to U+28FF. The repository holds several snapshots of the same renderer:

- `src/lib.rs`;
- `src/renderer2d.rs`;
- `src/renderer3d.rs`;
- `src/renderer.rs` with `src/renderer/{model,screen,viewport}.rs`;
- `src/renderer/mod.rs`.

This project models their shared integer core. There is one module per algorithm, and
each snapshot's own code is proved against it:

- **Braille encoder** (`Braille`, `Colors`, `Frame`):
  - `into_braille` packs the dots of a tile into a code point. Dots 1 to 8 are bits 0
    to 7, in the order left0, left1, left2, right0, right1, right2, left3, right3.
  - The colour variant counts a dot as lit when any of its channels is non-zero.
  - `average_color` takes the truncated mean of each channel.
  - `draw_chars` scans the grid in row blocks of 4, from the highest y down, and in
    column pairs from left to right. Its output is a sequence of `Command` values:
    `MoveTo`, `SetForeground`, `PrintGlyph` and `PrintText`.
- **Raster primitives** (`Grid`, `Bresenham`, `CircleDda`, `Raster`). Each works on an
  `array2<bool>` indexed `[x, y]`:
  - `draw_pixel` is a bounds-checked write;
  - `draw_line` is the all-octant, single-error-term Bresenham line;
  - `draw_circle` is the 8-way symmetric DDA outline;
  - `draw_filled_circle` draws a line (a *spoke*) from each symmetric point to the
    centre.

  Each drawing method is specified as `Paint` of its list of plotted points.
  `Paint(v, pts)` is the grid `v` with every in-bounds point of `pts` switched on.
- **Model bookkeeping** (`Mesh`, `Model`):
  - the OBJ line dispatch of both `load_from_file`s;
  - the vertex and face layout of `new_plane`;
  - the transform setters;
  - `vertex_at`;
  - the 1-based face indices that `draw_object` looks up.

Each snapshot's renderer is a class with its own module: `Renderer2d`, `Renderer3d`,
`CameraRenderer` (`src/renderer.rs`), `ViewportRenderer` (`src/renderer/mod.rs`),
`Model`, `TerminalScreen`, `Viewport` and `Lib`. The class holds the grid and delegates
to the shared methods.

Machine arithmetic is modelled as follows:

- Integers are unbounded.
- `i16` and `u16` overflow is excluded by preconditions:
  - `LineFits`: endpoints are `i16`, and each of |dx| and |dy| is at most 8191, so
    `2 * err` fits;
  - `CircleFits`: -8191 <= r <= 8191, exactly the radii for which the setup
    `r2 + r2 - 4` fits (`CircleDda.RadiusBoundExact`), and `cx ± r` and `cy ± r` are `i16`;
  - `SmallGrid`: both grid sizes are at most 32767, so `size as i16` does not wrap;
  - `PlaneFits`: `div * div + div - 1` is at most 32767;
  - products of the form `columns * 2` and `rows * 4` fit in `u16`.
- The `u32` pattern never exceeds 0x28FF, so `char::from_u32(...).expect(...)` never
  panics.

`draw_chars` builds each tile as `v[col + c][row - k]` (src/renderer2d.rs:63-76), so it reads
every column downwards from the block's highest y. The unit-test tile `[[T,F,F,T],[T,F,T,F]]`
gives U+2869 when it is passed to `into_braille` directly. But a 6 x 4 grid whose columns
2 and 3 are `[T,F,F,T]` and `[T,F,T,F]` reaches `into_braille` flipped vertically, and its
middle character is U+28D1. See `Frame.BoolFrameExample` and `Braille.GlyphSomeFlipped`.

## Model

| member | source | states |
|---|---|---|
| Braille.IntoBraille | src/renderer2d.rs:41-55 | the `pattern += dot << i` loop over the ordered dots, plus 0x2800, yields `Glyph(t)` |
| Braille.Glyph | src/renderer2d.rs:53-54 | every glyph lies in U+2800..U+28FF, so `char::from_u32` always succeeds |
| Braille.GlyphBits | src/renderer2d.rs:42-51 | bit i of `glyph - 0x2800` is set iff dot i of [left0,left1,left2,right0,right1,right2,left3,right3] is lit |
| Braille.DecodeGlyph | src/renderer2d.rs:41-55 | the glyph is a Braille character and decoding it gives back the tile (round trip) |
| Braille.GlyphDecode | src/renderer2d.rs:41-55 | every character of the Braille block is the glyph of its decoded tile (the other round trip) |
| Braille.GlyphInjective | src/lib.rs:28-36 | distinct tiles give distinct glyphs |
| Braille.BitsOfPattern | src/renderer2d.rs:47-51 | the dots can be read back from the accumulated pattern bit by bit |
| Braille.PatternOfBits | src/renderer2d.rs:47-51 | every pattern below 2^k is the pattern of its own k bits |
| Braille.GlyphAll | src/renderer2d.rs:223-231 | the all-lit tile gives U+28FF |
| Braille.GlyphSome | src/renderer2d.rs:233-241 | the tile [[T,F,F,T],[T,F,T,F]] gives U+2869 |
| Braille.GlyphNone | src/renderer2d.rs:243-251 | the all-unlit tile gives U+2800 |
| Braille.GlyphSomeFlipped | src/renderer2d.rs:63-76 | the vertically flipped tile that `draw_chars` builds from the example grid gives U+28D1 |
| Braille.ColorGlyphBits | src/renderer/viewport.rs:110-128 | bit i of the colour glyph is set iff dot i in Braille order has a non-zero channel |
| Braille.ColorGlyphOfMask | src/renderer/viewport.rs:117-124 | the colour glyph equals the boolean glyph of the tile's lit mask (same bit layout) |
| Braille.DecodeColorGlyph | src/renderer/viewport.rs:110-128 | the colour glyph decodes to the tile's lit mask |
| Braille.PatternAllLit | src/renderer2d.rs:47-51 | n lit dots accumulate to 2^n - 1 |
| Braille.PatternNoneLit | src/renderer2d.rs:47-51 | n unlit dots accumulate to 0 |
| Colors.AverageIsMean | src/renderer/viewport.rs:92-106 | each channel sum is at most 2040 and the average channel is that sum divided by 8, so `as u8` never truncates |
| Colors.AverageWithin | src/renderer/viewport.rs:96-105 | each averaged channel lies between any lower and upper bound of the eight inputs |
| Colors.AverageOfUniform | src/renderer/viewport.rs:96-105 | the average of a uniform tile is that colour |
| Frame.DrawGlyphRow | src/renderer2d.rs:62-78 | the inner scan emits the glyphs of one row block, column pairs left to right |
| Frame.DrawChars | src/renderer2d.rs:59-80 | the nested scan emits exactly `BoolFrame(v)` |
| Frame.BoolFrameLayout | src/renderer2d.rs:59-80 | the stream is `MoveTo(0, 0)` then (W/2)*(H/4) glyphs; glyph k of block i is the glyph of the tile at column 2k whose top row is H-1-4i |
| Frame.BlockRowRange | src/renderer2d.rs:61 | the reversed step-by-4 scan visits exactly the blocks 0..H/4, each with a top row in [3, H) |
| Frame.BoolFrameOfEmptyColumns | src/renderer2d.rs:59-61 | columns of height 0 give only the initial `MoveTo(0, 0)` |
| Frame.BoolFrameOfThreeTiles | src/renderer2d.rs:59-80 | a 6 x 4 grid gives `MoveTo(0, 0)` and the glyphs of its three tiles, left to right |
| Frame.BoolFrameExample | src/renderer2d.rs:59-80 | the example grid prints U+28FF, U+28D1, U+2800 |
| Frame.ColorRowAt | src/renderer/viewport.rs:67-87 | within a block, tile k is preceded by `SetForeground` of its own average and followed by nothing else before the next tile |
| Frame.ColorFrameAt | src/renderer/viewport.rs:59-90 | the colour stream has length 1 + (H/4)(W+1); block i starts with `MoveTo(origin.0, origin.1 + i)` and continues with that block's row |
| Frame.ColorFrameLayout | src/renderer/viewport.rs:59-90 | in block i, tile k is `SetForeground(average)` then `PrintGlyph(colour glyph)` at fixed offsets after the block's `MoveTo` |
| Grid.PaintMeaning | src/renderer2d.rs:90-96 | after painting, a cell is on iff it was on or an in-bounds listed point hits it; the shape is unchanged |
| Grid.PaintAppend | src/renderer2d.rs:108 | painting two point lists one after the other equals painting their concatenation |
| Bresenham.Next | src/renderer2d.rs:112-126 | each step stays heading to the end point, shrinks \|x2-x\|+\|y2-y\|, and moves each coordinate by at most one toward the end |
| Bresenham.NextKeepsErrBound | src/renderer2d.rs:112-125 | `err` stays in [2dy, 2dx], so `2 * err` fits in i16 |
| Bresenham.StartExact | src/renderer2d.rs:100-104 | the initial `err = dy + dx` is the exact error term of the start point |
| Bresenham.NextKeepsExact | src/renderer2d.rs:112-126 | each step keeps `err` exact for the remaining offsets |
| Bresenham.BreaksOnlyAtEnd | src/renderer2d.rs:109-123 | with an exact error term the loop breaks iff it stands on (x2, y2) |
| Bresenham.LineEndsAtEnd | src/renderer2d.rs:99-128 | the last plotted point is (x2, y2) |
| Bresenham.LineInBox | src/renderer2d.rs:113-126 | every plotted point lies in the endpoints' bounding box |
| Bresenham.LineConnected | src/renderer2d.rs:113-126 | consecutive plotted points differ by at most one in each coordinate |
| Bresenham.LineToSelf | src/renderer2d.rs:108-111 | a line from a point to itself plots only that point |
| Bresenham.LineExample | src/renderer2d.rs:99-128 | the line (0,0) to (3,1) plots (0,0), (1,0), (2,1), (3,1) |
| CircleDda.RadiusBoundExact | src/renderer2d.rs:133-138 | the radius bound -8191..8191 holds iff `r + r` and `r2 + r2 - 4` stay within i16 |
| CircleDda.AdvanceInv | src/renderer2d.rs:150-158 | the DDA step keeps `d`, `dx`, `dy` tied to x, y and r, and none of the updates overflows i16 |
| CircleDda.OffsetsShape | src/renderer2d.rs:140-158 | the visited offsets have y = 0, 1, 2, ... and 0 <= y <= x <= r |
| CircleDda.NegativeRadiusDrawsNothing | src/renderer2d.rs:132-140 | with r < 0 neither circle plots anything |
| CircleDda.FirstIteration | src/renderer2d.rs:141-148 | for r >= 0 the first eight plots are (cx±r, cy) and (cx, cy±r) in source order |
| CircleDda.ReflectionsSymmetric | src/renderer2d.rs:141-148 | one iteration's eight points are closed under x mirror, y mirror and the diagonal swap |
| CircleDda.CircleSymmetric | src/renderer2d.rs:132-160 | the whole outline is closed under x mirror, y mirror and the diagonal swap |
| CircleDda.SpokesCover | src/renderer2d.rs:174-181 | one iteration's spokes contain the centre and all eight reflections |
| CircleDda.FilledCoversOutline | src/renderer2d.rs:164-193 | for r >= 0 the filled circle plots the centre, and it plots every point of the outline |
| Raster.DrawPixel | src/renderer2d.rs:90-96 | the grid becomes `Paint(old, [(x, y)])`: set iff in bounds, nothing else changes |
| Raster.DrawLine | src/renderer2d.rs:99-128 | the loop terminates and paints exactly `LinePoints(x1, y1, x2, y2)`, in order |
| Raster.LineStep | src/renderer2d.rs:109-126 | one iteration after its pixel stops iff one of the three breaks fires, otherwise moves x, y and err as the source does, within i16 |
| Raster.DdaStep | src/renderer2d.rs:150-158 | the end of a circle iteration is the DDA step `Advance` |
| Raster.PlotReflections | src/renderer2d.rs:141-148 | the eight `draw_pixel` calls paint the eight reflections in source order |
| Raster.DrawCircle | src/renderer2d.rs:132-160 | the loop terminates and paints exactly `CirclePoints(cx, cy, r)` |
| Raster.DrawSpokes | src/renderer2d.rs:174-181 | the eight `draw_line` calls paint the eight spokes in source order |
| Raster.DrawFilledCircle | src/renderer2d.rs:164-193 | the loop terminates and paints exactly `FilledPoints(cx, cy, r)` |
| Raster.DrawFace | src/renderer3d.rs:179-181 | one face paints the lines v0-v1, v1-v2, v2-v0 in that order |
| Raster.DrawFaces | src/renderer3d.rs:174-183 | the face loop paints `FacePoints`, the edges of every face in index-buffer order |
| Mesh.ParseValues | src/renderer/model.rs:36-39 | three left-to-right parses with `?` give `ParseTriple`: the values, or `Err` at the first failure |
| Mesh.LoadLines | src/renderer/model.rs:27-49 | the line loop returns `Ok` iff the dispatch function `Load` loads, and then its vertex and face buffers |
| Mesh.LoadCounts | src/renderer/model.rs:27-49 | a successful load has one vertex per "v" line and one face per "f" line |
| Mesh.LoadExtends | src/renderer/model.rs:27-49 | the buffers after a prefix of the file are prefixes of the final buffers (file order) |
| Mesh.LoadStops | src/renderer/model.rs:36-45 | after a failed parse or a panic no later line matters |
| Mesh.LoadIgnoresSkipped | src/renderer/model.rs:29-31 | an empty line or one with another first value can be removed without changing the result |
| Mesh.PlaneVertexCount | src/renderer/model.rs:65-76 | `new_plane` has (div+1)^2 vertices |
| Mesh.PlaneVertexAt | src/renderer/model.rs:65-76 | vertex x*(div+1)+y is grid point (x, y): x in the outer loop, y in the inner |
| Mesh.PlaneColumnAt | src/renderer/model.rs:66-74 | entry y of column x is `(x*div_length - offset, y*div_length - offset, 0)` |
| Mesh.PlaneFaceCount | src/renderer/model.rs:78-92 | `new_plane` has 2*div^2 faces |
| Mesh.FaceRowAt | src/renderer/model.rs:79-90 | within row y, cell x contributes faces 2x and 2x+1 |
| Mesh.PlaneFaceAt | src/renderer/model.rs:78-91 | faces 2(y*div+x) and 2(y*div+x)+1 are cell (x, y)'s (c, c+div+1, c+1) and (c+1, c+div+1, c+div+2): y outer, x inner |
| Mesh.CurrIndexFits | src/renderer/model.rs:80 | `(x + 1) + y * (div + 1)` and its parts fit in i16 |
| Mesh.CellFacesInRange | src/renderer/model.rs:80-90 | each cell's face indices lie in [1, (div+1)^2] |
| Mesh.PlaneIndicesInRange | src/renderer/model.rs:78-92 | every face index of `new_plane` lies in [1, vertex count] |
| Mesh.CornersPlotted | src/renderer3d.rs:174-183 | `draw_object` plots the screen point of each corner of every face |
| Mesh.FaceDrawn | src/renderer3d.rs:174-183 | the edges of face k are among the plotted points |
| Mesh.EdgeCorners | src/renderer3d.rs:179-181 | the three edges of a face pass through its three corners |
| Model.Model.Make | src/renderer/model.rs:51-56 | a model starts with the given buffers, zero translation and identity rotation |
| Model.Model.LoadFromFile | src/renderer/model.rs:22-57 | `Ok` iff the dispatch loads; then a fresh model with `Load`'s buffers, at the origin and unrotated |
| Model.Model.NewPlane | src/renderer/model.rs:59-100 | the buffers are `PlaneVertices` and `PlaneFaces`, at the origin and unrotated |
| Model.Model.PlaneVertexLoop | src/renderer/model.rs:65-76 | the outer loop appends column after column to give `PlaneVertices` |
| Model.Model.PlaneColumnLoop | src/renderer/model.rs:66-75 | the inner loop pushes the column's vertices y = 0..div |
| Model.Model.PlaneFaceLoop | src/renderer/model.rs:78-92 | the outer loop appends row after row to give `PlaneFaces` |
| Model.Model.FaceRowLoop | src/renderer/model.rs:79-91 | the inner loop pushes each cell's two faces, x = 0..div-1, with i16 arithmetic |
| Model.Model.VertexAt | src/renderer/model.rs:103-105 | an in-bounds index returns that vertex and changes nothing |
| Model.Model.Translate | src/renderer/model.rs:115-117 | the position is replaced; rotation and buffers are unchanged |
| Model.Model.Rotate | src/renderer/model.rs:120-123 | the rotation is replaced; position and buffers are unchanged |
| Model.PlaneDrawable | src/renderer.rs:85-88 | on a generated plane every `vertex_at(index - 1)` of `draw_object` is in bounds |
| Renderer2d.LabelSwapped | src/renderer2d.rs:195-204 | as written, the label of `write_label(0, 5, msg)` is printed at `MoveTo(0, 5)`, not at column 5 of row 0 |
| Renderer2d.DrawTextBufferAsWritten | src/renderer2d.rs:195-204 | the as-written loop emits `MoveTo(pos.0, pos.1)` and the message for each label |
| Renderer2d.DrawTextBuffer | src/renderer2d.rs:195-204 | the corrected loop emits `TextCommands`: `MoveTo(col, row)` and the message for each label, in order |
| Renderer2d.LabelPrintedAtAsWritten | src/renderer2d.rs:195-204 | as written: label i is at stream positions 2i (`MoveTo(pos.0, pos.1)`) and 2i+1 (its message) |
| Renderer2d.LabelPrintedAt | src/renderer2d.rs:195-204 | corrected: label i is at stream positions 2i (cursor to its column and row) and 2i+1 (its message) |
| Renderer2d.WrittenLabelPrinted | src/renderer2d.rs:82-88 | corrected: the label `write_label(row, col, m)` adds is printed last, at column col of row row |
| Renderer2d.Renderer.New | src/renderer2d.rs:21-33 | an all-off grid of (2 + CHAR_SPACE)*columns by (4 + LINE_SPACE)*rows pixels and no labels |
| Renderer2d.Renderer.TerminalSize | src/renderer2d.rs:35-37 | returns `term_size`, which the renderer's invariant keeps within u16, with an even width and a height divisible by 4 |
| Renderer2d.Renderer.IntoBraille | src/renderer2d.rs:41-55 | the glyph, in the Braille block, decoding back to the tile |
| Renderer2d.Renderer.DrawChars | src/renderer2d.rs:59-80 | the stream is `BoolFrame(v)` with both spacings zero |
| Renderer2d.Renderer.WriteLabel | src/renderer2d.rs:82-88 | exactly one label (message, (row, col)) is appended; the grid is untouched |
| Renderer2d.Renderer.DrawPixel | src/renderer2d.rs:90-96 | bounds-checked write of one pixel |
| Renderer2d.Renderer.DrawLine | src/renderer2d.rs:99-128 | paints exactly the Bresenham points |
| Renderer2d.Renderer.DrawCircle | src/renderer2d.rs:132-160 | paints exactly the DDA outline |
| Renderer2d.Renderer.DrawFilledCircle | src/renderer2d.rs:164-193 | paints exactly the spokes of the DDA |
| Renderer2d.Renderer.Render | src/renderer2d.rs:206-210 | the Braille frame of the grid, then the text stream as written (`MoveTo(pos.0, pos.1)` per label); nothing changes |
| Renderer2d.Renderer.RenderIntended | src/renderer2d.rs:206-210 | corrected: the Braille frame, then each label at its own column and row |
| Renderer2d.Renderer.Clear | src/renderer2d.rs:212-216 | a fresh all-off grid of the same size and an empty label buffer |
| Renderer3d.Translated | src/renderer3d.rs:24-28 | each coordinate moves by exactly its component |
| Renderer3d.TranslateInverse | src/renderer3d.rs:24-28 | translating by t and then by -t restores the vertex |
| Renderer3d.ScaleInverse | src/renderer3d.rs:30-34 | scaling by non-zero s and then by 1/s restores the vertex |
| Renderer3d.NewTransform | src/renderer3d.rs:66-72 | the initial transform moves no vertex (unit scale, zero position) and has zero rotation |
| Renderer3d.Object.Make | src/renderer3d.rs:111-115 | a new object has the given buffers and `Transform::new()` |
| Renderer3d.Object.LoadFromFile | src/renderer3d.rs:82-116 | `Ok` iff the dispatch loads; then a fresh object with `Load`'s buffers and the initial transform |
| Renderer3d.Object.Translate | src/renderer3d.rs:124-126 | only the position is replaced |
| Renderer3d.Object.Scale | src/renderer3d.rs:128-130 | only the scale is replaced |
| Renderer3d.Object.Rotate | src/renderer3d.rs:132-134 | only the rotation is replaced |
| Renderer3d.SettersReplace | src/renderer3d.rs:124-134 | setting a component twice keeps the second value; setting another component leaves it alone |
| Renderer3d.ScreenSize | src/renderer3d.rs:143-152 | the screen is (2*columns, 4*rows): even width, height a multiple of 4, within u16 |
| Renderer3d.Renderer.New | src/renderer3d.rs:161-168 | an all-off grid of `screen.size` |
| Renderer3d.Renderer.GetScreenSize | src/renderer3d.rs:170-172 | returns `screen.size`, which the renderer's invariant keeps within u16, with an even width and a height divisible by 4 |
| Renderer3d.Renderer.DrawObject | src/renderer3d.rs:174-183 | with every index in [1, vertex count], paints the three edges of each face in order |
| Renderer3d.Renderer.DrawPixel | src/renderer3d.rs:185-191 | bounds-checked write of one pixel |
| Renderer3d.Renderer.DrawLine | src/renderer3d.rs:193-226 | paints exactly the Bresenham points between the two screen points |
| Renderer3d.Renderer.IntoBraille | src/renderer3d.rs:230-244 | the glyph, in the Braille block, decoding back to the tile |
| Renderer3d.Renderer.DrawChars | src/renderer3d.rs:248-269 | the stream is `BoolFrame(v)` |
| Renderer3d.Renderer.Render | src/renderer3d.rs:271-274 | the Braille frame of the grid; nothing changes |
| Renderer3d.Renderer.Clear | src/renderer3d.rs:276-279 | a fresh all-off grid of `screen.size` |
| CameraRenderer.Renderer.New | src/renderer.rs:53-61 | an all-off buffer of `viewport.size()` |
| CameraRenderer.Renderer.Clear | src/renderer.rs:72-75 | a fresh all-off buffer of `viewport.size()` |
| CameraRenderer.Renderer.DrawObject | src/renderer.rs:81-98 | with every index in [1, vertex count], paints the edges (v0,v1), (v1,v2), (v2,v0) of each face in order |
| CameraRenderer.Renderer.DrawPixel | src/renderer.rs:107-113 | bounds-checked write of one pixel |
| CameraRenderer.Renderer.DrawLine | src/renderer.rs:115-148 | paints exactly the Bresenham points between the two screen points |
| ViewportRenderer.Renderer.New | src/renderer/mod.rs:52-60 | a whole-terminal viewport at (0, 0) and an all-off grid of its size |
| ViewportRenderer.Renderer.WithViewport | src/renderer/mod.rs:62-69 | the given viewport and an all-off grid of its size |
| ViewportRenderer.Renderer.ViewportSize | src/renderer/mod.rs:71-73 | exactly `viewport.size()`, which is also the grid's size |
| ViewportRenderer.Renderer.DrawObject | src/renderer/mod.rs:75-84 | with every index in [1, vertex count], paints v0->v1, v1->v2, v2->v0 for each face in order |
| ViewportRenderer.Renderer.DrawPixel | src/renderer/mod.rs:86-92 | bounds-checked write of one pixel |
| ViewportRenderer.Renderer.DrawLine | src/renderer/mod.rs:94-127 | paints exactly the Bresenham points between the two screen points |
| ViewportRenderer.Renderer.Clear | src/renderer/mod.rs:133-136 | a fresh all-off grid of the viewport's size |
| Viewport.Viewport.New | src/renderer/viewport.rs:22-32 | the whole terminal: size (2*columns, 4*rows), origin (0, 0) |
| Viewport.Viewport.WithSizeAndPos | src/renderer/viewport.rs:35-44 | size (2w, 4h) and origin (x0, y0) |
| Viewport.Viewport.Size | src/renderer/viewport.rs:52-55 | returns the size: even width, height a multiple of 4 |
| Viewport.Viewport.AverageColor | src/renderer/viewport.rs:92-106 | the three summing loops give `Average(t)` |
| Viewport.Viewport.IntoBraille | src/renderer/viewport.rs:110-128 | the lit-dot loop gives `ColorGlyph(t)` |
| Viewport.Viewport.DrawColorRow | src/renderer/viewport.rs:67-87 | the inner loop emits the block's `ColorRow` |
| Viewport.Viewport.DrawChars | src/renderer/viewport.rs:59-90 | the nested loop emits exactly `ColorFrame(v, origin)` |
| Viewport.ColorGlyphAllWhite | src/renderer/viewport.rs:136-157 | an all-(255,255,255) tile gives U+28FF |
| Viewport.ColorGlyphMixed | src/renderer/viewport.rs:159-180 | the mixed test tile gives U+2869 |
| Viewport.ColorGlyphAllBlack | src/renderer/viewport.rs:182-203 | an all-black tile gives U+2800 |
| TerminalScreen.Screen.New | src/renderer/screen.rs:10-19 | size (2*columns, 4*rows): even width, height a multiple of 4 |
| TerminalScreen.Screen.GetSize | src/renderer/screen.rs:21-23 | returns the size, which the screen's invariant keeps within u16, with an even width and a height divisible by 4 |
| TerminalScreen.Screen.IntoBraille | src/renderer/screen.rs:27-41 | the glyph, in the Braille block, decoding back to the tile |
| TerminalScreen.Screen.DrawChars | src/renderer/screen.rs:45-69 | the stream is `BoolFrame(v)` |
| Lib.Renderer.Init | src/lib.rs:8-18 | an all-off buffer of 2*columns by 4*rows pixels; the terminal size is kept |
| Lib.Renderer.TerminalSize | src/lib.rs:20-22 | the size in cells, within u16; the renderer's invariant makes the buffer twice as wide and four times as tall |
| Lib.Renderer.IntoBraille | src/lib.rs:27-40 | the glyph, in the Braille block, decoding back to the tile |

The unit tests in `src/renderer3d.rs:286-314`, `src/renderer/screen.rs:75-103` and
`src/lib.rs:61-89` are the same three cases as `src/renderer2d.rs:223-251`. They are
stated once, by `Braille.GlyphAll`, `Braille.GlyphSome` and `Braille.GlyphNone`.

## Left out

- Terminal I/O is not modelled:
  - `stdout`, `flush`, `print!`, `terminal::window_size` and `termion::terminal_size`;
  - the queueing of commands on a stream.

  The terminal size is a constructor parameter, and `draw_chars` returns its commands as a
  sequence. `Lib`'s `render` and `clear` only print, and are left out.
- Floating-point geometry is not modelled:
  - `Vertex::rotate` (src/renderer3d.rs:36-52);
  - `get_transformed` (src/renderer3d.rs:14-23, src/renderer/mod.rs:13-39);
  - `Vertex::project`, `construct_mvp`, `model_matrix` and the camera;
  - the saturating `f32 as i16` casts.

  `draw_object` therefore takes `placed`: the screen point of each vertex after those
  steps. `draw_line` of a vertex pair takes the two screen points.
- The x-axis step of `Vertex::rotate` computes the new z from the already updated y. This
  is probably unintended, but it lies in the trigonometry that is left out.
- Vertex coordinates are exact reals, not `f32`. Rounding in `translate`, `scale` and the
  `new_plane` vertex formula is not captured. `Renderer3d.ScaleInverse` holds for reals,
  not for `f32`.
- `Model.Model.Rotate` keeps the Euler angles in degrees. The source stores
  `UnitQuaternion::from_euler_angles` of the radians. The model states only that the
  rotation is replaced and nothing else changes.
- File reading and number parsing are parameters. The file is given as its lines, each
  split at whitespace, and `parse::<f32>` and `parse::<usize>` are given as parser
  functions.
- Mesh.LoadLines: requires that no "v" or "f" line runs out of values before a parse
  fails. In that case the source panics on its index, and the model calls the panic
  `Panicked` rather than returning a value. The same holds for
  `Model.Model.LoadFromFile` and `Renderer3d.Object.LoadFromFile`.
- Mesh.PlaneFits: `new_plane` with `div == 0` divides by zero in `f32`, which gives NaN
  or infinite coordinates. The model requires `div != 0`; a negative `div` gives no
  vertices and no faces, as in the source.
- Raster.DrawLine: requires `LineFits` rather than modelling `i16` wrap-around or debug
  overflow panics. The same goes for `CircleFits` (circles), `SmallGrid` (grid sizes
  within i16), `PlaneFits` (the `curr_index` arithmetic) and the `u16` size products.
- The eight `draw_pixel` calls and the eight `draw_line` calls of the circle loops are
  written out in the source. Here they run as a loop over the reflections in the same
  order (`Raster.PlotReflections`, `Raster.DrawSpokes`).
- `render` in `src/renderer.rs:67-69` and `src/renderer/mod.rs:129-131` is left out. It
  passes a `Vec<Vec<bool>>` to `Viewport::draw_chars`, which takes colours, so it does
  not type-check.
- `index_buffer()` is called as a method in `src/renderer.rs:85` and
  `src/renderer/mod.rs:76`, but it is a field. `transform_and_get_vertex_at` is called on
  `Model` in `src/renderer/mod.rs:77-79` but is not defined there. The model reads the
  index buffer and takes the screen points as `placed`.
- `into_char_buffer` (`todo!()`) and the `char_buffer` field of `src/lib.rs` are left out.
- The example programs and `src/main.rs` are not part of this model, and neither is
  `src/renderer/camera.rs`.

## Findings

| source | as written | input that shows it | evidently intended | confidence | as-written member | corrected member |
|---|---|---|---|---|---|---|
| src/renderer2d.rs:197-199 | `write_label(row, col, msg)` stores `(row, col)` (src/renderer2d.rs:85), but `draw_text_buffer` calls `MoveTo(pos.0, pos.1)`. `MoveTo` takes the column first, so the row is used as the column and the column as the row. | `write_label(0, 5, "hi")`: the cursor goes to column 0 of row 5 instead of column 5 of row 0. | `MoveTo(pos.1, pos.0)`: the label appears at column `col` of terminal row `row`. | medium, not executed | Renderer2d.LabelSwapped | Renderer2d.WrittenLabelPrinted |

`Renderer2d.DrawTextBufferAsWritten` models the loop as written, and `Renderer2d.Renderer.Render`
uses it. `Renderer2d.DrawTextBuffer` is the corrected loop, and
`Renderer2d.Renderer.RenderIntended` uses it.
