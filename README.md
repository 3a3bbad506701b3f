# graphics-playground core, modelled in Dafny

This project models the three pieces of `graphics-playground` that are plain logic and sit
beside the SDL2/OpenGL rendering code:

- **`parse_obj`** (`src/obj_parser.rs`) reads a subset of the Wavefront OBJ format. It handles
  `v `, `vn `, `vt ` and `f ` lines, where a face has three or four `v/vt/vn` corners. Quads are
  split into the two triangles `(0,1,2)` and `(0,2,3)`. The result is one flat buffer of eight
  f32 values per corner: position, then normal, then texture coordinate. Every texture
  coordinate is `0, 0` when the file has no `vt` line.
  Module `ObjParser` (`obj_parser.dfy`). The method `ParseObj` keeps the source's loops. It is
  proved equal to the recursive specification `Parsed`, and the lemmas are stated about `Parsed`.
- **`FpsCounter`** (`src/fps_counter/mod.rs`) is a frame pacer with a rolling average. It can
  sleep until `frame_duration * (frame_count + 2)` after the start of the current one-second
  window. When a window closes, its frame count goes into a five-slot ring buffer, and
  `average_fps` averages that buffer.
  Module `Fps` (`fps_counter.dfy`). The class `FpsCounter` keeps the slots in an array. Each of
  its methods is proved against the pure transition `Step` or `SetTarget` on a `CounterState`
  value. The clock is a parameter `now`, in nanoseconds, and `Frame` returns the sleep
  instead of sleeping.
- **Text layout** (`src/text/mod.rs`). A `TextInstance` has a colour, position, scale and one
  of nine alignments. `get_offset` gives its offset from the anchor, and `draw_to_canvas`
  computes the target rectangle. `TextSettings` holds optional overrides that can be loaded
  onto an instance or captured from one.
  Module `Text` (`text.dfy`). It models both structs as classes. Their pure counterparts are
  `Appearance`, `Settings`, `Apply` and `Capture`.

`wrappers.dfy` holds the `Option` and `Result` types and `Prepend`. The loops that build
a result which can still fail (`ParseFace`, `Interleave`) are proved through `Prepend`. The
line loop of `ParseObj` keeps the invariant that `ScanFrom` of the remaining lines gives
the final tables. `Triangulate` is proved through `TriangulatedAppend`.

Integer arithmetic follows a build with overflow checks. A panic in the source is an error
value here:
- `0 - 1` on a `usize` face index is `IndexUnderflow`.
- A table index past the end is `IndexOutOfRange`.
- A `u32` or `i32` overflow in `draw_to_canvas` is `Overflow`.

`ObjError.IsPanic()` tells these panics apart from the source's `Err` returns.

Two behaviours of the code that the model keeps as written:
- **The scale is applied twice.** `draw_to_canvas` multiplies the rendered size by the scale
  once to get the offset, and a second time for the rectangle's width and height.
- **A window closes only after a full second has elapsed.** A counter at 10 fps, called
  unpaced every 40 ms from its start, closes exactly one window in its first 25 frames. The
  25th call sees exactly one second elapsed. `Fps.TenFpsScenario` proves this.

## Model

| member | source | states |
|---|---|---|
| ObjParser.ParseObj | src/obj_parser.rs:13-159 | the line loop, triangulation and interleaving together return exactly `Parsed(lines)`, errors included |
| ObjParser.Parsed | src/obj_parser.rs:19-159 | a successful result holds a multiple of 24 values (whole triangles of 8-value corners) |
| ObjParser.WholeTriangles | src/obj_parser.rs:118-157 | triangulated corners interleave into whole 24-value triangles |
| ObjParser.ParsedLength | src/obj_parser.rs:118-159 | the output length is 8 * (3 * triangles + 6 * quads) of the faces read |
| ObjParser.ScanFrom | src/obj_parser.rs:19-116 | reading lines only appends to the four tables, at most one entry per line |
| ObjParser.ScanLine | src/obj_parser.rs:22-115 | one line appends at most one entry and keeps existing entries; a line with none of the four prefixes changes nothing |
| ObjParser.PrefixesExclusive | src/obj_parser.rs:22-60 | at most one of the four independent `starts_with` tests holds for any line |
| ObjParser.ScanTriple | src/obj_parser.rs:22-46 | a `v`/`vn` line extends the tables by at most one entry; it fails only on a bad coordinate |
| ObjParser.ScanPair | src/obj_parser.rs:48-58 | a `vt` line extends the tables by at most one entry; it fails only on a bad coordinate |
| ObjParser.ScanFace | src/obj_parser.rs:60-114 | an accepted `f` line adds exactly one face; failures are a bad face line, a bad corner or an index underflow |
| ObjParser.PositionLine | src/obj_parser.rs:22-46 | a `v`/`vn` line with 4 tokens appends the parsed triple to vertices or normals, or fails with `BadCoordinate(k)` at the first coordinate k that does not parse; any other token count is ignored |
| ObjParser.TextureLine | src/obj_parser.rs:48-58 | a `vt` line with at least 3 tokens appends tokens 1 and 2, or fails with `BadCoordinate(k)` at the first of them that does not parse; a shorter one is ignored |
| ObjParser.FaceLine | src/obj_parser.rs:60-114 | 4 tokens give a triangle and 5 a quad of the parsed corners; other counts are `BadFace`; the line is accepted iff every corner parses |
| ObjParser.BadCornerFails | src/obj_parser.rs:81-84 | a face corner without exactly two '/' fails the whole parse, whatever lines follow |
| ObjParser.WordLength | src/obj_parser.rs:24 | the first token runs up to the first whitespace character |
| ObjParser.SplitWhitespace | src/obj_parser.rs:24 | `split_whitespace` yields only non-empty tokens without whitespace |
| ObjParser.SplitUnwords | src/obj_parser.rs:24 | splitting words joined by single spaces gives the words back |
| ObjParser.SplitOn | src/obj_parser.rs:70 | `split('/')` yields one more part than there are '/', none containing '/', and joining them restores the token |
| ObjParser.SplitJoin | src/obj_parser.rs:70 | splitting '/'-joined parts that contain no '/' gives the parts back |
| ObjParser.Decimal | src/obj_parser.rs:75-77 | the decimal numeral of a number is a non-empty digit string |
| ObjParser.DecimalRoundTrip | src/obj_parser.rs:75-77 | reading back the decimal numeral of n gives n |
| ObjParser.ParseIndex | src/obj_parser.rs:75-77 | `parse::<usize>` accepts only non-empty input and values at most usize::MAX |
| ObjParser.ParseIndexDecimal | src/obj_parser.rs:75-77 | every usize numeral, with or without a leading '+', parses to its value |
| ObjParser.ZeroBased | src/obj_parser.rs:75-77 | `parse().unwrap_or(1) - 1` fails (underflow) iff the component reads as 0, and an unparsable component gives index 0 |
| ObjParser.OneBasedToZeroBased | src/obj_parser.rs:75-77 | the 1-based numeral n+1 becomes the 0-based index n |
| ObjParser.ParseCorner | src/obj_parser.rs:70-84 | a corner without exactly three '/'-parts is `BadCorner`; the only other failure is index underflow |
| ObjParser.CornerOfIndices | src/obj_parser.rs:70-80 | `a/b/c` gives the corner of 0-based indices, and `a//c` gives texture index 0 |
| ObjParser.CornersOf | src/obj_parser.rs:67-85 | the corners of a face line: succeeds iff every corner parses, with one corner per token |
| ObjParser.CornersInOrder | src/obj_parser.rs:67-85 | corner i of a parsed face line is token i parsed, so corner order follows token order |
| ObjParser.ParseFace | src/obj_parser.rs:67-85 | the corner loop of a face line returns exactly `CornersOf` of its tokens |
| ObjParser.Triangulated | src/obj_parser.rs:118-133 | three corners per triangle and six per quad |
| ObjParser.TriangulatedAppend | src/obj_parser.rs:120-133 | triangulation works face by face: it distributes over concatenation |
| ObjParser.TriangleInOrder | src/obj_parser.rs:131 | a triangle contributes its corners a, b, c in order |
| ObjParser.QuadTriangles | src/obj_parser.rs:123-130 | a quad a,b,c,d becomes the triangles (a,b,c) and (a,c,d) |
| ObjParser.Triangulate | src/obj_parser.rs:118-133 | the push loop builds exactly `Triangulated(faces)` |
| ObjParser.Block | src/obj_parser.rs:138-156 | one corner's block exists iff its indices are in range (texture ignored with no `vt`), and it has 8 values |
| ObjParser.PushCorner | src/obj_parser.rs:138-156 | pushing one corner appends its block, or stops at the first out-of-range lookup |
| ObjParser.Interleaved | src/obj_parser.rs:135-157 | succeeds iff every corner is in range, otherwise fails with out-of-range; 8 values per corner |
| ObjParser.InterleavedBlocks | src/obj_parser.rs:135-157 | block k of the output is the block of corner k |
| ObjParser.Interleave | src/obj_parser.rs:135-157 | the interleaving loop returns exactly `Interleaved(mesh, corners)` |
| ObjParser.CornerAttributes | src/obj_parser.rs:136-157 | block k holds position, normal, then texture (or 0, 0 when there are no textures) of corner k |
| Fps.FrameDuration | src/fps_counter/mod.rs:25 | the frame period is 1/target_fps seconds to the nearest nanosecond |
| Fps.DesignatedTime | src/fps_counter/mod.rs:40 | the target time is `frame_duration * (frame_count + 2)` while the count fits in u32 |
| Fps.SleepFor | src/fps_counter/mod.rs:43-46 | no sleep when unlimited; when limited, elapsed time plus the sleep reaches the designated time, or it was already passed |
| Fps.Init | src/fps_counter/mod.rs:20-33 | a new counter: valid, count and index 0, all five slots 0, both timestamps `now` |
| Fps.FpsCounter.constructor | src/fps_counter/mod.rs:20-33 | the new object's state is `Init(target_fps, now)` |
| Fps.Step | src/fps_counter/mod.rs:35-59 | one frame: before one second only the count grows; after it, the slot at the index gets count+1, the index advances mod 5, the count resets and the window restarts after the sleep; a paced frame never ends before its designated time |
| Fps.FpsCounter.Frame | src/fps_counter/mod.rs:35-59 | the object's new state and the sleep are exactly `Step` of its old state |
| Fps.SetTarget | src/fps_counter/mod.rs:62-66 | a new rate and its frame period; counts, slots, index and timestamps untouched |
| Fps.FpsCounter.SetTargetFps | src/fps_counter/mod.rs:62-66 | the object's new state is `SetTarget` of its old state |
| Fps.Average | src/fps_counter/mod.rs:68-70 | the average is non-negative and zero iff all five slots are zero |
| Fps.FpsCounter.AverageFps | src/fps_counter/mod.rs:68-70 | the fold over the array equals `Average` of the state |
| Fps.InitialAverage | src/fps_counter/mod.rs:29 | a fresh counter averages 0 |
| Fps.Run | src/fps_counter/mod.rs:35-59 | any sequence of frames keeps the counter valid and its target rate |
| Fps.IndexCountsWindows | src/fps_counter/mod.rs:52-58 | after any run, the write index is the start index plus the number of closed windows, mod 5 |
| Fps.RunWithinWindow | src/fps_counter/mod.rs:43-58 | frames inside one second only add to the count; no slot, index or window start changes |
| Fps.RunAppend | src/fps_counter/mod.rs:35-59 | running two sequences of frames is running their concatenation, and closed windows add up |
| Fps.WindowsCount | src/fps_counter/mod.rs:52-58 | a run writes one count per closed window |
| Fps.RunWritesRing | src/fps_counter/mod.rs:52-58 | a run writes its window counts into the slots one after another, wrapping round from the write index |
| Fps.RingRecent | src/fps_counter/mod.rs:54-55 | writing round a five-slot ring keeps the last five values, the newest just before the next write position, and leaves slots not yet reached unchanged |
| Fps.RecentWindows | src/fps_counter/mod.rs:35-59 | after any run the slots hold the last five closed windows' counts, the j-th newest j + 1 places before the write index; slots the run has not reached keep their earlier counts |
| Fps.TenFpsScenario | src/fps_counter/mod.rs:35-70 | 10 fps, 25 unpaced frames 40 ms apart: one window closes holding 25 frames, and the average is 5.0 |
| Text.AsI32 | src/text/mod.rs:92 | `as i32` keeps the 32 bits (equal modulo 2^32) and leaves values up to i32::MAX unchanged |
| Text.Half | src/text/mod.rs:95 | i32 division by 2 rounds toward zero |
| Text.Offset | src/text/mod.rs:90-105 | `get_offset` with the instance's alignment: for sizes that fit in i32, every alignment puts the offset inside the text's box |
| Text.OffsetByAxes | src/text/mod.rs:94-104 | the offset table is the product of a horizontal and a vertical anchor rule |
| Text.AnchorsRoundTrip | src/text/mod.rs:6-16 | the nine alignments are exactly the nine (horizontal, vertical) anchor pairs |
| Text.TargetRect | src/text/mod.rs:70-80 | the only failure is overflow; width and height are the surface scaled twice; x, y are the position plus the offset of the once-scaled size; no overflow implies success |
| Text.UnitScaleRect | src/text/mod.rs:70-80 | at scale 1, for any position whose aligned coordinates fit in i32, the rectangle is the surface at the aligned position |
| Text.TextInstance.DrawToCanvas | src/text/mod.rs:56-88 | without `init` the result is the not-initialised error, otherwise the target rectangle |
| Text.TextInstance.constructor | src/text/mod.rs:35-45 | white, at (0, 0), scale (1, 1), centred, no texture creator, canvas (0, 0) |
| Text.TextInstance.Init | src/text/mod.rs:50-54 | takes a texture creator and the window size; the appearance is untouched |
| Text.TextInstance.SetPosition | src/text/mod.rs:107-109 | only the position changes |
| Text.TextInstance.SetSize | src/text/mod.rs:111-113 | only the size changes |
| Text.TextInstance.SetScale | src/text/mod.rs:114-116 | only the size changes, to (s, s) |
| Text.TextInstance.SetColor | src/text/mod.rs:118-120 | only the colour changes |
| Text.TextInstance.SetAlignment | src/text/mod.rs:122-124 | only the alignment changes |
| Text.TextSettings.constructor | src/text/mod.rs:153-162 | no overrides |
| Text.TextSettings.SetColor | src/text/mod.rs:164-166 | only the colour setting changes |
| Text.TextSettings.SetSize | src/text/mod.rs:168-170 | only the size setting changes |
| Text.TextSettings.SetScale | src/text/mod.rs:172-174 | the size setting becomes Some((s, s)) |
| Text.TextSettings.SetPosition | src/text/mod.rs:177-179 | only the position setting changes |
| Text.TextSettings.SetAlignment | src/text/mod.rs:181-183 | only the alignment setting changes |
| Text.TextSettings.LoadToInstance | src/text/mod.rs:185-206 | the instance's appearance becomes `Apply(settings, old appearance)`; its texture creator and canvas size are untouched |
| Text.TextSettings.LoadFromInstance | src/text/mod.rs:208-217 | fresh settings holding every field of the instance |
| Text.Apply | src/text/mod.rs:185-206 | exactly the fields whose setting is present change, each to its setting |
| Text.ApplyNothing | src/text/mod.rs:153-162 | loading settings with no overrides changes nothing |
| Text.Capture | src/text/mod.rs:208-217 | captured settings override every field: loading them onto any appearance gives the captured one |
| Text.ApplyIdempotent | src/text/mod.rs:185-206 | loading the same settings twice is loading them once |
| Text.RoundTrip | src/text/mod.rs:185-217 | capturing an instance's settings and loading them back leaves it unchanged, texture creator and canvas size included |

## Left out

- Opening and reading the OBJ file (`src/obj_parser.rs:10-20`) is left out: the model takes the file's lines, and I/O errors do not occur.
- Parsing an f32 coordinate is the parameter `parse`, because float parsing is not modelled. Coordinates are kept as bit patterns and never computed with.
- `ParseIndex` assumes a 64-bit `usize`.
- Fps.FrameDuration: the source computes `1.0 / target_fps` in f64 and then `Duration::from_secs_f64`, and that result can differ from the exact nearest nanosecond by at most one nanosecond.
- Fps.FrameDuration: `target_fps = 0` panics in the source (an infinite duration), so the model requires a positive rate.
- Fps.Step: the source reads the clock at lines 37 and 41 separately, and the model uses one reading for both. Likewise, `Fps.Init` and `Fps.FpsCounter.constructor` use one reading for the two clock reads at lines 27-28. A sleep is taken to last exactly as long as requested. Only the time spent sleeping separates lines 41 and 48/57.
- Fps.Step: the `usize` frame count is unbounded, so an overflow of it is not modelled. The `as u32` truncation at line 40 is modelled.
- Fps.Average: the f32 fold is computed over the reals. f32 rounding of the sum and of the divisions is not modelled.
- Fps.FpsCounter.DeltaTime: a plain getter, so it has no contract.
- Text.TextInstance.DrawToCanvas: font rendering, texture creation and `canvas.copy` are left out. The rendered surface's size is a parameter. Their failures, and the clamping inside `Rect::new`, are not modelled.
- Text.TextInstance.constructor: loading the font, and its error, are left out, because the font is not modelled.
- Text.TextInstance: `color`, `position`, `size` and `alignment` are plain getters with no contract.
- Colours are four opaque channels, because they are only copied.
- `src/main.rs`, `src/simple_window.rs` and `src/object.rs` (windowing, OpenGL and rendering) are not part of this model.
- The model does not cover release builds, where overflow wraps instead of panicking.
