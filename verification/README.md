# Golden ratio page — a Dafny model

This project models the logic of a single React page, `src/pages/Index.tsx`, from a small
educational web app about the golden ratio. The page does three things:

- **Ratio calculator.** For a parsed positive number `v`, the page shows `v / PHI` and `v * PHI`.
  A missing or non-positive number shows `0` and `0`.
- **Spiral diagram.** The page draws on a canvas. It clears the canvas and strokes eight
  shrinking rectangles. It then opens one path, appends seven quarter-circle arcs and strokes
  that path once.
- **Photo grid.** An uploaded image is scaled into an 800 × 600 box, keeping its aspect ratio.
  The width is fitted first, then the height. The image is blitted to the canvas. Four
  golden-section lines are then stroked over it: two horizontal and two vertical.

All arithmetic uses Dafny `real`. `PHI` is the page's literal `1.618033988749`, not the
irrational golden ratio. So `PHI * PHI == PHI + 1` is false here, and no proof relies on it.
Each canvas drawing call becomes a `Canvas.Command` value. A drawing routine becomes the ordered
list of calls it makes. Angles are counted in quarter turns: quarter `q` stands for `q * π / 2`.

Modules:

- `Golden` (golden.dfy) holds the constant, powers of PHI and the closed form `s0 / PHI^n`.
- `Canvas` (canvas.dfy) holds the draw commands and the swept angle of a command list.
- `Calculator` (calculator.dfy) models `calculateGoldenRatio`.
- `ImageGrid` (image_grid.dfy) models the fit-to-box rule and the grid part of `drawImageWithGrid`.
- `Spiral` (spiral.dfy) models `drawGoldenSpiral`. Its two `for` loops are methods that build the
  command list. Each method is proved against a step function (`RectStep`, `ArcStep`) iterated
  from the same centred starting square. Closed-form lemmas tie the side after `i` steps to
  `s0 / PHI^i`.

The box is 800 × 600 (src/pages/Index.tsx:169-170). The overlay on the photo is exactly four
lines (src/pages/Index.tsx:194-212).

## Model

| member | source | states |
|---|---|---|
| `Calculator.CalculateGoldenRatio` | src/pages/Index.tsx:23-33 | NaN or a value ≤ 0 gives (0, 0), and only those inputs do; for a positive value, smaller × PHI and larger / PHI both give back the value, 0 < smaller < value < larger, and larger / smaller == PHI²; larger == smaller × PHI × PHI for every input |
| `Calculator.Examples` | src/pages/Index.tsx:12-33 | the default input 100 gives larger 161.8033988749 and smaller between 61.803 and 61.804; inputs 0 and NaN give (0, 0) |
| `ImageGrid.Fit` | src/pages/Index.tsx:169-181 | for any dimensions, the result fits 800 × 600 and keeps the aspect ratio (w'·h == h'·w); a size that already fits is returned unchanged; one that does not fit ends with one side on the box; positive input gives positive output |
| `ImageGrid.FitIsUniformScale` | src/pages/Index.tsx:169-181 | for positive dimensions, the width-then-height rule equals one uniform scaling by min(1, 800/w, 600/h), which lies in (0, 1] |
| `ImageGrid.FitIdempotent` | src/pages/Index.tsx:169-181 | fitting a fitted size changes nothing |
| `ImageGrid.FitExample` | src/pages/Index.tsx:174-181 | 1200 × 800 becomes 800 × 1600/3; the width branch decides it, because 1200 > 800 and the height after the width step is at most 600 |
| `ImageGrid.GridLines` | src/pages/Index.tsx:191-212 | exactly four lines: two horizontal spanning the width, then two vertical spanning the height; the first of each pair is at the golden section (pos × PHI == side); the second mirrors it about the centre; on a non-empty side, 0 < mirror < side/2 < golden < side |
| `ImageGrid.DrawImageWithGrid` | src/pages/Index.tsx:162-212 | a missing surface draws nothing; otherwise the canvas is resized to the whole-pixel floor of the fitted size (at most 800 × 600), the image is blitted over the fitted size, and the four grid lines follow; no line comes before the blit |
| `Golden.ShrinkDecreasing` | src/pages/Index.tsx:63-67 | for a positive starting side, each further division by PHI leaves a strictly smaller positive side |
| `Spiral.Start` | src/pages/Index.tsx:55-57 | the starting square's side is 0.8 × the shorter canvas side; it is centred on the canvas and keeps a margin of a tenth of each side |
| `Spiral.RectStep` | src/pages/Index.tsx:63-71 | one pass of the rectangle loop: the side shrinks by PHI; the right edge x + size stays fixed; y moves down by the new side on even steps only |
| `Spiral.RectAt` | src/pages/Index.tsx:61 | rectangle i is a strokeRect whose height × PHI equals its width |
| `Spiral.DrawRectangles` | src/pages/Index.tsx:59-72 | the loop emits exactly 8 rectangles; rectangle i is RectAt(i), the i-th state of the step recurrence |
| `Spiral.RectPenClosedForm` | src/pages/Index.tsx:60-72 | after i steps the side is s0 / PHI^i and x + size equals the starting square's right edge |
| `Spiral.RectangleSequence` | src/pages/Index.tsx:60-72 | rectangle i is s0 / PHI^i wide; all rectangles share one right edge; the next width equals this height, so widths strictly decrease on a non-empty canvas; y advances by the next width on even i only |
| `Spiral.ArcOf` | src/pages/Index.tsx:83-111 | the arc at step i spans exactly one quarter turn, from quarter i % 4, with radius × PHI == the current side; its centre, in each of the four cases: (x + size, y + r), (x + size − r, y), (x, y + r), (x + r, y + r) |
| `Spiral.PlaceArc` | src/pages/Index.tsx:83-111 | the imperative centre switch produces exactly the arc ArcOf gives for the current pen and step |
| `Spiral.MoveArcPen` | src/pages/Index.tsx:113-128 | the imperative update switch and shrink produce exactly the pen ArcStep gives |
| `Spiral.ArcStep` | src/pages/Index.tsx:113-128 | the side shrinks by PHI; when i % 4 is 1 or 2 the anchor stays put; when it is 0 only x moves (strictly right); when it is 3 only y moves (strictly down) |
| `Spiral.DrawArcs` | src/pages/Index.tsx:82-129 | the loop emits exactly 7 arcs; arc i is ArcAt(i), the i-th state of the arc recurrence; together they sweep 7 quarter turns |
| `Spiral.ArcPenSize` | src/pages/Index.tsx:82-129 | after i steps of the arc loop the side is s0 / PHI^i |
| `Spiral.ArcSequence` | src/pages/Index.tsx:83-86 | arc i has radius s0 / PHI^(i+1) and runs from quarter i % 4 to i % 4 + 1; on a non-empty canvas the radii strictly decrease |
| `Spiral.DrawGoldenSpiral` | src/pages/Index.tsx:41-132 | a missing surface draws nothing; otherwise: clear the whole canvas, the 8 rectangles, one beginPath, the 7 arcs, and a single stroke as the last command (no other stroke); the total sweep is 7 quarter turns |

## Left out

- React state and effects are not modelled. This covers `useState`, `useEffect`, the 100 ms
  `setTimeout` before the first diagram draw, and `handleInputChange`. They are UI lifecycle:
  each only calls a modelled function.
- `parseFloat` is not modelled. The calculator takes `Parsed = NaN | Number(v)`, that is, an
  already-parsed value. An input parsing to `Infinity` is not represented.
- Image upload is not modelled: `FileReader`, `Image` decoding and the MIME check with its toast.
  This is asynchronous browser I/O. `DrawImageWithGrid` takes the decoded image's natural
  width and height.
- `downloadCanvas` is not modelled: `toBlob`, object URLs and the anchor click are browser I/O.
- A missing canvas element or 2-D context becomes the `surfaceReady` parameter. The model does
  not decide when the element is mounted.
- Stroke colours and line widths are not modelled, and commands carry no style. The same holds
  for the three-decimal display formatting.
- IEEE-754 rounding is not modelled; all values are exact reals. The canvas resize does apply
  the integer truncation of `canvas.width = width`, as `Floor`.
- The `default` branch of the arc centre switch is not modelled, because `i % 4` is always 0–3.
  The no-op statements `temp`, `y = y` and `x = x` are dropped.
- The static examples gallery and all JSX markup are left out. They are reference data and layout.

Nothing in the model does I/O. The canvas is the `surfaceReady` parameter, and the decoded image
is its natural size. The timer is not modelled.
