# MapPanel viewport arithmetic, in Dafny

This project models the integer and real-valued viewport arithmetic of
`MapPanel`, the pan/zoom panel of the MapViewer application that shows a map
image. The Swing shell is removed. What is left is an immutable `Viewport`
record with these fields:

- the offsets `imageX`/`imageY`;
- the drag origin `startX`/`startY`;
- `scale` and its floor `minScale`;
- the panel size;
- the raw map size.

Each event handler or command is a pure function of that record:

- `MousePressed`
- `MouseDragged`
- `MoveImage`
- `ZoomCentered` (the `zoomIn`/`zoomOut` commands)
- `ZoomAnchored` (the wheel)
- `ComponentResized`
- `SetMapImage`

`Step` and `Run` apply a sequence of events.

Modules:

- `JavaNumerics`: Java's truncating `int` division. The `(int)` cast of a
  `double`, which truncates toward zero and saturates. A small `Double`
  datatype for the infinities and NaN that a division by scale 0.0 produces.
  The panel's `fastFloor`, `(int) Math.floor`, and `Math.round`.
- `Bounds`: the per-axis clamp `getBounds` as written (`GetBounds`), the
  clamp it evidently means (`Clamp`), and the placement predicate both
  establish: a narrow image is centred, a wide one covers the window.
- `Translate`: `translateMapPoint` and `translateMapPointScaled` on one axis.
- `Panning`: the pan step, the `moveImage` switch and the drag delta.
- `Scaling`: the zoom step, the floored zoom update, `minScale`, and repeated
  zoom-out.
- `Corrections`: the `Variant` (`AsWritten` or `Intended`). Every operation
  that clamps or floors takes one. `AsWritten` uses the code's `getBounds` and
  `fastFloor`. `Intended` swaps in the two corrections listed under
  Findings and changes nothing else.
- `Panel`: the record, the operations, and the invariants over event
  sequences.

`double` is modelled by exact `real`. The displayed size
`Math.round(raw * scale)` is `Round` of that product over the reals. The
product is written as a pixel-by-pixel sum (`Panel.Magnify`) so that the
solver never has to multiply two unknowns.

Behaviours of the code worth knowing before reading the contracts:

- **Square window.** For a square panel, `updateScale` leaves `minScale`
  unchanged, so the constructor's floor 1.0 survives. For a 256 x 256 map
  in a 512 x 512 panel, the first layout therefore gives scale 1.0 and
  centres the map at offsets (128, 128) (`Panel.FirstSquareLayout`).
- **Clamp discards offsets.** The clamp does not keep an in-range offset. It
  snaps to the near edge or the far edge (first Finding).
- **Clamping of points.** `translateMapPoint` clamps only when the offset is
  positive. For a non-positive offset it returns `p - offset` unclamped.
- **Initial scale.** Right after construction, scale 0.0 is below the floor
  1.0. The floor only holds after the first resize, zoom or map load
  (`Panel.InitialBelowFloor`, `Panel.RunFloorsScale`).

## Model

| member | source | states |
|---|---|---|
| `JavaNumerics.JavaDiv` | src/main/java/com/wurmly/mapviewer/ui/MapPanel.java:361-362 | Java `int` division: the magnitude is the floor of the magnitudes' quotient, the sign is the product of signs, and it equals Dafny's `/` on non-negative operands |
| `JavaNumerics.JavaDivNegate` | src/main/java/com/wurmly/mapviewer/ui/MapPanel.java:212-219 | truncating division commutes with negation, which is why `-((n - o) / 4)` and `(o - n) / 4` in the two zoom paths agree |
| `JavaNumerics.Trunc` | src/main/java/com/wurmly/mapviewer/ui/MapPanel.java:280-283 | the `(int)` cast of a finite double is the integer next to `x` on the side toward zero |
| `JavaNumerics.Divide` | src/main/java/com/wurmly/mapviewer/ui/MapPanel.java:289-290 | `m / scale`: finite exactly when the scale is non-zero, and then its product with the scale is `m`; 0/0 is NaN and a positive `m` over 0 is +infinity |
| `JavaNumerics.CastToInt` | src/main/java/com/wurmly/mapviewer/ui/MapPanel.java:282 | the result is a 32-bit int; NaN gives 0; a finite in-range value is truncated toward zero, keeping its sign; +infinity and finite values at or above 2^31 saturate to `Integer.MAX_VALUE`, -infinity and values at or below -2^31 to `Integer.MIN_VALUE` |
| `JavaNumerics.FastFloor` | src/main/java/com/wurmly/mapviewer/ui/MapPanel.java:280-283 | for positive `x` the floor (`r <= x < r + 1`); for `x <= 0` the integer strictly below (`r < x <= r + 1`) |
| `JavaNumerics.JavaFloor` | src/main/java/com/wurmly/mapviewer/ui/MapPanel.java:280-283 | the corrected floor: `r <= x < r + 1` on the whole `int` range |
| `JavaNumerics.FastFloorVersusFloor` | src/main/java/com/wurmly/mapviewer/ui/MapPanel.java:280-283 | `fastFloor` equals the true floor if and only if `x` is not a whole number `<= 0`; on those it is one less |
| `JavaNumerics.FastFloorOfZero` | src/main/java/com/wurmly/mapviewer/ui/MapPanel.java:282 | `fastFloor(0.0) == -1` while the floor is 0 |
| `JavaNumerics.FastFloorOfSpecials` | src/main/java/com/wurmly/mapviewer/ui/MapPanel.java:282 | on +infinity the result is `Integer.MAX_VALUE`, on NaN -1, and on -infinity the `- 1` wraps to `Integer.MAX_VALUE` |
| `JavaNumerics.Round` | src/main/java/com/wurmly/mapviewer/ui/MapPanel.java:346-356 | `Math.round` gives the nearest integer with ties upward, non-negative for a non-negative argument |
| `Bounds.CenterIsCentred` | src/main/java/com/wurmly/mapviewer/ui/MapPanel.java:361-362 | for sizes `0 <= image < window`, the centre offset is `window/2 - image/2`, keeps the image inside the window, and leaves margins that differ by at most one pixel |
| `Bounds.GetBounds` | src/main/java/com/wurmly/mapviewer/ui/MapPanel.java:358-366 | the result is placed: centred when `window > image`, otherwise inside `[window - image, 0]`; on a wide image it is always one of the two edges, and it is 0 exactly when `current >= window - image` |
| `Bounds.GetBoundsDiscardsOffset` | src/main/java/com/wurmly/mapviewer/ui/MapPanel.java:363-365 | a non-zero offset that already covers the window is replaced by 0, never kept |
| `Bounds.GetBoundsNotIdempotent` | src/main/java/com/wurmly/mapviewer/ui/MapPanel.java:363-365 | applying `getBounds` to its own far-edge result gives 0 |
| `Bounds.Clamp` | src/main/java/com/wurmly/mapviewer/ui/MapPanel.java:358-366 | the corrected clamp: the result is placed; on a wide image a covering offset is kept, one beyond the far edge goes to the far edge, and a positive one goes to 0 |
| `Bounds.ClampIsNearest` | src/main/java/com/wurmly/mapviewer/ui/MapPanel.java:358-366 | on a wide image the corrected clamp returns the covering offset nearest to `current` |
| `Bounds.ClampKeepsPlaced` | src/main/java/com/wurmly/mapviewer/ui/MapPanel.java:358-366 | the corrected clamp is the identity on placed offsets, so it is idempotent |
| `Bounds.ClampsAgree` | src/main/java/com/wurmly/mapviewer/ui/MapPanel.java:358-366 | the two clamps agree if and only if the image is narrower than the window, the offset is beyond the far edge, or it is `>= 0` |
| `Bounds.Settle` | src/main/java/com/wurmly/mapviewer/ui/MapPanel.java:358-372 | the chosen clamp places the offset and lands where each clamp's rule puts it: as written, a narrow image at the centre and a wide one at the far edge when `current` lies beyond it and at 0 otherwise, never in between; corrected, a wide image at the nearer end of the covering range, a placed offset kept |
| `Translate.TranslateAxis` | src/main/java/com/wurmly/mapviewer/ui/MapPanel.java:239-278 | with a non-positive offset the result is `p - offset`, unclamped; with a positive offset it lies in `[0, extent]`: 0 before the image, `extent` past it, `p - offset` on it |
| `Translate.TranslateInvertsRendering` | src/main/java/com/wurmly/mapviewer/ui/MapPanel.java:239-278 | translating the screen column `offset + c`, where painting puts displayed column `c`, gives `c` back for every offset |
| `Translate.PixelFloor` | src/main/java/com/wurmly/mapviewer/ui/MapPanel.java:289-290 | both floors bracket a positive quotient; the corrected one brackets any quotient in range; as written, a quotient `<= 0` gets the integer strictly below it (`r < x <= r + 1`) |
| `Translate.ScaledAxis` | src/main/java/com/wurmly/mapviewer/ui/MapPanel.java:286-292 | the reported pixel is a 32-bit int; at scale 0.0, before the first layout, a positive coordinate gives `Integer.MAX_VALUE`, coordinate 0 gives -1 as written and 0 corrected, and a negative one gives `Integer.MAX_VALUE` as written (the wrapped `- 1`) and `Integer.MIN_VALUE` corrected; at a positive scale, as written, a translated coordinate `<= 0` gives the integer strictly below coordinate / scale, one too low on whole quotients |
| `Translate.ScaledAxisIsFloor` | src/main/java/com/wurmly/mapviewer/ui/MapPanel.java:286-292 | whenever the scale is positive and the quotient is in range, the reported pixel is the floor of translated coordinate / scale: always with the corrected floor, and for positive coordinates with `fastFloor` |
| `Translate.EdgePixel` | src/main/java/com/wurmly/mapviewer/ui/MapPanel.java:286-292 | with the map at offset 0 and any positive scale, screen column 0 is reported as pixel -1 as written and as pixel 0 when corrected |
| `Translate.MarginPixel` | src/main/java/com/wurmly/mapviewer/ui/MapPanel.java:242-245 | a pointer in the margin before a positively offset image is reported as pixel -1 as written and as pixel 0 when corrected |
| `Translate.IntendedPixelInImage` | src/main/java/com/wurmly/mapviewer/ui/MapPanel.java:242-250 | with the corrected floor and a positive offset, the reported pixel lies between 0 and extent / scale |
| `Translate.ScrolledExample` | src/main/java/com/wurmly/mapviewer/ui/MapPanel.java:251-258 | at offset -10 and scale 1, screen column 5 is map column 15; at offset 0 it is column 5 |
| `Panning.MoveStep` | src/main/java/com/wurmly/mapviewer/ui/MapPanel.java:117-119 | the pan step is 25, or 62 with shift, because the compound `*= 2.5` truncates 62.5 |
| `Panning.PanOffsets` | src/main/java/com/wurmly/mapviewer/ui/MapPanel.java:120-134 | an unknown direction leaves both offsets alone; a known one moves exactly one axis by exactly one step: UP raises Y, DOWN lowers it, LEFT raises X, RIGHT lowers it |
| `Panning.PanOpposites` | src/main/java/com/wurmly/mapviewer/ui/MapPanel.java:120-134 | before the clamp, DOWN undoes UP and RIGHT undoes LEFT |
| `Panning.DragAxis` | src/main/java/com/wurmly/mapviewer/ui/MapPanel.java:79-86 | the three-way branch moves the offset by exactly the pointer displacement `e - start` |
| `Panning.DragComposes` | src/main/java/com/wurmly/mapviewer/ui/MapPanel.java:77-88 | before the clamp, dragging through an intermediate point is the same as one drag to the end point |
| `Scaling.ZoomStep` | src/main/java/com/wurmly/mapviewer/ui/MapPanel.java:146-150 | the zoom step is 0.5 for a command, 1.0 with shift, 0.4 for the wheel, and 0.8 for the wheel with shift |
| `Scaling.ZoomScale` | src/main/java/com/wurmly/mapviewer/ui/MapPanel.java:158-160 | the new scale is at least `minScale`, at least the moved scale, and equal to one of them: the maximum of the two |
| `Scaling.MinScale` | src/main/java/com/wurmly/mapviewer/ui/MapPanel.java:319-328 | in a taller window the map's width fills the window's width at the new floor; in a wider one its height fills the height; in a square one the floor is unchanged; non-negative sizes and a non-negative old floor give a non-negative floor |
| `Scaling.ZoomOutTimesValue` | src/main/java/com/wurmly/mapviewer/ui/MapPanel.java:208-210 | `n` zoom-outs from a floored scale give `scale - n*step`, or `minScale` once that is at or below the floor |
| `Scaling.ZoomOutReachesFloor` | src/main/java/com/wurmly/mapviewer/ui/MapPanel.java:208-210 | enough zoom-outs reach `minScale` exactly, and one more stays there |
| `Panel.Initial` | src/main/java/com/wurmly/mapviewer/ui/MapPanel.java:15-36 | the constructor leaves a 256 x 256 placeholder map in a 0 x 0 panel, offsets and drag origin 0, floor 1.0 and scale 0.0, so the map is displayed at 0 x 0 and the viewport is placed and at an edge |
| `Panel.ImageWidth` | src/main/java/com/wurmly/mapviewer/ui/MapPanel.java:346-350 | the displayed width is within half a pixel of raw width * scale, and non-negative at a non-negative scale |
| `Panel.ImageHeight` | src/main/java/com/wurmly/mapviewer/ui/MapPanel.java:352-356 | the displayed height is within half a pixel of raw height * scale, and non-negative at a non-negative scale |
| `Panel.InitialBelowFloor` | src/main/java/com/wurmly/mapviewer/ui/MapPanel.java:17-18 | the constructor's scale 0.0 is below its floor 1.0 |
| `Panel.CheckBounds` | src/main/java/com/wurmly/mapviewer/ui/MapPanel.java:368-372 | both axes end placed and only the offsets change; each offset lands where the chosen clamp's rule puts it (as written: a wide image only at 0 or `window - image`); the corrected clamp leaves a placed viewport unchanged |
| `Panel.CheckBoundsAxesIndependent` | src/main/java/com/wurmly/mapviewer/ui/MapPanel.java:368-372 | the new `imageX` depends only on width, displayed width and old `imageX`; the same holds for Y |
| `Panel.UpdateScale` | src/main/java/com/wurmly/mapviewer/ui/MapPanel.java:317-331 | afterwards `scale >= minScale`; the floor is recomputed from the sizes; the scale is the old scale raised to the floor when it was below; nothing else changes |
| `Panel.TranslateMapPoint` | src/main/java/com/wurmly/mapviewer/ui/MapPanel.java:239-278 | per axis: a non-positive offset shifts the coordinate by the offset, unclamped; a positive offset gives 0 before the image, the displayed size past it, the shifted coordinate on it, and always a value in `[0, displayed size]` |
| `Panel.TranslateMapPointScaled` | src/main/java/com/wurmly/mapviewer/ui/MapPanel.java:286-292 | both coordinates are 32-bit ints; at a positive scale each is the floor of the translated coordinate / scale with the corrected floor, and with `fastFloor` when that coordinate is positive; as written, a coordinate `<= 0` gives the integer strictly below the quotient |
| `Panel.MoveImage` | src/main/java/com/wurmly/mapviewer/ui/MapPanel.java:115-137 | the result is placed and only offsets change; an unknown direction only clamps; UP and DOWN clamp `imageY` plus or minus the step and LEFT and RIGHT clamp `imageX` plus or minus the step, by the chosen clamp's rule, the other axis being clamped alone |
| `Panel.MousePressed` | src/main/java/com/wurmly/mapviewer/ui/MapPanel.java:64-68 | the press point becomes the drag origin and nothing else changes |
| `Panel.MouseDragged` | src/main/java/com/wurmly/mapviewer/ui/MapPanel.java:77-91 | the result is placed, the pointer becomes the new origin, only offsets and origin change, and each offset is its old value plus the pointer displacement, clamped by the chosen clamp's rule |
| `Panel.RecenterAxis` | src/main/java/com/wurmly/mapviewer/ui/MapPanel.java:162-170 | a displayed image narrower than the window is centred; otherwise both zoom directions move the offset by `(old - new) / 4` in Java arithmetic, a quarter of the size change against its direction |
| `Panel.ZoomCentered` | src/main/java/com/wurmly/mapviewer/ui/MapPanel.java:144-187 | the new scale is the old one moved by the command step (0.5, 1.0 with shift) and floored at `minScale`; each offset is the recentred offset clamped by the chosen rule; the result is floored and placed; only offsets and scale change |
| `Panel.AnchorOffset` | src/main/java/com/wurmly/mapviewer/ui/MapPanel.java:180-181 | the anchored offset puts the centre of the map pixel that was under the cursor within one screen pixel of the cursor, before the clamp |
| `Panel.ZoomAnchored` | src/main/java/com/wurmly/mapviewer/ui/MapPanel.java:172-182 | the new scale is the old one moved by the wheel step (0.4, 0.8 with shift) and floored at `minScale`; each offset is the anchored offset for the map pixel under the cursor, clamped by the chosen rule; the result is floored and placed; only offsets and scale change |
| `Panel.WheelZoomsIn` | src/main/java/com/wurmly/mapviewer/ui/MapPanel.java:43-47 | the wheel zooms in exactly on a negative rotation, so a zero rotation zooms out |
| `Panel.ComponentResized` | src/main/java/com/wurmly/mapviewer/ui/MapPanel.java:54-58 | the panel takes the new size, the floor is recomputed from it (unchanged for a square panel), the scale is kept or raised to the floor, and each old offset is clamped by the chosen rule against the new panel size and displayed size |
| `Panel.SetMapImage` | src/main/java/com/wurmly/mapviewer/ui/MapPanel.java:302-315 | `null` is a no-op; a new map is installed, the floor recomputed from the panel and the new map, the result placed; a height change resets the scale to the floor, an equal height keeps the scale or raises it to the floor; for a map, each old offset is clamped by the chosen rule against the new displayed size; panel size and drag origin never change |
| `Panel.Step` | src/main/java/com/wurmly/mapviewer/ui/MapPanel.java:37-113 | every event but a press or a `null` map places the image (as written: centred when narrow, at an edge when wide); placement and the scale floor are preserved; resize, zoom and map load establish the floor |
| `Panel.Run` | src/main/java/com/wurmly/mapviewer/ui/MapPanel.java:37-113 | any event sequence preserves placement, the scale floor and, as written, the rule that a narrow image sits centred and a wide one at an edge |
| `Panel.RunPlaces` | src/main/java/com/wurmly/mapviewer/ui/MapPanel.java:368-372 | after any sequence that contains a clamping event the image is placed, and as written a wide image rests only at one of its two edges |
| `Panel.RunFloorsScale` | src/main/java/com/wurmly/mapviewer/ui/MapPanel.java:317-331 | after any sequence that contains a resize, zoom or map load, `scale >= minScale` |
| `Panel.FirstSquareLayout` | src/main/java/com/wurmly/mapviewer/ui/MapPanel.java:319-330 | the first 512 x 512 layout of the 256 x 256 placeholder gives floor 1.0, scale 1.0 and offsets (128, 128) |
| `Panel.PanRoundTripIntended` | src/main/java/com/wurmly/mapviewer/ui/MapPanel.java:115-137 | with the corrected clamp, UP then DOWN restores a placed viewport whenever the UP step keeps the map covering the window |
| `Panel.PanRoundTripAsWritten` | src/main/java/com/wurmly/mapviewer/ui/MapPanel.java:115-137 | as written, UP then DOWN from the far edge (-200) of a 300-pixel map in a 100-pixel panel ends at 0 |
| `Panel.DragFollowsPointerIntended` | src/main/java/com/wurmly/mapviewer/ui/MapPanel.java:77-91 | with the corrected clamp, a drag that keeps a wide (or tall) map covering the window moves it exactly with the pointer on that axis |
| `Panel.DragSnapsBackAsWritten` | src/main/java/com/wurmly/mapviewer/ui/MapPanel.java:77-91 | as written, that same drag throws the map back to offset 0 on that axis |

## Findings

| source | as written | input that shows it | evidently intended | confidence | as-written member | corrected member |
|---|---|---|---|---|---|---|
| src/main/java/com/wurmly/mapviewer/ui/MapPanel.java:363-365 | `getBounds` returns 0 for every offset in `[window - image, 0]`, so a map wider than the panel can only rest at one of its two edges; every drag and pan inside that range snaps back to 0 (`Bounds.GetBoundsDiscardsOffset`, `Panel.DragSnapsBackAsWritten`, `Panel.PanRoundTripAsWritten`) | panel 100, displayed map 300, offset -200; pan UP gives -175, which snaps to 0 | keep an offset that already covers the window, and pull the others back to the nearer edge (`Bounds.ClampIsNearest`, `Panel.PanRoundTripIntended`, `Panel.DragFollowsPointerIntended`) | high; not executed | `Bounds.GetBounds` | `Bounds.Clamp` |
| src/main/java/com/wurmly/mapviewer/ui/MapPanel.java:280-283 | `fastFloor` gives `x - 1` for every whole `x <= 0`, including 0 (`JavaNumerics.FastFloorVersusFloor`, `JavaNumerics.FastFloorOfZero`) | image drawn at offset 10, pointer at column 5: `translateMapPoint` clamps to 0 and the reported map pixel is -1, outside the map (`Translate.MarginPixel`); likewise screen column 0 over a map resting at offset 0 (`Translate.EdgePixel`) | rounding toward negative infinity, so the margin reports pixel 0 (`Translate.IntendedPixelInImage`) | high; not executed | `JavaNumerics.FastFloor` | `JavaNumerics.JavaFloor` |

## Left out

- Swing plumbing is left out: listener registration, `repaint`, `revalidate` and `paintComponent`. They draw, and they do not change the viewport state.
- `getMapImage` (crop export) is left out. It renders through `Graphics` into a `BufferedImage`.
- The tooltip and tile-status callbacks into `MapViewerFrame` are left out, as are `setToolTipText` and the `mouseMoved` handler. They only pass `translateMapPointScaled` results (modelled as `Panel.TranslateMapPointScaled`) to collaborators that are not part of this model.
- Overflow of 32-bit `int` is not modelled for offsets, pointer positions, drag deltas and pan steps, nor for `Math.abs(Integer.MIN_VALUE)`. These are unbounded integers. Wrap-around is modelled only in `fastFloor`'s `- 1`, and saturation only in the `(int)` casts of doubles.
- `double` rounding is not modelled: every `double` is an exact real. The step 0.5 / 1.25 is taken as exactly 0.4, and the wheel factor `0.05f` only matters through its sign.
- Math.round's narrowing from `long` to `int` is not modelled.
- `Panel.AnchorOffset` is stated before the clamp. Afterwards the anchor is generally lost, because the clamp (either variant) may move the map. The model states no post-clamp anchor property.
- `Scaling.ZoomStep` states 0.4 and 0.8 exactly, not the nearest doubles.
- The `assert mapImage != null` checks are left out. The map is never null after construction, because `setMapImage` ignores `null`.
- A scale of `-0.0` is not modelled. The scale starts at `+0.0` and never becomes negative zero.
