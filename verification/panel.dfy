/** The map panel's viewport: an immutable record of the fields `MapPanel`
    mutates, and one pure function per event handler or command.  Every
    function that moves the image or changes its scale ends, as the panel
    does, with the clamp `CheckBounds`.

    The displayed size of the map is `Math.round(raw size * scale)`, taken
    over exact reals.  Each operation takes a `Variant`: `AsWritten` is the
    panel's code, `Intended` the corrections of README's "Findings".
 */
module Panel {
  import opened JavaNumerics
  import opened Corrections
  import opened Scaling
  import Bounds
  import Translate
  import Panning

  datatype Point = Point(x: int, y: int)

  /** A map image handed to `setMapImage`, or the `null` it ignores. */
  datatype MapImage = NoImage | MapImage(w: Pos, h: Pos)

  /** `imageX`/`imageY`: screen position of the map's top-left corner.
      `startX`/`startY`: the pointer position of the last press or drag.
      `width`/`height`: the panel's size.  `mapW`/`mapH`: the map's raw
      size in pixels. */
  datatype Viewport = Viewport(
    imageX: int, imageY: int,
    startX: int, startY: int,
    scale: real, minScale: real,
    width: nat, height: nat,
    mapW: Pos, mapH: Pos)

  /** The state the constructor leaves: a 256 x 256 placeholder map, scale
      0.0 and floor 1.0, in a panel not yet laid out.  At scale 0.0 the map
      is displayed at size 0 x 0, which trivially fits the 0 x 0 panel. */
  function Initial(): (r: Viewport)
    ensures r.minScale == 1.0 && r.scale == 0.0
    ensures r.width == 0 && r.height == 0 && r.mapW == 256 && r.mapH == 256
    ensures r.imageX == 0 && r.imageY == 0 && r.startX == 0 && r.startY == 0
    ensures ImageWidth(r) == 0 && ImageHeight(r) == 0
    ensures Placed(r) && Snapped(r)
  {
    Viewport(0, 0, 0, 0, 0.0, 1.0, 0, 0, 256, 256)
  }

  /** `n` pixels at the given scale, summed pixel by pixel: the product
      `n * scale`, written as a sum so that the solver never meets a
      product of two unknowns when it reasons about displayed sizes. */
  function Magnify(n: nat, scale: real): (r: real)
    ensures 0.0 <= scale ==> 0.0 <= r
    ensures scale == 0.0 ==> r == 0.0
    decreases n
  {
    if n == 0 then 0.0 else Magnify(n - 1, scale) + scale
  }

  lemma {:induction false} MagnifyIsProduct(n: nat, scale: real)
    ensures Magnify(n, scale) == n as real * scale
    decreases n
  {
    if n > 0 {
      MagnifyIsProduct(n - 1, scale);
      assert (n - 1) as real * scale + scale == n as real * scale;
    }
  }

  /** `getImageWidth` and `getImageHeight`: the displayed size,
      `Math.round(raw size * scale)`, within half a pixel of the raw size
      magnified by the scale. */
  function ImageWidth(v: Viewport): (r: int)
    ensures r as real - 0.5 <= v.mapW as real * v.scale < r as real + 0.5
    ensures 0.0 <= v.scale ==> 0 <= r
  {
    MagnifyIsProduct(v.mapW, v.scale);
    Round(Magnify(v.mapW, v.scale))
  }

  function ImageHeight(v: Viewport): (r: int)
    ensures r as real - 0.5 <= v.mapH as real * v.scale < r as real + 0.5
    ensures 0.0 <= v.scale ==> 0 <= r
  {
    MagnifyIsProduct(v.mapH, v.scale);
    Round(Magnify(v.mapH, v.scale))
  }

  /** Both axes are centred or cover the window. */
  predicate Placed(v: Viewport) {
    && Bounds.Placed(v.width, ImageWidth(v), v.imageX)
    && Bounds.Placed(v.height, ImageHeight(v), v.imageY)
  }

  /** A narrow image sits at the centre; a wide one at one of its two edge
      offsets, never in between. */
  predicate AtEdgeOrCentre(window: int, image: int, offset: int) {
    if window > image then offset == Bounds.Center(window, image)
    else offset == 0 || offset == window - image
  }

  /** Both axes sit where the as-written clamp can leave them. */
  predicate Snapped(v: Viewport) {
    && AtEdgeOrCentre(v.width, ImageWidth(v), v.imageX)
    && AtEdgeOrCentre(v.height, ImageHeight(v), v.imageY)
  }

  /** The scale is not below its floor. */
  predicate ScaleFloored(v: Viewport) {
    v.minScale <= v.scale
  }

  /** The constructor's state breaks the floor until the first resize. */
  lemma InitialBelowFloor()
    ensures !ScaleFloored(Initial())
  {
  }

  /** `checkBounds`: clamps each axis on its own and changes nothing else. */
  function CheckBounds(variant: Variant, v: Viewport): (r: Viewport)
    ensures Placed(r)
    ensures r.(imageX := v.imageX, imageY := v.imageY) == v
    ensures Bounds.SettlesTo(variant, v.width, ImageWidth(v), v.imageX, r.imageX)
    ensures Bounds.SettlesTo(variant, v.height, ImageHeight(v), v.imageY, r.imageY)
    ensures variant == AsWritten ==> Snapped(r)
    ensures variant == Intended && Placed(v) ==> r == v
  {
    v.(imageX := Bounds.Settle(variant, v.width, ImageWidth(v), v.imageX),
       imageY := Bounds.Settle(variant, v.height, ImageHeight(v), v.imageY))
  }

  /** The new `imageX` depends only on the width, the displayed width and
      the old `imageX`; likewise for Y. */
  lemma CheckBoundsAxesIndependent(variant: Variant, v: Viewport, w: Viewport)
    ensures v.width == w.width && ImageWidth(v) == ImageWidth(w) && v.imageX == w.imageX ==>
              CheckBounds(variant, v).imageX == CheckBounds(variant, w).imageX
    ensures v.height == w.height && ImageHeight(v) == ImageHeight(w) && v.imageY == w.imageY ==>
              CheckBounds(variant, v).imageY == CheckBounds(variant, w).imageY
  {
  }

  /** `updateScale`: recomputes the floor from the panel and map sizes and
      raises the scale to it when below; nothing else changes. */
  function UpdateScale(v: Viewport): (r: Viewport)
    ensures ScaleFloored(r)
    ensures r.minScale == MinScale(v.width, v.height, v.mapW, v.mapH, v.minScale)
    ensures v.scale <= r.scale && (r.scale == v.scale || r.scale == r.minScale)
    ensures r.(scale := v.scale, minScale := v.minScale) == v
  {
    var m := MinScale(v.width, v.height, v.mapW, v.mapH, v.minScale);
    v.(minScale := m, scale := if v.scale < m then m else v.scale)
  }

  /** `translateMapPoint`: the point in displayed-image coordinates.  An
      axis whose image starts at or before the window edge is shifted by the
      offset; one with a margin is clamped into the displayed image. */
  function TranslateMapPoint(v: Viewport, p: Point): (m: Point)
    ensures v.imageX <= 0 ==> m.x == p.x - v.imageX
    ensures v.imageY <= 0 ==> m.y == p.y - v.imageY
    ensures 0 < v.imageX && p.x < v.imageX ==> m.x == 0
    ensures 0 < v.imageY && p.y < v.imageY ==> m.y == 0
    ensures 0 < v.imageX && v.imageX <= p.x && v.imageX + ImageWidth(v) < p.x ==> m.x == ImageWidth(v)
    ensures 0 < v.imageY && v.imageY <= p.y && v.imageY + ImageHeight(v) < p.y ==> m.y == ImageHeight(v)
    ensures v.imageX <= p.x <= v.imageX + ImageWidth(v) ==> m.x == p.x - v.imageX
    ensures v.imageY <= p.y <= v.imageY + ImageHeight(v) ==> m.y == p.y - v.imageY
    ensures 0 < v.imageX && 0.0 <= v.scale ==> 0 <= m.x <= ImageWidth(v)
    ensures 0 < v.imageY && 0.0 <= v.scale ==> 0 <= m.y <= ImageHeight(v)
  {
    Point(Translate.TranslateAxis(v.imageX, ImageWidth(v), p.x),
          Translate.TranslateAxis(v.imageY, ImageHeight(v), p.y))
  }

  /** `translateMapPointScaled`: the map pixel under screen point `p`, the
      value passed to the tile-status and tooltip callbacks. */
  function TranslateMapPointScaled(variant: Variant, v: Viewport, p: Point): (k: Point)
    ensures InInt32(k.x) && InInt32(k.y)
    ensures var m := TranslateMapPoint(v, p);
            0.0 < v.scale && IntMin as real <= m.x as real / v.scale < IntMax as real
            && (variant == Intended || 0 < m.x) ==>
              k.x as real <= m.x as real / v.scale < k.x as real + 1.0
    ensures var m := TranslateMapPoint(v, p);
            0.0 < v.scale && IntMin as real <= m.y as real / v.scale < IntMax as real
            && (variant == Intended || 0 < m.y) ==>
              k.y as real <= m.y as real / v.scale < k.y as real + 1.0
    ensures var m := TranslateMapPoint(v, p);
            variant == AsWritten && 0.0 < v.scale && IntMin as real < m.x as real / v.scale && m.x <= 0 ==>
              k.x as real < m.x as real / v.scale <= k.x as real + 1.0
    ensures var m := TranslateMapPoint(v, p);
            variant == AsWritten && 0.0 < v.scale && IntMin as real < m.y as real / v.scale && m.y <= 0 ==>
              k.y as real < m.y as real / v.scale <= k.y as real + 1.0
  {
    Translate.ScaledAxisIsFloor(variant, v.imageX, ImageWidth(v), v.scale, p.x);
    Translate.ScaledAxisIsFloor(variant, v.imageY, ImageHeight(v), v.scale, p.y);
    Point(Translate.ScaledAxis(variant, v.imageX, ImageWidth(v), v.scale, p.x),
          Translate.ScaledAxis(variant, v.imageY, ImageHeight(v), v.scale, p.y))
  }

  /** `moveImage`: one pan step on one axis, then the clamp.  An unknown
      direction code only clamps, and a known one leaves the other axis as
      the clamp alone would. */
  function MoveImage(variant: Variant, v: Viewport, d: int, shift: bool): (r: Viewport)
    ensures Placed(r)
    ensures r.(imageX := v.imageX, imageY := v.imageY) == v
    ensures !Panning.IsDirection(d) ==> r == CheckBounds(variant, v)
    ensures (d == Panning.DirUp || d == Panning.DirDown) ==> r.imageX == CheckBounds(variant, v).imageX
    ensures (d == Panning.DirLeft || d == Panning.DirRight) ==> r.imageY == CheckBounds(variant, v).imageY
    ensures d == Panning.DirUp ==>
              Bounds.SettlesTo(variant, v.height, ImageHeight(v), v.imageY + Panning.MoveStep(shift), r.imageY)
    ensures d == Panning.DirDown ==>
              Bounds.SettlesTo(variant, v.height, ImageHeight(v), v.imageY - Panning.MoveStep(shift), r.imageY)
    ensures d == Panning.DirLeft ==>
              Bounds.SettlesTo(variant, v.width, ImageWidth(v), v.imageX + Panning.MoveStep(shift), r.imageX)
    ensures d == Panning.DirRight ==>
              Bounds.SettlesTo(variant, v.width, ImageWidth(v), v.imageX - Panning.MoveStep(shift), r.imageX)
  {
    var o := Panning.PanOffsets(d, shift, v.imageX, v.imageY);
    CheckBounds(variant, v.(imageX := o.0, imageY := o.1))
  }

  /** `mousePressed`: records the pointer as the drag origin. */
  function MousePressed(v: Viewport, p: Point): (r: Viewport)
    ensures r.startX == p.x && r.startY == p.y
    ensures r.(startX := v.startX, startY := v.startY) == v
  {
    v.(startX := p.x, startY := p.y)
  }

  /** `mouseDragged`: both offsets follow the pointer's displacement, the
      pointer becomes the new drag origin, then the clamp. */
  function MouseDragged(variant: Variant, v: Viewport, p: Point): (r: Viewport)
    ensures Placed(r)
    ensures r.startX == p.x && r.startY == p.y
    ensures r.(imageX := v.imageX, imageY := v.imageY, startX := v.startX, startY := v.startY) == v
    ensures Bounds.SettlesTo(variant, v.width, ImageWidth(v), v.imageX + (p.x - v.startX), r.imageX)
    ensures Bounds.SettlesTo(variant, v.height, ImageHeight(v), v.imageY + (p.y - v.startY), r.imageY)
  {
    var moved := v.(imageX := Panning.DragAxis(v.imageX, v.startX, p.x),
                    imageY := Panning.DragAxis(v.imageY, v.startY, p.y),
                    startX := p.x, startY := p.y);
    CheckBounds(variant, moved)
  }

  /** The offset update of an unanchored zoom, on one axis, before the
      clamp: a displayed image now narrower than the window is centred;
      otherwise the offset moves against the growth by a quarter of the
      change in displayed size, truncated toward zero.  The zoom-in and
      zoom-out formulas of the panel differ in form but agree. */
  function RecenterAxis(zoomIn: bool, window: int, oldExtent: int, newExtent: int, offset: int): (r: int)
    ensures newExtent < window ==> r == Bounds.Center(window, newExtent)
    ensures window <= newExtent ==> r == offset + JavaDiv(oldExtent - newExtent, 4)
    ensures window <= newExtent ==>
              4 * Abs(r - offset) <= Abs(newExtent - oldExtent) < 4 * Abs(r - offset) + 4
    ensures window <= newExtent && oldExtent <= newExtent ==> r <= offset
    ensures window <= newExtent && newExtent <= oldExtent ==> offset <= r
  {
    if newExtent < window then Bounds.Center(window, newExtent)
    else if zoomIn then
      JavaDivNegate(newExtent - oldExtent, 4);
      offset - JavaDiv(newExtent - oldExtent, 4)
    else offset + JavaDiv(oldExtent - newExtent, 4)
  }

  /** `zoomIn(shift)` / `zoomOut(shift)` from a command: a zoom step about
      no anchor, floored at `minScale`, the recentring above, then the
      clamp.  Only the offsets and the scale change. */
  function ZoomCentered(variant: Variant, v: Viewport, zoomIn: bool, shift: bool): (r: Viewport)
    ensures ScaleFloored(r) && Placed(r)
    ensures zoomIn ==> v.scale < r.scale
    ensures !zoomIn ==> r.scale < v.scale || r.scale == v.minScale
    ensures r.scale == ZoomScale(v.scale, v.minScale, ZoomStep(shift, false), zoomIn)
    ensures r.(imageX := v.imageX, imageY := v.imageY, scale := v.scale) == v
    ensures Bounds.SettlesTo(variant, v.width, ImageWidth(r),
              RecenterAxis(zoomIn, v.width, ImageWidth(v), ImageWidth(r), v.imageX), r.imageX)
    ensures Bounds.SettlesTo(variant, v.height, ImageHeight(r),
              RecenterAxis(zoomIn, v.height, ImageHeight(v), ImageHeight(r), v.imageY), r.imageY)
  {
    var s := ZoomScale(v.scale, v.minScale, ZoomStep(shift, false), zoomIn);
    var z := v.(scale := s);
    var x := RecenterAxis(zoomIn, v.width, ImageWidth(v), ImageWidth(z), v.imageX);
    var y := RecenterAxis(zoomIn, v.height, ImageHeight(v), ImageHeight(z), v.imageY);
    CheckBounds(variant, z.(imageX := x, imageY := y))
  }

  /** The anchored offset `(int) (p - (k + 0.5) * scale)`: it puts the
      centre of map pixel `k` within one screen pixel of the cursor `p`. */
  function AnchorOffset(p: int, k: int, scale: real): (r: int)
    ensures IntMin as real < p as real - (k as real + 0.5) * scale < IntMax as real ==>
              -1.0 < (p - r) as real - (k as real + 0.5) * scale < 1.0
  {
    CastToInt(Finite(p as real - (k as real + 0.5) * scale))
  }

  /** `zoomIn`/`zoomOut` about the wheel's cursor `p`: the map pixel under
      `p` at the old scale, a finer zoom step floored at `minScale`, the
      anchored offsets, then the clamp. */
  function ZoomAnchored(variant: Variant, v: Viewport, zoomIn: bool, shift: bool, p: Point): (r: Viewport)
    ensures ScaleFloored(r) && Placed(r)
    ensures zoomIn ==> v.scale < r.scale
    ensures !zoomIn ==> r.scale < v.scale || r.scale == v.minScale
    ensures r.scale == ZoomScale(v.scale, v.minScale, ZoomStep(shift, true), zoomIn)
    ensures r.(imageX := v.imageX, imageY := v.imageY, scale := v.scale) == v
    ensures var k := TranslateMapPointScaled(variant, v, p);
            && Bounds.SettlesTo(variant, v.width, ImageWidth(r), AnchorOffset(p.x, k.x, r.scale), r.imageX)
            && Bounds.SettlesTo(variant, v.height, ImageHeight(r), AnchorOffset(p.y, k.y, r.scale), r.imageY)
  {
    var k := TranslateMapPointScaled(variant, v, p);
    var s := ZoomScale(v.scale, v.minScale, ZoomStep(shift, true), zoomIn);
    CheckBounds(variant, v.(scale := s, imageX := AnchorOffset(p.x, k.x, s), imageY := AnchorOffset(p.y, k.y, s)))
  }

  /** `mouseWheelMoved`: `0.05 * rotation < 0` zooms in, anything else,
      including no rotation at all, zooms out. */
  function WheelZoomsIn(rotation: real): (b: bool)
    ensures b <==> rotation < 0.0
  {
    0.05 * rotation < 0.0
  }

  /** `componentResized`: new panel size, `updateScale`, then the clamp. */
  function ComponentResized(variant: Variant, v: Viewport, w: nat, h: nat): (r: Viewport)
    ensures ScaleFloored(r) && Placed(r)
    ensures r.width == w && r.height == h
    ensures r.minScale == MinScale(w, h, v.mapW, v.mapH, v.minScale)
    ensures w == h ==> r.minScale == v.minScale
    ensures v.scale <= r.scale && (r.scale == v.scale || r.scale == r.minScale)
    ensures Bounds.SettlesTo(variant, w, ImageWidth(r), v.imageX, r.imageX)
    ensures Bounds.SettlesTo(variant, h, ImageHeight(r), v.imageY, r.imageY)
    ensures r.mapW == v.mapW && r.mapH == v.mapH && r.startX == v.startX && r.startY == v.startY
  {
    CheckBounds(variant, UpdateScale(v.(width := w, height := h)))
  }

  /** `setMapImage`: ignores `null`; otherwise installs the map,
      recomputes the floor, drops the scale to the floor when the map's
      height differs from the previous map's, then clamps. */
  function SetMapImage(variant: Variant, v: Viewport, img: MapImage): (r: Viewport)
    ensures img.NoImage? ==> r == v
    ensures img.MapImage? ==> ScaleFloored(r) && Placed(r) && r.mapW == img.w && r.mapH == img.h
    ensures img.MapImage? && img.h != v.mapH ==> r.scale == r.minScale
    ensures img.MapImage? ==> r.minScale == MinScale(v.width, v.height, img.w, img.h, v.minScale)
    ensures img.MapImage? && img.h == v.mapH ==> v.scale <= r.scale && (r.scale == v.scale || r.scale == r.minScale)
    ensures r.width == v.width && r.height == v.height
    ensures r.startX == v.startX && r.startY == v.startY
    ensures img.MapImage? ==> Bounds.SettlesTo(variant, v.width, ImageWidth(r), v.imageX, r.imageX)
    ensures img.MapImage? ==> Bounds.SettlesTo(variant, v.height, ImageHeight(r), v.imageY, r.imageY)
  {
    match img
    case NoImage => v
    case MapImage(w, h) =>
      var u := UpdateScale(v.(mapW := w, mapH := h));
      CheckBounds(variant, if h != v.mapH then u.(scale := u.minScale) else u)
  }

  /** The events the panel reacts to. */
  datatype Event =
    | PressAt(at: Point)
    | DragTo(to: Point)
    | PanBy(dir: int, panShift: bool)
    | ZoomButton(zoomIn: bool, zoomShift: bool)
    | WheelAt(rotation: real, wheelShift: bool, cursor: Point)
    | ResizeTo(w: nat, h: nat)
    | LoadImage(image: MapImage)

  /** One event.  Every event but a press ends with the clamp; none lowers
      the scale below its floor once it is there, and a resize, a zoom or
      a loaded map puts it there. */
  function Step(variant: Variant, v: Viewport, e: Event): (r: Viewport)
    ensures !e.PressAt? && !(e.LoadImage? && e.image.NoImage?) ==> Placed(r)
    ensures Placed(v) ==> Placed(r)
    ensures variant == AsWritten && !e.PressAt? && !(e.LoadImage? && e.image.NoImage?) ==> Snapped(r)
    ensures variant == AsWritten && Snapped(v) ==> Snapped(r)
    ensures ScaleFloored(v) ==> ScaleFloored(r)
    ensures e.ResizeTo? || e.ZoomButton? || e.WheelAt? || (e.LoadImage? && e.image.MapImage?) ==> ScaleFloored(r)
  {
    match e
    case PressAt(p) => MousePressed(v, p)
    case DragTo(p) => MouseDragged(variant, v, p)
    case PanBy(d, shift) => MoveImage(variant, v, d, shift)
    case ZoomButton(zoomIn, shift) => ZoomCentered(variant, v, zoomIn, shift)
    case WheelAt(rotation, shift, p) => ZoomAnchored(variant, v, WheelZoomsIn(rotation), shift, p)
    case ResizeTo(w, h) => ComponentResized(variant, v, w, h)
    case LoadImage(img) => SetMapImage(variant, v, img)
  }

  /** A sequence of events, in order. */
  function Run(variant: Variant, v: Viewport, es: seq<Event>): (r: Viewport)
    ensures Placed(v) ==> Placed(r)
    ensures ScaleFloored(v) ==> ScaleFloored(r)
    ensures variant == AsWritten && Snapped(v) ==> Snapped(r)
    decreases |es|
  {
    if |es| == 0 then v else Run(variant, Step(variant, v, es[0]), es[1..])
  }

  predicate Clamps(e: Event) {
    !e.PressAt? && !(e.LoadImage? && e.image.NoImage?)
  }

  /** Once any clamping event has happened, the image stays placed, and as
      written it can only rest centred or at an edge. */
  lemma {:induction false} RunPlaces(variant: Variant, v: Viewport, es: seq<Event>, i: nat)
    requires i < |es| && Clamps(es[i])
    ensures Placed(Run(variant, v, es))
    ensures variant == AsWritten ==> Snapped(Run(variant, v, es))
    decreases |es|
  {
    if i == 0 {
      assert Run(variant, v, es) == Run(variant, Step(variant, v, es[0]), es[1..]);
    } else {
      RunPlaces(variant, Step(variant, v, es[0]), es[1..], i - 1);
    }
  }

  /** Once the panel has been resized, zoomed or loaded a map, the scale
      never drops below its floor again. */
  lemma {:induction false} RunFloorsScale(variant: Variant, v: Viewport, es: seq<Event>, i: nat)
    requires i < |es|
    requires es[i].ResizeTo? || es[i].ZoomButton? || es[i].WheelAt? || (es[i].LoadImage? && es[i].image.MapImage?)
    ensures ScaleFloored(Run(variant, v, es))
    decreases |es|
  {
    if i == 0 {
      assert Run(variant, v, es) == Run(variant, Step(variant, v, es[0]), es[1..]);
    } else {
      RunFloorsScale(variant, Step(variant, v, es[0]), es[1..], i - 1);
    }
  }

  /** The first layout of the constructor's 256 x 256 placeholder in a
      square 512 x 512 panel: a square window keeps the floor at 1.0, the
      scale rises from 0.0 to it, and the map is centred at (128, 128). */
  lemma FirstSquareLayout(variant: Variant)
    ensures Step(variant, Initial(), ResizeTo(512, 512)) == Viewport(128, 128, 0, 0, 1.0, 1.0, 512, 512, 256, 256)
  {
    var u := UpdateScale(Initial().(width := 512, height := 512));
    assert u.minScale == 1.0 && u.scale == 1.0;
    MagnifyIsProduct(256, 1.0);
    assert ImageWidth(u) == 256 && ImageHeight(u) == 256;
    assert Bounds.Center(512, 256) == 128;
  }

  /** With the intended clamp, panning UP then DOWN at the same
      amplification restores a placed viewport whenever the UP step keeps
      the map covering the window. */
  lemma PanRoundTripIntended(v: Viewport, shift: bool)
    requires Placed(v) && v.height <= ImageHeight(v)
    requires v.imageY + Panning.MoveStep(shift) <= 0
    ensures MoveImage(Intended, MoveImage(Intended, v, Panning.DirUp, shift), Panning.DirDown, shift) == v
  {
    var u := MoveImage(Intended, v, Panning.DirUp, shift);
    assert u == v.(imageY := v.imageY + Panning.MoveStep(shift));
  }

  /** As written, the same round trip from the far edge of a 300-pixel map
      in a 100-pixel panel ends at the near edge: UP to -175 snaps to 0,
      and DOWN to -25 snaps to 0 again. */
  lemma PanRoundTripAsWritten()
    ensures var v := Viewport(0, -200, 0, 0, 1.0, 1.0, 100, 100, 300, 300);
            && Placed(v)
            && MoveImage(AsWritten, MoveImage(AsWritten, v, Panning.DirUp, false), Panning.DirDown, false).imageY == 0
  {
    var v := Viewport(0, -200, 0, 0, 1.0, 1.0, 100, 100, 300, 300);
    MagnifyIsProduct(300, 1.0);
    assert ImageWidth(v) == 300 && ImageHeight(v) == 300;
    var u := MoveImage(AsWritten, v, Panning.DirUp, false);
    assert u.imageY == 0;
    assert ImageHeight(u) == 300;
  }

  /** With the intended clamp, a drag that keeps the map covering the
      window on an axis moves it exactly with the pointer on that axis. */
  lemma DragFollowsPointerIntended(v: Viewport, p: Point)
    ensures v.width <= ImageWidth(v) && Bounds.Covers(v.width, ImageWidth(v), v.imageX + (p.x - v.startX)) ==>
              MouseDragged(Intended, v, p).imageX == v.imageX + (p.x - v.startX)
    ensures v.height <= ImageHeight(v) && Bounds.Covers(v.height, ImageHeight(v), v.imageY + (p.y - v.startY)) ==>
              MouseDragged(Intended, v, p).imageY == v.imageY + (p.y - v.startY)
  {
  }

  /** As written, such a drag on a map wider (or taller) than the panel
      throws the map back to its near edge instead. */
  lemma DragSnapsBackAsWritten(v: Viewport, p: Point)
    ensures v.width <= ImageWidth(v) && Bounds.Covers(v.width, ImageWidth(v), v.imageX + (p.x - v.startX)) ==>
              MouseDragged(AsWritten, v, p).imageX == 0
    ensures v.height <= ImageHeight(v) && Bounds.Covers(v.height, ImageHeight(v), v.imageY + (p.y - v.startY)) ==>
              MouseDragged(AsWritten, v, p).imageY == 0
  {
  }
}
