/** The per-axis clamp that runs after every change of offset or scale.

    `window` is the panel's extent on one axis, `image` the displayed
    (scaled) extent of the map on that axis and `current` the offset at
    which the map's top-left corner is drawn.
 */
module Bounds {
  import opened JavaNumerics
  import opened Corrections

  /** The offset that centres the displayed image in the window. */
  function Center(window: int, image: int): int {
    JavaDiv(window, 2) - JavaDiv(image, 2)
  }

  /** The displayed image covers the whole window: no background shows on
      either side of the axis. */
  predicate Covers(window: int, image: int, offset: int) {
    window - image <= offset <= 0
  }

  /** The placement every clamp establishes: an image narrower than the
      window is centred, a wider one covers the window. */
  predicate Placed(window: int, image: int, offset: int) {
    if window > image then offset == Center(window, image) else Covers(window, image, offset)
  }

  /** With non-negative sizes, Java's truncating division agrees with
      Dafny's, and the centre offset leaves margins that differ by at most
      one pixel, with the image wholly inside the window. */
  lemma CenterIsCentred(window: int, image: int)
    requires 0 <= image < window
    ensures Center(window, image) == window / 2 - image / 2
    ensures 0 <= Center(window, image)
    ensures Center(window, image) + image <= window
    ensures -1 <= (window - image - Center(window, image)) - Center(window, image) <= 1
  {
  }

  /** `getBounds` as written.  An image narrower than the window is centred
      whatever `current` is.  Otherwise the result is one of the two edge
      offsets: the far edge `window - image` when `current` lies beyond it,
      and 0 for every other `current`, including every offset that already
      covers the window. */
  function GetBounds(window: int, image: int, current: int): (r: int)
    ensures Placed(window, image, r)
    ensures window <= image ==> r == 0 || r == window - image
    ensures window < image ==> (r == 0 <==> window - image <= current)
  {
    var min := window - image;
    if window > image then Center(window, image)
    else if current < min then min
    else 0
  }

  /** The current offset is thrown away: an offset that covers the window
      and is not 0 is never returned unchanged. */
  lemma GetBoundsDiscardsOffset(window: int, image: int, current: int)
    requires Covers(window, image, current) && current != 0
    ensures GetBounds(window, image, current) == 0 != current
  {
  }

  /** Hence `getBounds` is not idempotent: feeding its far-edge result back
      in moves the image to the near edge. */
  lemma GetBoundsNotIdempotent(window: int, image: int, current: int)
    requires window < image && current < window - image
    ensures GetBounds(window, image, current) == window - image
    ensures GetBounds(window, image, GetBounds(window, image, current)) == 0
  {
  }

  /** The clamp the code evidently intends: centre a narrow image, and pull
      the offset of a wide one back into the covering range. */
  function Clamp(window: int, image: int, current: int): (r: int)
    ensures Placed(window, image, r)
    ensures window <= image && Covers(window, image, current) ==> r == current
    ensures window <= image && current < window - image ==> r == window - image
    ensures window <= image && 0 < current ==> r == 0
  {
    var min := window - image;
    if window > image then Center(window, image)
    else if current < min then min
    else if current > 0 then 0
    else current
  }

  /** On a wide image the intended clamp moves the offset to the nearest
      covering offset. */
  lemma ClampIsNearest(window: int, image: int, current: int, other: int)
    requires window <= image && Covers(window, image, other)
    ensures Abs(Clamp(window, image, current) - current) <= Abs(other - current)
  {
  }

  /** Clamping a placed offset leaves it alone, for either clamp on a narrow
      image and for the intended clamp always. */
  lemma ClampKeepsPlaced(window: int, image: int, offset: int)
    requires Placed(window, image, offset)
    ensures Clamp(window, image, offset) == offset
  {
  }

  /** The two clamps agree exactly when the offset lies outside the covering
      range, or is 0, or the image is narrower than the window. */
  lemma ClampsAgree(window: int, image: int, current: int)
    ensures GetBounds(window, image, current) == Clamp(window, image, current) <==>
              window > image || current < window - image || 0 <= current
  {
  }

  /** Where a clamp leaves `current`.  Either clamp centres an image
      narrower than the window.  On a wider one, as written, the offset
      lands on the far edge when it lies beyond it and on 0 otherwise;
      corrected, it is pulled back to the nearer end of the covering range
      and kept when already inside it.  The two clamp rules are restated
      here on purpose, as one shared statement for the handlers' contracts. */
  predicate SettlesTo(variant: Variant, window: int, image: int, current: int, r: int) {
    if window > image then r == Center(window, image)
    else if variant == AsWritten then r == (if current < window - image then window - image else 0)
    else if current < window - image then r == window - image
    else if 0 < current then r == 0
    else r == current
  }

  /** The clamp selected by `variant`. */
  function Settle(variant: Variant, window: int, image: int, current: int): (r: int)
    ensures Placed(window, image, r)
    ensures SettlesTo(variant, window, image, current, r)
    ensures variant == AsWritten ==>
              if window > image then r == Center(window, image) else r == 0 || r == window - image
    ensures variant == Intended && Placed(window, image, current) ==> r == current
  {
    match variant
    case AsWritten => GetBounds(window, image, current)
    case Intended => Clamp(window, image, current)
  }
}
