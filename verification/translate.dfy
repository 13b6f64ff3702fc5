/** Screen-to-image conversion on one axis: `translateMapPoint` maps a
    screen coordinate to a coordinate in the displayed (scaled) image, and
    `translateMapPointScaled` divides by the scale and floors to a map
    pixel index. */
module Translate {
  import opened JavaNumerics
  import opened Corrections

  /** `translateMapPoint` on one axis.  `offset` is where the displayed image
      starts on screen and `extent` its displayed size.

      With a positive offset (background margin before the image) the result
      is clamped to `[0, extent]`; with offset 0 it is `p`; with a negative
      offset (image scrolled past the window edge) it is `p + |offset|`,
      unclamped. */
  function TranslateAxis(offset: int, extent: int, p: int): (m: int)
    ensures offset <= 0 ==> m == p - offset
    ensures offset > 0 && 0 <= extent ==> 0 <= m <= extent
    ensures offset <= p <= offset + extent ==> m == p - offset
    ensures offset > 0 && p < offset ==> m == 0
    ensures offset > 0 && offset <= p && offset + extent < p ==> m == extent
  {
    if offset > 0 then
      if p < offset then 0
      else if p > offset + extent then extent
      else p - offset
    else if offset == 0 then p
    else p + Abs(offset)
  }

  /** Rendering draws displayed column `c` at screen column `offset + c`;
      translating that screen column gives `c` back, for every offset. */
  lemma TranslateInvertsRendering(offset: int, extent: int, c: int)
    requires 0 <= c <= extent
    ensures TranslateAxis(offset, extent, offset + c) == c
  {
  }

  /** The floor selected by `variant`: `fastFloor` as written, or the true
      floor. */
  function PixelFloor(variant: Variant, d: Double): (r: int)
    ensures InInt32(r)
    ensures d.Finite? && 0.0 < d.v < IntMax as real + 1.0 ==>
              r as real <= d.v < r as real + 1.0
    ensures variant == Intended && d.Finite? && IntMin as real <= d.v < IntMax as real + 1.0 ==>
              r as real <= d.v < r as real + 1.0
    ensures variant == AsWritten && d.Finite? && IntMin as real < d.v <= 0.0 ==>
              r as real < d.v <= r as real + 1.0
  {
    match variant
    case AsWritten => FastFloor(d)
    case Intended => JavaFloor(d)
  }

  /** `translateMapPointScaled` on one axis: the map pixel under screen
      coordinate `p`.  Before the first layout the scale is 0.0 and the
      division yields an IEEE 754 special: a positive coordinate gives
      `Integer.MAX_VALUE`, coordinate 0 gives NaN and so -1 as written (0
      corrected), and a negative one gives negative infinity, which the
      wrapping `- 1` of `fastFloor` also turns into `Integer.MAX_VALUE`. */
  function ScaledAxis(variant: Variant, offset: int, extent: int, scale: real, p: int): (k: int)
    ensures InInt32(k)
    ensures var m := TranslateAxis(offset, extent, p);
            && (scale == 0.0 && 0 < m ==> k == IntMax)
            && (scale == 0.0 && m == 0 ==> k == if variant == AsWritten then -1 else 0)
            && (scale == 0.0 && m < 0 ==> k == if variant == AsWritten then IntMax else IntMin)
    ensures var m := TranslateAxis(offset, extent, p);
            variant == AsWritten && 0.0 < scale && IntMin as real < m as real / scale && m <= 0 ==>
              k as real < m as real / scale <= k as real + 1.0
  {
    PixelFloor(variant, Divide(TranslateAxis(offset, extent, p), scale))
  }

  /** At a positive scale the reported pixel `k` is the floor of the
      translated coordinate divided by the scale: always with the true floor,
      and with `fastFloor` when that coordinate is positive. */
  lemma ScaledAxisIsFloor(variant: Variant, offset: int, extent: int, scale: real, p: int)
    ensures var k := ScaledAxis(variant, offset, extent, scale, p);
            var m := TranslateAxis(offset, extent, p);
            0.0 < scale && IntMin as real <= m as real / scale < IntMax as real
            && (variant == Intended || 0 < m) ==>
              k as real <= m as real / scale < k as real + 1.0
  {
  }

  /** A point in the margin before a positively offset image is clamped to
      displayed coordinate 0, which `fastFloor` turns into pixel -1, outside
      the image; the true floor gives pixel 0. */
  lemma MarginPixel(offset: int, extent: int, scale: real, p: int)
    requires 0 < offset && p < offset && 0.0 < scale
    ensures ScaledAxis(AsWritten, offset, extent, scale, p) == -1
    ensures ScaledAxis(Intended, offset, extent, scale, p) == 0
  {
  }

  /** A map resting at offset 0, the usual as-written resting place of a
      wide map: the pointer at screen column 0 is reported as pixel -1, and
      as pixel 0 with the true floor. */
  lemma EdgePixel(extent: int, scale: real)
    requires 0.0 < scale
    ensures ScaledAxis(AsWritten, 0, extent, scale, 0) == -1
    ensures ScaledAxis(Intended, 0, extent, scale, 0) == 0
  {
  }

  /** With the true floor, a positively offset image reports pixels between
      0 and the pixel at the far edge of the displayed image. */
  lemma IntendedPixelInImage(offset: int, extent: int, scale: real, p: int)
    requires 0 < offset && 0 <= extent && 0.0 < scale
    requires extent as real / scale < IntMax as real
    ensures 0 <= ScaledAxis(Intended, offset, extent, scale, p)
    ensures ScaledAxis(Intended, offset, extent, scale, p) as real <= extent as real / scale
  {
  }

  /** An image scrolled left by 10 pixels at scale 1: screen column 5 shows
      map column 15. */
  lemma ScrolledExample()
    ensures ScaledAxis(AsWritten, -10, 256, 1.0, 5) == 15
    ensures ScaledAxis(AsWritten, 0, 256, 1.0, 5) == 5
  {
  }
}
