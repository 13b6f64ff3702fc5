/** The scale factor and its floor `minScale`: the zoom step, the floored
    zoom update, and the recomputation of `minScale` from the window and
    the map's raw size.  `double` is abstracted by `real`. */
module Scaling {

  /** Raw map image sizes: a `BufferedImage` always has positive sides. */
  type Pos = n: int | 0 < n witness 1

  const ZoomFactor: real := 0.5
  const ZoomShift: real := 2.0
  const ZoomMouse: real := 1.25

  /** The zoom step: 0.5, divided by 1.25 for a wheel gesture and doubled
      with shift held. */
  function ZoomStep(shift: bool, scroll: bool): (z: real)
    ensures !scroll && !shift ==> z == 0.5
    ensures !scroll && shift ==> z == 1.0
    ensures scroll && !shift ==> z == 0.4
    ensures scroll && shift ==> z == 0.8
  {
    var z := if scroll then ZoomFactor / ZoomMouse else ZoomFactor;
    if shift then z * ZoomShift else z
  }

  /** `scale += zoom` or `scale -= zoom`, then `if (scale <= minScale)
      scale = minScale`: the larger of the floor and the moved scale. */
  function ZoomScale(scale: real, minScale: real, step: real, zoomIn: bool): (s: real)
    ensures var moved := if zoomIn then scale + step else scale - step;
            minScale <= s && moved <= s && (s == minScale || s == moved)
  {
    var moved := if zoomIn then scale + step else scale - step;
    if moved <= minScale then minScale else moved
  }

  /** The floor `updateScale` computes: for a window taller than wide the
      scale at which the map's width fills the window's width, for one wider
      than tall the scale at which its height fills the window's height, and
      for a square window the previous floor, unchanged. */
  function MinScale(width: int, height: int, mapW: Pos, mapH: Pos, minScale: real): (m: real)
    ensures width < height ==> m * mapW as real == width as real
    ensures height < width ==> m * mapH as real == height as real
    ensures width == height ==> m == minScale
    ensures 0 <= width && 0 <= height && 0.0 <= minScale ==> 0.0 <= m
  {
    var m := if width < height then width as real / mapW as real else minScale;
    if height < width then height as real / mapH as real else m
  }

  /** `zoomOut` applied `n` times without an anchor. */
  function ZoomOutTimes(scale: real, minScale: real, step: real, n: nat): real {
    if n == 0 then scale else ZoomScale(ZoomOutTimes(scale, minScale, step, n - 1), minScale, step, false)
  }

  /** After `n` zoom-out steps from a scale at or above the floor, the scale
      is the starting scale less `n` steps, or the floor once that would go
      at or below it. */
  lemma {:induction false} ZoomOutTimesValue(scale: real, minScale: real, step: real, n: nat)
    requires minScale <= scale && 0.0 <= step
    ensures ZoomOutTimes(scale, minScale, step, n) ==
              if scale - n as real * step <= minScale then minScale else scale - n as real * step
  {
    if n > 0 {
      ZoomOutTimesValue(scale, minScale, step, n - 1);
      var prev := scale - (n - 1) as real * step;
      assert scale - n as real * step == prev - step;
      if prev <= minScale {
        assert scale - n as real * step <= minScale;
      }
    }
  }

  /** Repeated zoom-out reaches the floor after enough steps and then stays
      there. */
  lemma ZoomOutReachesFloor(scale: real, minScale: real, step: real, n: nat)
    requires minScale <= scale && 0.0 < step
    requires scale - minScale <= n as real * step
    ensures ZoomOutTimes(scale, minScale, step, n) == minScale
    ensures ZoomOutTimes(scale, minScale, step, n + 1) == minScale
  {
    ZoomOutTimesValue(scale, minScale, step, n);
    ZoomOutTimesValue(scale, minScale, step, n + 1);
    assert n as real * step <= (n + 1) as real * step;
  }
}
