/** Discrete panning (`moveImage`) and pointer dragging (`mouseDragged`),
    as changes to the offsets before the clamp runs. */
module Panning {
  import opened JavaNumerics

  const DirUp: int := 1
  const DirDown: int := 2
  const DirRight: int := 3
  const DirLeft: int := 4

  const MoveFactor: int := 25
  const MoveShift: real := 2.5

  predicate IsDirection(d: int) {
    d == DirUp || d == DirDown || d == DirRight || d == DirLeft
  }

  /** The pan step: `offset *= MOVE_SHIFT` on an `int` is a compound
      assignment, so 25 * 2.5 = 62.5 is cast back to `int` and truncated. */
  function MoveStep(shift: bool): (n: int)
    ensures n == if shift then 62 else 25
  {
    if shift then CastToInt(Finite(MoveFactor as real * MoveShift)) else MoveFactor
  }

  /** The offsets `(x, y)` after the switch in `moveImage`, before the clamp.
      An unknown direction code leaves both alone; a known one moves exactly
      one axis by exactly one step, UP and LEFT toward larger offsets, DOWN
      and RIGHT toward smaller. */
  function PanOffsets(d: int, shift: bool, x: int, y: int): (r: (int, int))
    ensures !IsDirection(d) ==> r == (x, y)
    ensures (d == DirUp || d == DirDown) ==> r.0 == x && Abs(r.1 - y) == MoveStep(shift)
    ensures (d == DirLeft || d == DirRight) ==> r.1 == y && Abs(r.0 - x) == MoveStep(shift)
    ensures d == DirUp ==> r.1 > y
    ensures d == DirDown ==> r.1 < y
    ensures d == DirLeft ==> r.0 > x
    ensures d == DirRight ==> r.0 < x
  {
    var step := MoveStep(shift);
    if d == DirUp then (x, y + step)
    else if d == DirDown then (x, y - step)
    else if d == DirLeft then (x + step, y)
    else if d == DirRight then (x - step, y)
    else (x, y)
  }

  /** Before the clamp, DOWN undoes UP and RIGHT undoes LEFT, at the same
      amplification. */
  lemma PanOpposites(shift: bool, x: int, y: int)
    ensures var u := PanOffsets(DirUp, shift, x, y); PanOffsets(DirDown, shift, u.0, u.1) == (x, y)
    ensures var l := PanOffsets(DirLeft, shift, x, y); PanOffsets(DirRight, shift, l.0, l.1) == (x, y)
  {
  }

  /** One axis of `mouseDragged`: the offset moves by the pointer's
      displacement since the previous drag event (or the press), whichever
      side it moved to. */
  function DragAxis(offset: int, start: int, e: int): (r: int)
    ensures r == offset + (e - start)
  {
    if e < start then offset - (start - e)
    else if e > start then offset + (e - start)
    else offset
  }

  /** Before the clamp, successive drag events compose: dragging through
      `e1` to `e2` moves the offset as one drag straight to `e2`. */
  lemma DragComposes(offset: int, start: int, e1: int, e2: int)
    ensures DragAxis(DragAxis(offset, start, e1), e1, e2) == DragAxis(offset, start, e2)
  {
  }
}
