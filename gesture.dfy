/** The arithmetic of one horizontal swipe, shared up to field names and
    types by both variants of the swipeable row container: how a drag is clamped to the
    open offsets, and how a release is classified as a dismiss (in which
    direction) or a snap back.  Java floats are modelled as `real`, view
    widths as `nat`, and the platform's slop and fling limits as `int`. */
module Gesture {

  datatype Option<T> = None | Some(value: T)

  /** `Math.abs` on a float. */
  function Abs(x: real): (r: real)
    ensures r >= 0.0 && (r == x || r == -x)
  {
    if x < 0.0 then -x else x
  }

  /** `width / 2` on a Java int that holds a view width: the width is never
      negative, so Java's truncating division rounds down. */
  function Half(width: nat): (h: nat)
    ensures h + h <= width <= h + h + 1
  {
    width / 2
  }

  /** What a release does with the row. */
  datatype Release = SnapBack | Dismiss(right: bool)

  /** A fast, mostly horizontal fling: the x speed lies in the platform's
      fling window and the y speed is strictly smaller than it. */
  predicate IsFling(vx: real, vy: real, minFling: int, maxFling: int)
  {
    minFling as real <= Abs(vx) <= maxFling as real && Abs(vy) < Abs(vx)
  }

  /** The release rule: a displacement of more than half the view width
      dismisses in the direction of the displacement whatever the velocity;
      otherwise a horizontal fling dismisses in the direction of the x
      velocity; otherwise the row snaps back. */
  function Decide(deltaX: real, width: nat, vx: real, vy: real, minFling: int, maxFling: int): (r: Release)
    ensures Abs(deltaX) > Half(width) as real ==> r == Dismiss(deltaX > 0.0)
    ensures IsFling(vx, vy, minFling, maxFling) ==> r.Dismiss?
    ensures r.Dismiss? && Abs(deltaX) <= Half(width) as real ==>
              IsFling(vx, vy, minFling, maxFling) && r.right == (vx > 0.0)
    ensures r == SnapBack <==> Abs(deltaX) <= Half(width) as real && !IsFling(vx, vy, minFling, maxFling)
  {
    if Abs(deltaX) > Half(width) as real then Dismiss(deltaX > 0.0)
    else if IsFling(vx, vy, minFling, maxFling) then Dismiss(vx > 0.0)
    else SnapBack
  }

  /** Which open offset, if any, a drag step landed on. */
  datatype Edge = NoEdge | LeftEdge | RightEdge

  datatype DragStep = DragStep(translation: real, edge: Edge)

  /** One drag step of a latched swipe: a rightward displacement is capped at
      `openLeft` (`Math.min`), any other at `-openRight` (`Math.max`), and
      the step reports the edge it landed on exactly. */
  function Drag(deltaX: real, openLeft: real, openRight: real): (s: DragStep)
    ensures deltaX > 0.0 ==>
              s.translation <= deltaX && s.translation <= openLeft &&
              (s.translation == deltaX || s.translation == openLeft)
    ensures deltaX <= 0.0 ==>
              s.translation >= deltaX && s.translation >= -openRight &&
              (s.translation == deltaX || s.translation == -openRight)
    ensures 0.0 <= openLeft && 0.0 <= openRight ==> -openRight <= s.translation <= openLeft
    ensures s.edge == LeftEdge <==> deltaX > 0.0 && s.translation == openLeft
    ensures s.edge == RightEdge <==> deltaX <= 0.0 && s.translation == -openRight
  {
    if deltaX > 0.0 then
      var t := if deltaX <= openLeft then deltaX else openLeft;
      DragStep(t, if t == openLeft then LeftEdge else NoEdge)
    else
      var t := if deltaX >= -openRight then deltaX else -openRight;
      DragStep(t, if t == -openRight then RightEdge else NoEdge)
  }

  /** Between the bounds the row follows the finger, and the further the
      finger goes, the further the row goes. */
  lemma DragMonotone(d1: real, d2: real, openLeft: real, openRight: real)
    requires 0.0 <= openLeft && 0.0 <= openRight
    requires d1 <= d2
    ensures Drag(d1, openLeft, openRight).translation <= Drag(d2, openLeft, openRight).translation
    ensures -openRight <= d1 <= openLeft ==> Drag(d1, openLeft, openRight).translation == d1
  {
  }

  /** Dragging the row to where it already is changes nothing: a clamped
      translation is a fixed point of the clamp. */
  lemma DragIdempotent(deltaX: real, openLeft: real, openRight: real)
    requires 0.0 <= openLeft && 0.0 <= openRight
    ensures var t := Drag(deltaX, openLeft, openRight).translation;
            Drag(t, openLeft, openRight).translation == t
  {
  }

  /** A displacement beyond half the width decides the release on its own:
      two releases with the same displacement and any velocities agree. */
  lemma DisplacementOverridesVelocity(deltaX: real, width: nat, vx1: real, vy1: real,
                                      vx2: real, vy2: real, minFling: int, maxFling: int)
    requires Abs(deltaX) > Half(width) as real
    ensures Decide(deltaX, width, vx1, vy1, minFling, maxFling) ==
            Decide(deltaX, width, vx2, vy2, minFling, maxFling)
  {
  }

  /** Because the half width is an integer, a displacement of exactly half
      an odd width already dismisses: with width 5 the threshold is 2, and
      2.5 exceeds it although it does not exceed 5 / 2 as a real. */
  lemma HalfWidthRoundsDown()
    ensures Decide(2.5, 5, 0.0, 0.0, 50, 8000) == Dismiss(true)
    ensures !(2.5 > 5.0 / 2.0)
  {
  }
}
