/** The two-child swipeable row (src/ variant): a container holding a back
    view and a front view.  The front view's touch listener,
    `SwipeDismissTouchListener`, runs the same drag and release machine as
    the multi-child variant on the front view; the container routes a touch
    to the back view when the front has been dragged aside and the touch
    lands on the part of the back it exposes.  Every call of
    `onSwipeComplete` is recorded in the ghost log `completions`. */
module TwoChildLayout {
  import opened Gesture

  datatype SwipeState = Common | Left | Right

  /** The closed translation and the least offset (`MINIMAL_OFFSET`). */
  const MinimalOffset: int := 0

  /** The back or the front view as the container sees it. */
  class View {
    var translationX: real
    const measuredWidth: nat
    const width: nat

    constructor (measuredWidth: nat, width: nat)
      ensures this.measuredWidth == measuredWidth && this.width == width
      ensures translationX == 0.0
    {
      this.measuredWidth := measuredWidth;
      this.width := width;
      translationX := 0.0;
    }
  }

  /** The masked action of a touch event. */
  datatype Action = ActionDown | ActionMove | ActionUp | ActionCancel | ActionOther

  /** The completion handler attached to the front view's animation. */
  datatype EndAction = DismissEnd | CancelEnd | ResetEnd

  /** An animation of the front view's translation towards `target`. */
  datatype Animation = Animation(target: real, onEnd: EndAction)

  /** `setOffsets` replaces a negative offset by `MINIMAL_OFFSET`. */
  function ClampOffset(offset: int): (r: nat)
    ensures r >= offset
    ensures offset >= MinimalOffset ==> r == offset
    ensures offset < MinimalOffset ==> r == MinimalOffset
  {
    if offset < MinimalOffset then MinimalOffset else offset
  }

  /** The dismiss target: a dismiss towards the side the row is open on
      keeps it open at that offset; every other combination, including any
      dismiss from Common, closes it to 0. */
  function SettleTarget(state: SwipeState, dismissRight: bool, offsetLeft: nat, offsetRight: nat): (t: int)
    ensures state == Left && dismissRight ==> t == offsetLeft
    ensures state == Right && !dismissRight ==> t == -(offsetRight as int)
    ensures !(state == Left && dismissRight) && !(state == Right && !dismissRight) ==> t == 0
    ensures -(offsetRight as int) <= t <= offsetLeft
  {
    match state
    case Left => if dismissRight then offsetLeft else 0
    case Right => if dismissRight then 0 else -(offsetRight as int)
    case Common => 0
  }

  /** The state an ended dismiss animation derives from the front's final
      translation: Left exactly at the left offset, Right exactly at the
      right one (the left offset is compared first), Common anywhere else. */
  function DeriveState(t: real, offsetLeft: nat, offsetRight: nat): (s: SwipeState)
    ensures s == Left <==> t == offsetLeft as real
    ensures s == Right <==> t == -(offsetRight as real) && t != offsetLeft as real
    ensures s == Common <==> t != offsetLeft as real && t != -(offsetRight as real)
  {
    if t == offsetLeft as real then Left
    else if t == -(offsetRight as real) then Right
    else Common
  }

  /** The state a drag step enters when it lands on an edge. */
  function EdgeState(e: Edge): Option<SwipeState>
  {
    match e
    case NoEdge => None
    case LeftEdge => Some(Left)
    case RightEdge => Some(Right)
  }

  /** `dispatchTouchEvent`'s routing test: a touch at `x` goes to the back
      view when the front, translated by `dx`, has uncovered the back there.
      An untranslated front never routes to the back; within the front's
      own width, a touch is routed exactly when it misses the translated
      front; and a routed touch never lies on the translated front. */
  function RoutesToBack(dx: real, x: real, frontWidth: nat): (r: bool)
    ensures dx == 0.0 ==> !r
    ensures 0.0 <= x <= frontWidth as real ==> (r <==> !(dx <= x <= frontWidth as real + dx))
    ensures r ==> !(dx <= x <= frontWidth as real + dx)
  {
    (dx < 0.0 && x > frontWidth as real + dx) || (dx > 0.0 && x < dx)
  }

  /** A dismiss that completes at its target keeps an open row open when it
      goes further towards the side it is open on, and closes the row in
      every other case. */
  lemma SettleOutcome(state: SwipeState, dismissRight: bool, offsetLeft: nat, offsetRight: nat)
    requires offsetLeft > 0 && offsetRight > 0
    ensures var s := DeriveState(SettleTarget(state, dismissRight, offsetLeft, offsetRight) as real,
                                 offsetLeft, offsetRight);
            ((state == Left && dismissRight) || (state == Right && !dismissRight) ==> s == state) &&
            (!((state == Left && dismissRight) || (state == Right && !dismissRight)) ==> s == Common)
  {
  }

  /** With one offset at 0 a dismiss misreports the row.  Closing a row open
      on the left whose right offset is 0 settles at 0, which derives Right;
      and a dismiss of a closed row whose left offset is 0 derives Left. */
  lemma OneSidedCloseReportsRight()
    ensures SettleTarget(Left, false, 80, 0) == 0 && DeriveState(SettleTarget(Left, false, 80, 0) as real, 80, 0) == Right
    ensures SettleTarget(Common, true, 0, 40) == 0 && DeriveState(SettleTarget(Common, true, 0, 40) as real, 0, 40) == Left
  {
  }

  class SwipeFrameLayout {
    /** The container's children (`getChildAt`). */
    const children: seq<View>

    var state: SwipeState
    var offsetLeft: nat
    var offsetRight: nat
    var back: View?
    var front: View?
    var listener: SwipeDismissTouchListener?
    /** The front view's animation in flight, if any. */
    var pending: Option<Animation>

    /** Every call of `onSwipeComplete`, oldest first. */
    ghost var completions: seq<SwipeState>

    /** The container owns the touch listener it created. */
    ghost predicate Valid()
      reads this
    {
      listener != null && listener.layout == this
    }

    /** `dispatchTouchEvent`: whether a touch at `x` is handed to the back
        view (and consumed) instead of going to the children as usual.  It is
        never handed over while the front is closed, and a touch that is
        handed over never lies on the front where it now is; within the
        front's measured width, exactly the touches that miss it are. */
    function DispatchesToBack(x: real): (r: bool)
      requires front != null
      reads this, front
      ensures front.translationX == 0.0 ==> !r
      ensures r ==> !(front.translationX <= x <= front.measuredWidth as real + front.translationX)
      ensures 0.0 <= x <= front.measuredWidth as real ==>
                (r <==> !(front.translationX <= x <= front.measuredWidth as real + front.translationX))
    {
      RoutesToBack(front.translationX, x, front.measuredWidth)
    }

    /** Construction creates the front's touch listener, which closes the
        row. */
    constructor (children: seq<View>, slop: int, minFling: int, maxFling: int)
      ensures this.children == children
      ensures state == Common && offsetLeft == 0 && offsetRight == 0
      ensures back == null && front == null && pending == None && completions == []
      ensures Valid() && fresh(listener)
      ensures listener.slop == slop && listener.minFling == minFling && listener.maxFling == maxFling
      ensures listener.viewWidth == 1 && listener.downX == 0.0 && !listener.swiping
      ensures listener.translationX == 0.0 && !listener.hasTracker && listener.frontCancels == 0
    {
      this.children := children;
      state := Common;
      offsetLeft := 0;
      offsetRight := 0;
      back := null;
      front := null;
      listener := null;
      pending := None;
      completions := [];
      new;
      listener := new SwipeDismissTouchListener(this, slop, minFling, maxFling);
    }

    /** The measure pass takes the first child as the back view and the
        second as the front view; the listener is attached to the front.
        The container needs two children. */
    method Measure()
      requires Valid() && |children| >= 2
      modifies this
      ensures Valid()
      ensures back == children[0] && front == children[1]
      ensures state == old(state) && offsetLeft == old(offsetLeft) && offsetRight == old(offsetRight)
      ensures listener == old(listener) && pending == old(pending) && completions == old(completions)
    {
      back := children[0];
      front := children[1];
    }

    /** `onSwipeComplete`: one notification. */
    method OnSwipeComplete(s: SwipeState)
      modifies this`completions
      ensures completions == old(completions) + [s]
    {
      completions := completions + [s];
    }

    /** Set both open offsets, replacing a negative one by 0. */
    method SetOffsets(newLeft: int, newRight: int)
      requires Valid()
      modifies this`offsetLeft, this`offsetRight
      ensures Valid()
      ensures offsetLeft == ClampOffset(newLeft) && offsetRight == ClampOffset(newRight)
    {
      offsetLeft := if newLeft < MinimalOffset then MinimalOffset else newLeft;
      offsetRight := if newRight < MinimalOffset then MinimalOffset else newRight;
    }

    /** Snap the front back to 0 at once; nothing happens when there is no
        front yet or it has not moved. */
    method ResetItem()
      requires Valid()
      modifies this, front
      ensures Valid()
      ensures front == old(front)
      ensures front == null || old(front.translationX) == MinimalOffset as real ==>
                unchanged(this) && (front != null ==> unchanged(front))
      ensures front != null && old(front.translationX) != MinimalOffset as real ==>
                front.translationX == MinimalOffset as real && state == Common &&
                completions == old(completions) + [Common]
      ensures offsetLeft == old(offsetLeft) && offsetRight == old(offsetRight) && back == old(back)
      ensures listener == old(listener) && pending == old(pending)
    {
      if front == null || front.translationX == MinimalOffset as real {
        return;
      }
      front.translationX := MinimalOffset as real;
      state := Common;
      OnSwipeComplete(state);
    }

    /** Animate the front back to 0; nothing happens when there is no front
        yet or it has not moved.  The notification comes when the animation
        ends. */
    method ResetItemWithAnimation()
      requires Valid()
      modifies this
      ensures Valid()
      ensures front == null || front.translationX == MinimalOffset as real ==> unchanged(this)
      ensures front != null && front.translationX != MinimalOffset as real ==>
                pending == Some(Animation(MinimalOffset as real, ResetEnd))
      ensures state == old(state) && completions == old(completions)
      ensures offsetLeft == old(offsetLeft) && offsetRight == old(offsetRight)
      ensures back == old(back) && front == old(front) && listener == old(listener)
    {
      if front == null || front.translationX == MinimalOffset as real {
        return;
      }
      pending := Some(Animation(MinimalOffset as real, ResetEnd));
    }

    /** The end of the front's animation, which left it at `finalX`: a settle
        stores `finalX` as the gesture's translation and derives the state
        from it; a snap back clears the gesture and closes the row; a reset
        closes the row.  Each notifies exactly once. */
    method OnAnimationEnd(finalX: real)
      requires Valid() && front != null && pending.Some?
      modifies this, front, listener
      ensures Valid()
      ensures back == old(back) && front == old(front) && listener == old(listener)
      ensures front.translationX == finalX && pending == None
      ensures completions == old(completions) + [state]
      ensures match old(pending.value.onEnd)
                case DismissEnd =>
                  listener.translationX == finalX &&
                  state == DeriveState(finalX, offsetLeft, offsetRight) &&
                  listener.downX == old(listener.downX) && listener.swiping == old(listener.swiping)
                case CancelEnd =>
                  listener.translationX == 0.0 && listener.downX == 0.0 && !listener.swiping &&
                  state == Common
                case ResetEnd =>
                  state == Common && listener.translationX == old(listener.translationX) &&
                  listener.downX == old(listener.downX) && listener.swiping == old(listener.swiping)
      ensures offsetLeft == old(offsetLeft) && offsetRight == old(offsetRight)
      ensures listener.viewWidth == old(listener.viewWidth) && listener.hasTracker == old(listener.hasTracker)
      ensures listener.frontCancels == old(listener.frontCancels)
    {
      var onEnd := pending.value.onEnd;
      pending := None;
      front.translationX := finalX;
      match onEnd
      case DismissEnd =>
        listener.translationX := front.translationX;
        if listener.translationX == offsetLeft as real {
          state := Left;
        } else if listener.translationX == -(offsetRight as real) {
          state := Right;
        } else {
          state := Common;
        }
        OnSwipeComplete(state);
      case CancelEnd =>
        listener.translationX := 0.0;
        listener.downX := 0.0;
        listener.swiping := false;
        state := Common;
        OnSwipeComplete(state);
      case ResetEnd =>
        state := Common;
        OnSwipeComplete(state);
    }
  }

  /** The front view's touch listener: the gesture's scratch state. */
  class SwipeDismissTouchListener {
    const layout: SwipeFrameLayout
    const slop: int
    const minFling: int
    const maxFling: int

    /** The front's width as last read; starts at 1. */
    var viewWidth: nat
    var downX: real
    var swiping: bool
    var translationX: real
    /** Whether a velocity tracker is live. */
    var hasTracker: bool
    /** How many cancel events were sent to the front view. */
    ghost var frontCancels: nat

    constructor (layout: SwipeFrameLayout, slop: int, minFling: int, maxFling: int)
      modifies layout`state
      ensures this.layout == layout && this.slop == slop
      ensures this.minFling == minFling && this.maxFling == maxFling
      ensures viewWidth == 1 && downX == 0.0 && !swiping && translationX == 0.0
      ensures !hasTracker && frontCancels == 0
      ensures layout.state == Common
    {
      this.layout := layout;
      this.slop := slop;
      this.minFling := minFling;
      this.maxFling := maxFling;
      viewWidth := 1;
      downX := 0.0;
      swiping := false;
      translationX := 0.0;
      hasTracker := false;
      frontCancels := 0;
      new;
      layout.state := Common;
    }

    /** One touch event on the front view.  The front's width is re-read
        while the stored width is below 2.  A press records where the
        finger went down relative to the front and is consumed.  A move,
        with a live tracker, latches the swipe once the displacement exceeds
        the slop and, while swiping, drags the front within the offsets,
        entering Left or Right (and notifying) when it lands on one; it is
        consumed exactly when swiping.  A release (up or cancel), with a
        live tracker, starts the settle or snap-back animation and releases
        the tracker.  Nothing else is consumed. */
    method OnTouch(action: Action, rawX: real, vx: real, vy: real) returns (consumed: bool)
      requires layout.Valid() && layout.listener == this && layout.front != null
      modifies this, layout, layout.front
      ensures layout.Valid()
      ensures layout.front == old(layout.front) && layout.back == old(layout.back)
      ensures viewWidth == if old(viewWidth) < 2 then layout.front.width else old(viewWidth)
      ensures layout.listener == old(layout.listener)
      ensures layout.offsetLeft == old(layout.offsetLeft) && layout.offsetRight == old(layout.offsetRight)
      ensures action == ActionOther ==>
                !consumed && downX == old(downX) && swiping == old(swiping) &&
                translationX == old(translationX) && hasTracker == old(hasTracker) &&
                frontCancels == old(frontCancels) && unchanged(layout, layout.front)
      ensures action == ActionDown ==>
                consumed && downX == rawX - layout.front.translationX && hasTracker &&
                swiping == old(swiping) && translationX == old(translationX) &&
                frontCancels == old(frontCancels) && unchanged(layout, layout.front)
      ensures action == ActionMove ==>
                downX == old(downX) && hasTracker == old(hasTracker) && layout.pending == old(layout.pending)
      ensures action == ActionMove && !old(hasTracker) ==>
                !consumed && swiping == old(swiping) && translationX == old(translationX) &&
                frontCancels == old(frontCancels) && unchanged(layout, layout.front)
      ensures action == ActionMove && old(hasTracker) ==>
                var d := rawX - downX;
                var step := Drag(d, layout.offsetLeft as real, layout.offsetRight as real);
                var entered := EdgeState(step.edge);
                && swiping == (old(swiping) || Abs(d) > slop as real)
                && frontCancels == old(frontCancels) + (if Abs(d) > slop as real then 1 else 0)
                && consumed == swiping
                && (!swiping ==> translationX == old(translationX) && unchanged(layout, layout.front))
                && (swiping ==> translationX == step.translation &&
                                layout.front.translationX == step.translation &&
                                layout.state == (if entered.Some? then entered.value else old(layout.state)) &&
                                layout.completions == old(layout.completions) +
                                  (if entered.Some? then [entered.value] else []))
      ensures action == ActionMove && consumed ==>
                -(layout.offsetRight as real) <= translationX <= layout.offsetLeft as real
      ensures action == ActionUp || action == ActionCancel ==>
                !consumed && downX == old(downX) && swiping == old(swiping) &&
                translationX == old(translationX) && frontCancels == old(frontCancels) &&
                layout.state == old(layout.state) && layout.completions == old(layout.completions) &&
                unchanged(layout.front)
      ensures (action == ActionUp || action == ActionCancel) && !old(hasTracker) ==>
                !hasTracker && layout.pending == old(layout.pending)
      ensures (action == ActionUp || action == ActionCancel) && old(hasTracker) ==>
                var r := Decide(rawX - downX, viewWidth, vx, vy, minFling, maxFling);
                && !hasTracker
                && layout.pending == Some(
                     if r.Dismiss? then
                       Animation(SettleTarget(layout.state, r.right, layout.offsetLeft, layout.offsetRight) as real,
                                 DismissEnd)
                     else Animation(0.0, CancelEnd))
    {
      var front := layout.front;
      if viewWidth < 2 {
        viewWidth := front.width;
      }
      match action {
      case ActionDown =>
        downX := rawX - front.translationX;
        hasTracker := true;
        return true;
      case ActionUp =>
        if hasTracker {
          Release(rawX, vx, vy);
        }
      case ActionCancel =>
        if hasTracker {
          Release(rawX, vx, vy);
        }
      case ActionMove =>
        if hasTracker {
          consumed := Move(rawX);
          return;
        }
      case ActionOther =>
      }
      return false;
    }

    /** The move branch of `OnTouch`, with a live tracker: the swipe latches
        once the displacement exceeds the slop (one cancel goes to the front
        each time it does), and while swiping the front is dragged to the
        clamped displacement, entering Left or Right and notifying when it
        lands on an offset.  A swiping move is consumed. */
    method Move(rawX: real) returns (consumed: bool)
      requires layout.front != null
      modifies this`swiping, this`translationX, this`frontCancels
      modifies layout`state, layout`completions, layout.front`translationX
      ensures var d := rawX - downX;
              var step := Drag(d, layout.offsetLeft as real, layout.offsetRight as real);
              var entered := EdgeState(step.edge);
              && swiping == (old(swiping) || Abs(d) > slop as real)
              && frontCancels == old(frontCancels) + (if Abs(d) > slop as real then 1 else 0)
              && consumed == swiping
              && (!swiping ==>
                    translationX == old(translationX) && layout.state == old(layout.state) &&
                    layout.completions == old(layout.completions) &&
                    layout.front.translationX == old(layout.front.translationX))
              && (swiping ==>
                    translationX == step.translation &&
                    layout.front.translationX == step.translation &&
                    layout.state == (if entered.Some? then entered.value else old(layout.state)) &&
                    layout.completions == old(layout.completions) +
                      (if entered.Some? then [entered.value] else []))
    {
      var front := layout.front;
      var deltaX := rawX - downX;
      if Abs(deltaX) > slop as real {
        swiping := true;
        frontCancels := frontCancels + 1;
      }
      if !swiping {
        return false;
      }
      var offsetLeft := layout.offsetLeft as real;
      var offsetRight := layout.offsetRight as real;
      if deltaX > 0.0 {
        translationX := if deltaX <= offsetLeft then deltaX else offsetLeft;
        if translationX == offsetLeft {
          layout.state := Left;
          layout.OnSwipeComplete(layout.state);
        }
      } else {
        translationX := if deltaX >= -offsetRight then deltaX else -offsetRight;
        if translationX == -offsetRight {
          layout.state := Right;
          layout.OnSwipeComplete(layout.state);
        }
      }
      front.translationX := translationX;
      return true;
    }

    /** The release branch of `OnTouch`, shared by up and cancel. */
    method Release(rawX: real, vx: real, vy: real)
      requires hasTracker
      modifies this`hasTracker, layout`pending
      ensures !hasTracker
      ensures var r := Decide(rawX - downX, viewWidth, vx, vy, minFling, maxFling);
              layout.pending == Some(
                if r.Dismiss? then
                  Animation(SettleTarget(layout.state, r.right, layout.offsetLeft, layout.offsetRight) as real,
                            DismissEnd)
                else Animation(0.0, CancelEnd))
    {
      var deltaX := rawX - downX;
      var dismiss := false;
      var dismissRight := false;
      if Abs(deltaX) > Half(viewWidth) as real {
        dismiss := true;
        dismissRight := deltaX > 0.0;
      } else if minFling as real <= Abs(vx) && Abs(vx) <= maxFling as real && Abs(vy) < Abs(vx) {
        dismiss := true;
        dismissRight := vx > 0.0;
      }
      if dismiss {
        var target := SettleTarget(layout.state, dismissRight, layout.offsetLeft, layout.offsetRight);
        layout.pending := Some(Animation(target as real, DismissEnd));
      } else {
        layout.pending := Some(Animation(0.0, CancelEnd));
      }
      hasTracker := false;
    }
  }
}
