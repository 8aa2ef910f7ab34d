/** The multi-child swipeable row (library/ variant): a container over a
    stack of child views.  A press picks the child under the finger (the
    hit test), drags move that child within its layout offsets, a release
    starts a settle or snap-back animation, and the end of that animation
    re-derives the row's state and notifies the listener.  Touch events are
    reduced to the numbers the handlers read (x, raw x, the two velocities);
    every call of `onSwipeComplete` is recorded in the ghost log
    `completions`. */
module MultiChildLayout {
  import opened Gesture

  /** The row's display state.  MoveLeft and MoveRight are declared by the
      source but never assigned. */
  datatype SwipeState = Common | Left | Right | MoveLeft | MoveRight

  /** The container's per-child layout params: how far the child may be
      dragged to the right (`offsetOpenLeft`) and to the left
      (`offsetOpenRight`).  They are floats and default to 0. */
  datatype LayoutParams = LayoutParams(offsetOpenLeft: real, offsetOpenRight: real)

  /** The translation that a child is animated to is 0 (`MINIMAL_OFFSET`)
      when it is reset. */
  const MinimalOffset: real := 0.0

  /** A child view as the container sees it. */
  class View {
    var translationX: real
    const measuredWidth: nat
    const width: nat
    const params: LayoutParams

    constructor (measuredWidth: nat, width: nat, params: LayoutParams)
      ensures this.measuredWidth == measuredWidth && this.width == width && this.params == params
      ensures translationX == 0.0
    {
      this.measuredWidth := measuredWidth;
      this.width := width;
      this.params := params;
      translationX := 0.0;
    }
  }

  /** One call of `onSwipeComplete(child, state)`. */
  datatype Completion = Completion(child: View, state: SwipeState)

  /** The completion handler attached to an animation. */
  datatype EndAction = DismissEnd | CancelEnd | ResetEnd

  /** An animation of one child's translation towards `target`. */
  datatype Animation = Animation(target: real, onEnd: EndAction)

  /** Positions `i` and `j` of `vs` hold different views. */
  predicate Apart(vs: seq<View>, i: nat, j: nat)
    requires i < |vs| && j < |vs|
  {
    vs[i] != vs[j]
  }

  /** No view occurs twice in `vs`. */
  predicate Distinct(vs: seq<View>)
  {
    forall i: nat, j: nat :: i < j < |vs| ==> Apart(vs, i, j)
  }

  /** Any two different positions of distinct views hold different views. */
  lemma DistinctApart(vs: seq<View>, i: nat, j: nat)
    requires Distinct(vs) && i < |vs| && j < |vs| && i != j
    ensures vs[i] != vs[j]
  {
    if i < j {
      assert Apart(vs, i, j);
    } else {
      assert Apart(vs, j, i);
    }
  }

  // ---------------------------------------------------------------------
  // Settling: where a dismiss goes, and what state its end derives.
  // ---------------------------------------------------------------------

  /** The dismiss target: a dismiss towards the side the row is open on
      keeps it open at that offset; every other combination, including any
      dismiss from Common, closes it to 0. */
  function SettleTarget(state: SwipeState, dismissRight: bool, p: LayoutParams): (t: real)
    ensures state == Left && dismissRight ==> t == p.offsetOpenLeft
    ensures state == Right && !dismissRight ==> t == -p.offsetOpenRight
    ensures !(state == Left && dismissRight) && !(state == Right && !dismissRight) ==> t == 0.0
    ensures 0.0 <= p.offsetOpenLeft && 0.0 <= p.offsetOpenRight ==>
              -p.offsetOpenRight <= t <= p.offsetOpenLeft
  {
    match state
    case Left => if dismissRight then p.offsetOpenLeft else 0.0
    case Right => if dismissRight then 0.0 else -p.offsetOpenRight
    case _ => 0.0
  }

  /** The state an ended dismiss animation derives from the child's final
      translation: Left exactly at the left offset, Right exactly at the
      right one (the left offset is compared first), Common anywhere else. */
  function DeriveState(t: real, p: LayoutParams): (s: SwipeState)
    ensures s == Left <==> t == p.offsetOpenLeft
    ensures s == Right <==> t == -p.offsetOpenRight && t != p.offsetOpenLeft
    ensures s == Common <==> t != p.offsetOpenLeft && t != -p.offsetOpenRight
    ensures s != MoveLeft && s != MoveRight
  {
    if t == p.offsetOpenLeft then Left
    else if t == -p.offsetOpenRight then Right
    else Common
  }

  /** The state a drag step enters when it lands on an edge. */
  function EdgeState(e: Edge): Option<SwipeState>
  {
    match e
    case NoEdge => None
    case LeftEdge => Some(Left)
    case RightEdge => Some(Right)
  }

  /** A dismiss that completes at its target keeps an open row open when it
      goes further towards the side it is open on, and closes the row in
      every other case; in particular a dismiss from Common never opens the
      row (opening happens only when a drag reaches an offset). */
  lemma SettleOutcome(state: SwipeState, dismissRight: bool, p: LayoutParams)
    requires p.offsetOpenLeft > 0.0 && p.offsetOpenRight > 0.0
    ensures var s := DeriveState(SettleTarget(state, dismissRight, p), p);
            ((state == Left && dismissRight) || (state == Right && !dismissRight) ==> s == state) &&
            (!((state == Left && dismissRight) || (state == Right && !dismissRight)) ==> s == Common)
  {
  }

  /** The state a drag enters at an edge is the state a settle at that same
      translation derives, unless the two offsets coincide as translations. */
  lemma DragAgreesWithDerive(deltaX: real, p: LayoutParams)
    requires p.offsetOpenLeft != -p.offsetOpenRight
    ensures var step := Drag(deltaX, p.offsetOpenLeft, p.offsetOpenRight);
            EdgeState(step.edge).Some? ==> EdgeState(step.edge).value == DeriveState(step.translation, p)
  {
  }

  /** With both offsets at their default of 0 the two disagree: a leftward
      drag lands on the right edge and enters Right, while a settle at 0
      derives Left. */
  lemma ZeroOffsetsDisagree()
    ensures Drag(-1.0, 0.0, 0.0) == DragStep(0.0, RightEdge)
    ensures DeriveState(0.0, LayoutParams(0.0, 0.0)) == Left
  {
  }

  /** With one offset at 0 a dismiss misreports the row.  Closing a row open
      on the left whose right offset is 0 settles at 0, which derives Right;
      and a dismiss of a closed row whose left offset is 0 derives Left. */
  lemma OneSidedCloseReportsRight()
    ensures var p := LayoutParams(80.0, 0.0);
            SettleTarget(Left, false, p) == 0.0 && DeriveState(SettleTarget(Left, false, p), p) == Right
    ensures var p := LayoutParams(0.0, 40.0);
            SettleTarget(Common, true, p) == 0.0 && DeriveState(SettleTarget(Common, true, p), p) == Left
  {
  }

  // ---------------------------------------------------------------------
  // Hit test.
  // ---------------------------------------------------------------------

  /** A child's horizontal extent: its measured width shifted by its
      translation. */
  datatype Extent = Extent(left: real, right: real)

  function Extents(vs: seq<View>): seq<Extent>
    reads vs
  {
    seq(|vs|, k requires 0 <= k < |vs| reads vs =>
      Extent(vs[k].translationX, vs[k].measuredWidth as real + vs[k].translationX))
  }

  /** Whether a press at `x` picks child `k`.  The bottom child is only ever
      compared as a "back" view, against its open extent; every other child
      is eventually compared as a "front" view, against its closed extent. */
  predicate Hits(es: seq<Extent>, k: nat, x: real)
    requires k < |es|
  {
    if k == 0 then es[0].left < x < es[0].right
    else es[k].left <= x <= es[k].right
  }

  /** The topmost of the first `n` children that a press at `x` picks. */
  function TopmostHit(es: seq<Extent>, x: real, n: nat): (r: Option<nat>)
    requires n <= |es|
    ensures r.Some? ==> r.value < n && Hits(es, r.value, x) &&
                        forall j :: r.value < j < n ==> !Hits(es, j, x)
    ensures r.None? ==> forall j :: 0 <= j < n ==> !Hits(es, j, x)
    decreases n
  {
    if n == 0 then None
    else if Hits(es, n - 1, x) then Some(n - 1)
    else TopmostHit(es, x, n - 1)
  }

  /** The child a press at `x` intercepts: none with fewer than two
      children, otherwise the topmost child it picks. */
  function Intercept(es: seq<Extent>, x: real): (r: Option<nat>)
  {
    if |es| < 2 then None else TopmostHit(es, x, |es|)
  }

  /** A press that lies in no child's extent is never intercepted. */
  lemma MissIsNotIntercepted(es: seq<Extent>, x: real)
    requires forall k :: 0 <= k < |es| ==> !(es[k].left <= x <= es[k].right)
    ensures Intercept(es, x) == None
  {
  }

  /** A press inside the top child's closed extent intercepts the top
      child, whatever lies beneath it. */
  lemma TopChildWins(es: seq<Extent>, x: real)
    requires |es| >= 2
    requires es[|es| - 1].left <= x <= es[|es| - 1].right
    ensures Intercept(es, x) == Some(|es| - 1)
  {
  }

  // ---------------------------------------------------------------------
  // Bulk reset.
  // ---------------------------------------------------------------------

  /** The completions `resetItems` reports for the first `m` children of
      `vs`, whose translations are `tx`, in child order: one Common per moved
      child. */
  function ResetLog(vs: seq<View>, tx: seq<real>, m: nat): (log: seq<Completion>)
    requires |vs| == |tx| && m <= |vs|
    ensures |log| <= m
    ensures forall i :: 0 <= i < |log| ==> log[i].state == Common && log[i].child in vs[..m]
    ensures log == [] <==> forall k :: 0 <= k < m ==> tx[k] == 0.0
  {
    if m == 0 then []
    else
      ResetLog(vs, tx, m - 1) +
      (if tx[m - 1] != MinimalOffset then [Completion(vs[m - 1], Common)] else [])
  }

  /** How many times `c` occurs in `log`. */
  function Occurrences(log: seq<Completion>, c: Completion): nat
  {
    if |log| == 0 then 0
    else Occurrences(log[..|log| - 1], c) + (if log[|log| - 1] == c then 1 else 0)
  }

  /** Over distinct children, the reset of the first `m` children notifies
      each of them exactly once if it had moved and never if it had not. */
  lemma ResetLogOncePerMovedChild(vs: seq<View>, tx: seq<real>, m: nat, k: nat)
    requires |vs| == |tx| && Distinct(vs) && k < m <= |vs|
    ensures Occurrences(ResetLog(vs, tx, m), Completion(vs[k], Common)) == if tx[k] != 0.0 then 1 else 0
  {
    forall j | 0 <= j < m && j != k
      ensures vs[j] != vs[k]
    {
      DistinctApart(vs, j, k);
    }
    ResetLogOnce(vs, tx, m, k);
  }

  /** The same count, needing only that no other of the first `m` children
      is child `k`. */
  lemma {:induction false} ResetLogOnce(vs: seq<View>, tx: seq<real>, m: nat, k: nat)
    requires |vs| == |tx| && k < m <= |vs|
    requires forall j :: 0 <= j < m && j != k ==> vs[j] != vs[k]
    ensures Occurrences(ResetLog(vs, tx, m), Completion(vs[k], Common)) == if tx[k] != 0.0 then 1 else 0
  {
    if k < m - 1 {
      ResetLogOccurrencesStep(vs, tx, m, Completion(vs[k], Common));
      ResetLogOnce(vs, tx, m - 1, k);
    } else {
      ResetLogOnceAt(vs, tx, k);
    }
  }

  /** Child `k`, unlike every child before it, is notified once by the reset
      of the children up to and including it if it had moved, and never if
      not. */
  lemma ResetLogOnceAt(vs: seq<View>, tx: seq<real>, k: nat)
    requires |vs| == |tx| && k < |vs|
    requires forall j :: 0 <= j < k ==> vs[j] != vs[k]
    ensures Occurrences(ResetLog(vs, tx, k + 1), Completion(vs[k], Common)) == if tx[k] != 0.0 then 1 else 0
  {
    var c := Completion(vs[k], Common);
    assert c.child !in vs[..k] by {
      assert forall j :: 0 <= j < k ==> vs[..k][j] == vs[j];
    }
    ResetLogWithout(vs, tx, k, c);
    ResetLogOccurrencesStep(vs, tx, k + 1, c);
  }

  /** Resetting child `m - 1` adds one occurrence of its entry if it had
      moved, and leaves the count of every other entry as it was. */
  lemma ResetLogOccurrencesStep(vs: seq<View>, tx: seq<real>, m: nat, c: Completion)
    requires |vs| == |tx| && 0 < m <= |vs|
    ensures Occurrences(ResetLog(vs, tx, m), c) ==
            Occurrences(ResetLog(vs, tx, m - 1), c) +
            (if tx[m - 1] != MinimalOffset && Completion(vs[m - 1], Common) == c then 1 else 0)
  {
    var before := ResetLog(vs, tx, m - 1);
    if tx[m - 1] != MinimalOffset {
      OccurrencesSnoc(before, Completion(vs[m - 1], Common), c);
    } else {
      assert before + [] == before;
    }
  }

  /** One more child in the bulk reset: its entry, if it had moved, goes
      after the entries of the children before it, and the row's state
      becomes Common exactly when some child so far had moved. */
  lemma ResetLogStep(vs: seq<View>, tx: seq<real>, i: nat, start: seq<Completion>,
                     before: seq<Completion>, after: seq<Completion>,
                     state0: SwipeState, stateBefore: SwipeState, stateAfter: SwipeState)
    requires |vs| == |tx| && i < |vs|
    requires before == start + ResetLog(vs, tx, i)
    requires stateBefore == if ResetLog(vs, tx, i) == [] then state0 else Common
    requires after == before + (if tx[i] != MinimalOffset then [Completion(vs[i], Common)] else [])
    requires stateAfter == if tx[i] != MinimalOffset then Common else stateBefore
    ensures after == start + ResetLog(vs, tx, i + 1)
    ensures stateAfter == if ResetLog(vs, tx, i + 1) == [] then state0 else Common
  {
    var entry := if tx[i] != MinimalOffset then [Completion(vs[i], Common)] else [];
    assert ResetLog(vs, tx, i + 1) == ResetLog(vs, tx, i) + entry;
    assert start + ResetLog(vs, tx, i) + entry == start + (ResetLog(vs, tx, i) + entry);
  }

  /** Appending `e` to a log adds one occurrence of `e` and none of anything
      else. */
  lemma OccurrencesSnoc(log: seq<Completion>, e: Completion, c: Completion)
    ensures Occurrences(log + [e], c) == Occurrences(log, c) + (if e == c then 1 else 0)
  {
    assert (log + [e])[..|log|] == log;
  }

  /** A child that is not among the first `m` gets no entry. */
  lemma ResetLogWithout(vs: seq<View>, tx: seq<real>, m: nat, c: Completion)
    requires |vs| == |tx| && m <= |vs| && c.child !in vs[..m]
    ensures Occurrences(ResetLog(vs, tx, m), c) == 0
  {
    OccurrencesAbsent(ResetLog(vs, tx, m), c);
  }

  /** An entry that no position of `log` holds occurs zero times. */
  lemma {:induction false} OccurrencesAbsent(log: seq<Completion>, c: Completion)
    requires forall i :: 0 <= i < |log| ==> log[i] != c
    ensures Occurrences(log, c) == 0
  {
    if |log| > 0 {
      var n := |log| - 1;
      assert forall i :: 0 <= i < n ==> log[..n][i] == log[i];
      OccurrencesAbsent(log[..n], c);
    }
  }

  /** The translations of `vs`, in order. */
  function Translations(vs: seq<View>): (tx: seq<real>)
    reads vs
    ensures |tx| == |vs|
    ensures forall k :: 0 <= k < |vs| ==> tx[k] == vs[k].translationX
  {
    if vs == [] then [] else Translations(vs[..|vs| - 1]) + [vs[|vs| - 1].translationX]
  }

  /** The reset animations `resetItemsWithAnimation` starts: one towards 0 per
      child of `vs` that has moved. */
  function ResetAnimations(vs: seq<View>): map<View, Animation>
    reads vs
  {
    map c | c in vs && c.translationX != MinimalOffset :: Animation(MinimalOffset, ResetEnd)
  }

  lemma ResetAnimationsSnoc(vs: seq<View>, c: View)
    ensures ResetAnimations(vs + [c]) ==
            if c.translationX != MinimalOffset then ResetAnimations(vs)[c := Animation(MinimalOffset, ResetEnd)]
            else ResetAnimations(vs)
  {
  }

  /** One step of the bulk animated reset: adding a child's reset to the
      animations started so far. */
  lemma ResetAnimationsStep(start: map<View, Animation>, before: map<View, Animation>,
                            after: map<View, Animation>, vs: seq<View>, c: View)
    requires before == start + ResetAnimations(vs)
    requires c.translationX != MinimalOffset ==> after == before[c := Animation(MinimalOffset, ResetEnd)]
    requires c.translationX == MinimalOffset ==> after == before
    ensures after == start + ResetAnimations(vs + [c])
  {
    ResetAnimationsSnoc(vs, c);
    if c.translationX != MinimalOffset {
      var a := Animation(MinimalOffset, ResetEnd);
      assert (start + ResetAnimations(vs))[c := a] == start + ResetAnimations(vs)[c := a];
    }
  }

  // ---------------------------------------------------------------------
  // The container.
  // ---------------------------------------------------------------------

  class SwipeFrameLayout {
    /** The container's children, in stacking order (`getChildAt`). */
    const children: seq<View>
    const slop: int
    const minFling: int
    const maxFling: int

    var state: SwipeState
    var downX: real
    var swiping: bool
    var translationX: real
    /** Whether a velocity tracker is live. */
    var hasTracker: bool
    /** The children captured by the last measure pass (`mViews`). */
    var views: array?<View>
    var intercepted: View?
    /** The animations in flight, one per child at most. */
    var animations: map<View, Animation>

    /** Every call of `onSwipeComplete`, oldest first. */
    ghost var completions: seq<Completion>
    /** How many cancel events were sent to the intercepted child. */
    ghost var childCancels: nat

    ghost predicate Valid()
      reads this, views
    {
      Distinct(children) &&
      (views != null ==> |children| > 0 && views[..] == children) &&
      (intercepted != null ==> intercepted in children)
    }

    constructor (children: seq<View>, slop: int, minFling: int, maxFling: int)
      requires Distinct(children)
      ensures Valid()
      ensures this.children == children && this.slop == slop
      ensures this.minFling == minFling && this.maxFling == maxFling
      ensures state == Common && downX == 0.0 && !swiping && translationX == 0.0
      ensures !hasTracker && views == null && intercepted == null && animations == map[]
      ensures completions == [] && childCancels == 0
    {
      this.children := children;
      this.slop := slop;
      this.minFling := minFling;
      this.maxFling := maxFling;
      state := Common;
      downX := 0.0;
      swiping := false;
      translationX := 0.0;
      hasTracker := false;
      views := null;
      intercepted := null;
      animations := map[];
      completions := [];
      childCancels := 0;
    }

    /** The measure pass captures the children into a fresh array, or
        drops the array when there are none. */
    method Measure()
      requires Valid()
      modifies this
      ensures Valid()
      ensures views != null <==> |children| > 0
      ensures views != null ==> fresh(views) && views[..] == children
      ensures state == old(state) && downX == old(downX) && swiping == old(swiping)
      ensures translationX == old(translationX) && hasTracker == old(hasTracker)
      ensures intercepted == old(intercepted) && animations == old(animations)
      ensures completions == old(completions) && childCancels == old(childCancels)
    {
      if |children| > 0 {
        var first := children[0];
        var a := new View[|children|](_ => first);
        var i := 0;
        while i < a.Length
          invariant 0 <= i <= a.Length
          modifies a
          invariant forall k :: 0 <= k < i ==> a[k] == children[k]
        {
          a[i] := children[i];
          i := i + 1;
        }
        views := a;
      } else {
        views := null;
      }
    }

    /** `getChildAt`: null outside the children's range. */
    function ChildAt(index: int): (c: View?)
      ensures c != null <==> 0 <= index < |children|
      ensures c != null ==> c == children[index]
    {
      if 0 <= index < |children| then children[index] else null
    }

    /** The child the hit test picks at `x`, by the pure definition. */
    ghost function InterceptTarget(x: real): View?
      reads this, children
    {
      if views == null then null
      else match Intercept(Extents(children), x)
        case None => null
        case Some(k) => if k < |children| then children[k] else null
    }

    /** The hit test: walking down the stack in pairs, a press inside the
        upper child's closed extent picks it, else a press inside the lower
        child's open extent picks that one. */
    method GetInterceptedView(x: real) returns (hit: View?)
      requires Valid()
      ensures hit == InterceptTarget(x)
      ensures hit != null ==> hit in children
      ensures hit != null ==> hit.translationX <= x <= hit.measuredWidth as real + hit.translationX
    {
      hit := null;
      if views == null {
        return;
      }
      ghost var es := Extents(children);
      var i := views.Length - 2;
      while i >= 0
        invariant -1 <= i <= views.Length - 2 || (views.Length < 2 && i == views.Length - 2)
        invariant forall j :: i + 1 < j < |es| ==> !Hits(es, j, x)
        invariant forall j :: 0 <= j && i < j < |es| - 1 ==> !(es[j].left < x < es[j].right)
      {
        var front := views[i + 1];
        var frontOffsetX := front.translationX;
        if x < frontOffsetX || x > front.measuredWidth as real + frontOffsetX {
          var back := views[i];
          var backOffsetX := back.translationX;
          if x > backOffsetX && x < back.measuredWidth as real + backOffsetX {
            assert Hits(es, i, x);
            TopmostHitIs(es, x, i);
            return back;
          }
        } else {
          assert Hits(es, i + 1, x);
          TopmostHitIs(es, x, i + 1);
          return front;
        }
        i := i - 1;
      }
    }

    /** `onInterceptTouchEvent`'s answer: true exactly when the last press
        picked a child.  The container's own `dispatchTouchEvent` never asks
        for it; what the container takes is decided by the handlers. */
    predicate OnInterceptTouchEvent(): (r: bool)
      requires Valid()
      reads this, views
      ensures r <==> intercepted != null
      ensures r ==> intercepted in children
    {
      intercepted != null
    }

    /** `onSwipeComplete`: one notification. */
    method OnSwipeComplete(child: View, s: SwipeState)
      modifies this`completions
      ensures completions == old(completions) + [Completion(child, s)]
    {
      completions := completions + [Completion(child, s)];
    }

    /** A press: run the hit test; on a hit remember where the finger went
        down relative to the child's translation and make sure a velocity
        tracker is live. */
    method HandleDown(x: real, rawX: real) returns (handled: bool)
      requires Valid()
      modifies this
      ensures Valid()
      ensures intercepted == InterceptTarget(x)
      ensures handled == OnInterceptTouchEvent()
      ensures handled ==> downX == rawX - intercepted.translationX && hasTracker
      ensures !handled ==> downX == old(downX) && hasTracker == old(hasTracker)
      ensures state == old(state) && swiping == old(swiping) && translationX == old(translationX)
      ensures views == old(views) && animations == old(animations)
      ensures completions == old(completions) && childCancels == old(childCancels)
    {
      intercepted := GetInterceptedView(x);
      if intercepted == null {
        return false;
      }
      downX := rawX - intercepted.translationX;
      hasTracker := true;
      return true;
    }

    /** A move: once the displacement exceeds the slop the gesture is a
        swipe for good; a swiping move drags the intercepted child, clamped
        to its offsets, and entering an offset sets Left or Right and
        notifies at once. */
    method HandleMove(rawX: real) returns (handled: bool)
      requires Valid()
      modifies this`swiping, this`translationX, this`state, this`completions, this`childCancels
      modifies intercepted
      ensures Valid()
      ensures !old(hasTracker) || intercepted == null ==> !handled && unchanged(this)
      ensures intercepted != null && !handled ==> intercepted.translationX == old(intercepted.translationX)
      ensures old(hasTracker) && intercepted != null ==>
                var d := rawX - downX;
                var p := intercepted.params;
                var step := Drag(d, p.offsetOpenLeft, p.offsetOpenRight);
                var entered := EdgeState(step.edge);
                && swiping == (old(swiping) || Abs(d) > slop as real)
                && childCancels == old(childCancels) + (if Abs(d) > slop as real then 1 else 0)
                && handled == swiping
                && (!swiping ==> translationX == old(translationX) && state == old(state) &&
                                 completions == old(completions))
                && (swiping ==> translationX == step.translation &&
                                intercepted.translationX == step.translation &&
                                state == (if entered.Some? then entered.value else old(state)) &&
                                completions == old(completions) +
                                  (if entered.Some? then [Completion(intercepted, entered.value)] else []))
      ensures handled && 0.0 <= intercepted.params.offsetOpenLeft && 0.0 <= intercepted.params.offsetOpenRight ==>
                -intercepted.params.offsetOpenRight <= translationX <= intercepted.params.offsetOpenLeft
    {
      var view := intercepted;
      if !hasTracker || view == null {
        return false;
      }
      var params := view.params;
      var deltaX := rawX - downX;
      if Abs(deltaX) > slop as real {
        swiping := true;
        childCancels := childCancels + 1;
      }
      if swiping {
        if deltaX > 0.0 {
          translationX := if deltaX <= params.offsetOpenLeft then deltaX else params.offsetOpenLeft;
          if translationX == params.offsetOpenLeft {
            state := Left;
            OnSwipeComplete(view, state);
          }
        } else {
          translationX := if deltaX >= -params.offsetOpenRight then deltaX else -params.offsetOpenRight;
          if translationX == -params.offsetOpenRight {
            state := Right;
            OnSwipeComplete(view, state);
          }
        }
        view.translationX := translationX;
        return true;
      }
      return false;
    }

    /** A release (up or cancel): classify it, start the settle animation
        (towards the dismiss target) or the snap-back animation (towards
        0), and release the velocity tracker.  It never consumes the event. */
    method HandleUp(rawX: real, vx: real, vy: real) returns (handled: bool)
      requires Valid()
      modifies this
      ensures Valid()
      ensures !handled
      ensures !old(hasTracker) || old(intercepted) == null ==> unchanged(this)
      ensures old(hasTracker) && old(intercepted) != null ==>
                var view := old(intercepted);
                var r := Decide(rawX - downX, view.width, vx, vy, minFling, maxFling);
                && !hasTracker
                && animations == old(animations)[view :=
                     if r.Dismiss? then Animation(SettleTarget(state, r.right, view.params), DismissEnd)
                     else Animation(0.0, CancelEnd)]
      ensures state == old(state) && downX == old(downX) && swiping == old(swiping)
      ensures translationX == old(translationX) && intercepted == old(intercepted) && views == old(views)
      ensures completions == old(completions) && childCancels == old(childCancels)
    {
      var view := intercepted;
      if !hasTracker || view == null {
        return false;
      }
      var deltaX := rawX - downX;
      var dismiss := false;
      var dismissRight := false;
      if Abs(deltaX) > Half(view.width) as real {
        dismiss := true;
        dismissRight := deltaX > 0.0;
      } else if minFling as real <= Abs(vx) && Abs(vx) <= maxFling as real && Abs(vy) < Abs(vx) {
        dismiss := true;
        dismissRight := vx > 0.0;
      }
      if dismiss {
        var target := SettleTarget(state, dismissRight, view.params);
        animations := animations[view := Animation(target, DismissEnd)];
      } else {
        animations := animations[view := Animation(0.0, CancelEnd)];
      }
      hasTracker := false;
      return false;
    }

    /** The end of a child's animation, which left it at `finalX`: a settle
        derives the state from `finalX` (leaving the gesture's own
        translation alone); a snap back clears the gesture and closes the
        row; a reset closes the row.  Each notifies exactly once. */
    method OnAnimationEnd(view: View, finalX: real)
      requires Valid()
      requires view in animations
      modifies this, view
      ensures Valid()
      ensures view.translationX == finalX
      ensures animations == old(animations) - {view}
      ensures hasTracker == old(hasTracker) && intercepted == old(intercepted) && views == old(views)
      ensures childCancels == old(childCancels)
      ensures completions == old(completions) + [Completion(view, state)]
      ensures match old(animations[view].onEnd)
                case DismissEnd =>
                  state == DeriveState(finalX, view.params) &&
                  translationX == old(translationX) && downX == old(downX) && swiping == old(swiping)
                case CancelEnd =>
                  state == Common && translationX == 0.0 && downX == 0.0 && !swiping
                case ResetEnd =>
                  state == Common &&
                  translationX == old(translationX) && downX == old(downX) && swiping == old(swiping)
    {
      var onEnd := animations[view].onEnd;
      animations := animations - {view};
      view.translationX := finalX;
      match onEnd
      case DismissEnd =>
        var newTranslationX := view.translationX;
        if newTranslationX == view.params.offsetOpenLeft {
          state := Left;
        } else if newTranslationX == -view.params.offsetOpenRight {
          state := Right;
        } else {
          state := Common;
        }
        OnSwipeComplete(view, state);
      case CancelEnd =>
        translationX := 0.0;
        downX := 0.0;
        swiping := false;
        state := Common;
        OnSwipeComplete(view, state);
      case ResetEnd =>
        state := Common;
        OnSwipeComplete(view, state);
    }

    /** Snap one child back to 0 at once; nothing happens for a null child
        or one that has not moved. */
    method ResetItem(child: View?)
      requires Valid()
      modifies this`state, this`completions, child
      ensures Valid()
      ensures child == null || old(child.translationX) == MinimalOffset ==>
                unchanged(this) && (child != null ==> unchanged(child))
      ensures child != null && old(child.translationX) != MinimalOffset ==>
                child.translationX == MinimalOffset && state == Common &&
                completions == old(completions) + [Completion(child, Common)]
      ensures child != null ==>
                completions == old(completions) +
                  (if old(child.translationX) != MinimalOffset then [Completion(child, Common)] else [])
      ensures child != null ==> state == if old(child.translationX) != MinimalOffset then Common else old(state)
      ensures child != null ==> child.translationX == MinimalOffset
    {
      if child == null {
        return;
      }
      if child.translationX != MinimalOffset {
        child.translationX := MinimalOffset;
        state := Common;
        OnSwipeComplete(child, state);
      }
    }

    /** `resetItem(int)`: reset the child at `index`, if there is one. */
    method ResetItemAt(index: int)
      requires Valid()
      modifies this`state, this`completions, ChildAt(index)
      ensures Valid()
      ensures ChildAt(index) == null || old(ChildAt(index).translationX) == MinimalOffset ==> unchanged(this)
      ensures ChildAt(index) != null && old(ChildAt(index).translationX) != MinimalOffset ==>
                ChildAt(index).translationX == MinimalOffset && state == Common &&
                completions == old(completions) + [Completion(ChildAt(index), Common)]
      ensures downX == old(downX) && swiping == old(swiping) && translationX == old(translationX)
      ensures hasTracker == old(hasTracker) && views == old(views) && intercepted == old(intercepted)
      ensures animations == old(animations) && childCancels == old(childCancels)
    {
      ResetItem(ChildAt(index));
    }

    /** Snap every captured child back to 0 at once, notifying once per
        child that had moved; nothing happens before the first measure. */
    method ResetItems()
      requires Valid()
      modifies this`state, this`completions, children
      ensures Valid()
      ensures views == null ==> unchanged(this) && unchanged(children)
      ensures views != null ==>
                && (forall k :: 0 <= k < |children| ==> children[k].translationX == MinimalOffset)
                && completions == old(completions) + ResetLog(children, old(Translations(children)), |children|)
                && state == (if ResetLog(children, old(Translations(children)), |children|) == [] then old(state) else Common)
    {
      if views == null {
        return;
      }
      ghost var tx := Translations(children);
      var n := views.Length;
      for i := 0 to n
        invariant Valid() && n == |children|
        invariant ResetUpTo(i, tx, old(completions), old(state))
      {
        ResetItemsStep(i, tx, old(completions), old(state));
      }
    }

    /** The first `i` children, whose translations were `tx`, are back at 0
        and the rest untouched; the log and the state are as `resetItems`
        leaves them after those `i` children, starting from `start` and
        `state0`. */
    ghost predicate ResetUpTo(i: nat, tx: seq<real>, start: seq<Completion>, state0: SwipeState)
      reads this, children
    {
      i <= |children| == |tx| &&
      (forall k :: 0 <= k < |children| ==> children[k].translationX == if k < i then MinimalOffset else tx[k]) &&
      completions == start + ResetLog(children, tx, i) &&
      state == (if ResetLog(children, tx, i) == [] then state0 else Common)
    }

    /** One turn of the `resetItems` loop: reset view `i`, extending the
        prefix of reset children and its log by one. */
    method ResetItemsStep(i: nat, ghost tx: seq<real>, ghost start: seq<Completion>, ghost state0: SwipeState)
      requires Valid() && views != null && i < views.Length
      requires ResetUpTo(i, tx, start, state0)
      modifies this`state, this`completions, children[i]
      ensures Valid() && ResetUpTo(i + 1, tx, start, state0)
    {
      var child := views[i];
      assert child == children[i];
      ghost var before, stateBefore := completions, state;
      ResetItem(child);
      forall k | 0 <= k < |children|
        ensures children[k].translationX == if k < i + 1 then MinimalOffset else tx[k]
      {
        if k != i {
          DistinctApart(children, k, i);
        }
      }
      ResetLogStep(children, tx, i, start, before, completions, state0, stateBefore, state);
    }

    /** Animate one child back to 0; nothing happens for a null child or one
        that has not moved.  The notification comes when the animation ends. */
    method ResetItemWithAnimation(child: View?)
      requires Valid()
      modifies this
      ensures Valid()
      ensures child == null || child.translationX == MinimalOffset ==> unchanged(this)
      ensures child != null && child.translationX != MinimalOffset ==>
                animations == old(animations)[child := Animation(MinimalOffset, ResetEnd)]
      ensures state == old(state) && downX == old(downX) && swiping == old(swiping)
      ensures translationX == old(translationX) && hasTracker == old(hasTracker)
      ensures views == old(views) && intercepted == old(intercepted)
      ensures completions == old(completions) && childCancels == old(childCancels)
    {
      if child == null {
        return;
      }
      if child.translationX != MinimalOffset {
        animations := animations[child := Animation(MinimalOffset, ResetEnd)];
      }
    }

    /** `resetItemWithAnimation(int)`: animate the child at `index`, if any. */
    method ResetItemWithAnimationAt(index: int)
      requires Valid()
      modifies this
      ensures Valid()
      ensures ChildAt(index) == null || ChildAt(index).translationX == MinimalOffset ==> unchanged(this)
      ensures ChildAt(index) != null && ChildAt(index).translationX != MinimalOffset ==>
                animations == old(animations)[ChildAt(index) := Animation(MinimalOffset, ResetEnd)]
      ensures state == old(state) && downX == old(downX) && swiping == old(swiping)
      ensures translationX == old(translationX) && hasTracker == old(hasTracker)
      ensures views == old(views) && intercepted == old(intercepted)
      ensures completions == old(completions) && childCancels == old(childCancels)
    {
      ResetItemWithAnimation(ChildAt(index));
    }

    /** Animate every child back to 0; nothing happens before the first
        measure.  One reset animation starts per child that has moved. */
    method ResetItemsWithAnimation()
      requires Valid()
      modifies this
      ensures Valid()
      ensures views == null ==> unchanged(this)
      ensures views != null ==> animations == old(animations) + ResetAnimations(children)
      ensures state == old(state) && downX == old(downX) && swiping == old(swiping)
      ensures translationX == old(translationX) && hasTracker == old(hasTracker)
      ensures views == old(views) && intercepted == old(intercepted)
      ensures completions == old(completions) && childCancels == old(childCancels)
    {
      if views == null {
        return;
      }
      for i := 0 to |children|
        invariant Valid() && views == old(views)
        invariant animations == old(animations) + ResetAnimations(children[..i])
        invariant state == old(state) && downX == old(downX) && swiping == old(swiping)
        invariant translationX == old(translationX) && hasTracker == old(hasTracker)
        invariant intercepted == old(intercepted)
        invariant completions == old(completions) && childCancels == old(childCancels)
      {
        assert children[..i + 1] == children[..i] + [children[i]];
        ghost var before := animations;
        ResetItemWithAnimationAt(i);
        ResetAnimationsStep(old(animations), before, animations, children[..i], children[i]);
      }
      assert children[..|children|] == children;
    }
  }

  /** The same hit-test result as `TopmostHit`, stated for the index the
      loop stops at: `k` is picked and nothing above it is. */
  lemma TopmostHitIs(es: seq<Extent>, x: real, k: nat)
    requires k < |es| && Hits(es, k, x)
    requires forall j :: k < j < |es| ==> !Hits(es, j, x)
    ensures TopmostHit(es, x, |es|) == Some(k)
  {
    TopmostHitAbove(es, x, k, |es|);
  }

  lemma {:induction false} TopmostHitAbove(es: seq<Extent>, x: real, k: nat, n: nat)
    requires k < n <= |es| && Hits(es, k, x)
    requires forall j :: k < j < n ==> !Hits(es, j, x)
    ensures TopmostHit(es, x, n) == Some(k)
    decreases n
  {
    if n - 1 != k {
      TopmostHitAbove(es, x, k, n - 1);
    }
  }
}
