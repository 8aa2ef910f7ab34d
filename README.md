# Swipeable row container — a Dafny model

This project models the gesture logic of `SwipeFrameLayout`. It is a list-row
container: the user drags a front view sideways to reveal action views behind
it. A release either settles the row open or closed, or snaps it back. A
listener hears the resulting state (`COMMON`, `LEFT`, `RIGHT`). The repository
has two near-duplicate variants, and both are modelled:

- `MultiChildLayout` models `library/src/com/wagado/widget/SwipeFrameLayout.java`.
  A press runs a hit test over a stack of children. The child it picks is
  dragged within its own layout params (`offsetOpenLeft`, `offsetOpenRight`).
- `TwoChildLayout` models `src/com/wagado/widget/SwipeFrameLayout.java`. The
  container holds a back view and a front view. The front's
  `SwipeDismissTouchListener` runs the same machine. The container routes a
  touch to the back view when the front has been dragged aside.
- `Gesture` holds the arithmetic that both files share up to field names and
  types: the drag clamp (`Drag`) and the release rule (`Decide`), with
  `width / 2` as Java integer division. The library's offsets are floats and
  the two-child file's are ints; both are modelled as reals here.

The containers, the views and the touch listener are classes whose methods
update fields, as the Java does. Each `onSwipeComplete` call is appended to a
ghost log, `completions`, so "notifies exactly once" can be stated. Each cancel
event sent to the dragged view adds one to a ghost counter. The animator is
reduced to a record of the animation in flight, with its target and its
completion handler. An explicit `OnAnimationEnd(view, finalX)` step then leaves
the view at `finalX` and runs that handler. Touch events are reduced to the
numbers the handlers read: x, raw x and the two velocities.

Some consequences of the code, stated plainly:

- A dismiss from `COMMON` targets 0 in both directions (`SettleTarget`). So,
  when both offsets are positive, a release never opens a closed row; only a
  drag that reaches an offset does (`SettleOutcome`).
- When an offset is 0, which is the default, the state derived after a dismiss
  can be wrong. Closing a `LEFT` row whose right offset is 0 reports `RIGHT`,
  and dismissing a closed row whose left offset is 0 reports `LEFT`
  (`OneSidedCloseReportsRight`, `ZeroOffsetsDisagree`).
- From `LEFT`, a dismiss to the right holds the row at `offsetOpenLeft`, and a
  dismiss to the left closes it to 0.
- The hit test walks from the top child down, and the bottom child is only
  compared against its open extent.
- The synthetic cancel event goes to the dragged view itself.

## Model

| member | source | states |
|---|---|---|
| `Gesture.Half` | library/src/com/wagado/widget/SwipeFrameLayout.java:316 | half of a view width as Java int division rounds down: `2h <= w <= 2h + 1` |
| `Gesture.Decide` | library/src/com/wagado/widget/SwipeFrameLayout.java:313-322 | more than half the width of displacement dismisses in the displacement's direction whatever the velocity; otherwise dismiss iff min ≤ \|vx\| ≤ max and \|vy\| < \|vx\|, towards the sign of vx; snap back iff neither |
| `Gesture.Drag` | library/src/com/wagado/widget/SwipeFrameLayout.java:276-291 | a rightward step is the min of displacement and left offset, any other the max of displacement and minus the right offset; with non-negative offsets the translation lies in [-right, left]; the left (right) edge is reported exactly when the step lands on it |
| `Gesture.DragMonotone` | library/src/com/wagado/widget/SwipeFrameLayout.java:276-291 | the translation is monotone in the displacement and equals it between the bounds |
| `Gesture.DragIdempotent` | library/src/com/wagado/widget/SwipeFrameLayout.java:276-291 | a clamped translation is a fixed point of the clamp |
| `Gesture.DisplacementOverridesVelocity` | library/src/com/wagado/widget/SwipeFrameLayout.java:316-322 | beyond half the width, two releases with any velocities decide alike |
| `Gesture.HalfWidthRoundsDown` | library/src/com/wagado/widget/SwipeFrameLayout.java:316 | with width 5 a displacement of 2.5 already dismisses, because the threshold is the integer 2 |
| `MultiChildLayout.SettleTarget` | library/src/com/wagado/widget/SwipeFrameLayout.java:324-339 | LEFT + right → offsetOpenLeft; RIGHT + left → -offsetOpenRight; every other pair (COMMON, the unused MOVE states, or the opposite direction) → 0; within the bounds when offsets are non-negative |
| `MultiChildLayout.DeriveState` | library/src/com/wagado/widget/SwipeFrameLayout.java:347-355 | LEFT iff the final translation is offsetOpenLeft; RIGHT iff it is -offsetOpenRight and not offsetOpenLeft; COMMON otherwise; never a MOVE state |
| `MultiChildLayout.SettleOutcome` | library/src/com/wagado/widget/SwipeFrameLayout.java:324-358 | with positive offsets, a dismiss that ends at its target keeps an open row open when it continues towards its open side, and closes it in every other case |
| `MultiChildLayout.DragAgreesWithDerive` | library/src/com/wagado/widget/SwipeFrameLayout.java:276-355 | unless offsetOpenLeft = -offsetOpenRight, the state a drag enters at an edge is the state a settle at that translation derives |
| `MultiChildLayout.OneSidedCloseReportsRight` | library/src/com/wagado/widget/SwipeFrameLayout.java:324-355 | with offsets (80, 0), closing a LEFT row settles at 0 and reports RIGHT; with offsets (0, 40), a dismiss of a COMMON row settles at 0 and reports LEFT |
| `MultiChildLayout.ZeroOffsetsDisagree` | library/src/com/wagado/widget/SwipeFrameLayout.java:284-290 | with default offsets of 0 a leftward drag enters RIGHT while a settle at 0 derives LEFT |
| `MultiChildLayout.TopmostHit` | library/src/com/wagado/widget/SwipeFrameLayout.java:216-236 | the result is the topmost child the press picks (closed extent for upper children, open extent for the bottom one), or none when no child is picked |
| `MultiChildLayout.MissIsNotIntercepted` | library/src/com/wagado/widget/SwipeFrameLayout.java:216-236 | a press outside every child's extent is not intercepted |
| `MultiChildLayout.TopChildWins` | library/src/com/wagado/widget/SwipeFrameLayout.java:216-231 | with two or more children, a press within the top child's closed extent intercepts the top child |
| `MultiChildLayout.ResetLog` | library/src/com/wagado/widget/SwipeFrameLayout.java:133-157 | the reset of the first m children reports, in child order, at most one COMMON per child, only for those children, and nothing iff none of them had moved |
| `MultiChildLayout.ResetLogOncePerMovedChild` | library/src/com/wagado/widget/SwipeFrameLayout.java:133-141 | over distinct children, the reset of the first m children notifies each of them exactly once if its translation was non-zero and never otherwise |
| `MultiChildLayout.SwipeFrameLayout.constructor` | library/src/com/wagado/widget/SwipeFrameLayout.java:197-208 | a new container is COMMON, with no captured children, no intercepted view, no tracker and no notifications |
| `MultiChildLayout.SwipeFrameLayout.Measure` | library/src/com/wagado/widget/SwipeFrameLayout.java:82-94 | the measure pass captures the children into a fresh array, or none when there are no children |
| `MultiChildLayout.SwipeFrameLayout.ChildAt` | library/src/com/wagado/widget/SwipeFrameLayout.java:143-145 | child lookup by index yields null outside the children's range |
| `MultiChildLayout.SwipeFrameLayout.GetInterceptedView` | library/src/com/wagado/widget/SwipeFrameLayout.java:216-236 | the backward pairwise loop returns exactly the topmost picked child (null with fewer than two children); a result is a child, and the press lies within its closed extent |
| `MultiChildLayout.SwipeFrameLayout.OnInterceptTouchEvent` | library/src/com/wagado/widget/SwipeFrameLayout.java:96-99 | the container intercepts iff the last press picked a child, and a picked view is one of the children |
| `MultiChildLayout.SwipeFrameLayout.OnSwipeComplete` | library/src/com/wagado/widget/SwipeFrameLayout.java:210-214 | one call appends exactly one notification |
| `MultiChildLayout.SwipeFrameLayout.HandleDown` | library/src/com/wagado/widget/SwipeFrameLayout.java:238-253 | the intercepted view is the hit-test result; the press is handled (the result `dispatchTouchEvent` returns for it, lines 103-106) iff it is non-null; on a hit the down position is raw x minus the child's translation and a tracker is live; nothing else changes |
| `MultiChildLayout.SwipeFrameLayout.HandleMove` | library/src/com/wagado/widget/SwipeFrameLayout.java:255-299 | with no tracker or no intercepted view: returns false, no change; otherwise swiping latches once \|dx\| > slop (never cleared here), one cancel per such move, consumed iff swiping; a swiping move drags the child to `Drag`'s translation, in bounds for non-negative offsets, and entering an edge sets LEFT/RIGHT and notifies once; a non-swiping move changes no translation |
| `MultiChildLayout.SwipeFrameLayout.HandleUp` | library/src/com/wagado/widget/SwipeFrameLayout.java:301-386 | never consumes; with no tracker or no intercepted view changes nothing; otherwise releases the tracker and starts, on the intercepted child, a settle towards `SettleTarget` if `Decide` dismisses, else a snap back to 0; state, swiping and translation untouched |
| `MultiChildLayout.SwipeFrameLayout.OnAnimationEnd` | library/src/com/wagado/widget/SwipeFrameLayout.java:341-377 | the child ends at finalX and exactly one notification follows; a settle derives the state from finalX and leaves the gesture's translation, down x and swiping alone; a snap back zeroes translation and down x, clears swiping, sets COMMON; a reset (lines 179-185) sets COMMON |
| `MultiChildLayout.SwipeFrameLayout.ResetItem` | library/src/com/wagado/widget/SwipeFrameLayout.java:147-157 | a null or unmoved child: no change at all; otherwise the child goes to 0, the state to COMMON, and exactly one notification |
| `MultiChildLayout.SwipeFrameLayout.ResetItemAt` | library/src/com/wagado/widget/SwipeFrameLayout.java:143-145 | as ResetItem for the child at the index; an index out of range changes nothing |
| `MultiChildLayout.SwipeFrameLayout.ResetItems` | library/src/com/wagado/widget/SwipeFrameLayout.java:133-141 | before the first measure nothing changes; otherwise every child ends at 0 and the notifications are exactly `ResetLog` of the old translations, in child order; the state becomes COMMON iff some child had moved |
| `MultiChildLayout.SwipeFrameLayout.ResetItemsStep` | library/src/com/wagado/widget/SwipeFrameLayout.java:138-140 | one turn of the loop resets view i: the reset prefix grows by one child, the log by exactly that child's `ResetLog` entry, and the state follows |
| `MultiChildLayout.SwipeFrameLayout.ResetItemWithAnimation` | library/src/com/wagado/widget/SwipeFrameLayout.java:173-187 | a null or unmoved child: no change; otherwise a reset animation towards 0 starts on it and nothing is notified yet |
| `MultiChildLayout.SwipeFrameLayout.ResetItemWithAnimationAt` | library/src/com/wagado/widget/SwipeFrameLayout.java:169-171 | as ResetItemWithAnimation for the child at the index |
| `MultiChildLayout.SwipeFrameLayout.ResetItemsWithAnimation` | library/src/com/wagado/widget/SwipeFrameLayout.java:159-167 | before the first measure nothing changes; otherwise exactly one reset animation starts per moved child |
| `TwoChildLayout.ClampOffset` | src/com/wagado/widget/SwipeFrameLayout.java:86-89 | an offset is never negative: negative offsets become 0, others are kept |
| `TwoChildLayout.SettleTarget` | src/com/wagado/widget/SwipeFrameLayout.java:205-220 | LEFT + right → mOffsetLeft; RIGHT + left → -mOffsetRight; every other pair → 0; always within [-mOffsetRight, mOffsetLeft] |
| `TwoChildLayout.DeriveState` | src/com/wagado/widget/SwipeFrameLayout.java:228-237 | LEFT iff the final translation is mOffsetLeft; RIGHT iff it is -mOffsetRight and not mOffsetLeft; COMMON otherwise |
| `TwoChildLayout.SettleOutcome` | src/com/wagado/widget/SwipeFrameLayout.java:205-239 | with positive offsets, a dismiss ending at its target keeps an open row open when it continues towards its open side and closes it otherwise |
| `TwoChildLayout.RoutesToBack` | src/com/wagado/widget/SwipeFrameLayout.java:67-81 | never routes when the front is untranslated; within the front's width, routes exactly when the touch misses the translated front; a routed touch never lies on the translated front |
| `TwoChildLayout.OneSidedCloseReportsRight` | src/com/wagado/widget/SwipeFrameLayout.java:205-237 | with offsets (80, 0), closing a LEFT row settles at 0 and reports RIGHT; with offsets (0, 40), a dismiss of a COMMON row settles at 0 and reports LEFT |
| `TwoChildLayout.SwipeFrameLayout.DispatchesToBack` | src/com/wagado/widget/SwipeFrameLayout.java:67-81 | read off the front view: a touch is never handed to the back while the front is closed, a handed-over touch never lies on the front where it now is, and within the front's measured width exactly the touches that miss it are handed over |
| `TwoChildLayout.SwipeFrameLayout.constructor` | src/com/wagado/widget/SwipeFrameLayout.java:123-125 | a new container has offsets 0, no views yet, no notifications, state COMMON, and a fresh touch listener bound to it (`Valid`), which every method keeps |
| `TwoChildLayout.SwipeFrameLayout.Measure` | src/com/wagado/widget/SwipeFrameLayout.java:58-65 | the first child becomes the back view and the second the front view |
| `TwoChildLayout.SwipeFrameLayout.OnSwipeComplete` | src/com/wagado/widget/SwipeFrameLayout.java:127-131 | one call appends exactly one notification |
| `TwoChildLayout.SwipeFrameLayout.SetOffsets` | src/com/wagado/widget/SwipeFrameLayout.java:86-89 | both offsets become their clamped, non-negative arguments |
| `TwoChildLayout.SwipeFrameLayout.ResetItem` | src/com/wagado/widget/SwipeFrameLayout.java:105-113 | no front, or a front at 0: no change at all; otherwise the front goes to 0, the state to COMMON, and exactly one notification |
| `TwoChildLayout.SwipeFrameLayout.ResetItemWithAnimation` | src/com/wagado/widget/SwipeFrameLayout.java:91-103 | no front, or a front at 0: no change; otherwise a reset animation towards 0 starts and nothing is notified yet |
| `TwoChildLayout.SwipeFrameLayout.OnAnimationEnd` | src/com/wagado/widget/SwipeFrameLayout.java:222-259 | the front ends at finalX and exactly one notification follows; a settle stores finalX as the gesture's translation and derives the state from it; a snap back zeroes translation and down x, clears swiping, sets COMMON; a reset (lines 96-102) sets COMMON |
| `TwoChildLayout.SwipeDismissTouchListener.constructor` | src/com/wagado/widget/SwipeFrameLayout.java:142-156 | the stored view width starts at 1, the gesture fields are cleared, no tracker is live, and the container's state is COMMON |
| `TwoChildLayout.SwipeDismissTouchListener.OnTouch` | src/com/wagado/widget/SwipeFrameLayout.java:158-313 | the width is re-read from the front while below 2; a press is consumed and records the down position and a tracker; a move or release with no tracker changes nothing; a swiping move drags the front to `Drag`'s translation within [-mOffsetRight, mOffsetLeft], entering LEFT/RIGHT with one notification at an edge, and is consumed iff swiping; swiping latches once \|dx\| > slop; a release is never consumed, releases the tracker and starts the settle or snap-back animation `Decide` and `SettleTarget` call for; other actions change nothing else |
| `TwoChildLayout.SwipeDismissTouchListener.Move` | src/com/wagado/widget/SwipeFrameLayout.java:268-309 | the move branch with a live tracker: swiping latches once \|dx\| > slop, with one cancel to the front each time; consumed iff swiping; a non-swiping move changes no translation, state or notification; a swiping move drags the front to `Drag`'s translation and, on an edge, enters LEFT/RIGHT with exactly one notification |
| `TwoChildLayout.SwipeDismissTouchListener.Release` | src/com/wagado/widget/SwipeFrameLayout.java:185-265 | the release branch: releases the tracker and starts a settle towards `SettleTarget` when `Decide`, with the stored width, dismisses, else a snap back to 0 |

## Left out

- Touch events are reduced to numbers. `offsetLocation` is left out because it shifts only the local coordinate, and the drag reads raw x. Also left out: the cancel event built and sent to the dragged view (counted, not built), `requestDisallowInterceptTouchEvent`, and forwarding events to a child's `onTouchEvent`.
- The library's `dispatchTouchEvent` (lines 101-128) is not modelled as a member. It routes DOWN, MOVE and UP/CANCEL to the three handlers, which are modelled one by one, and returns the platform's `onTouchEvent` when a handler declines or for any other action. Up and cancel both reach `HandleUp`, so a platform cancel can still dismiss. It never calls the platform's `dispatchTouchEvent`, so `onInterceptTouchEvent` is never consulted; `OnInterceptTouchEvent` models only its return value.
- In the two-child `dispatchTouchEvent`, only the routing test is modelled. The back view's `dispatchTouchEvent` and `super.dispatchTouchEvent` are platform code.
- Velocity tracking is reduced to a flag saying whether a tracker is live. The signed velocities `vx` and `vy` are inputs to the release.
- Animation interpolation, durations (`ANIMATION_DURATION`, `setMoveAnimationTime`, `config_shortAnimTime`) and `alpha(1)` are left out.
- OnAnimationEnd: a new animation on a view replaces the recorded one, and the replaced animation's completion never runs. The platform may still run it on cancellation, so the model does not capture animation supersession.
- `setSwipeListener` and the null-listener test are left out. The log records every `onSwipeComplete` call, and a listener, when one is set, receives exactly these.
- Platform configuration is left out: `ViewConfiguration`, `TypedArray` attribute parsing and the `LayoutParams` constructors and generators. Slop and fling limits are constructor parameters. A child's offsets are a `LayoutParams` value, whose default is 0.
- The container's child list is fixed when the container is built. `addView` and `removeView` are not modelled.
- TwoChildLayout.SwipeFrameLayout.Measure: requires two children, because with fewer the source dereferences a null front view.
- Float arithmetic is modelled as exact reals. Rounding and NaN are not modelled.
- The demo activity (`MainActivity`) is glue around the widget.
