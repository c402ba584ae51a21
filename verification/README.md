# Swipe layout drag helper, modelled in Dafny

This project models the gesture state machine of the swipe layout library's
`DragHelper`. The helper takes the touch events a container forwards to it:
DOWN, MOVE, UP, CANCEL, and any other action kind, which it ignores. From
them it decides what each gesture is:

- a vertical scroll left to the parent;
- a horizontal drag that moves the front (draggable) view;
- a committed swipe to the left or to the right;
- nothing at all.

It also handles four operations called from outside: blocking and unblocking
swipes, a reset, and a programmatic swipe-away.

The model has two layers.

- `gesture.dfy` (module `Gesture`) is the specification. It writes each
  operation of the helper and each of its five view states (`Still`,
  `ScrollingVertically`, `DraggingHorizontally`, `SwipedAway`, `Blocked`) as a
  pure transition function. A function maps the helper's state (view state
  plus touch origin) and an event to the new state and to the ordered list of
  calls made into the layout controller (`Layout...`) and into the coordinate
  store (`Coords...`).
- `drag_helper.dfy` (module `Drag`) is the helper as the layout owns it. It is
  a class with a mutable `viewState`, the recorded origin `actionDownX` and
  `actionDownY`, and a ghost `log` of the collaborator calls. Each method
  that the state machine specifies is proved to change the state and extend
  the log exactly as its transition function says: the function of the same
  name in `Gesture`, or `SwipedAwayExternally` for `SwipedAway`. `ActionDown`
  and `OnAttachedToWindow` have no transition function; their contracts state
  their effect directly. The constructor's threshold defaults to 0.5, as in
  the source.

The properties are proved about the specification:

- `gesture_properties.dfy` (module `GestureProperties`) covers single events.
- `gesture_runs.dfy` (module `GestureRuns`) covers whole sequences of
  deliveries. A delivery is a normal dispatch or an interception probe. These
  proofs are by induction over the sequence.

The collaborators whose code is not part of this model become inputs:

- The direction policy `AllowedSwipeDirectionState.isDragValid` is the
  function `Config.isDragValid: real -> bool`.
- The coordinate store's answer to "did the view actually move?" is the
  boolean `viewMoves` of each touch event.
- The store's "is the gesture moving?" is the boolean `moving` of each
  interception probe.
- The draggable view's current width is the natural number `viewWidth`,
  supplied again at every release.
- Coordinates and the swipe threshold are `real`.
- Horizontal travel is `event.x - actionDownX`, so a negative value means a
  leftward gesture.

Four behaviours of the code are worth stating plainly:

- A release that does not commit a swipe calls the controller's `reset()` and
  leaves `viewState` as it is (DragHelper.kt lines 116-121 and 105-108). The
  helper is Still again only when `onReset()` or `setBlockSwipes(false)` is
  called (lines 53-63); a `reset()` that calls back into `onReset()` is not
  modelled, so `LayoutReset` is a leaf call that does not change the state.
- A swipe commits only when the travel is strictly beyond
  `width * threshold` (lines 134 and 138). `ThresholdItselfDoesNotCommit`
  proves that travelling exactly the threshold does not commit.
  Nothing in the code keeps the threshold non-negative. With a negative
  threshold the minimum distance is negative, and a short rightward release
  satisfies the leftward test of line 134 first and fires `swipeToLeft`
  (`NegativeThresholdSwipesTheWrongWay`). This is why the direction
  properties of a commit assume a non-negative threshold.
- CANCEL is handled exactly like UP (lines 34-35), so a cancelled drag can
  commit a swipe. `CancelIsUp` proves this.
- A MOVE counts as a vertical scroll only when abs(dy) > abs(dx) strictly
  (line 170). At abs(dy) == abs(dx) the helper tries to move the view.

## Model

| member | source | states |
|---|---|---|
| Gesture.GetMinDistanceToTreatAsSwipe | swipelayout_lib/src/main/java/pl/paullettuce/swipelayout_lib/helpers/drag/DragHelper.kt:148-149 | the minimum swipe distance is never negative for a non-negative threshold, and is zero for a view of width zero |
| Gesture.MoveView | swipelayout_lib/src/main/java/pl/paullettuce/swipelayout_lib/helpers/drag/DragHelper.kt:84-97 | the result is true iff the policy permits the travel and the coordinate store moved the view; a permitted travel always asks the store to move the view; a forbidden travel gives no calls at all; the controller is told the travel exactly when the view moved |
| Gesture.ShouldPreventParentFromInterceptingTouches | swipelayout_lib/src/main/java/pl/paullettuce/swipelayout_lib/helpers/drag/DragHelper.kt:99-114 | DraggingHorizontally asks ancestors to keep off the gesture, and no other state does |
| Gesture.IsScrollingVertically | swipelayout_lib/src/main/java/pl/paullettuce/swipelayout_lib/helpers/drag/DragHelper.kt:167-171 | a gesture that has not moved vertically is never a vertical scroll; a purely vertical move is one iff it moved |
| Gesture.CommitCalls | swipelayout_lib/src/main/java/pl/paullettuce/swipelayout_lib/helpers/drag/DragHelper.kt:133-145 | no commit makes no call; a commit makes exactly one call, swipeToLeft iff it commits left and swipeToRight iff it commits right |
| Gesture.ActionMove | swipelayout_lib/src/main/java/pl/paullettuce/swipelayout_lib/helpers/drag/DragHelper.kt:99-177 | a MOVE can only take Still to ScrollingVertically or DraggingHorizontally and otherwise keeps the state; dragging stays dragging; states other than Still and DraggingHorizontally make no calls; a MOVE never swipes, resets or calls preventParent itself |
| Gesture.ActionUp | swipelayout_lib/src/main/java/pl/paullettuce/swipelayout_lib/helpers/drag/DragHelper.kt:99-177 | a release keeps the state except that a drag may become SwipedAway; it makes at most one call, exactly one in ScrollingVertically and DraggingHorizontally; becoming SwipedAway means exactly one swipe call |
| Gesture.CheckIfCommittedASwipe | swipelayout_lib/src/main/java/pl/paullettuce/swipelayout_lib/helpers/drag/DragHelper.kt:128-146 | a commit needs a permitted travel; with a non-negative threshold a left commit means the touch ended left of the origin and a right commit means it ended right of it; with a permitted travel, left holds iff travel < -min and right iff travel > min |
| Gesture.OnTouchEvent | swipelayout_lib/src/main/java/pl/paullettuce/swipelayout_lib/helpers/drag/DragHelper.kt:23-39 | a DOWN only records the origin (same view state, no calls); no other action kind moves the origin |
| Gesture.OnInterceptTouchEvent | swipelayout_lib/src/main/java/pl/paullettuce/swipelayout_lib/helpers/drag/DragHelper.kt:41-51 | interception never changes the view state and claims the gesture only on a MOVE |
| Gesture.SetBlockSwipes | swipelayout_lib/src/main/java/pl/paullettuce/swipelayout_lib/helpers/drag/DragHelper.kt:53-59 | blocking or unblocking leaves the touch origin alone |
| Gesture.OnReset | swipelayout_lib/src/main/java/pl/paullettuce/swipelayout_lib/helpers/drag/DragHelper.kt:61-64 | a reset leaves the touch origin alone |
| Gesture.SwipedAwayExternally | swipelayout_lib/src/main/java/pl/paullettuce/swipelayout_lib/helpers/drag/DragHelper.kt:66-68 | a programmatic swipe leaves the touch origin alone |
| GestureProperties.DownOnlyRecordsOrigin | swipelayout_lib/src/main/java/pl/paullettuce/swipelayout_lib/helpers/drag/DragHelper.kt:72-74 | a DOWN sets the origin to the event's coordinates, keeps the view state and calls nothing |
| GestureProperties.OtherActionsIgnored | swipelayout_lib/src/main/java/pl/paullettuce/swipelayout_lib/helpers/drag/DragHelper.kt:24-50 | an action kind other than DOWN, MOVE, UP and CANCEL changes nothing and is not intercepted |
| GestureProperties.InterceptionIsAProbe | swipelayout_lib/src/main/java/pl/paullettuce/swipelayout_lib/helpers/drag/DragHelper.kt:41-51 | interception keeps the view state; it intercepts iff the event is a MOVE and the store reports moving; only a DOWN changes anything, and only the origin |
| GestureProperties.ExternalOverridesForceState | swipelayout_lib/src/main/java/pl/paullettuce/swipelayout_lib/helpers/drag/DragHelper.kt:53-68 | blocking gives Blocked and unblocking gives Still; a programmatic swipe gives SwipedAway; a reset gives Still and puts the view back to its resting position; each holds from any prior state |
| GestureProperties.OnResetIdempotent | swipelayout_lib/src/main/java/pl/paullettuce/swipelayout_lib/helpers/drag/DragHelper.kt:61-64 | resetting twice leaves the same state as resetting once |
| GestureProperties.FrozenStatesIgnoreTouches | swipelayout_lib/src/main/java/pl/paullettuce/swipelayout_lib/helpers/drag/DragHelper.kt:152-177 | in Blocked or SwipedAway, any non-DOWN event leaves the state unchanged and makes no calls |
| GestureProperties.StillOnMove | swipelayout_lib/src/main/java/pl/paullettuce/swipelayout_lib/helpers/drag/DragHelper.kt:157-171 | a MOVE in Still with abs(dy) > abs(dx) becomes ScrollingVertically with no calls; otherwise the new state is DraggingHorizontally iff the travel is permitted and the view moved, else Still, and the calls are exactly: none for a forbidden travel, moveView, onMove and preventParent when the view moved, moveView alone when it did not |
| GestureProperties.DraggingOnMove | swipelayout_lib/src/main/java/pl/paullettuce/swipelayout_lib/helpers/drag/DragHelper.kt:124-126 | a MOVE while dragging keeps DraggingHorizontally and the origin, skips the vertical test, makes exactly moveView's calls and then preventParent |
| GestureProperties.StillOnRelease | swipelayout_lib/src/main/java/pl/paullettuce/swipelayout_lib/helpers/drag/DragHelper.kt:157-158 | UP or CANCEL in Still does nothing |
| GestureProperties.ScrollingVerticallyReactions | swipelayout_lib/src/main/java/pl/paullettuce/swipelayout_lib/helpers/drag/DragHelper.kt:105-111 | while scrolling vertically, a MOVE does nothing and an UP or CANCEL only calls reset |
| GestureProperties.DirectionGate | swipelayout_lib/src/main/java/pl/paullettuce/swipelayout_lib/helpers/drag/DragHelper.kt:88-97 | a travel the policy forbids touches no view and calls nothing; an onMove call always directly follows the store moving the view, happens only when the view moved, and carries the travel |
| GestureProperties.DraggingRelease | swipelayout_lib/src/main/java/pl/paullettuce/swipelayout_lib/helpers/drag/DragHelper.kt:116-149 | releasing a drag with a permitted travel < -min gives exactly [swipeToLeft] and SwipedAway; otherwise a permitted travel > min gives exactly [swipeToRight] and SwipedAway; every other release gives exactly [reset] and keeps the state |
| GestureProperties.ThresholdItselfDoesNotCommit | swipelayout_lib/src/main/java/pl/paullettuce/swipelayout_lib/helpers/drag/DragHelper.kt:133-144 | a release whose travel is exactly the minimum distance does not commit and only resets |
| GestureProperties.NegativeThresholdSwipesTheWrongWay | swipelayout_lib/src/main/java/pl/paullettuce/swipelayout_lib/helpers/drag/DragHelper.kt:129-149 | with threshold -0.1 on a 200-wide view and a rightward-only policy, a release 5 to the right while dragging fires swipeToLeft and becomes SwipedAway |
| GestureProperties.CancelIsUp | swipelayout_lib/src/main/java/pl/paullettuce/swipelayout_lib/helpers/drag/DragHelper.kt:34-35 | CANCEL has exactly the effect of UP at the same point, in every state |
| GestureProperties.PreventParentIffDragging | swipelayout_lib/src/main/java/pl/paullettuce/swipelayout_lib/helpers/drag/DragHelper.kt:28-32 | after a MOVE, preventParentFromInterceptingTouches is called iff the resulting state is DraggingHorizontally, and then it is the last call |
| GestureProperties.SwipeOnlyOnDragRelease | swipelayout_lib/src/main/java/pl/paullettuce/swipelayout_lib/helpers/drag/DragHelper.kt:113-146 | a swipe callback fires only on an UP or CANCEL while dragging; it is then the only call and the state becomes SwipedAway |
| GestureRuns.FrozenRunIsSilent | swipelayout_lib/src/main/java/pl/paullettuce/swipelayout_lib/helpers/drag/DragHelper.kt:152-177 | from Blocked or SwipedAway, no sequence of deliveries changes the view state or makes any call |
| GestureRuns.AtMostOneSwipePerRun | swipelayout_lib/src/main/java/pl/paullettuce/swipelayout_lib/helpers/drag/DragHelper.kt:116-146 | any sequence of deliveries fires at most one swipe callback in all, and none from Blocked or SwipedAway |
| GestureRuns.VerticalGestureNeverMovesView | swipelayout_lib/src/main/java/pl/paullettuce/swipelayout_lib/helpers/drag/DragHelper.kt:105-111 | starting from Still or ScrollingVertically, a sequence with no DOWN whose every MOVE is strictly more vertical than horizontal stays in those two states, keeps the origin and makes only reset calls |
| GestureRuns.VerticalGestureFromDown | swipelayout_lib/src/main/java/pl/paullettuce/swipelayout_lib/helpers/drag/DragHelper.kt:157-171 | a gesture that goes down in Still and then only makes strictly vertical moves never moves the view, and never calls anything but reset |
| GestureRuns.OnlyPermittedMovesReported | swipelayout_lib/src/main/java/pl/paullettuce/swipelayout_lib/helpers/drag/DragHelper.kt:89-93 | every onMove the controller ever receives carries a travel the direction policy permits |
| GestureRuns.RunRespectsDirection | swipelayout_lib/src/main/java/pl/paullettuce/swipelayout_lib/helpers/drag/DragHelper.kt:128-141 | with a non-negative threshold and a policy that allows only leftward travel, no swipeToRight and no rightward onMove ever happen; the same holds mirrored for a rightward-only policy |
| GestureRuns.DraggingOnlyAfterViewMoved | swipelayout_lib/src/main/java/pl/paullettuce/swipelayout_lib/helpers/drag/DragHelper.kt:159-164 | the helper comes to be DraggingHorizontally only after an onMove call, that is, only after the view actually moved |
| GestureRuns.SwipeLeftScenario | swipelayout_lib/src/main/java/pl/paullettuce/swipelayout_lib/helpers/drag/DragHelper.kt:23-39 | width 200 and threshold 0.5, a DOWN at 0, a MOVE to -150 and an UP there end in SwipedAway; the calls are moveView, onMove(-150), preventParent and one swipeToLeft |
| Drag.DragHelper.constructor | swipelayout_lib/src/main/java/pl/paullettuce/swipelayout_lib/helpers/drag/DragHelper.kt:11-17 | a new helper is Still with an empty call log and keeps the given policy and threshold, which defaults to 0.5 |
| Drag.DragHelper.OnAttachedToWindow | swipelayout_lib/src/main/java/pl/paullettuce/swipelayout_lib/helpers/drag/DragHelper.kt:19-21 | only asks the coordinate store to capture the resting position |
| Drag.DragHelper.OnTouchEvent | swipelayout_lib/src/main/java/pl/paullettuce/swipelayout_lib/helpers/drag/DragHelper.kt:23-39 | always returns true; the new state and the appended calls are those of Gesture.OnTouchEvent |
| Drag.DragHelper.OnInterceptTouchEvent | swipelayout_lib/src/main/java/pl/paullettuce/swipelayout_lib/helpers/drag/DragHelper.kt:41-51 | changes only the origin; its state and answer are those of Gesture.OnInterceptTouchEvent |
| Drag.DragHelper.SetBlockSwipes | swipelayout_lib/src/main/java/pl/paullettuce/swipelayout_lib/helpers/drag/DragHelper.kt:53-59 | the state becomes Blocked or Still as asked, and nothing else changes |
| Drag.DragHelper.OnReset | swipelayout_lib/src/main/java/pl/paullettuce/swipelayout_lib/helpers/drag/DragHelper.kt:61-64 | asks for the resting position and the state becomes Still |
| Drag.DragHelper.SwipedAway | swipelayout_lib/src/main/java/pl/paullettuce/swipelayout_lib/helpers/drag/DragHelper.kt:66-68 | the state becomes SwipedAway and nothing else changes |
| Drag.DragHelper.ActionDown | swipelayout_lib/src/main/java/pl/paullettuce/swipelayout_lib/helpers/drag/DragHelper.kt:72-74 | the origin becomes the event's coordinates |
| Drag.DragHelper.MoveView | swipelayout_lib/src/main/java/pl/paullettuce/swipelayout_lib/helpers/drag/DragHelper.kt:84-97 | returns true iff the policy permits the travel and the store moved the view; its calls are those of Gesture.MoveView |
| Drag.DragHelper.CheckIfCommittedASwipe | swipelayout_lib/src/main/java/pl/paullettuce/swipelayout_lib/helpers/drag/DragHelper.kt:128-146 | returns true iff Gesture.CheckIfCommittedASwipe commits, and makes that commit's single swipe call |
| Drag.DragHelper.ActionMove | swipelayout_lib/src/main/java/pl/paullettuce/swipelayout_lib/helpers/drag/DragHelper.kt:99-177 | dispatches a MOVE to the active state, with the state and calls of Gesture.ActionMove; while dragging it stays dragging and makes exactly moveView's calls |
| Drag.DragHelper.ActionUp | swipelayout_lib/src/main/java/pl/paullettuce/swipelayout_lib/helpers/drag/DragHelper.kt:99-177 | dispatches an UP or a CANCEL to the active state, with the state and calls of Gesture.ActionUp |
| Drag.SwipeLeftGesture | swipelayout_lib/src/main/java/pl/paullettuce/swipelayout_lib/helpers/drag/DragHelper.kt:113-149 | driving a real helper through DOWN at 0, MOVE to -150 and UP (width 200, threshold 0.5) ends in SwipedAway, after exactly one swipeToLeft |

## Left out

- `CoordsStore` is not part of this model. That covers the clamping of the
  view inside `moveView`, `isMoving`, `bringToOriginalPosition`, and how the
  resting position is captured. Their outcomes are inputs (`viewMoves`,
  `moving`), and the calls into them are log entries.
- `AllowedSwipeDirectionState` is not part of this model. Its `isDragValid`
  is an arbitrary `real -> bool`. `LeftOnly` and `RightOnly` state the
  one-sided policies as assumptions of a lemma.
- The initial origin is 0. The store's behaviour before any DOWN is not part
  of this model; a missing origin reads as zero.
- `width * swipeConfirmedThreshold` is computed in exact `real` arithmetic,
  not in 32-bit floating point. Touch coordinates are `real` as well.
- The controller callbacks (`reset`, `swipeToLeft`, `swipeToRight`, `onMove`,
  `preventParentFromInterceptingTouches`) are leaf calls. Any re-entry into
  the helper is not modelled, for example `reset()` calling `onReset()`, so
  the model never returns to Still through a controller callback.
- `MotionEvent`, `View` and the concrete `SwipeLayout` controller are
  replaced by the `TouchEvent` datatype, the `viewWidth` input and the call
  log.
- The demo activity (`MainActivity.kt`) and the layout-validation exception
  (`LayoutNotBuiltProperlyException.kt`) are Android wiring and message text
  outside the gesture core.
