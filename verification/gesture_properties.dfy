/** Properties of single transitions of the gesture state machine. */
module GestureProperties {
  import opened Gesture

  /** A DOWN only records the origin: the view state stays and nothing is called. */
  lemma DownOnlyRecordsOrigin(cfg: Config, m: Machine, event: TouchEvent, viewWidth: nat, viewMoves: bool)
    requires event.action == Down
    ensures OnTouchEvent(cfg, m, event, viewWidth, viewMoves).machine.state == m.state
    ensures OnTouchEvent(cfg, m, event, viewWidth, viewMoves).machine.downX == event.x
    ensures OnTouchEvent(cfg, m, event, viewWidth, viewMoves).machine.downY == event.y
    ensures OnTouchEvent(cfg, m, event, viewWidth, viewMoves).calls == []
  {
  }

  /** An action kind the helper does not distinguish changes nothing. */
  lemma OtherActionsIgnored(cfg: Config, m: Machine, event: TouchEvent, viewWidth: nat, viewMoves: bool, moving: bool)
    requires event.action == Other
    ensures OnTouchEvent(cfg, m, event, viewWidth, viewMoves) == Transition(m, [])
    ensures OnInterceptTouchEvent(m, event, moving) == Interception(m, false)
  {
  }

  /** The interception probe never changes the view state, claims the gesture
      only on a MOVE that the coordinate store calls moving, and apart from a
      DOWN recording the origin it changes nothing at all. */
  lemma InterceptionIsAProbe(m: Machine, event: TouchEvent, moving: bool)
    ensures OnInterceptTouchEvent(m, event, moving).machine.state == m.state
    ensures OnInterceptTouchEvent(m, event, moving).intercept <==> event.action == Move && moving
    ensures event.action != Down ==> OnInterceptTouchEvent(m, event, moving).machine == m
    ensures event.action == Down ==>
              OnInterceptTouchEvent(m, event, moving).machine == Machine(m.state, event.x, event.y)
  {
  }

  /** The external overrides force their state whatever the state was. */
  lemma ExternalOverridesForceState(m: Machine)
    ensures SetBlockSwipes(m, true).state == Blocked
    ensures SetBlockSwipes(m, false).state == Still
    ensures SwipedAwayExternally(m).state == SwipedAway
    ensures OnReset(m).machine.state == Still
    ensures OnReset(m).calls == [CoordsBringToOriginalPosition]
  {
  }

  /** Resetting twice leaves the helper as resetting once does. */
  lemma OnResetIdempotent(m: Machine)
    ensures OnReset(OnReset(m).machine).machine == OnReset(m).machine
    ensures OnReset(OnReset(m).machine).calls == OnReset(m).calls
  {
  }

  /** Blocked and SwipedAway ignore MOVE, UP and CANCEL: the state stays, no
      view is moved and no collaborator is called. */
  lemma FrozenStatesIgnoreTouches(cfg: Config, m: Machine, event: TouchEvent, viewWidth: nat, viewMoves: bool)
    requires m.state == Blocked || m.state == SwipedAway
    requires event.action != Down
    ensures OnTouchEvent(cfg, m, event, viewWidth, viewMoves) == Transition(m, [])
  {
  }

  /** A MOVE in Still: a strictly vertical gesture becomes a scroll without
      touching the view; otherwise the helper asks the coordinate store to
      move the view when the direction policy permits the travel, and starts
      dragging exactly when the policy permits it and the view moved, and
      stays Still when either fails. */
  lemma StillOnMove(cfg: Config, m: Machine, event: TouchEvent, viewWidth: nat, viewMoves: bool)
    requires m.state == Still && event.action == Move
    ensures var t := OnTouchEvent(cfg, m, event, viewWidth, viewMoves);
            var dx := XDiffTo(event, m.downX);
            var dy := YDiffTo(event, m.downY);
            var valid := cfg.isDragValid(dx);
            (Abs(dy) > Abs(dx) ==> t == Transition(m.(state := ScrollingVertically), [])) &&
            (Abs(dy) <= Abs(dx) ==>
               (t.machine.state == DraggingHorizontally <==> valid && viewMoves) &&
               (t.machine.state == DraggingHorizontally || t.machine.state == Still) &&
               t.calls == if !valid then []
                          else if viewMoves then [CoordsMoveView(event.x, event.y), LayoutOnMove(dx),
                                                  LayoutPreventParentFromInterceptingTouches]
                          else [CoordsMoveView(event.x, event.y)])
  {
  }

  /** A MOVE while dragging horizontally skips the vertical test, keeps the
      drag going, moves the view as far as the direction policy permits and
      keeps ancestors off the gesture. */
  lemma DraggingOnMove(cfg: Config, m: Machine, event: TouchEvent, viewWidth: nat, viewMoves: bool)
    requires m.state == DraggingHorizontally && event.action == Move
    ensures OnTouchEvent(cfg, m, event, viewWidth, viewMoves)
         == Transition(m, MoveView(cfg, m, event, viewMoves).calls + [LayoutPreventParentFromInterceptingTouches])
    ensures var dx := XDiffTo(event, m.downX);
            (OnTouchEvent(cfg, m, event, viewWidth, viewMoves).calls ==
               (if !cfg.isDragValid(dx) then []
                else if viewMoves then [CoordsMoveView(event.x, event.y), LayoutOnMove(dx)]
                else [CoordsMoveView(event.x, event.y)]) + [LayoutPreventParentFromInterceptingTouches])
  {
  }

  /** UP and CANCEL in Still do nothing. */
  lemma StillOnRelease(cfg: Config, m: Machine, event: TouchEvent, viewWidth: nat, viewMoves: bool)
    requires m.state == Still && (event.action == Up || event.action == Cancel)
    ensures OnTouchEvent(cfg, m, event, viewWidth, viewMoves) == Transition(m, [])
  {
  }

  /** While scrolling vertically a MOVE does nothing and a release asks the
      controller to reset. */
  lemma ScrollingVerticallyReactions(cfg: Config, m: Machine, event: TouchEvent, viewWidth: nat, viewMoves: bool)
    requires m.state == ScrollingVertically
    ensures event.action == Move ==> OnTouchEvent(cfg, m, event, viewWidth, viewMoves) == Transition(m, [])
    ensures event.action == Up || event.action == Cancel ==> OnTouchEvent(cfg, m, event, viewWidth, viewMoves) == Transition(m, [LayoutReset])
  {
  }

  /** The direction gate: a drag the policy forbids leaves the view untouched
      and tells the controller nothing; the controller hears of a move only
      right after the coordinate store moved the view and reported a change. */
  lemma DirectionGate(cfg: Config, m: Machine, event: TouchEvent, viewMoves: bool)
    ensures !cfg.isDragValid(XDiffTo(event, m.downX)) ==> MoveView(cfg, m, event, viewMoves) == Moved(false, [])
    ensures var calls := MoveView(cfg, m, event, viewMoves).calls;
            forall k :: 0 <= k < |calls| && calls[k].LayoutOnMove? ==>
              k > 0 && calls[k - 1] == CoordsMoveView(event.x, event.y) && viewMoves &&
              calls[k].travelledX == XDiffTo(event, m.downX)
  {
  }

  /** A release while dragging horizontally: with the travel permitted, going
      strictly beyond the minimum distance to the left fires exactly one
      swipe to the left, else strictly beyond it to the right exactly one swipe
      to the right, and either makes the helper SwipedAway; every other release
      only asks the controller to reset. */
  lemma DraggingRelease(cfg: Config, m: Machine, event: TouchEvent, viewWidth: nat, viewMoves: bool)
    requires m.state == DraggingHorizontally && (event.action == Up || event.action == Cancel)
    ensures var t := OnTouchEvent(cfg, m, event, viewWidth, viewMoves);
            var travelled := XDiffTo(event, m.downX);
            var min := viewWidth as real * cfg.swipeConfirmedThreshold;
            var valid := cfg.isDragValid(travelled);
            (valid && travelled < -min ==> t == Transition(m.(state := SwipedAway), [LayoutSwipeToLeft])) &&
            (valid && !(travelled < -min) && travelled > min ==>
               t == Transition(m.(state := SwipedAway), [LayoutSwipeToRight])) &&
            (!valid || (-min <= travelled <= min) ==> t == Transition(m, [LayoutReset]))
  {
  }

  /** Travelling exactly the minimum distance is not a swipe. */
  lemma ThresholdItselfDoesNotCommit(cfg: Config, m: Machine, event: TouchEvent, viewWidth: nat, viewMoves: bool)
    requires m.state == DraggingHorizontally && (event.action == Up || event.action == Cancel)
    requires cfg.swipeConfirmedThreshold >= 0.0
    requires Abs(XDiffTo(event, m.downX)) == GetMinDistanceToTreatAsSwipe(cfg, viewWidth)
    ensures OnTouchEvent(cfg, m, event, viewWidth, viewMoves) == Transition(m, [LayoutReset])
  {
  }

  /** A negative threshold turns the minimum distance negative, so a release
      a little to the right already lies below its negation and fires a swipe
      to the left, even under a policy that permits only rightward travel. */
  lemma NegativeThresholdSwipesTheWrongWay()
    ensures var cfg := Config(t => t > 0.0, -0.1);
            var m := Machine(DraggingHorizontally, 0.0, 0.0);
            OnTouchEvent(cfg, m, TouchEvent(Up, 5.0, 0.0), 200, false)
              == Transition(m.(state := SwipedAway), [LayoutSwipeToLeft])
  {
  }

  /** CANCEL is handled exactly like UP, in every state. */
  lemma CancelIsUp(cfg: Config, m: Machine, x: real, y: real, viewWidth: nat, viewMoves: bool)
    ensures OnTouchEvent(cfg, m, TouchEvent(Cancel, x, y), viewWidth, viewMoves)
         == OnTouchEvent(cfg, m, TouchEvent(Up, x, y), viewWidth, viewMoves)
  {
  }

  /** After a MOVE, ancestors are told to keep off exactly when the helper is
      now dragging horizontally, and that is the last call of the event. */
  lemma PreventParentIffDragging(cfg: Config, m: Machine, event: TouchEvent, viewWidth: nat, viewMoves: bool)
    requires event.action == Move
    ensures var t := OnTouchEvent(cfg, m, event, viewWidth, viewMoves);
            (LayoutPreventParentFromInterceptingTouches in t.calls <==> t.machine.state == DraggingHorizontally) &&
            (t.machine.state == DraggingHorizontally ==>
               t.calls[|t.calls| - 1] == LayoutPreventParentFromInterceptingTouches)
  {
  }

  /** Only an UP or a CANCEL while dragging fires a swipe, and it always
      leaves the helper SwipedAway. */
  lemma SwipeOnlyOnDragRelease(cfg: Config, m: Machine, event: TouchEvent, viewWidth: nat, viewMoves: bool)
    ensures var t := OnTouchEvent(cfg, m, event, viewWidth, viewMoves);
            (LayoutSwipeToLeft in t.calls || LayoutSwipeToRight in t.calls) ==>
              m.state == DraggingHorizontally && (event.action == Up || event.action == Cancel) &&
              t.machine.state == SwipedAway && |t.calls| == 1
  {
  }
}
