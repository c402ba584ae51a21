/** The drag helper as the layout owns it: one mutable view state, the touch
    origin it records, and the calls it makes into the layout controller and
    the coordinate store, kept in a ghost log. Each method that the state
    machine specifies is proved against its transition function in module
    Gesture (the function of the same name, or SwipedAwayExternally for
    SwipedAway); ActionDown and OnAttachedToWindow state their effect
    directly. */
module Drag {
  import opened Gesture

  class DragHelper {
    const isDragValid: real -> bool
    const swipeConfirmedThreshold: real
    var viewState: ViewState
    var actionDownX: real
    var actionDownY: real
    /** Every collaborator call made so far, oldest first. */
    ghost var log: seq<Call>

    function Settings(): Config
    {
      Config(isDragValid, swipeConfirmedThreshold)
    }

    /** The helper's state as the transition functions see it. */
    function AsMachine(): Machine
      reads this
    {
      Machine(viewState, actionDownX, actionDownY)
    }

    /** A fresh helper is Still; no gesture origin has been recorded yet, so
        the origin reads as zero. The threshold defaults to half the width. */
    constructor (isDragValid: real -> bool, swipeConfirmedThreshold: real := 0.5)
      ensures Settings() == Config(isDragValid, swipeConfirmedThreshold)
      ensures AsMachine() == Machine(Still, 0.0, 0.0)
      ensures log == []
    {
      this.isDragValid := isDragValid;
      this.swipeConfirmedThreshold := swipeConfirmedThreshold;
      viewState := Still;
      actionDownX, actionDownY := 0.0, 0.0;
      log := [];
    }

    /** Lets the coordinate store capture the view's resting position. */
    method OnAttachedToWindow()
      modifies this`log
      ensures log == old(log) + [CoordsOnAttachedToWindow]
    {
      log := log + [CoordsOnAttachedToWindow];
    }

    /** Normal dispatch: a DOWN records the origin, a MOVE goes to the active
        state and then, while dragging, keeps ancestors off the gesture, an UP
        or a CANCEL goes to the active state. Every event is handled. */
    method OnTouchEvent(event: TouchEvent, viewWidth: nat, viewMoves: bool) returns (handled: bool)
      modifies this
      ensures handled
      ensures AsMachine() == Gesture.OnTouchEvent(Settings(), old(AsMachine()), event, viewWidth, viewMoves).machine
      ensures log == old(log) + Gesture.OnTouchEvent(Settings(), old(AsMachine()), event, viewWidth, viewMoves).calls
    {
      match event.action {
        case Down =>
          ActionDown(event);
        case Move =>
          ActionMove(event, viewMoves);
          if ShouldPreventParentFromInterceptingTouches(viewState) {
            log := log + [LayoutPreventParentFromInterceptingTouches];
          }
        case Up | Cancel =>
          ActionUp(event, viewWidth);
        case Other =>
      }
      handled := true;
    }

    /** Interception: a DOWN records the origin; only a MOVE can claim the
        gesture, and it does so when the coordinate store reports `moving`. */
    method OnInterceptTouchEvent(event: TouchEvent, moving: bool) returns (intercept: bool)
      modifies this`actionDownX, this`actionDownY
      ensures AsMachine() == Gesture.OnInterceptTouchEvent(old(AsMachine()), event, moving).machine
      ensures intercept == Gesture.OnInterceptTouchEvent(old(AsMachine()), event, moving).intercept
    {
      match event.action {
        case Down =>
          ActionDown(event);
        case Move =>
          return moving;
        case Up =>
        case Cancel =>
        case Other =>
      }
      return false;
    }

    method SetBlockSwipes(block: bool)
      modifies this`viewState
      ensures AsMachine() == Gesture.SetBlockSwipes(old(AsMachine()), block)
      ensures viewState == if block then Blocked else Still
    {
      viewState := if block then Blocked else Still;
    }

    method OnReset()
      modifies this`viewState, this`log
      ensures AsMachine() == Gesture.OnReset(old(AsMachine())).machine
      ensures log == old(log) + Gesture.OnReset(old(AsMachine())).calls
    {
      log := log + [CoordsBringToOriginalPosition];
      viewState := Still;
    }

    method SwipedAway()
      modifies this`viewState
      ensures AsMachine() == SwipedAwayExternally(old(AsMachine()))
      ensures viewState == ViewState.SwipedAway
    {
      viewState := ViewState.SwipedAway;
    }

    method ActionDown(event: TouchEvent)
      modifies this`actionDownX, this`actionDownY
      ensures actionDownX == event.x && actionDownY == event.y
    {
      actionDownX, actionDownY := event.x, event.y;
    }

    /** Moves the draggable view unless the direction policy forbids the
        drag; `viewMoves` is the coordinate store's report of whether the
        view's position changed. */
    method MoveView(event: TouchEvent, viewMoves: bool) returns (moved: bool)
      modifies this`log
      ensures moved == Gesture.MoveView(Settings(), AsMachine(), event, viewMoves).moved
      ensures moved <==> viewMoves && isDragValid(XDiffTo(event, actionDownX))
      ensures log == old(log) + Gesture.MoveView(Settings(), AsMachine(), event, viewMoves).calls
    {
      var travelledX := XDiffTo(event, actionDownX);
      if !isDragValid(travelledX) {
        return false;
      }
      log := log + [CoordsMoveView(event.x, event.y)];
      if viewMoves {
        log := log + [LayoutOnMove(travelledX)];
        return true;
      }
      return false;
    }

    /** Fires the swipe a release commits to, if any, and says whether it did. */
    method CheckIfCommittedASwipe(event: TouchEvent, viewWidth: nat) returns (committed: bool)
      modifies this`log
      ensures committed == (Gesture.CheckIfCommittedASwipe(Settings(), AsMachine(), event, viewWidth) != NoSwipe)
      ensures log == old(log) + CommitCalls(Gesture.CheckIfCommittedASwipe(Settings(), AsMachine(), event, viewWidth))
    {
      var travelled := XDiffTo(event, actionDownX);
      if !isDragValid(travelled) {
        return false;
      }
      var minDistanceToTreatAsSwipe := GetMinDistanceToTreatAsSwipe(Settings(), viewWidth);
      if travelled < -minDistanceToTreatAsSwipe {
        log := log + [LayoutSwipeToLeft];
        return true;
      } else if travelled > minDistanceToTreatAsSwipe {
        log := log + [LayoutSwipeToRight];
        return true;
      }
      return false;
    }

    /** The active state's MOVE handler. */
    method ActionMove(event: TouchEvent, viewMoves: bool)
      modifies this`viewState, this`log
      ensures viewState == Gesture.ActionMove(Settings(), old(AsMachine()), event, viewMoves).state
      ensures log == old(log) + Gesture.ActionMove(Settings(), old(AsMachine()), event, viewMoves).calls
      ensures old(viewState) == DraggingHorizontally ==>
                viewState == DraggingHorizontally &&
                log == old(log) + Gesture.MoveView(Settings(), old(AsMachine()), event, viewMoves).calls
    {
      match viewState {
        case Still =>
          if IsScrollingVertically(AsMachine(), event) {
            viewState := ScrollingVertically;
          } else {
            var moved := MoveView(event, viewMoves);
            if moved {
              viewState := DraggingHorizontally;
            }
          }
        case DraggingHorizontally =>
          var _ := MoveView(event, viewMoves);
        case ScrollingVertically =>
        case SwipedAway =>
        case Blocked =>
      }
    }

    /** The active state's UP and CANCEL handler. */
    method ActionUp(event: TouchEvent, viewWidth: nat)
      modifies this`viewState, this`log
      ensures viewState == Gesture.ActionUp(Settings(), old(AsMachine()), event, viewWidth).state
      ensures log == old(log) + Gesture.ActionUp(Settings(), old(AsMachine()), event, viewWidth).calls
    {
      match viewState {
        case ScrollingVertically =>
          log := log + [LayoutReset];
        case DraggingHorizontally =>
          var committed := CheckIfCommittedASwipe(event, viewWidth);
          if committed {
            viewState := ViewState.SwipedAway;
          } else {
            log := log + [LayoutReset];
          }
        case Still =>
        case SwipedAway =>
        case Blocked =>
      }
    }
  }

  /** A whole gesture driven through the helper: with a 200-wide view and the
      default threshold, a touch going down at x = 0, moving the view to
      x = -150 and lifting there swipes the front view away to the left. */
  method SwipeLeftGesture(isDragValid: real -> bool) returns (final: ViewState, ghost calls: seq<Call>)
    requires isDragValid(-150.0)
    ensures final == ViewState.SwipedAway
    ensures calls == [CoordsMoveView(-150.0, 0.0), LayoutOnMove(-150.0),
                      LayoutPreventParentFromInterceptingTouches, LayoutSwipeToLeft]
  {
    var helper := new DragHelper(isDragValid);
    var _ := helper.OnTouchEvent(TouchEvent(Down, 0.0, 0.0), 200, false);
    var _ := helper.OnTouchEvent(TouchEvent(Move, -150.0, 0.0), 200, true);
    var _ := helper.OnTouchEvent(TouchEvent(Up, -150.0, 0.0), 200, false);
    final, calls := helper.viewState, helper.log;
  }
}
