/** The gesture state machine of the swipe layout's drag helper, written as pure
    transition functions. Each function takes the helper's state before an
    event (its view state and the recorded touch origin) and gives the state
    after it together with the calls it makes into its collaborators, in order.
    The imperative helper in module Drag is proved against these functions. */
module Gesture {

  /** The five view states; exactly one is active at any time. */
  datatype ViewState = Still | ScrollingVertically | DraggingHorizontally | SwipedAway | Blocked

  /** The action kinds of a touch event: the four the helper distinguishes,
      and every other kind (a second pointer, say), which it ignores. */
  datatype Action = Down | Move | Up | Cancel | Other

  /** A touch event: its action and its coordinates in the container's space. */
  datatype TouchEvent = TouchEvent(action: Action, x: real, y: real)

  /** A call the helper makes into a collaborator: the layout controller
      (`Layout...`) or the coordinate store that moves the draggable view
      (`Coords...`). These are leaf calls: they never re-enter the helper. */
  datatype Call =
    | LayoutReset
    | LayoutSwipeToLeft
    | LayoutSwipeToRight
    | LayoutOnMove(travelledX: real)
    | LayoutPreventParentFromInterceptingTouches
    | CoordsMoveView(x: real, y: real)
    | CoordsBringToOriginalPosition
    | CoordsOnAttachedToWindow

  /** The helper's fixed configuration: the direction policy and the fraction
      of the view's width a release must travel to count as a swipe. */
  datatype Config = Config(isDragValid: real -> bool, swipeConfirmedThreshold: real)

  /** The helper's mutable state: the view state and the touch origin. */
  datatype Machine = Machine(state: ViewState, downX: real, downY: real)

  /** A touch event's effect: the new helper state and the calls made. */
  datatype Transition = Transition(machine: Machine, calls: seq<Call>)

  /** What a state handler decides: the new view state and the calls made. */
  datatype Handled = Handled(state: ViewState, calls: seq<Call>)

  /** What moving the view yields: whether it moved, and the calls made. */
  datatype Moved = Moved(moved: bool, calls: seq<Call>)

  /** The outcome of checking a release for a committed swipe. */
  datatype Commit = NoSwipe | CommittedLeft | CommittedRight

  /** The answer to an interception query and the helper state after it. */
  datatype Interception = Interception(machine: Machine, intercept: bool)

  function Abs(r: real): real { if r < 0.0 then -r else r }

  /** Horizontal travel from the origin; negative means leftwards. */
  function XDiffTo(event: TouchEvent, downX: real): real { event.x - downX }

  /** Vertical travel from the origin. */
  function YDiffTo(event: TouchEvent, downY: real): real { event.y - downY }

  /** Only a horizontal drag keeps ancestors from stealing the gesture: every
      other state keeps the default of not asking. */
  predicate ShouldPreventParentFromInterceptingTouches(s: ViewState)
    ensures ShouldPreventParentFromInterceptingTouches(s) ==>
              s != Still && s != ScrollingVertically && s != SwipedAway && s != Blocked
    ensures s == DraggingHorizontally ==> ShouldPreventParentFromInterceptingTouches(s)
  {
    s == DraggingHorizontally
  }

  /** The gesture is vertical when it has travelled strictly further in y than in x. */
  predicate IsScrollingVertically(m: Machine, event: TouchEvent)
    ensures IsScrollingVertically(m, event) ==> event.y != m.downY
    ensures event.x == m.downX ==> (IsScrollingVertically(m, event) <==> event.y != m.downY)
  {
    Abs(YDiffTo(event, m.downY)) > Abs(XDiffTo(event, m.downX))
  }

  /** The distance a release must exceed, for a view of the given width. */
  function GetMinDistanceToTreatAsSwipe(cfg: Config, viewWidth: nat): (d: real)
    ensures cfg.swipeConfirmedThreshold >= 0.0 ==> d >= 0.0
    ensures viewWidth == 0 ==> d == 0.0
  {
    viewWidth as real * cfg.swipeConfirmedThreshold
  }

  /** Tries to move the draggable view to follow `event`. A drag in a direction
      the policy forbids leaves the view alone; otherwise the coordinate store
      moves it and reports, through `viewMoves`, whether its position changed,
      and only then is the controller told how far the touch travelled. */
  function MoveView(cfg: Config, m: Machine, event: TouchEvent, viewMoves: bool): (o: Moved)
    ensures o.moved <==> viewMoves && cfg.isDragValid(XDiffTo(event, m.downX))
    ensures cfg.isDragValid(XDiffTo(event, m.downX)) ==> CoordsMoveView(event.x, event.y) in o.calls
    ensures !cfg.isDragValid(XDiffTo(event, m.downX)) ==> o == Moved(false, [])
    ensures LayoutOnMove(XDiffTo(event, m.downX)) in o.calls <==> o.moved
  {
    var travelledX := XDiffTo(event, m.downX);
    if !cfg.isDragValid(travelledX) then Moved(false, [])
    else if viewMoves then Moved(true, [CoordsMoveView(event.x, event.y), LayoutOnMove(travelledX)])
    else Moved(false, [CoordsMoveView(event.x, event.y)])
  }

  /** Decides whether a release completes a swipe: the travel must be in a
      permitted direction and strictly beyond the minimum distance. */
  function CheckIfCommittedASwipe(cfg: Config, m: Machine, event: TouchEvent, viewWidth: nat): (c: Commit)
    ensures c != NoSwipe ==> cfg.isDragValid(XDiffTo(event, m.downX))
    ensures cfg.swipeConfirmedThreshold >= 0.0 ==>
              (c == CommittedLeft ==> event.x < m.downX) && (c == CommittedRight ==> event.x > m.downX)
    ensures cfg.isDragValid(XDiffTo(event, m.downX)) && cfg.swipeConfirmedThreshold >= 0.0 ==>
              (c == CommittedLeft <==> XDiffTo(event, m.downX) < -GetMinDistanceToTreatAsSwipe(cfg, viewWidth)) &&
              (c == CommittedRight <==> XDiffTo(event, m.downX) > GetMinDistanceToTreatAsSwipe(cfg, viewWidth))
  {
    var travelled := XDiffTo(event, m.downX);
    if !cfg.isDragValid(travelled) then NoSwipe
    else
      var minDistanceToTreatAsSwipe := GetMinDistanceToTreatAsSwipe(cfg, viewWidth);
      if travelled < -minDistanceToTreatAsSwipe then CommittedLeft
      else if travelled > minDistanceToTreatAsSwipe then CommittedRight
      else NoSwipe
  }

  /** The controller call a commit decision makes. */
  function CommitCalls(c: Commit): (r: seq<Call>)
    ensures |r| == if c == NoSwipe then 0 else 1
    ensures LayoutSwipeToLeft in r <==> c == CommittedLeft
    ensures LayoutSwipeToRight in r <==> c == CommittedRight
  {
    match c
    case NoSwipe => []
    case CommittedLeft => [LayoutSwipeToLeft]
    case CommittedRight => [LayoutSwipeToRight]
  }

  /** The active state's reaction to a MOVE. */
  function ActionMove(cfg: Config, m: Machine, event: TouchEvent, viewMoves: bool): (h: Handled)
    ensures h.state == m.state ||
            (m.state == Still && (h.state == ScrollingVertically || h.state == DraggingHorizontally))
    ensures m.state == DraggingHorizontally ==> h.state == DraggingHorizontally
    ensures m.state != Still && m.state != DraggingHorizontally ==> h.calls == []
    ensures LayoutSwipeToLeft !in h.calls && LayoutSwipeToRight !in h.calls && LayoutReset !in h.calls
    ensures LayoutPreventParentFromInterceptingTouches !in h.calls
  {
    match m.state
    case Still =>
      if IsScrollingVertically(m, event) then Handled(ScrollingVertically, [])
      else
        var o := MoveView(cfg, m, event, viewMoves);
        Handled(if o.moved then DraggingHorizontally else Still, o.calls)
    case DraggingHorizontally => Handled(DraggingHorizontally, MoveView(cfg, m, event, viewMoves).calls)
    case ScrollingVertically => Handled(ScrollingVertically, [])
    case SwipedAway => Handled(SwipedAway, [])
    case Blocked => Handled(Blocked, [])
  }

  /** The active state's reaction to an UP or a CANCEL. A release that does
      not commit asks the controller to reset; the state itself is left as
      it was, since the return to Still is the controller's business. */
  function ActionUp(cfg: Config, m: Machine, event: TouchEvent, viewWidth: nat): (h: Handled)
    ensures h.state == m.state || (m.state == DraggingHorizontally && h.state == SwipedAway)
    ensures |h.calls| <= 1
    ensures (m.state == ScrollingVertically || m.state == DraggingHorizontally) <==> |h.calls| == 1
    ensures h.state == SwipedAway && m.state != SwipedAway ==>
              h.calls == [LayoutSwipeToLeft] || h.calls == [LayoutSwipeToRight]
  {
    match m.state
    case ScrollingVertically => Handled(ScrollingVertically, [LayoutReset])
    case DraggingHorizontally =>
      var c := CheckIfCommittedASwipe(cfg, m, event, viewWidth);
      if c == NoSwipe then Handled(DraggingHorizontally, [LayoutReset])
      else Handled(SwipedAway, CommitCalls(c))
    case Still => Handled(Still, [])
    case SwipedAway => Handled(SwipedAway, [])
    case Blocked => Handled(Blocked, [])
  }

  /** Normal dispatch of one touch event. `viewWidth` is the draggable view's
      width at this moment and `viewMoves` whether the coordinate store would
      actually change the view's position for this event. */
  function OnTouchEvent(cfg: Config, m: Machine, event: TouchEvent, viewWidth: nat, viewMoves: bool): (t: Transition)
    ensures event.action == Down ==> t == Transition(Machine(m.state, event.x, event.y), [])
    ensures event.action != Down ==> t.machine.downX == m.downX && t.machine.downY == m.downY
  {
    match event.action
    case Down => Transition(m.(downX := event.x, downY := event.y), [])
    case Move =>
      var h := ActionMove(cfg, m, event, viewMoves);
      var prevent := if ShouldPreventParentFromInterceptingTouches(h.state)
                     then [LayoutPreventParentFromInterceptingTouches] else [];
      Transition(m.(state := h.state), h.calls + prevent)
    case Up | Cancel =>
      var h := ActionUp(cfg, m, event, viewWidth);
      Transition(m.(state := h.state), h.calls)
    case Other => Transition(m, [])
  }

  /** The interception probe. `moving` is the coordinate store's answer to
      whether the gesture is moving horizontally. */
  function OnInterceptTouchEvent(m: Machine, event: TouchEvent, moving: bool): (i: Interception)
    ensures i.machine.state == m.state
    ensures i.intercept ==> event.action == Move
  {
    match event.action
    case Down => Interception(m.(downX := event.x, downY := event.y), false)
    case Move => Interception(m, moving)
    case Up => Interception(m, false)
    case Cancel => Interception(m, false)
    case Other => Interception(m, false)
  }

  /** Blocking forces Blocked, unblocking forces Still. */
  function SetBlockSwipes(m: Machine, block: bool): (r: Machine)
    ensures r.downX == m.downX && r.downY == m.downY
  {
    m.(state := if block then Blocked else Still)
  }

  /** Puts the view back to its resting position and forces Still. */
  function OnReset(m: Machine): (t: Transition)
    ensures t.machine.downX == m.downX && t.machine.downY == m.downY
  {
    Transition(m.(state := Still), [CoordsBringToOriginalPosition])
  }

  /** A programmatic swipe: forces SwipedAway. */
  function SwipedAwayExternally(m: Machine): (r: Machine)
    ensures r.downX == m.downX && r.downY == m.downY
  {
    m.(state := SwipedAway)
  }
}
