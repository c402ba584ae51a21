/** Whole gestures: the helper fed a sequence of deliveries, each either a
    normal dispatch or an interception probe, and what can be said of every
    such sequence. */
module GestureRuns {
  import opened Gesture

  /** One event as the container delivers it, with the collaborators' answers
      for that event (the view's width and whether the view would move, or
      whether the coordinate store calls the gesture moving). */
  datatype Delivery =
    | Touch(event: TouchEvent, viewWidth: nat, viewMoves: bool)
    | InterceptProbe(event: TouchEvent, moving: bool)

  function Deliver(cfg: Config, m: Machine, d: Delivery): Transition
  {
    match d
    case Touch(event, viewWidth, viewMoves) => OnTouchEvent(cfg, m, event, viewWidth, viewMoves)
    case InterceptProbe(event, moving) => Transition(OnInterceptTouchEvent(m, event, moving).machine, [])
  }

  /** The helper state after all deliveries, and every call made, in order. */
  function Run(cfg: Config, m: Machine, ds: seq<Delivery>): Transition
    decreases |ds|
  {
    if |ds| == 0 then Transition(m, [])
    else
      var first := Deliver(cfg, m, ds[0]);
      var rest := Run(cfg, first.machine, ds[1..]);
      Transition(rest.machine, first.calls + rest.calls)
  }

  predicate IsSwipe(c: Call) { c == LayoutSwipeToLeft || c == LayoutSwipeToRight }

  /** The number of swipe callbacks among `calls`. */
  function SwipeCount(calls: seq<Call>): nat
  {
    if |calls| == 0 then 0 else (if IsSwipe(calls[0]) then 1 else 0) + SwipeCount(calls[1..])
  }

  lemma {:induction false} SwipeCountAppend(a: seq<Call>, b: seq<Call>)
    ensures SwipeCount(a + b) == SwipeCount(a) + SwipeCount(b)
  {
    if |a| == 0 {
      assert a + b == b;
    } else {
      assert (a + b)[1..] == a[1..] + b;
      SwipeCountAppend(a[1..], b);
    }
  }

  lemma {:induction false} NoSwipeNoCount(calls: seq<Call>)
    requires forall k :: 0 <= k < |calls| ==> !IsSwipe(calls[k])
    ensures SwipeCount(calls) == 0
  {
    if |calls| > 0 {
      NoSwipeNoCount(calls[1..]);
    }
  }

  /** Once Blocked or SwipedAway, no sequence of touch deliveries changes the
      view state, moves the view or calls any collaborator. */
  lemma {:induction false} FrozenRunIsSilent(cfg: Config, m: Machine, ds: seq<Delivery>)
    requires m.state == Blocked || m.state == SwipedAway
    ensures Run(cfg, m, ds).machine.state == m.state
    ensures Run(cfg, m, ds).calls == []
    decreases |ds|
  {
    if |ds| > 0 {
      FrozenRunIsSilent(cfg, Deliver(cfg, m, ds[0]).machine, ds[1..]);
    }
  }

  /** One delivery fires at most one swipe callback, and one that fires a
      swipe leaves the helper SwipedAway. */
  lemma DeliverSwipesAtMostOnce(cfg: Config, m: Machine, d: Delivery)
    ensures SwipeCount(Deliver(cfg, m, d).calls) <= 1
    ensures SwipeCount(Deliver(cfg, m, d).calls) == 1 ==> Deliver(cfg, m, d).machine.state == SwipedAway
  {
    var t := Deliver(cfg, m, d);
    if d.Touch? && d.event.action != Down && m.state == DraggingHorizontally && d.event.action != Move
       && t.machine.state == SwipedAway {
      assert |t.calls| == 1;
      assert SwipeCount(t.calls) == 1 + SwipeCount(t.calls[1..]);
    } else {
      forall k | 0 <= k < |t.calls| ensures !IsSwipe(t.calls[k]) {
        if d.Touch? && d.event.action == Move {
          var h := ActionMove(cfg, m, d.event, d.viewMoves);
          assert LayoutSwipeToLeft !in h.calls && LayoutSwipeToRight !in h.calls;
        }
      }
      NoSwipeNoCount(t.calls);
    }
  }

  /** However long a sequence of deliveries, at most one swipe callback fires
      (none from Blocked or SwipedAway), since a swipe freezes the helper. */
  lemma {:induction false} AtMostOneSwipePerRun(cfg: Config, m: Machine, ds: seq<Delivery>)
    ensures SwipeCount(Run(cfg, m, ds).calls) <= 1
    ensures m.state == Blocked || m.state == SwipedAway ==> SwipeCount(Run(cfg, m, ds).calls) == 0
    decreases |ds|
  {
    if m.state == Blocked || m.state == SwipedAway {
      FrozenRunIsSilent(cfg, m, ds);
    } else if |ds| > 0 {
      var first := Deliver(cfg, m, ds[0]);
      var rest := Run(cfg, first.machine, ds[1..]);
      DeliverSwipesAtMostOnce(cfg, m, ds[0]);
      SwipeCountAppend(first.calls, rest.calls);
      AtMostOneSwipePerRun(cfg, first.machine, ds[1..]);
    }
  }

  /** A gesture that never goes down again and whose every MOVE has travelled
      strictly further vertically than horizontally, starting from Still or a
      vertical scroll, stays in those two states, keeps its origin, never
      moves the view and at most asks the controller to reset. */
  lemma {:induction false} VerticalGestureNeverMovesView(cfg: Config, m: Machine, ds: seq<Delivery>)
    requires m.state == Still || m.state == ScrollingVertically
    requires forall i :: 0 <= i < |ds| ==> ds[i].event.action != Down
    requires forall i :: 0 <= i < |ds| && ds[i].event.action == Move ==> IsScrollingVertically(m, ds[i].event)
    ensures var t := Run(cfg, m, ds);
            (t.machine.state == Still || t.machine.state == ScrollingVertically) &&
            t.machine.downX == m.downX && t.machine.downY == m.downY &&
            forall k :: 0 <= k < |t.calls| ==> t.calls[k] == LayoutReset
    decreases |ds|
  {
    if |ds| > 0 {
      var first := Deliver(cfg, m, ds[0]);
      assert ds[0].event.action != Down;
      assert first.machine.downX == m.downX && first.machine.downY == m.downY;
      assert forall k :: 0 <= k < |first.calls| ==> first.calls[k] == LayoutReset;
      forall i | 0 <= i < |ds[1..]| && ds[1..][i].event.action == Move
        ensures IsScrollingVertically(first.machine, ds[1..][i].event)
      {
        assert IsScrollingVertically(m, ds[i + 1].event);
      }
      VerticalGestureNeverMovesView(cfg, first.machine, ds[1..]);
    }
  }

  /** The same for a whole gesture starting with its DOWN in Still: if every
      later MOVE is strictly more vertical than horizontal from that DOWN,
      the view is never moved and nothing but a reset is requested. */
  lemma VerticalGestureFromDown(cfg: Config, m: Machine, down: TouchEvent, viewWidth: nat, viewMoves: bool,
                                ds: seq<Delivery>)
    requires m.state == Still && down.action == Down
    requires forall i :: 0 <= i < |ds| ==> ds[i].event.action != Down
    requires forall i :: 0 <= i < |ds| && ds[i].event.action == Move ==>
               Abs(ds[i].event.y - down.y) > Abs(ds[i].event.x - down.x)
    ensures var t := Run(cfg, m, [Touch(down, viewWidth, viewMoves)] + ds);
            (t.machine.state == Still || t.machine.state == ScrollingVertically) &&
            forall k :: 0 <= k < |t.calls| ==> t.calls[k] == LayoutReset
  {
    var all := [Touch(down, viewWidth, viewMoves)] + ds;
    assert all[1..] == ds;
    var first := Deliver(cfg, m, all[0]);
    assert first == Transition(Machine(Still, down.x, down.y), []);
    VerticalGestureNeverMovesView(cfg, first.machine, ds);
  }

  /** Every move reported to the controller among `calls` is one the
      direction policy permits. */
  ghost predicate ReportsOnlyPermittedMoves(cfg: Config, calls: seq<Call>)
  {
    forall k :: 0 <= k < |calls| && calls[k].LayoutOnMove? ==> cfg.isDragValid(calls[k].travelledX)
  }

  lemma DeliverReportsPermittedMoves(cfg: Config, m: Machine, d: Delivery)
    ensures ReportsOnlyPermittedMoves(cfg, Deliver(cfg, m, d).calls)
  {
  }

  /** The controller only ever hears of moves the direction policy permits. */
  lemma {:induction false} OnlyPermittedMovesReported(cfg: Config, m: Machine, ds: seq<Delivery>)
    ensures ReportsOnlyPermittedMoves(cfg, Run(cfg, m, ds).calls)
    decreases |ds|
  {
    if |ds| > 0 {
      var first := Deliver(cfg, m, ds[0]);
      var rest := Run(cfg, first.machine, ds[1..]);
      DeliverReportsPermittedMoves(cfg, m, ds[0]);
      OnlyPermittedMovesReported(cfg, first.machine, ds[1..]);
      var calls := first.calls + rest.calls;
      forall k | 0 <= k < |calls| && calls[k].LayoutOnMove? ensures cfg.isDragValid(calls[k].travelledX) {
        if k < |first.calls| {
          assert calls[k] == first.calls[k];
        } else {
          assert calls[k] == rest.calls[k - |first.calls|];
        }
      }
    }
  }

  /** The direction policy allowing only leftward (or zero) travel. */
  ghost predicate LeftOnly(cfg: Config)
  {
    forall t: real :: t > 0.0 ==> !cfg.isDragValid(t)
  }

  /** The direction policy allowing only rightward (or zero) travel. */
  ghost predicate RightOnly(cfg: Config)
  {
    forall t: real :: t < 0.0 ==> !cfg.isDragValid(t)
  }

  lemma DeliverRespectsDirection(cfg: Config, m: Machine, d: Delivery)
    requires cfg.swipeConfirmedThreshold >= 0.0
    ensures var calls := Deliver(cfg, m, d).calls;
            (LeftOnly(cfg) ==>
               (LayoutSwipeToRight !in calls &&
                forall k :: 0 <= k < |calls| && calls[k].LayoutOnMove? ==> calls[k].travelledX <= 0.0)) &&
            (RightOnly(cfg) ==>
               (LayoutSwipeToLeft !in calls &&
                forall k :: 0 <= k < |calls| && calls[k].LayoutOnMove? ==> calls[k].travelledX >= 0.0))
  {
  }

  /** With a one-sided direction policy and a non-negative threshold, no
      sequence of deliveries ever swipes, or reports a move, the other way. */
  lemma {:induction false} RunRespectsDirection(cfg: Config, m: Machine, ds: seq<Delivery>)
    requires cfg.swipeConfirmedThreshold >= 0.0
    ensures var calls := Run(cfg, m, ds).calls;
            (LeftOnly(cfg) ==>
               (LayoutSwipeToRight !in calls &&
                forall k :: 0 <= k < |calls| && calls[k].LayoutOnMove? ==> calls[k].travelledX <= 0.0)) &&
            (RightOnly(cfg) ==>
               (LayoutSwipeToLeft !in calls &&
                forall k :: 0 <= k < |calls| && calls[k].LayoutOnMove? ==> calls[k].travelledX >= 0.0))
    decreases |ds|
  {
    if |ds| > 0 {
      var first := Deliver(cfg, m, ds[0]);
      DeliverRespectsDirection(cfg, m, ds[0]);
      RunRespectsDirection(cfg, first.machine, ds[1..]);
    }
  }

  /** The helper only ever comes to drag horizontally after the view actually
      moved and the controller was told so. */
  lemma {:induction false} DraggingOnlyAfterViewMoved(cfg: Config, m: Machine, ds: seq<Delivery>)
    requires m.state != DraggingHorizontally
    ensures var t := Run(cfg, m, ds);
            t.machine.state == DraggingHorizontally ==> exists k :: 0 <= k < |t.calls| && t.calls[k].LayoutOnMove?
    decreases |ds|
  {
    if |ds| > 0 {
      var first := Deliver(cfg, m, ds[0]);
      var rest := Run(cfg, first.machine, ds[1..]);
      if first.machine.state == DraggingHorizontally {
        assert first.calls[1].LayoutOnMove?;
        assert (first.calls + rest.calls)[1] == first.calls[1];
      } else {
        DraggingOnlyAfterViewMoved(cfg, first.machine, ds[1..]);
        if rest.machine.state == DraggingHorizontally {
          var k :| 0 <= k < |rest.calls| && rest.calls[k].LayoutOnMove?;
          assert (first.calls + rest.calls)[|first.calls| + k] == rest.calls[k];
        }
      }
    }
  }

  /** The committed left swipe of a concrete gesture: a 200-wide view with the
      default threshold 0.5, down at x = 0, a move to x = -150 that moves the
      view, and a release there, with leftward travel permitted. */
  lemma SwipeLeftScenario(isDragValid: real -> bool, viewMoves: bool)
    requires isDragValid(-150.0)
    ensures var cfg := Config(isDragValid, 0.5);
            var t := Run(cfg, Machine(Still, 0.0, 0.0),
                         [Touch(TouchEvent(Down, 0.0, 0.0), 200, viewMoves),
                          Touch(TouchEvent(Move, -150.0, 0.0), 200, true),
                          Touch(TouchEvent(Up, -150.0, 0.0), 200, viewMoves)]);
            t.machine.state == SwipedAway &&
            t.calls == [CoordsMoveView(-150.0, 0.0), LayoutOnMove(-150.0),
                        LayoutPreventParentFromInterceptingTouches, LayoutSwipeToLeft]
  {
    var cfg := Config(isDragValid, 0.5);
    var ds := [Touch(TouchEvent(Down, 0.0, 0.0), 200, viewMoves),
               Touch(TouchEvent(Move, -150.0, 0.0), 200, true),
               Touch(TouchEvent(Up, -150.0, 0.0), 200, viewMoves)];
    var m1 := Machine(Still, 0.0, 0.0);
    var m2 := Machine(DraggingHorizontally, 0.0, 0.0);
    var m3 := Machine(SwipedAway, 0.0, 0.0);
    assert Run(cfg, m3, ds[3..]) == Transition(m3, []);
    assert Run(cfg, m2, ds[2..]) == Transition(m3, [LayoutSwipeToLeft]);
    assert Run(cfg, m1, ds[1..]) == Transition(m3, [CoordsMoveView(-150.0, 0.0), LayoutOnMove(-150.0),
      LayoutPreventParentFromInterceptingTouches, LayoutSwipeToLeft]);
  }
}
