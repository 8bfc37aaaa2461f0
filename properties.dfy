/**
 * What the hold detector, the gesture bridge and the position tracker promise
 * over sequences of events.
 */
module Properties {
  import opened Wrappers
  import opened Styles
  import opened Position
  import opened Interaction

  /** Inv mentions only the timer table, the stored handle and the next handle. */
  lemma InvFrame(s: State, r: State)
    requires Inv(s)
    requires r.timers == s.timers && r.holdingTimeout == s.holdingTimeout && r.nextId == s.nextId
    ensures Inv(r)
  {
    assert HoldTimers(r) == HoldTimers(s);
  }

  /** Every callback keeps the timer invariant. */
  lemma StepPreservesInv(c: Config, s: State, e: Event)
    requires Inv(s)
    ensures Inv(Step(c, s, e))
  {
    match e
    case DragMove(dx, dy) =>
      if dx != 0 || dy != 0 {
        InvFrame(s, OnMove(c, s, dx, dy));
      }
    case _ =>
  }

  lemma {:induction false} RunPreservesInv(c: Config, s: State, es: seq<Event>)
    requires Inv(s)
    ensures Inv(Run(c, s, es))
    decreases |es|
  {
    if es != [] {
      StepPreservesInv(c, s, es[0]);
      RunPreservesInv(c, Step(c, s, es[0]), es[1..]);
    }
  }

  lemma {:induction false} RunAppend(c: Config, s: State, es: seq<Event>, e: Event)
    ensures Run(c, s, es + [e]) == Step(c, Run(c, s, es), e)
    decreases |es|
  {
    if es == [] {
      assert es + [e] == [e];
    } else {
      assert (es + [e])[1..] == es[1..] + [e];
      RunAppend(c, Step(c, s, es[0]), es[1..], e);
    }
  }

  /** Every state the element can reach from initialisation keeps the timer invariant. */
  lemma ReachableInv(initial: StyleMap, states: StyleSets, x0: Option<int>, y0: Option<int>, es: seq<Event>)
    ensures Inv(Run(Config(CaptureBaseline(initial), states), InitialState(initial, x0, y0), es))
  {
    RunPreservesInv(Config(CaptureBaseline(initial), states), InitialState(initial, x0, y0), es);
  }

  /** Under the invariant at most one hold timer is pending: the one whose handle is stored. */
  lemma AtMostOneHoldTimer(s: State)
    requires Inv(s)
    ensures |HoldTimers(s)| <= 1
    ensures s.holdingTimeout.Some? ==> HoldTimers(s) <= {s.holdingTimeout.value}
    ensures s.holdingTimeout.None? ==> HoldTimers(s) == {}
  {
    if s.holdingTimeout.Some? {
      var h := s.holdingTimeout.value;
      assert HoldTimers(s) <= {h};
      if h in HoldTimers(s) {
        assert HoldTimers(s) == {h};
      } else {
        assert HoldTimers(s) == {};
      }
    } else {
      assert HoldTimers(s) == {};
    }
  }

  /**
   * After any history, a press leaves exactly one hold timer pending, the one
   * it armed, and marks the element not moving.
   */
  lemma PressLeavesOneHoldTimer(initial: StyleMap, states: StyleSets, x0: Option<int>, y0: Option<int>, es: seq<Event>)
    ensures var r := Run(Config(CaptureBaseline(initial), states), InitialState(initial, x0, y0), es + [Press]);
      && r.holdingTimeout.Some?
      && HoldTimers(r) == {r.holdingTimeout.value}
      && |HoldTimers(r)| == 1
      && r.isMoving == NotMoving
  {
    var c, s := Config(CaptureBaseline(initial), states), InitialState(initial, x0, y0);
    ReachableInv(initial, states, x0, y0, es);
    RunAppend(c, s, es, Press);
  }

  function Presses(n: nat): (es: seq<Event>)
    ensures |es| == n && forall i :: 0 <= i < n ==> es[i] == Press
  {
    if n == 0 then [] else [Press] + Presses(n - 1)
  }

  /** Repeated presses without a release leave exactly one live hold timer. */
  lemma {:induction false} RepeatedPresses(c: Config, s: State, n: nat)
    requires Inv(s) && n >= 1
    decreases n
    ensures var r := Run(c, s, Presses(n));
      Inv(r) && r.holdingTimeout.Some? && HoldTimers(r) == {r.holdingTimeout.value} &&
      r.isMoving == NotMoving && r.style == s.style
  {
    if n > 1 {
      assert Presses(n)[1..] == Presses(n - 1);
      RepeatedPresses(c, OnPress(s), n - 1);
    }
  }

  /**
   * A tap, press then release before the hold timer fires, leaves no hold
   * timer pending, every baseline property at its captured value, and every
   * other property as it was.
   */
  lemma TapLeavesBaseline(c: Config, s: State)
    requires Inv(s)
    ensures var r := Run(c, s, [Press, Release]);
      && HoldTimers(r) == {}
      && r.isMoving == NotMoving
      && Offset(r) == Offset(s)
      && (forall p :: p in c.baseline ==> p in r.style && r.style[p] == c.baseline[p])
      && (forall p :: p !in c.baseline && p in s.style ==> p in r.style && r.style[p] == s.style[p])
      && SettleTimers(r) == SettleTimers(s)
  {
    var p1 := OnPress(s);
    assert Run(c, s, [Press, Release]) == OnRelease(c, p1);
    RevertRestoresBaseline(p1.style, c.baseline, c.baseline);
  }

  /**
   * With no hold timer pending, no sequence of events without a press ever
   * arms one, so the holding set is never applied by a timer.
   */
  lemma {:induction false} NoPressNoHold(c: Config, s: State, es: seq<Event>)
    requires Inv(s) && HoldTimers(s) == {}
    requires forall i :: 0 <= i < |es| ==> es[i] != Press
    ensures HoldTimers(Run(c, s, es)) == {}
    decreases |es|
  {
    if es != [] {
      var r := Step(c, s, es[0]);
      match es[0] {
        case TimerFires(id) =>
          assert HoldTimers(r) <= HoldTimers(s);
        case DragStart =>
          assert HoldTimers(r) == HoldTimers(s);
        case DragMove(dx, dy) =>
          assert HoldTimers(r) == HoldTimers(s);
        case _ =>
      }
      StepPreservesInv(c, s, es[0]);
      NoPressNoHold(c, r, es[1..]);
    }
  }

  /** Two events run one after the other. */
  lemma RunPair(c: Config, s: State, e1: Event, e2: Event)
    ensures Run(c, s, [e1, e2]) == Step(c, Step(c, s, e1), e2)
  {
    var s1 := Step(c, s, e1);
    assert [e1, e2][1..] == [e2];
    assert Run(c, s, [e1, e2]) == Run(c, s1, [e2]);
    assert [e2][1..] == [];
    assert Run(c, s1, [e2]) == Run(c, Step(c, s1, e2), []);
  }

  /**
   * Press, then a hold with no movement: the hold timer applies the holding
   * set, and since it has left the table it cannot apply it a second time.
   */
  lemma HoldAppliesHoldingOnce(c: Config, s: State)
    requires Inv(s)
    ensures var r := Run(c, s, [Press, TimerFires(s.nextId)]);
      && r.style == Applied(s.style, c.baseline, c.states.holding)
      && HoldTimers(r) == {}
      && OnTimer(c, r, s.nextId) == r
  {
    var p1 := OnPress(s);
    assert s.nextId in HoldTimers(p1);
    var r := OnTimer(c, p1, s.nextId);
    RunPair(c, s, Press, TimerFires(s.nextId));
    assert HoldTimers(r) == {};
  }

  /** Running a press and then a frame is the frame handler applied after the press handler. */
  lemma RunPressMove(c: Config, s: State, dx: int, dy: int)
    ensures Run(c, s, [Press, DragMove(dx, dy)]) == OnMove(c, OnPress(s), dx, dy)
  {
    RunPair(c, s, Press, DragMove(dx, dy));
    var p1 := Step(c, s, Press);
    assert p1 == OnPress(s);
    assert Step(c, p1, DragMove(dx, dy)) == OnMove(c, p1, dx, dy);
  }

  /** A moving frame right after a press keeps the new hold timer and re-applies the dragging set. */
  lemma PressThenMove(c: Config, s: State, dx: int, dy: int)
    requires Inv(s)
    requires dx != 0 || dy != 0
    ensures var r := OnMove(c, OnPress(s), dx, dy);
      && r.isMoving == Moving
      && HoldTimers(r) == {s.nextId}
      && var dragging := Applied(s.style, c.baseline, c.states.dragging);
         forall p :: p in dragging && p != "transform" ==> p in r.style && r.style[p] == dragging[p]
  {
    var p1 := OnPress(s);
    var r := OnMove(c, p1, dx, dy);
    assert r.timers == p1.timers;
    assert HoldTimers(r) == HoldTimers(p1);
    assert MarkMoving(c, p1).style == Applied(s.style, c.baseline, c.states.dragging);
  }

  /** A hold timer that fires while the element is moving only removes itself. */
  lemma HoldFiresWhileMoving(c: Config, r: State, id: nat)
    requires r.isMoving == Moving && HoldTimers(r) == {id}
    ensures OnTimer(c, r, id).style == r.style
    ensures HoldTimers(OnTimer(c, r, id)) == {}
  {
    var f := OnTimer(c, r, id);
    assert f.timers == r.timers - {id};
  }

  /**
   * Press, then movement before the threshold: the first move re-applies the
   * dragging set and marks the element moving, so when the hold timer fires it
   * leaves the style alone.
   */
  lemma MoveBeforeHoldSkipsHolding(c: Config, s: State, dx: int, dy: int)
    requires Inv(s)
    requires dx != 0 || dy != 0
    ensures var r := Run(c, s, [Press, DragMove(dx, dy)]);
      && r.isMoving == Moving
      && HoldTimers(r) == {s.nextId}
      && OnTimer(c, r, s.nextId).style == r.style
      && HoldTimers(OnTimer(c, r, s.nextId)) == {}
      && var dragging := Applied(s.style, c.baseline, c.states.dragging);
         forall p :: p in dragging && p != "transform" ==> p in r.style && r.style[p] == dragging[p]
  {
    var r := OnMove(c, OnPress(s), dx, dy);
    RunPressMove(c, s, dx, dy);
    PressThenMove(c, s, dx, dy);
    HoldFiresWhileMoving(c, r, s.nextId);
  }

  function Moves(ds: seq<(int, int)>): (es: seq<Event>)
    ensures |es| == |ds|
  {
    if ds == [] then [] else [DragMove(ds[0].0, ds[0].1)] + Moves(ds[1..])
  }

  function SumX(ds: seq<(int, int)>): int {
    if ds == [] then 0 else ds[0].0 + SumX(ds[1..])
  }

  function SumY(ds: seq<(int, int)>): int {
    if ds == [] then 0 else ds[0].1 + SumY(ds[1..])
  }

  /** The transform names the stored offset. */
  predicate ShowsOffset(s: State) {
    "transform" in s.style && s.style["transform"] == Translate(Offset(s).0, Offset(s).1)
  }

  /** One frame: the offset grows by the delta, the timers stay, and a moving frame shows the new offset. */
  lemma MoveStep(c: Config, s: State, dx: int, dy: int)
    ensures var m := OnMove(c, s, dx, dy);
      && Offset(m).0 == Offset(s).0 + dx && Offset(m).1 == Offset(s).1 + dy
      && m.timers == s.timers
      && ((ShowsOffset(s) || dx != 0 || dy != 0) ==> ShowsOffset(m))
  {
  }

  /** Running the frames of `ds` is running the first, then the rest. */
  lemma MovesUnfold(c: Config, s: State, ds: seq<(int, int)>)
    requires ds != []
    ensures Run(c, s, Moves(ds)) == Run(c, OnMove(c, s, ds[0].0, ds[0].1), Moves(ds[1..]))
  {
    assert Moves(ds)[0] == DragMove(ds[0].0, ds[0].1);
    assert Moves(ds)[1..] == Moves(ds[1..]);
  }

  /** Some frame of `ds` has a non-zero delta. */
  predicate AnyMoving(ds: seq<(int, int)>) {
    ds != [] && (ds[0] != (0, 0) || AnyMoving(ds[1..]))
  }

  /** Over any frames the offset grows by the sum of the deltas. */
  lemma {:induction false} MovesOffset(c: Config, s: State, ds: seq<(int, int)>)
    ensures Offset(Run(c, s, Moves(ds))).0 == Offset(s).0 + SumX(ds)
    ensures Offset(Run(c, s, Moves(ds))).1 == Offset(s).1 + SumY(ds)
    decreases |ds|
  {
    if ds != [] {
      var m := OnMove(c, s, ds[0].0, ds[0].1);
      var o := Offset(Run(c, m, Moves(ds[1..])));
      assert o.0 == Offset(m).0 + SumX(ds[1..]) && o.1 == Offset(m).1 + SumY(ds[1..]) by {
        MovesOffset(c, m, ds[1..]);
      }
      assert Offset(m).0 == Offset(s).0 + ds[0].0 && Offset(m).1 == Offset(s).1 + ds[0].1 by {
        MoveStep(c, s, ds[0].0, ds[0].1);
      }
      assert Offset(Run(c, s, Moves(ds))) == o by { MovesUnfold(c, s, ds); }
    }
  }

  /** Frames never touch the timers. */
  lemma {:induction false} MovesKeepTimers(c: Config, s: State, ds: seq<(int, int)>)
    ensures Run(c, s, Moves(ds)).timers == s.timers
    decreases |ds|
  {
    if ds != [] {
      MovesUnfold(c, s, ds);
      MoveStep(c, s, ds[0].0, ds[0].1);
      MovesKeepTimers(c, OnMove(c, s, ds[0].0, ds[0].1), ds[1..]);
    }
  }

  /** Once any frame moved the element, the transform names the final offset. */
  lemma {:induction false} MovesShowOffset(c: Config, s: State, ds: seq<(int, int)>)
    requires ShowsOffset(s) || AnyMoving(ds)
    ensures ShowsOffset(Run(c, s, Moves(ds)))
    decreases |ds|
  {
    if ds != [] {
      var m := OnMove(c, s, ds[0].0, ds[0].1);
      MovesUnfold(c, s, ds);
      MoveStep(c, s, ds[0].0, ds[0].1);
      assert ds[0] != (0, 0) ==> ds[0].0 != 0 || ds[0].1 != 0;
      assert ShowsOffset(m) || AnyMoving(ds[1..]);
      MovesShowOffset(c, m, ds[1..]);
    }
  }

  /**
   * A drag's frames add up: the offset grows by the sum of the deltas, the
   * timers are untouched, and once any frame moved the element the transform
   * names the final offset.
   */
  lemma MovesAccumulate(c: Config, s: State, ds: seq<(int, int)>)
    ensures var r := Run(c, s, Moves(ds));
      && Offset(r) == (Offset(s).0 + SumX(ds), Offset(s).1 + SumY(ds))
      && r.timers == s.timers
      && ((ShowsOffset(s) || AnyMoving(ds)) ==> ShowsOffset(r))
  {
    MovesOffset(c, s, ds);
    MovesKeepTimers(c, s, ds);
    if ShowsOffset(s) || AnyMoving(ds) {
      MovesShowOffset(c, s, ds);
    }
  }

  lemma ExampleTransform()
    ensures Translate(2, 6) == "translate(2px, 6px)"
  {
    assert DigitChar(2) == '2' && DigitChar(6) == '6';
  }

  lemma ExampleSums(ds: seq<(int, int)>)
    requires ds == [(3, 4), (0, 0), (-1, 2)]
    ensures SumX(ds) == 2 && SumY(ds) == 6 && AnyMoving(ds)
  {
    var tail, last := ds[1..], ds[1..][1..];
    assert tail == [(0, 0), (-1, 2)] && last == [(-1, 2)] && last[1..] == [];
    assert SumX(last) == -1 && SumY(last) == 2;
    assert SumX(tail) == -1 && SumY(tail) == 2;
    assert ds[0] != (0, 0);
  }

  /** Frames (3,4), (0,0), (-1,2) from offset (0,0) end at (2,6). */
  lemma ExampleDrag(c: Config, s: State, ds: seq<(int, int)>)
    requires Offset(s) == (0, 0)
    requires ds == [(3, 4), (0, 0), (-1, 2)]
    ensures var r := Run(c, s, Moves(ds));
      Offset(r) == (2, 6) && "transform" in r.style && r.style["transform"] == "translate(2px, 6px)"
  {
    ExampleSums(ds);
    MovesAccumulate(c, s, ds);
    ExampleTransform();
  }

  /**
   * No event other than the settle timer's own firing removes or changes a
   * pending settle timer: presses and releases never cancel it.
   */
  lemma {:induction false} SettleSurvives(c: Config, s: State, es: seq<Event>, id: nat)
    requires Inv(s) && id in SettleTimers(s)
    requires forall i :: 0 <= i < |es| ==> es[i] != TimerFires(id)
    ensures var r := Run(c, s, es); id in r.timers && r.timers[id] == s.timers[id]
    decreases |es|
  {
    if es != [] {
      var r := Step(c, s, es[0]);
      StepPreservesInv(c, s, es[0]);
      assert id in r.timers && r.timers[id] == s.timers[id];
      assert id in SettleTimers(r);
      SettleSurvives(c, r, es[1..], id);
    }
  }

  /**
   * A drop shows the dropping set at once and schedules exactly one settle
   * timer; the dropped set is applied when that timer fires, and until then
   * no other event cancels it.
   */
  lemma DropThenSettle(c: Config, s: State, es: seq<Event>)
    requires Inv(s)
    requires forall i :: 0 <= i < |es| ==> es[i] != TimerFires(s.nextId)
    ensures var dropped := OnEnd(c, s);
      && dropped.style == Applied(s.style, c.baseline, c.states.dropping)
      && SettleTimers(dropped) == SettleTimers(s) + {s.nextId}
      && dropped.timers[s.nextId].delay == SettleDelay(c.states.droppingDuration)
      && OnTimer(c, dropped, s.nextId).style == Applied(dropped.style, c.baseline, c.states.dropped)
      && s.nextId in Run(c, dropped, es).timers
  {
    var dropped := OnEnd(c, s);
    SettleSurvives(c, dropped, es, s.nextId);
  }
}
