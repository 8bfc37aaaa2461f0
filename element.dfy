/**
 * The draggable element as the handlers see it: an object whose inline style
 * and data attributes every callback updates in place, together with the
 * browser's table of pending timers. Each method is one callback, and its
 * postcondition ties the new state to the step function of the same name in
 * module Interaction.
 */
module DragDrop {
  import opened Wrappers
  import opened Styles
  import Position
  import Interaction
  import Properties

  class DragTarget {
    /** The baseline snapshot and the style sets, fixed once initialisation succeeds. */
    const config: Interaction.Config

    var style: StyleMap
    var isMoving: Interaction.Flag
    var holdingTimeout: Option<nat>
    var timers: map<nat, Interaction.Timer>
    var nextId: nat
    var dataX: Option<int>
    var dataY: Option<int>

    /** The element's state as a value. */
    function Snapshot(): Interaction.State
      reads this
    {
      Interaction.State(style, isMoving, holdingTimeout, timers, nextId, dataX, dataY)
    }

    ghost predicate Valid()
      reads this
    {
      Interaction.Inv(Snapshot())
    }

    /**
     * Successful initialisation: capture the baseline from the element's
     * inline style; `x0`, `y0` are whatever `data-x`/`data-y` the page set.
     */
    constructor (initial: StyleMap, states: Interaction.StyleSets, x0: Option<int>, y0: Option<int>)
      ensures Valid()
      ensures config == Interaction.Config(CaptureBaseline(initial), states)
      ensures Snapshot() == Interaction.InitialState(initial, x0, y0)
    {
      config := Interaction.Config(CaptureBaseline(initial), states);
      style := initial;
      isMoving := Interaction.Unset;
      holdingTimeout := None;
      timers := map[];
      nextId := 1;
      dataX, dataY := x0, y0;
    }

    /** `applyStyles(element, styles)`: visit every property of the set and write it. */
    method ApplyStyles(styles: StyleMap)
      modifies this`style
      ensures style == Applied(old(style), config.baseline, styles)
    {
      var todo := styles.Keys;
      ghost var done: set<string> := {};
      Styles.AppliedRestrictEnds(style, config.baseline, styles);
      while todo != {}
        invariant todo + done == styles.Keys && todo !! done
        invariant style == Applied(old(style), config.baseline, Restrict(styles, done))
        decreases todo
      {
        var p :| p in todo;
        Styles.AppliedStep(old(style), config.baseline, styles, done, p);
        if styles[p] != "" {
          style := style[p := styles[p]];
        } else if p in config.baseline {
          style := style[p := config.baseline[p]];
        }
        todo := todo - {p};
        done := done + {p};
      }
      assert done == styles.Keys;
      Styles.AppliedRestrictEnds(old(style), config.baseline, styles);
    }

    /** `clearTimeout(handle)`. */
    method ClearTimeout(handle: Option<nat>)
      modifies this`timers
      ensures timers == Interaction.ClearTimeout(old(timers), handle)
    {
      if handle.Some? {
        timers := timers - {handle.value};
      }
    }

    /** `setTimeout(task, delay)`, returning the new timer's handle. */
    method SetTimeout(t: Interaction.Timer) returns (id: nat)
      modifies this`timers, this`nextId
      ensures id == old(nextId) && nextId == old(nextId) + 1
      ensures timers == old(timers)[id := t]
    {
      id := nextId;
      timers := timers[id := t];
      nextId := nextId + 1;
    }

    /** mousedown / touchstart. */
    method Press()
      requires Valid()
      modifies this
      ensures Valid()
      ensures Snapshot() == Interaction.OnPress(old(Snapshot()))
    {
      ClearTimeout(holdingTimeout);
      isMoving := Interaction.NotMoving;
      var id := SetTimeout(Interaction.Timer(Interaction.ApplyHolding, Interaction.HoldingTime));
      holdingTimeout := Some(id);
    }

    /** mouseup / touchend. */
    method Release()
      requires Valid()
      modifies this
      ensures Valid()
      ensures Snapshot() == Interaction.OnRelease(config, old(Snapshot()))
    {
      ClearTimeout(holdingTimeout);
      if isMoving == Interaction.NotMoving {
        ApplyStyles(config.baseline);
      }
      isMoving := Interaction.NotMoving;
    }

    /** The browser runs the callback of the pending timer `id`. */
    method TimerFires(id: nat)
      requires Valid() && id in timers
      modifies this
      ensures Valid()
      ensures Snapshot() == Interaction.OnTimer(config, old(Snapshot()), id)
    {
      var t := timers[id];
      timers := timers - {id};
      match t.task {
        case ApplyHolding =>
          if isMoving == Interaction.NotMoving {
            ApplyStyles(config.states.holding);
          }
        case ApplyDropped =>
          ApplyStyles(config.states.dropped);
      }
    }

    /** The drag engine's `start` listener. */
    method Start()
      requires Valid()
      modifies this
      ensures Valid()
      ensures Snapshot() == Interaction.OnStart(config, old(Snapshot()))
    {
      ApplyStyles(config.states.dragging);
      isMoving := Interaction.NotMoving;
    }

    /** `dragMoveListener`: accumulate the delta into `data-x`/`data-y` and write the transform. */
    method DragMoveListener(dx: int, dy: int)
      requires Valid()
      modifies this
      ensures Valid()
      ensures Snapshot() == Interaction.Track(old(Snapshot()), dx, dy)
    {
      var x := dataX.GetOr(0) + dx;
      var y := dataY.GetOr(0) + dy;
      style := style["transform" := Position.Translate(x, y)];
      dataX := Some(x);
      dataY := Some(y);
      Properties.InvFrame(old(Snapshot()), Snapshot());
    }

    /** The drag engine's `move` listener. */
    method Move(dx: int, dy: int)
      requires Valid()
      modifies this
      ensures Valid()
      ensures Snapshot() == Interaction.OnMove(config, old(Snapshot()), dx, dy)
    {
      if dx != 0 || dy != 0 {
        if isMoving == Interaction.NotMoving {
          ApplyStyles(config.states.dragging);
          isMoving := Interaction.Moving;
        }
        DragMoveListener(dx, dy);
      }
      Properties.StepPreservesInv(config, old(Snapshot()), Interaction.DragMove(dx, dy));
    }

    /** The drag engine's `end` listener. */
    method End()
      requires Valid()
      modifies this
      ensures Valid()
      ensures Snapshot() == Interaction.OnEnd(config, old(Snapshot()))
    {
      ApplyStyles(config.states.dropping);
      var delay := Interaction.SettleDelay(config.states.droppingDuration);
      var _ := SetTimeout(Interaction.Timer(Interaction.ApplyDropped, delay));
    }
  }
}
