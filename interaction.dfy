/**
 * The interaction state machine around the one draggable element, as values:
 * the element's inline style, its `isMoving` and `holdingTimeout` data
 * attributes, its `data-x`/`data-y` offset, and the browser's table of pending
 * timers. Every browser, drag-engine or timer callback is one step function;
 * time is the order in which events arrive, and any pending timer may fire next.
 */
module Interaction {
  import opened Wrappers
  import opened Styles
  import opened Position

  /** `dataset.isMoving`: never written (undefined), `"false"` or `"true"`. */
  datatype Flag = Unset | NotMoving | Moving

  /** What a pending timer's callback does when it fires. */
  datatype Task = ApplyHolding | ApplyDropped

  datatype Timer = Timer(task: Task, delay: nat)

  /**
   * The four configured style sets. `droppingDuration` is what `parseInt`
   * makes of the dropping set's `droppingDuration` entry (None for NaN).
   */
  datatype StyleSets = StyleSets(
    holding: StyleMap,
    dragging: StyleMap,
    dropping: StyleMap,
    dropped: StyleMap,
    droppingDuration: Option<int>)

  /** What is fixed once initialisation succeeds: the baseline snapshot and the style sets. */
  datatype Config = Config(baseline: StyleMap, states: StyleSets)

  datatype State = State(
    style: StyleMap,
    isMoving: Flag,
    holdingTimeout: Option<nat>,  // the handle stored in `dataset.holdingTimeout`
    timers: map<nat, Timer>,      // pending timers by handle
    nextId: nat,                  // the handle the next `setTimeout` returns
    dataX: Option<int>,           // `parseFloat(data-x)`, None when absent or NaN
    dataY: Option<int>)

  datatype Event = Press | Release | TimerFires(id: nat) | DragStart | DragMove(dx: int, dy: int) | DragEnd

  /** The hold threshold, in milliseconds. */
  const HoldingTime: nat := 200

  /** The element as initialisation finds it: no data attributes of ours, no timers. */
  function InitialState(initial: StyleMap, dataX: Option<int>, dataY: Option<int>): (s: State)
    ensures Inv(s) && HoldTimers(s) == {} && SettleTimers(s) == {}
    ensures s.style == initial && s.isMoving == Unset
  {
    State(initial, Unset, None, map[], 1, dataX, dataY)
  }

  /** The offset the tracker reads: a missing or unparsable attribute counts as 0. */
  function Offset(s: State): (int, int) {
    (s.dataX.GetOr(0), s.dataY.GetOr(0))
  }

  function HoldTimers(s: State): set<nat> {
    set id | id in s.timers && s.timers[id].task == ApplyHolding
  }

  function SettleTimers(s: State): set<nat> {
    set id | id in s.timers && s.timers[id].task == ApplyDropped
  }

  /**
   * Handles are fresh below `nextId`; a pending hold timer is always the one
   * whose handle is stored on the element, so at most one is pending; and the
   * stored handle never names a settle timer.
   */
  ghost predicate Inv(s: State) {
    && (forall id :: id in s.timers ==> id < s.nextId)
    && (s.holdingTimeout.Some? ==> s.holdingTimeout.value < s.nextId)
    && (forall id :: id in HoldTimers(s) ==> s.holdingTimeout == Some(id))
    && (s.holdingTimeout.Some? && s.holdingTimeout.value in s.timers ==>
          s.timers[s.holdingTimeout.value].task == ApplyHolding)
  }

  /** Every settle timer pending in `s` is still pending, unchanged, in `r`. */
  ghost predicate SettlesKept(s: State, r: State) {
    forall id :: id in SettleTimers(s) ==> id in r.timers && r.timers[id] == s.timers[id]
  }

  /** `clearTimeout(handle)`: an absent or stale handle cancels nothing. */
  function ClearTimeout(timers: map<nat, Timer>, handle: Option<nat>): (r: map<nat, Timer>)
    ensures handle.None? ==> r == timers
    ensures handle.Some? ==> r.Keys == timers.Keys - {handle.value}
    ensures forall id :: id in r ==> r[id] == timers[id]
  {
    if handle.Some? then timers - {handle.value} else timers
  }

  /** `setTimeout(f, delay)`: the new timer gets the next fresh handle. */
  function SetTimeout(s: State, t: Timer): (r: State)
    ensures r.timers.Keys == s.timers.Keys + {s.nextId} && r.timers[s.nextId] == t
    ensures forall id :: id in s.timers && id != s.nextId ==> r.timers[id] == s.timers[id]
    ensures r.nextId == s.nextId + 1
    ensures r.style == s.style && r.isMoving == s.isMoving && r.holdingTimeout == s.holdingTimeout
    ensures Offset(r) == Offset(s)
  {
    s.(timers := s.timers[s.nextId := t], nextId := s.nextId + 1)
  }

  /**
   * mousedown / touchstart: cancel the stored hold timer, mark the element as
   * not moving, and arm a fresh hold timer whose handle replaces the stored one.
   */
  function OnPress(s: State): (r: State)
    ensures r.isMoving == NotMoving && r.style == s.style && Offset(r) == Offset(s)
    ensures Inv(s) ==> Inv(r) && SettlesKept(s, r) && SettleTimers(r) == SettleTimers(s)
    ensures Inv(s) ==> HoldTimers(r) == {s.nextId} && r.holdingTimeout == Some(s.nextId)
    ensures Inv(s) ==> r.timers[s.nextId] == Timer(ApplyHolding, HoldingTime)
  {
    var cleared := s.(timers := ClearTimeout(s.timers, s.holdingTimeout), isMoving := NotMoving);
    var armed := SetTimeout(cleared, Timer(ApplyHolding, HoldingTime));
    armed.(holdingTimeout := Some(s.nextId))
  }

  /**
   * mouseup / touchend: cancel the stored hold timer, revert to the baseline
   * only when the element is marked not moving, then mark it not moving.
   */
  function OnRelease(c: Config, s: State): (r: State)
    ensures r.isMoving == NotMoving && Offset(r) == Offset(s)
    ensures s.isMoving == NotMoving ==> r.style == Applied(s.style, c.baseline, c.baseline)
    ensures s.isMoving != NotMoving ==> r.style == s.style
    ensures Inv(s) ==> Inv(r) && HoldTimers(r) == {} && SettlesKept(s, r) && SettleTimers(r) == SettleTimers(s)
  {
    var style := if s.isMoving == NotMoving then Applied(s.style, c.baseline, c.baseline) else s.style;
    s.(timers := ClearTimeout(s.timers, s.holdingTimeout), style := style, isMoving := NotMoving)
  }

  /**
   * A pending timer fires and leaves the table. A hold timer applies the
   * holding set only when the element is still marked not moving; a settle
   * timer applies the dropped set. A handle that is not pending fires nothing.
   */
  function OnTimer(c: Config, s: State, id: nat): (r: State)
    ensures id !in s.timers ==> r == s
    ensures id in s.timers ==> r.timers == s.timers - {id} && r.isMoving == s.isMoving
    ensures id in HoldTimers(s) && s.isMoving == NotMoving ==>
      r.style == Applied(s.style, c.baseline, c.states.holding)
    ensures id in HoldTimers(s) && s.isMoving != NotMoving ==> r.style == s.style
    ensures id in SettleTimers(s) ==> r.style == Applied(s.style, c.baseline, c.states.dropped)
    ensures Offset(r) == Offset(s)
    ensures Inv(s) ==> Inv(r)
  {
    if id !in s.timers then s
    else
      var rest := s.(timers := s.timers - {id});
      match s.timers[id].task
      case ApplyHolding =>
        if s.isMoving == NotMoving then rest.(style := Applied(s.style, c.baseline, c.states.holding))
        else rest
      case ApplyDropped => rest.(style := Applied(s.style, c.baseline, c.states.dropped))
  }

  /** The engine's `start`: apply the dragging set and mark the element not moving. */
  function OnStart(c: Config, s: State): (r: State)
    ensures r.style == Applied(s.style, c.baseline, c.states.dragging)
    ensures r.isMoving == NotMoving && r.timers == s.timers && Offset(r) == Offset(s)
    ensures Inv(s) ==> Inv(r)
  {
    s.(style := Applied(s.style, c.baseline, c.states.dragging), isMoving := NotMoving)
  }

  /**
   * `dragMoveListener`: add the delta to the stored offset, write the new
   * offset as the transform, and store it back.
   */
  function Track(s: State, dx: int, dy: int): (r: State)
    ensures Offset(r) == (Offset(s).0 + dx, Offset(s).1 + dy)
    ensures "transform" in r.style && r.style["transform"] == Translate(Offset(r).0, Offset(r).1)
    ensures ParseTranslate(r.style["transform"]) == Some(Offset(r))
    ensures forall p :: p in s.style && p != "transform" ==> p in r.style && r.style[p] == s.style[p]
    ensures r.style.Keys == s.style.Keys + {"transform"}
    ensures r.isMoving == s.isMoving && r.timers == s.timers && r.holdingTimeout == s.holdingTimeout
    ensures r.nextId == s.nextId
  {
    var x := s.dataX.GetOr(0) + dx;
    var y := s.dataY.GetOr(0) + dy;
    TranslateRoundTrip(x, y);
    s.(style := s.style["transform" := Translate(x, y)], dataX := Some(x), dataY := Some(y))
  }

  /**
   * The first non-zero frame after the element was marked not moving
   * re-applies the dragging set and marks it moving; later frames leave both alone.
   */
  function MarkMoving(c: Config, s: State): (r: State)
    ensures s.isMoving == NotMoving ==>
      r.style == Applied(s.style, c.baseline, c.states.dragging) && r.isMoving == Moving
    ensures s.isMoving != NotMoving ==> r == s
    ensures r.timers == s.timers && r.holdingTimeout == s.holdingTimeout && r.nextId == s.nextId
    ensures Offset(r) == Offset(s)
  {
    if s.isMoving == NotMoving then s.(style := Applied(s.style, c.baseline, c.states.dragging), isMoving := Moving)
    else s
  }

  /**
   * The engine's `move`: a zero delta does nothing; otherwise the element is
   * marked moving (see MarkMoving) and every such frame moves it.
   */
  function OnMove(c: Config, s: State, dx: int, dy: int): (r: State)
    ensures dx == 0 && dy == 0 ==> r == s
    ensures dx != 0 || dy != 0 ==>
      && Offset(r).0 == Offset(s).0 + dx && Offset(r).1 == Offset(s).1 + dy
      && "transform" in r.style && r.style["transform"] == Translate(Offset(r).0, Offset(r).1)
      && ParseTranslate(r.style["transform"]) == Some(Offset(r))
      && r.isMoving == (if s.isMoving == NotMoving then Moving else s.isMoving)
      && r.timers == s.timers && r.holdingTimeout == s.holdingTimeout && r.nextId == s.nextId
    ensures dx != 0 || dy != 0 ==>
      var marked := MarkMoving(c, s).style;
      r.style.Keys == marked.Keys + {"transform"} &&
      forall p :: p in marked && p != "transform" ==> r.style[p] == marked[p]
  {
    if dx == 0 && dy == 0 then s else Track(MarkMoving(c, s), dx, dy)
  }

  /**
   * WebIDL's conversion of a number to a `long`: reduce modulo 2^32 into the
   * signed 32-bit range.
   */
  function ToInt32(n: int): (t: int)
    ensures -0x8000_0000 <= t < 0x8000_0000
    ensures -0x8000_0000 <= n < 0x8000_0000 ==> t == n
  {
    var w := n % 0x1_0000_0000;
    if w >= 0x8000_0000 then w - 0x1_0000_0000 else w
  }

  /**
   * The delay `setTimeout` uses for `parseInt(droppingDuration) || 0`: the
   * value is converted to a 32-bit `long`, and a negative result counts as 0.
   */
  function SettleDelay(duration: Option<int>): (d: nat)
    ensures duration.None? ==> d == 0
    ensures d < 0x8000_0000
    ensures duration.Some? && 0 < duration.value < 0x8000_0000 ==> d == duration.value
  {
    match duration
    case Some(n) => var t := ToInt32(n); if t > 0 then t else 0
    case None => 0
  }

  /**
   * The settle delay is the parsed duration reduced modulo 2^32 into the
   * signed 32-bit range, or 0 when that is not positive.
   */
  lemma SettleDelayIsLong(n: int)
    ensures -0x8000_0000 <= ToInt32(n) < 0x8000_0000
    ensures (n - ToInt32(n)) % 0x1_0000_0000 == 0
    ensures SettleDelay(Some(n)) > 0 <==> ToInt32(n) > 0
    ensures SettleDelay(Some(n)) > 0 ==> SettleDelay(Some(n)) == ToInt32(n)
  {
    var w := n % 0x1_0000_0000;
    assert (n - w) % 0x1_0000_0000 == 0;
  }

  /** A duration of 2^31 wraps to a negative `long`, so the settle timer is scheduled at once. */
  lemma SettleDelayWraps()
    ensures SettleDelay(Some(0x8000_0000)) == 0
    ensures SettleDelay(Some(0x1_0000_0000 + 300)) == 300
  {
  }

  /**
   * The engine's `end`: apply the dropping set at once and schedule exactly one
   * settle timer that will apply the dropped set.
   */
  function OnEnd(c: Config, s: State): (r: State)
    ensures r.style == Applied(s.style, c.baseline, c.states.dropping)
    ensures r.isMoving == s.isMoving && Offset(r) == Offset(s)
    ensures Inv(s) ==> Inv(r) && SettlesKept(s, r) && HoldTimers(r) == HoldTimers(s)
    ensures Inv(s) ==> SettleTimers(r) == SettleTimers(s) + {s.nextId} && s.nextId !in SettleTimers(s)
    ensures s.nextId in r.timers && r.timers[s.nextId] == Timer(ApplyDropped, SettleDelay(c.states.droppingDuration))
  {
    var dropping := s.(style := Applied(s.style, c.baseline, c.states.dropping));
    SetTimeout(dropping, Timer(ApplyDropped, SettleDelay(c.states.droppingDuration)))
  }

  function Step(c: Config, s: State, e: Event): State {
    match e
    case Press => OnPress(s)
    case Release => OnRelease(c, s)
    case TimerFires(id) => OnTimer(c, s, id)
    case DragStart => OnStart(c, s)
    case DragMove(dx, dy) => OnMove(c, s, dx, dy)
    case DragEnd => OnEnd(c, s)
  }

  /** The state after the events `es`, in order. */
  function Run(c: Config, s: State, es: seq<Event>): State
    decreases |es|
  {
    if es == [] then s else Run(c, Step(c, s, es[0]), es[1..])
  }
}
