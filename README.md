# Drag-and-drop visual feedback, modelled in Dafny

This project models `drag-n-drop.js`, a small state machine that gives one draggable page element visual feedback. A press arms a 200 ms hold timer. If the element has not started moving when the timer fires, the "holding" style set is applied. A release cancels the timer and, if the element did not move, reverts to the baseline. The drag engine's `start`, `move` and `end` callbacks apply the "dragging" set, move the element by the accumulated offset, and apply "dropping" at once and "dropped" after `droppingDuration`.

Files:

- `wrappers.dfy` (module `Wrappers`): `Option`. It stands for an absent attribute, an unparsable number, or an unset timer handle.
- `styles.dfy` (module `Styles`): the baseline snapshot (`CaptureBaseline`) and the effect of `applyStyles` on an inline style (`Applied`), with its properties.
- `position.dfy` (module `Position`): the `translate(<x>px, <y>px)` string the tracker writes, and a decoder. It proves that the string determines the offset.
- `interaction.dfy` (module `Interaction`): the element's state as a value, plus one step function per callback. The timer table is modelled as the browser keeps it: pending timers by handle, plus the handle stored in `dataset.holdingTimeout`. `Inv` is the timer invariant.
- `properties.dfy` (module `Properties`): lemmas over whole event sequences (`Run`).
- `element.dfy` (module `DragDrop`): class `DragTarget`, the element as an object. Each handler is a method that updates the fields in place, and `ApplyStyles` loops over the style set's properties. Every handler method's postcondition equates `Snapshot()` with the matching step function applied to the old state.

Modelling decisions:

- `dataset.isMoving` is a three-valued `Flag`: `Unset`, `NotMoving` (`"false"`) and `Moving` (`"true"`). The attribute starts undefined, and the code only ever tests `=== "false"`. So a release before any press or `start` does not revert the style, and a move before either does not apply "dragging". `start` assigns the boolean `false`, which the dataset stores as the string `"false"`, so it is `NotMoving`.
- Time is the order of events. Any pending timer may fire next (`TimerFires(id)`). A handle that is not pending fires nothing.
- `applyStyles` visits the keys the style set itself has, not a fixed list of six. A key the set lacks is left alone. An empty entry for a key outside the snapshot assigns `undefined`; the model treats that assignment as writing nothing (see "## Left out"). Non-empty non-style keys are written like any other, for example the dropping set's `droppingDuration`.
- The snapshot's `rotate` entry holds the element's `transform` (drag-n-drop.js:40). A revert therefore writes the captured transform into `rotate` and never touches `transform`, where the tracker keeps the offset (`Styles.RevertRotateFromTransform`).
- Movement does not cancel the hold timer: it marks the element moving, and the timer's callback then does nothing.
- `isMoving` is reset to `"false"` on every release, whether or not the element moved.
- A property the style set lacks is left untouched, not reverted.

## Model

| member | source | states |
|---|---|---|
| Styles.CaptureBaseline | drag-n-drop.js:34-41 | the snapshot has exactly the six keys; five copy the property of the same name and `rotate` holds the element's `transform` |
| Styles.AppliedWrites | drag-n-drop.js:44-53 | applying a set writes a non-empty value as is, writes the baseline value for an empty one, and leaves every property not in the set (and an empty one without a baseline value) unchanged |
| Styles.RevertRestoresBaseline | drag-n-drop.js:44-53 | applying a set that is empty or equal to the baseline on all six properties leaves each of them at its captured value whatever was applied before, and touches nothing outside the set |
| Styles.RevertWithSnapshot | drag-n-drop.js:84-87 | `applyStyles(el, initialStyles)` restores every baseline property |
| Styles.ApplyThenRevert | drag-n-drop.js:44-53 | applying any set and then the snapshot gives the baseline on every baseline property |
| Styles.ApplyIdempotent | drag-n-drop.js:113-117 | applying a set twice equals applying it once, so re-applying "dragging" on the first move is harmless |
| Styles.RevertRotateFromTransform | drag-n-drop.js:40 | reverting sets `rotate` to the captured `transform` and leaves `transform` as it was |
| Position.IntRoundTrip | drag-n-drop.js:146 | the decimal rendering of an integer parses back to it |
| Position.TranslateRoundTrip | drag-n-drop.js:146 | the transform string `translate(xpx, ypx)` parses back to `(x, y)` |
| Position.TranslateInjective | drag-n-drop.js:146 | different offsets give different transform strings |
| Interaction.InitialState | drag-n-drop.js:12-41 | before any event the style is the initial one, `isMoving` is unset, no timer is pending, and the timer invariant holds |
| Interaction.ClearTimeout | drag-n-drop.js:58 | clearing a handle removes exactly that timer; an absent handle removes nothing |
| Interaction.SetTimeout | drag-n-drop.js:61-66 | scheduling adds one timer under the next fresh handle and changes nothing else |
| Interaction.OnPress | drag-n-drop.js:56-79 | a press marks the element not moving, keeps its style and offset, leaves exactly one hold timer (the new one, 200 ms) with its handle stored, and keeps every settle timer |
| Interaction.OnRelease | drag-n-drop.js:82-97 | a release leaves no hold timer and `isMoving` false; it reverts to the baseline exactly when the element was marked not moving, else the style is unchanged; settle timers and offset are kept |
| Interaction.OnTimer | drag-n-drop.js:61-65 | a firing timer leaves the table; a hold timer applies "holding" exactly when `isMoving` is false and otherwise leaves the style; a settle timer applies "dropped"; a handle that is not pending changes nothing |
| Interaction.OnStart | drag-n-drop.js:104-109 | `start` applies "dragging" and marks the element not moving; timers and offset unchanged |
| Interaction.MarkMoving | drag-n-drop.js:113-117 | only when `isMoving` is false does a moving frame re-apply "dragging" and set `isMoving`; otherwise nothing changes |
| Interaction.OnMove | drag-n-drop.js:110-120 | a zero delta changes nothing; a non-zero one adds the delta to the offset, writes the transform of the new offset, marks the element moving when it was marked not moving (an unset flag stays unset), touches no timer and no other property than those "dragging" writes |
| Interaction.Track | drag-n-drop.js:139-151 | the stored offset (0 when absent) grows by the delta, the transform renders and parses back to the new offset, and nothing else changes |
| Interaction.SettleDelay | drag-n-drop.js:124 | the settle delay is 0 for NaN, always below 2^31, and a duration in 1..2^31-1 is used as is |
| Interaction.SettleDelayIsLong | drag-n-drop.js:124 | the settle delay is the parsed duration converted to a signed 32-bit `long` (congruent to it modulo 2^32), or 0 when that is not positive |
| Interaction.SettleDelayWraps | drag-n-drop.js:124 | a duration of 2^31 wraps to a negative delay and settles at once; 2^32+300 becomes 300 |
| Interaction.OnEnd | drag-n-drop.js:121-128 | `end` applies "dropping" at once and adds exactly one settle timer, with the configured delay, keeping the other timers and the hold state |
| Properties.StepPreservesInv | drag-n-drop.js:56-128 | every callback keeps the timer invariant |
| Properties.RunPreservesInv | drag-n-drop.js:56-151 | any sequence of callbacks keeps the timer invariant |
| Properties.ReachableInv | drag-n-drop.js:12-151 | every state reachable from initialisation satisfies the timer invariant |
| Properties.AtMostOneHoldTimer | drag-n-drop.js:56-66 | under the invariant at most one hold timer is pending, and it is the one whose handle is stored |
| Properties.PressLeavesOneHoldTimer | drag-n-drop.js:56-79 | after any history followed by a press, exactly one hold timer is pending and `isMoving` is false |
| Properties.RepeatedPresses | drag-n-drop.js:56-66 | any number of presses in a row leave exactly one live hold timer and the style unchanged |
| Properties.TapLeavesBaseline | drag-n-drop.js:82-89 | press then release leaves no hold timer, all six baseline properties at their captured values, every other property and the offset as before, and the settle timers as before |
| Properties.NoPressNoHold | drag-n-drop.js:61-66 | with no hold timer pending, no sequence of events without a press arms one, so "holding" is never applied |
| Properties.HoldAppliesHoldingOnce | drag-n-drop.js:61-66 | press then the hold timer firing applies "holding", and the timer cannot fire a second time |
| Properties.PressThenMove | drag-n-drop.js:56-118 | a moving frame right after a press marks the element moving, keeps exactly the new hold timer and leaves every "dragging" property in place |
| Properties.HoldFiresWhileMoving | drag-n-drop.js:61-66 | a hold timer that fires while the element is moving removes itself and leaves the style alone |
| Properties.MoveBeforeHoldSkipsHolding | drag-n-drop.js:56-118 | press then a moving frame marks the element moving and shows "dragging"; the still-pending hold timer then fires without changing the style |
| Properties.MoveStep | drag-n-drop.js:110-120 | one frame adds its delta, keeps the timers, and a moving frame leaves the transform showing the offset |
| Properties.MovesOffset | drag-n-drop.js:110-120 | over any frames the stored offset grows by the sum of the x deltas and the sum of the y deltas |
| Properties.MovesKeepTimers | drag-n-drop.js:139-151 | no drag frame adds, removes or changes a pending timer |
| Properties.MovesShowOffset | drag-n-drop.js:110-120 | when the transform already showed the offset, or any frame has a non-zero delta, the transform shows the final offset |
| Properties.MovesAccumulate | drag-n-drop.js:139-151 | over any frames the offset grows by the sum of the deltas, the timers are untouched, and once a frame moved the transform shows the final offset |
| Properties.ExampleDrag | drag-n-drop.js:139-151 | frames (3,4), (0,0), (-1,2) from offset (0,0) end at (2,6) with transform `translate(2px, 6px)` |
| Properties.SettleSurvives | drag-n-drop.js:125-127 | a pending settle timer stays pending and unchanged through every event except its own firing; presses and releases never cancel it |
| Properties.DropThenSettle | drag-n-drop.js:121-128 | `end` shows "dropping" at once and schedules one settle with the configured delay; "dropped" is applied when it fires, and until then it stays pending |
| DragDrop.DragTarget.constructor | drag-n-drop.js:33-41 | initialisation captures the baseline, starts with no timers and an unset flag, and establishes the invariant |
| DragDrop.DragTarget.ApplyStyles | drag-n-drop.js:44-53 | the loop over the set's properties leaves the inline style equal to `Applied` of the old style |
| DragDrop.DragTarget.ClearTimeout | drag-n-drop.js:58 | the timer table afterwards is `Interaction.ClearTimeout` of the old one |
| DragDrop.DragTarget.SetTimeout | drag-n-drop.js:61-66 | the new timer is stored under the old next handle, which is returned and advanced |
| DragDrop.DragTarget.Press | drag-n-drop.js:56-67 | the new state is `OnPress` of the old one, and the invariant is kept |
| DragDrop.DragTarget.Release | drag-n-drop.js:82-89 | the new state is `OnRelease` of the old one, and the invariant is kept |
| DragDrop.DragTarget.TimerFires | drag-n-drop.js:61-66 | the new state is `OnTimer` of the old one for that pending handle, and the invariant is kept |
| DragDrop.DragTarget.Start | drag-n-drop.js:104-109 | the new state is `OnStart` of the old one, and the invariant is kept |
| DragDrop.DragTarget.DragMoveListener | drag-n-drop.js:139-151 | the new state is `Track` of the old one |
| DragDrop.DragTarget.Move | drag-n-drop.js:110-120 | the new state is `OnMove` of the old one, and the invariant is kept |
| DragDrop.DragTarget.End | drag-n-drop.js:121-128 | the new state is `OnEnd` of the old one, and the invariant is kept |

## Left out

- Loading interact.js from a CDN and the `DOMContentLoaded` wiring (drag-n-drop.js:1-10): page I/O and load order.
- The checks for a missing settings object and a missing target element (drag-n-drop.js:14-28). They are global and DOM lookups, so the constructor models a successful initialisation only. Line 23 dereferences the element before the null check at line 25; that is not modelled either.
- The `touchAction = 'none'` write (drag-n-drop.js:23) and the export of `dragMoveListener` on `window` (drag-n-drop.js:154). Outside callers can still call the public `DragMoveListener` method.
- The interact.js engine: gesture recognition, `inertia`, `autoScroll` and the `restrictRect` modifier (drag-n-drop.js:100-102, 130-135). It is a foreign library, so `start`, `move` and `end` are inputs in any order.
- Real time. The 200 ms and `droppingDuration` delays are recorded on the timers, but any pending timer may fire at any point. Properties such as "dropped only after 300 ms" hold only with time read as event order.
- String parsing. `parseInt` of `droppingDuration` appears as its result, an `Option<int>` (None for NaN). `parseFloat` of `data-x`/`data-y` is assumed to return what was stored. Offsets and deltas are unbounded integers, not floating point: the model does not capture precision loss beyond 2^53 or the exponent notation JavaScript uses for magnitudes of 1e21 and above in the transform string.
- The meaning of CSS values: shorthand properties, invalid values other than `undefined`, and the visual effect of a transform.
- Events that bubble from a child element, where `event.target` is the child rather than the element. The model assumes every event targets the element itself.
- The relative order of the browser's `mouseup` and the engine's `end`. Every interleaving is allowed.
- Styles.Written: an empty entry for a key outside the baseline snapshot makes the source assign `undefined`, and the model keeps the old value instead. A CSS property that takes a custom identifier, such as `fontFamily` or `transitionProperty`, accepts the string "undefined", and a non-style key such as `droppingDuration` stores `undefined` as is; neither outcome is modelled.
- Timer handles strictly increase and are never reused, as browsers count them up. The HTML standard only requires a new handle to be absent from the active timers, so a freed handle could come back; then the stale handle kept in `dataset.holdingTimeout` could name a later settle timer, and the next press would cancel it. The timer invariant, `Properties.SettleSurvives` and `Properties.DropThenSettle` depend on handles never being reused.
