# scroll_animation: the reveal state machine in Dafny

This project models the stateful core of `js/scrollAnimation.js`, a browser
library that adds and removes CSS classes on elements as they scroll into and
out of view. The browser is reduced to explicit events: animation frames with
integer timestamps, a queue of `nextTick` microtasks, `transitionend` and
`"transitioned"` events, and scroll geometry given as whole-pixel inputs. An
element's class list is a `set<string>`.

- `FrameTimer` (frame_timer.dfy): `timeout`, the frame-paced timeout. `TimerState`
  holds its two closure variables. `Step` is the body of `step`, and `OnFrame` is a
  frame that reaches it. The class `FrameTimeout` is one call of `timeout`.
- `Throttling` (throttle.dfy): `throttle`. `ThrottleState` holds `canRun`,
  `callAgainNexTick` and the state of the timeout that `loop` last started. The
  class `Throttle` is one throttled wrapper. Its two events are "wrapper called"
  and "frame reaches the window's timer".
- `Geometry` (geometry.dfy): `cumulativeOffset`, `isEnter` and `isInWindow`. An
  `Element` carries its own offsets and its `offsetParent` chain.
- `Visibility` (visibility.dfy): `shouldEnter` and `shouldEnterBothSides`, modelled
  once. They differ only in the predicate (`Variant`). `AfterWrite` is the Proxy's
  set trap. `AfterScroll` is `scrollHandler`. `Entered`, `EnteredNoFrom` and
  `Exited` are `doEnter`, `doEnterWhileNoFrom` and `doExit`. `Attached` is the
  setup plus the initial-run block. The class `ElementEntry` is one instance,
  and each of its methods is proved equal to the matching function.

The model keeps what the code does, including where it differs from what it
appears to intend:

- The set trap refuses writes to `isRun` and `stop`. So `isRun` stays false,
  `stop` is never stored, and nothing can remove the scroll and resize listeners.
- `doExit` runs on every `isIn = false` write, before the redundancy check. On a
  real true→false change it runs a second time. So a check that finds an
  out-of-view element already out still re-adds `from` and queues another
  removal of `to`.
- `!start` in `step` is also true when the recorded timestamp is 0. A start frame
  at time 0 is then recorded again on the next frame. The exact-firing lemma
  therefore assumes a nonzero first timestamp.
- Any mode string other than `"renderPosition"` takes the offset-chain branch. So
  the `"DOMposition"` default behaves like `"DOMPosition"`.
- An enter-only instance re-evaluates `isEnter` on every check. It leaves the
  entered state when the zero-offset check fails, just like the two-sided variant.

## Model

| member | source | states |
|---|---|---|
| FrameTimer.Step | js/scrollAnimation.js:9-21 | the callback runs exactly when `step` asks for no further frame, and only once a nonzero start has been recorded, which it keeps |
| FrameTimer.Created | js/scrollAnimation.js:6-21 | creating a timeout leaves a live frame request and no recorded start |
| FrameTimer.CreationNeverRuns | js/scrollAnimation.js:9-21 | the direct `step()` call made by `timeout` never runs the callback |
| FrameTimer.OnFrame | js/scrollAnimation.js:9-21 | a frame with no live request changes nothing; a firing frame had a live request and leaves none; a non-firing frame on a live request requests another |
| FrameTimer.Cancelled | js/scrollAnimation.js:22-24 | the returned cancel function leaves no live frame request |
| FrameTimer.IdleNeverFires | js/scrollAnimation.js:9-21 | a timeout with no live request never runs its callback, whatever frames follow |
| FrameTimer.AtMostOnce | js/scrollAnimation.js:9-21 | over any run of frames the callback runs at most once, and not at all without a live request |
| FrameTimer.CancelledNeverFires | js/scrollAnimation.js:22-24 | after cancellation the callback never runs |
| FrameTimer.FiresWhenDueFrom | js/scrollAnimation.js:15-20 | once a nonzero start is recorded, the callback runs in exactly the first frame at least `tick` after it |
| FrameTimer.FiresExactlyWhenDue | js/scrollAnimation.js:6-21 | from creation: no run during the call; the callback runs in exactly the first frame after the start frame with `timestamp - start >= tick`; at most one run |
| FrameTimer.FrameTimeout.constructor | js/scrollAnimation.js:6-21 | the call runs `step` once with no timestamp: no callback, a frame requested |
| FrameTimer.FrameTimeout.RunStep | js/scrollAnimation.js:9-21 | the imperative `step` body equals `Step` and counts callback runs |
| FrameTimer.FrameTimeout.Frame | js/scrollAnimation.js:9-21 | a frame equals `OnFrame` and keeps "at most one run, never with a live request" |
| FrameTimer.FrameTimeout.Cancel | js/scrollAnimation.js:22-24 | cancelling equals `Cancelled` and runs nothing |
| Throttling.Called | js/scrollAnimation.js:30-48 | a call runs the callback iff `canRun`; then `canRun` is false and a new timeout starts; otherwise only `callAgainNexTick` is set; the invariant is kept |
| Throttling.TimerFrame | js/scrollAnimation.js:34-44 | when the window's timeout fires, the callback runs iff a call was made meanwhile, clearing the flag and starting a new timeout; otherwise `canRun` becomes true; the invariant is kept |
| Throttling.RunsNeverExceedCalls | js/scrollAnimation.js:27-49 | over any events, callback runs plus an owed trailing run never exceed calls plus the owed run at the start; `callAgainNexTick` implies `!canRun` |
| Throttling.FreshRunsNeverExceedCalls | js/scrollAnimation.js:27-49 | from a fresh wrapper, callback runs never exceed calls |
| Throttling.CallsCollapseIntoOneTrailingRun | js/scrollAnimation.js:34-47 | any number of calls in a busy window and the frame that closes it give exactly one run (none without a call) |
| Throttling.NoRunWhileWindowOpen | js/scrollAnimation.js:34-47 | while the window's timer fires on none of the frames that arrive, the callback does not run, whatever calls arrive; the wrapper stays busy, owes a run iff it owed one or was called, and its timer has seen exactly those frames |
| Throttling.ReplayAppend | js/scrollAnimation.js:27-49 | replaying two runs of events in turn is replaying their concatenation, and the callback runs add up |
| Throttling.WindowCollapses | js/scrollAnimation.js:34-47 | calls and non-firing frames interleaved in any order, followed by the frame on which the window's timer fires, give exactly one run when a call was made or owed, none otherwise |
| Throttling.WindowHoldsOffRuns | js/scrollAnimation.js:31-44 | after a run opens a window, no further run happens on any frame less than `tick` after the window's start frame |
| Throttling.ThreeCallsRunTwice | js/scrollAnimation.js:27-49 | calls at the start of a window and twice inside it run the callback twice in all |
| Throttling.EarlyCallRunsOnceAtClose | js/scrollAnimation.js:27-49 | a call before the window's start frame is held back with the calls after it: two runs in all |
| Throttling.Throttle.constructor | js/scrollAnimation.js:27-29 | a new wrapper is idle with no owed run |
| Throttling.Throttle.Call | js/scrollAnimation.js:30-48 | a call equals `Called` and keeps runs ≤ calls |
| Throttling.Throttle.OnTimerFrame | js/scrollAnimation.js:34-44 | a timer frame equals `TimerFrame` and keeps runs ≤ calls |
| Geometry.Ancestry | js/scrollAnimation.js:97-101 | the chain starts at the node, each entry's `offsetParent` is the next, and the last has none |
| Geometry.CumulativeOffset | js/scrollAnimation.js:92-104 | the do-while returns the sums of `offsetTop` and `offsetLeft` (missing as 0) over the node and every `offsetParent` above it |
| Geometry.IsEnter | js/scrollAnimation.js:106-120 | no contract of its own; characterised by `EnterShrinksAsOffsetGrows`, `OtherModesAreDomPosition` and the `IsInWindow` ensures |
| Geometry.IsInWindow | js/scrollAnimation.js:122-138 | `isInWindow` true implies `isEnter` true with the same offset and mode |
| Geometry.EnterShrinksAsOffsetGrows | js/scrollAnimation.js:106-120 | whatever has entered with an offset has entered with any smaller one |
| Geometry.OtherModesAreDomPosition | js/scrollAnimation.js:107 | any mode other than "renderPosition" gives the "DOMPosition" results |
| Visibility.Visible | js/scrollAnimation.js:344-349 | the variant's predicate implies `isEnter` |
| Visibility.Configure | js/scrollAnimation.js:264-271 | no contract of its own; offsets resolved once, a function offset evaluated on the element; characterised by `ElementEntry.constructor` and `AttachSetsState` |
| Visibility.Entered | js/scrollAnimation.js:152-163 | no contract of its own; characterised by `EnterLifecycle` and `DelayedEnterFires` |
| Visibility.EnteredNoFrom | js/scrollAnimation.js:164-171 | no contract of its own; characterised by `NoFromLifecycle` |
| Visibility.Exited | js/scrollAnimation.js:172-181 | no contract of its own; characterised by `ExitLifecycle`, `NoFromLifecycle` and `RealExitRunsExitTwice` |
| Visibility.EnterEffect | js/scrollAnimation.js:198-210 | no contract of its own; characterised by `RealEnterRunsEnterOnce` |
| Visibility.AfterWrite | js/scrollAnimation.js:182-217 | no contract of its own; characterised by `GuardRefusesWrite`, `RedundantWriteIsRefused`, `RealExitRunsExitTwice`, `RealEnterRunsEnterOnce` and `WriteKeepsGuard` |
| Visibility.AfterScroll | js/scrollAnimation.js:218-231 | no contract of its own; characterised by the three `Scroll…` lemmas, `StaysInWhileVisible` and `OutOfViewChecksRepeatExit` |
| Visibility.AfterMicrotask | js/scrollAnimation.js:154-177 | no contract of its own; characterised by `EnterLifecycle` and `ExitLifecycle` |
| Visibility.AfterTransitionEnd | js/scrollAnimation.js:156-161 | no contract of its own; characterised by `EnterLifecycle` and `AttachInViewReveals` |
| Visibility.AfterTransitioned | js/scrollAnimation.js:166-170 | no contract of its own; characterised by `NoFromLifecycle` |
| Visibility.AfterDelayFrame | js/scrollAnimation.js:204-206 | no contract of its own; characterised by `DelayedEnterFires` |
| Visibility.Attached | js/scrollAnimation.js:140-256 | no contract of its own; characterised by `AttachSetsState`, `AttachInViewReveals` and `GuardHoldsForever` |
| Visibility.GuardRefusesWrite | js/scrollAnimation.js:184-195 | writes to "", `isRun` or `stop` change nothing and return false |
| Visibility.RedundantWriteIsRefused | js/scrollAnimation.js:187-192 | writing the stored value changes nothing, except that `isIn = false` still runs `doExit` |
| Visibility.RealExitRunsExitTwice | js/scrollAnimation.js:187-213 | true→false stores false and runs `doExit` twice: `from` added and two removals of `to` queued, or `to` removed |
| Visibility.RealEnterRunsEnterOnce | js/scrollAnimation.js:197-210 | setting `isIn` to true when it was not stores it and runs the enter effect once: `doEnter`, a delayed timeout, or `doEnterWhileNoFrom` |
| Visibility.WriteKeepsGuard | js/scrollAnimation.js:193-197 | no write changes `isRun` or stores `stop` |
| Visibility.ScrollOutOfViewForcesOut | js/scrollAnimation.js:218-223 | a failed zero-offset check leaves `isIn` false |
| Visibility.ScrollIntoViewForcesIn | js/scrollAnimation.js:224-228 | passing both checks leaves `isIn` true |
| Visibility.ScrollBetweenChecksWritesNothing | js/scrollAnimation.js:229-230 | passing only the zero-offset check changes nothing |
| Visibility.StaysInWhileVisible | js/scrollAnimation.js:218-231 | an element that is in stays in, untouched, while the zero-offset check passes |
| Visibility.OutOfViewChecksRepeatExit | js/scrollAnimation.js:342-347 | each out-of-view check re-runs `doExit`, queuing one more microtask when there is a `from` |
| Visibility.EnterLifecycle | js/scrollAnimation.js:152-163 | `doEnter` adds `to`; its microtask removes `from` and waits; `transitionend` removes both |
| Visibility.ExitLifecycle | js/scrollAnimation.js:172-177 | `doExit` with a `from` adds it at once and removes `to` only when its microtask runs |
| Visibility.NoFromLifecycle | js/scrollAnimation.js:164-181 | without a `from`, entering adds `to` until `"transitioned"`; exiting removes `to` at once |
| Visibility.DelayedEnterFires | js/scrollAnimation.js:204-206 | a delayed enter runs `doEnter` in the frame its timeout fires, and the timeout stops |
| Visibility.AttachSetsState | js/scrollAnimation.js:140-256 | after setup `isIn` is the variant's predicate, `isRun` is false and `stop` is absent; out of view only `from` was added |
| Visibility.AttachInViewReveals | js/scrollAnimation.js:233-247 | attaching in view with a `from`: `to` at once, `from` gone after the microtask, both gone after `transitionend` |
| Visibility.ApplyKeepsGuard | js/scrollAnimation.js:182-217 | no single event changes `isRun` or stores `stop` |
| Visibility.GuardPreserved | js/scrollAnimation.js:182-217 | no run of events breaks the guard |
| Visibility.GuardHoldsForever | js/scrollAnimation.js:251-255 | over an instance's whole life `isRun` stays false and `stop` is never stored |
| Visibility.ElementEntry.constructor | js/scrollAnimation.js:260-380 | setup and initial run equal `Attached`, offsets resolved once, guard established |
| Visibility.ElementEntry.DoEnter | js/scrollAnimation.js:276-287 | equals `Entered` |
| Visibility.ElementEntry.DoEnterWhileNoFrom | js/scrollAnimation.js:288-295 | equals `EnteredNoFrom` |
| Visibility.ElementEntry.DoExit | js/scrollAnimation.js:296-305 | equals `Exited` |
| Visibility.ElementEntry.RunEnterEffect | js/scrollAnimation.js:322-334 | equals `EnterEffect` |
| Visibility.ElementEntry.Set | js/scrollAnimation.js:306-341 | the trap's guards, store and effects equal `AfterWrite` |
| Visibility.ElementEntry.ScrollHandler | js/scrollAnimation.js:342-355 | equals `AfterScroll` |
| Visibility.ElementEntry.RunMicrotask | js/scrollAnimation.js:278-301 | the queued `nextTick` callback equals `AfterMicrotask` |
| Visibility.ElementEntry.OnTransitionEnd | js/scrollAnimation.js:280-285 | equals `AfterTransitionEnd` |
| Visibility.ElementEntry.OnTransitioned | js/scrollAnimation.js:290-294 | equals `AfterTransitioned` |
| Visibility.ElementEntry.OnDelayFrame | js/scrollAnimation.js:328-330 | a frame for a delayed enter equals `AfterDelayFrame` |

## Left out

- `nextTick`'s `Promise` and `this` binding, `requestAnimationFrame` and `cancelAnimationFrame` are replaced by the microtask queue and frame events.
- Registering and removing the window `scroll` and `resize` listeners is not modelled. The model shows that `stop` is never stored, so nothing ever removes them.
- The choice between the raw `scrollHandler` and the throttled one (`throttleTime === "none"`) is not modelled. `Throttle` and `ElementEntry.ScrollHandler` are modelled separately, and the caller composes them.
- `getBoundingClientRect`, `pageYOffset`, `innerHeight` and the offset properties are whole-pixel inputs, not floating point. NaN offsets are not modelled.
- Proxy keys are strings; symbol keys are left out. A trap that returns false is taken as a silently ignored write, as in a non-strict classic script. In strict code that write would throw.
- `ElementEntry.constructor` requires `to`, and any non-empty `from`, to be valid class tokens. It does not model the exception `classList` throws for an empty or whitespace-containing token.
- `isPlainObject` and `isElement` are not modelled, because they rest on the JavaScript prototype model.
- `sa` is not modelled: its selector resolution, its error wrapping and its element filtering are DOM glue. Its guard at js/scrollAnimation.js:389 can never be true. The filter result at :416 is discarded.
- The `data-sa` bootstrap and its `parseFloat` parsing are not modelled, because they are DOM glue and float parsing.
- `transitionend` and `"transitioned"` are events that may or may not arrive. No browser sends `"transitioned"`, so that cleanup may never happen.
- FrameTimer.FiresExactlyWhenDue: assumes a nonzero first frame timestamp. With a start of 0 the code records the start again on the next frame.
- The `offset`, `backOffset`, `delay` and `throttle` options are integers here. The source also accepts fractional values, such as those `parseFloat` produces at js/scrollAnimation.js:441-445.
- The trap's `target[key]` read also finds inherited properties, so a write to a key such as `"toString"` or `"constructor"` is compared with the inherited value. The model treats every key outside the stored map as undefined.
- Events are not ordered against the microtask queue. The model lets scroll, frame and transition events arrive while microtasks are still queued, which a browser's microtask checkpoint never allows. This over-approximates the possible histories, so `GuardHoldsForever` still holds for the real ones.
