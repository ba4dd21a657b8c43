/**
 * The per-element visibility state machine (`shouldEnter` and
 * `shouldEnterBothSides` in js/scrollAnimation.js). Both variants are one
 * machine here, told apart by which predicate they re-evaluate (`Variant`).
 *
 * The Proxy around the `{isIn, isRun}` object is a setter with guards
 * (`AfterWrite`); `scrollHandler` decides which write to make; `doEnter`,
 * `doEnterWhileNoFrom` and `doExit` change the element's class list at once
 * or through queued microtasks (`nextTick`). The browser is reduced to
 * explicit events: a queued microtask runs, a `transitionend` or
 * `"transitioned"` event reaches the element, an animation frame reaches a
 * delayed enter's timeout.
 */
module Visibility {
  import opened Wrappers
  import opened FrameTimer
  import opened Geometry

  /** The JavaScript values a property of the state object can hold; a
      function is known by its identity. `===` is equality on these. */
  datatype JsValue = Undefined | Bool(b: bool) | Num(n: int) | Str(s: string) | Func(id: nat)

  /** JavaScript truthiness. */
  predicate Truthy(v: JsValue)
  {
    match v
    case Undefined => false
    case Bool(b) => b
    case Num(n) => n != 0
    case Str(s) => s != ""
    case Func(_) => true
  }

  /** An offset option: a number, or a function evaluated once on the element. */
  datatype Offset = Fixed(px: int) | PerElement(f: Element -> int)

  function Resolve(o: Offset, node: Element): int
  {
    match o
    case Fixed(px) => px
    case PerElement(f) => f(node)
  }

  /** `shouldEnter` (enter only) or `shouldEnterBothSides` (enter and exit). */
  datatype Variant = EnterOnly | BothSides

  /** The predicate a variant evaluates: `isEnter` or `isInWindow`. */
  function Visible(v: Variant, g: Layout, start: int, end: int, mode: string): (r: bool)
    ensures r ==> IsEnter(g, start, mode)
  {
    match v
    case EnterOnly => IsEnter(g, start, mode)
    case BothSides => IsInWindow(g, start, end, mode)
  }

  /** The settings one instance closes over, offsets already resolved. */
  datatype Config = Config(variant: Variant, from: string, to: string, start: int, end: int, delay: int, mode: string)

  /** `typeof from === "string" && from !== ""`. */
  predicate HasFrom(c: Config)
  {
    c.from != ""
  }

  /** The settings `shouldEnter` / `shouldEnterBothSides` compute from their
      arguments; only the two-sided variant has an end offset. */
  function Configure(variant: Variant, node: Element, from: string, to: string,
                     offsetStart: Offset, offsetEnd: Offset, delay: int, mode: string): Config
  {
    Config(variant, from, to, Resolve(offsetStart, node),
           if variant == BothSides then Resolve(offsetEnd, node) else 0, delay, mode)
  }

  /** A character the DOM treats as whitespace in a class token. */
  predicate IsAsciiWhitespace(ch: char)
  {
    ch == ' ' || ch == '\t' || ch == '\n' || ch == '\r' || ch as int == 12
  }

  /** A string `classList.add` and `classList.remove` accept without throwing. */
  predicate ValidToken(s: string)
  {
    s != "" && forall i :: 0 <= i < |s| ==> !IsAsciiWhitespace(s[i])
  }

  /** A callback queued with `nextTick`: the one `doEnter` queues (remove
      `from`, then listen for `transitionend`) or the one `doExit` queues
      (remove `to`). */
  datatype Microtask = AfterEnter | AfterExit

  /** Everything one instance changes: the target object behind the Proxy,
      the element's class list, the microtask queue, the timeouts of delayed
      enters, and how many `transitionend` and `"transitioned"` handlers are
      registered on the element. */
  datatype EntryState = EntryState(
    target: map<string, JsValue>,
    classes: set<string>,
    microtasks: seq<Microtask>,
    delayed: seq<TimerState>,
    endListeners: nat,
    endedListeners: nat)

  /** Reading `proxyOutput.isIn` (no get trap: the target's value) as a condition. */
  predicate IsIn(s: EntryState)
  {
    "isIn" in s.target && Truthy(s.target["isIn"])
  }

  /** The target holds `isIn` with exactly the boolean `b`. */
  predicate HoldsIsIn(s: EntryState, b: bool)
  {
    "isIn" in s.target && s.target["isIn"] == Bool(b)
  }

  /** `isRun` is stored as false and no `stop` is stored. */
  predicate Guarded(s: EntryState)
  {
    "isRun" in s.target && s.target["isRun"] == Bool(false) && "stop" !in s.target
  }

  /** `doEnter`: add `to` now, queue the removal of `from`. */
  function Entered(c: Config, s: EntryState): EntryState
  {
    s.(classes := s.classes + {c.to}, microtasks := s.microtasks + [AfterEnter])
  }

  /** `doEnterWhileNoFrom`: add `to` now, listen for `"transitioned"`. */
  function EnteredNoFrom(c: Config, s: EntryState): EntryState
  {
    s.(classes := s.classes + {c.to}, endedListeners := s.endedListeners + 1)
  }

  /** `doExit`: with a `from`, add it now and queue the removal of `to`;
      without one, remove `to` now. */
  function Exited(c: Config, s: EntryState): EntryState
  {
    if HasFrom(c) then s.(classes := s.classes + {c.from}, microtasks := s.microtasks + [AfterExit])
    else s.(classes := s.classes - {c.to})
  }

  /** The enter branch shared by the set trap and the initial run: `doEnter`
      now when there is no delay, `doEnter` after a frame-paced timeout of
      `delay` ms otherwise, and `doEnterWhileNoFrom` when there is no `from`. */
  function EnterEffect(c: Config, s: EntryState): EntryState
  {
    if HasFrom(c) then
      if c.delay == 0 then Entered(c, s) else s.(delayed := s.delayed + [Created(c.delay)])
    else EnteredNoFrom(c, s)
  }

  /** The Proxy's set trap for `proxyOutput[key] = value`; the boolean is what
      the trap returns. */
  function AfterWrite(c: Config, s: EntryState, key: string, value: JsValue): (EntryState, bool)
  {
    if key == "" then (s, false)
    else
      var s1 := if key == "isIn" && value == Bool(false) then Exited(c, s) else s;
      if key in s1.target && s1.target[key] != Undefined && s1.target[key] == value then (s1, false)
      else if key == "isRun" || key == "stop" then (s1, false)
      else
        var s2 := s1.(target := s1.target[key := value]);
        (if IsIn(s2) then EnterEffect(c, s2) else Exited(c, s2), true)
  }

  /** `scrollHandler`, run with the layout of the moment. */
  function AfterScroll(c: Config, s: EntryState, g: Layout): EntryState
  {
    if !Visible(c.variant, g, 0, 0, c.mode) then AfterWrite(c, s, "isIn", Bool(false)).0
    else if Visible(c.variant, g, c.start, c.end, c.mode) then AfterWrite(c, s, "isIn", Bool(true)).0
    else s
  }

  /** The oldest queued microtask runs (nothing happens when none is queued). */
  function AfterMicrotask(c: Config, s: EntryState): EntryState
  {
    if s.microtasks == [] then s
    else
      var s1 := s.(microtasks := s.microtasks[1..]);
      match s.microtasks[0]
      case AfterEnter => s1.(classes := s1.classes - {c.from}, endListeners := s1.endListeners + 1)
      case AfterExit => s1.(classes := s1.classes - {c.to})
  }

  /** A `transitionend` event: every registered handler removes `from` and
      `to` and unregisters itself. */
  function AfterTransitionEnd(c: Config, s: EntryState): EntryState
  {
    if s.endListeners == 0 then s
    else s.(classes := s.classes - {c.from} - {c.to}, endListeners := 0)
  }

  /** A `"transitioned"` event (a name no browser sends): every registered
      handler removes `to` and unregisters itself. */
  function AfterTransitioned(c: Config, s: EntryState): EntryState
  {
    if s.endedListeners == 0 then s
    else s.(classes := s.classes - {c.to}, endedListeners := 0)
  }

  /** An animation frame reaches the timeout of delayed enter number `i`;
      when it fires, `doEnter` runs. */
  function AfterDelayFrame(c: Config, s: EntryState, i: nat, timestamp: int): EntryState
    requires i < |s.delayed|
  {
    var n := OnFrame(s.delayed[i], c.delay, timestamp);
    var s1 := s.(delayed := s.delayed[i := n.0]);
    if n.1 then Entered(c, s1) else s1
  }

  /** The state `shouldEnter` / `shouldEnterBothSides` return with, for an
      element whose class list was `classes0`: `from` added, `isIn` computed
      with the variant's predicate, then the initial-run block (the enter
      effect when already in view, then the writes of `stop` and `isRun`). */
  function Attached(c: Config, g: Layout, classes0: set<string>): EntryState
  {
    var s0 := EntryState(
      map["isIn" := Bool(Visible(c.variant, g, c.start, c.end, c.mode)), "isRun" := Bool(false)],
      if HasFrom(c) then classes0 + {c.from} else classes0,
      [], [], 0, 0);
    if Truthy(s0.target["isRun"]) then s0
    else
      var s1 := if IsIn(s0) then EnterEffect(c, s0) else s0;
      var s2 := AfterWrite(c, s1, "stop", Func(0)).0;
      AfterWrite(c, s2, "isRun", Bool(true)).0
  }

  // ---------------------------------------------------------------------
  // The set trap

  /** Writes to the empty key, to `isRun` and to `stop` are refused and change
      nothing. */
  lemma GuardRefusesWrite(c: Config, s: EntryState, key: string, value: JsValue)
    requires key == "" || key == "isRun" || key == "stop"
    ensures AfterWrite(c, s, key, value) == (s, false)
  {
  }

  /** A write of the value already stored is refused and changes nothing,
      unless it is `isIn = false`, which still runs `doExit`. */
  lemma RedundantWriteIsRefused(c: Config, s: EntryState, key: string, value: JsValue)
    requires key in s.target && s.target[key] != Undefined && s.target[key] == value
    ensures AfterWrite(c, s, key, value) ==
            if key == "isIn" && value == Bool(false) then (Exited(c, s), false) else (s, false)
  {
  }

  /** Changing `isIn` from true to false runs `doExit` twice: before the
      redundancy check and again after the store. With a `from` the class is
      added and two removals of `to` are queued; without one `to` is gone. */
  lemma RealExitRunsExitTwice(c: Config, s: EntryState)
    requires HoldsIsIn(s, true)
    ensures var r := AfterWrite(c, s, "isIn", Bool(false));
            r.1 && HoldsIsIn(r.0, false) &&
            r.0.target == s.target["isIn" := Bool(false)] &&
            (HasFrom(c) ==> r.0.classes == s.classes + {c.from} &&
                            r.0.microtasks == s.microtasks + [AfterExit, AfterExit]) &&
            (!HasFrom(c) ==> r.0.classes == s.classes - {c.to} && r.0.microtasks == s.microtasks) &&
            r.0.delayed == s.delayed && r.0.endListeners == s.endListeners && r.0.endedListeners == s.endedListeners
  {
  }

  /** Setting `isIn` to true when it was not true stores it and runs the enter
      effect exactly once: with a `from` and no delay `to` is added and one
      removal of `from` is queued; with a delay the class list is left alone
      and one timeout of `delay` ms is started; without a `from` `to` is added
      and one `"transitioned"` handler is registered. */
  lemma RealEnterRunsEnterOnce(c: Config, s: EntryState)
    requires !HoldsIsIn(s, true)
    ensures var r := AfterWrite(c, s, "isIn", Bool(true));
            r.1 && HoldsIsIn(r.0, true) && r.0.target == s.target["isIn" := Bool(true)] &&
            (HasFrom(c) && c.delay == 0 ==>
               r.0.classes == s.classes + {c.to} && r.0.microtasks == s.microtasks + [AfterEnter] &&
               r.0.delayed == s.delayed) &&
            (HasFrom(c) && c.delay != 0 ==>
               r.0.classes == s.classes && r.0.microtasks == s.microtasks &&
               r.0.delayed == s.delayed + [Created(c.delay)]) &&
            (!HasFrom(c) ==>
               r.0.classes == s.classes + {c.to} && r.0.microtasks == s.microtasks &&
               r.0.endedListeners == s.endedListeners + 1)
  {
  }

  /** Whatever is written, `isRun` stays false and `stop` stays absent. */
  lemma WriteKeepsGuard(c: Config, s: EntryState, key: string, value: JsValue)
    requires Guarded(s)
    ensures Guarded(AfterWrite(c, s, key, value).0)
  {
  }

  // ---------------------------------------------------------------------
  // The scroll handler

  /** When the zero-offset check fails, `isIn` ends up false, whatever it was. */
  lemma ScrollOutOfViewForcesOut(c: Config, s: EntryState, g: Layout)
    requires !Visible(c.variant, g, 0, 0, c.mode)
    ensures HoldsIsIn(AfterScroll(c, s, g), false)
  {
  }

  /** When both checks pass, `isIn` ends up true, whatever it was. */
  lemma ScrollIntoViewForcesIn(c: Config, s: EntryState, g: Layout)
    requires Visible(c.variant, g, 0, 0, c.mode) && Visible(c.variant, g, c.start, c.end, c.mode)
    ensures HoldsIsIn(AfterScroll(c, s, g), true)
  {
  }

  /** When the zero-offset check passes but the offset check does not, no
      write is made at all. */
  lemma ScrollBetweenChecksWritesNothing(c: Config, s: EntryState, g: Layout)
    requires Visible(c.variant, g, 0, 0, c.mode) && !Visible(c.variant, g, c.start, c.end, c.mode)
    ensures AfterScroll(c, s, g) == s
  {
  }

  /** An element that is in stays in, with no effect re-run and no class
      touched, for as long as the zero-offset check keeps passing. */
  lemma StaysInWhileVisible(c: Config, s: EntryState, g: Layout)
    requires HoldsIsIn(s, true) && Visible(c.variant, g, 0, 0, c.mode)
    ensures AfterScroll(c, s, g) == s
  {
  }

  /** Every check that finds an element out of view runs `doExit` again, even
      when it is already out: with a `from`, each such check re-adds it and
      queues one more removal of `to`. */
  lemma OutOfViewChecksRepeatExit(c: Config, s: EntryState, g: Layout)
    requires HoldsIsIn(s, false) && !Visible(c.variant, g, 0, 0, c.mode)
    ensures AfterScroll(c, s, g) == Exited(c, s)
    ensures HasFrom(c) ==> |AfterScroll(c, s, g).microtasks| == |s.microtasks| + 1
  {
  }

  // ---------------------------------------------------------------------
  // The class-list effects

  /** The enter effect with a `from` (and `from` distinct from `to`): `to` is
      added at once; after the queued microtask `from` is gone and a
      `transitionend` handler waits; after `transitionend` both are gone. */
  lemma EnterLifecycle(c: Config, s: EntryState)
    requires HasFrom(c) && c.from != c.to && s.microtasks == []
    ensures c.to in Entered(c, s).classes
    ensures var s2 := AfterMicrotask(c, Entered(c, s));
            c.from !in s2.classes && c.to in s2.classes && s2.endListeners == s.endListeners + 1 &&
            s2.microtasks == []
    ensures var s3 := AfterTransitionEnd(c, AfterMicrotask(c, Entered(c, s)));
            c.from !in s3.classes && c.to !in s3.classes && s3.endListeners == 0 &&
            s3.classes == s.classes - {c.from} - {c.to}
  {
  }

  /** The exit effect with a `from` (distinct from `to`): `from` is added at
      once and `to` is left alone; the queued microtask then removes `to`. */
  lemma ExitLifecycle(c: Config, s: EntryState)
    requires HasFrom(c) && c.from != c.to && s.microtasks == []
    ensures var s1 := Exited(c, s);
            c.from in s1.classes && (c.to in s1.classes <==> c.to in s.classes)
    ensures AfterMicrotask(c, Exited(c, s)).classes == s.classes + {c.from} - {c.to}
  {
  }

  /** Without a `from`, entering adds `to` and a `"transitioned"` event
      removes it; exiting removes `to` at once. */
  lemma NoFromLifecycle(c: Config, s: EntryState)
    requires !HasFrom(c)
    ensures c.to in EnteredNoFrom(c, s).classes
    ensures AfterTransitioned(c, EnteredNoFrom(c, s)).classes == s.classes - {c.to}
    ensures Exited(c, s).classes == s.classes - {c.to} && Exited(c, s).microtasks == s.microtasks
  {
  }

  /** A delayed enter runs `doEnter` in the frame where its timeout fires, and
      that timeout asks for no further frame. */
  lemma DelayedEnterFires(c: Config, s: EntryState, i: nat, timestamp: int)
    requires i < |s.delayed| && OnFrame(s.delayed[i], c.delay, timestamp).1
    ensures var r := AfterDelayFrame(c, s, i, timestamp);
            c.to in r.classes && !r.delayed[i].pending && r.microtasks == s.microtasks + [AfterEnter]
  {
  }

  // ---------------------------------------------------------------------
  // Attaching and the whole life of an instance

  /** Attaching sets `isIn` from the variant's predicate; `isRun` stays false
      and `stop` is not stored, because the trap refuses both writes. */
  lemma AttachSetsState(c: Config, g: Layout, classes0: set<string>)
    ensures var s := Attached(c, g, classes0);
            Guarded(s) && HoldsIsIn(s, Visible(c.variant, g, c.start, c.end, c.mode))
    ensures !Visible(c.variant, g, c.start, c.end, c.mode) ==>
              Attached(c, g, classes0) ==
              EntryState(map["isIn" := Bool(false), "isRun" := Bool(false)],
                         if HasFrom(c) then classes0 + {c.from} else classes0, [], [], 0, 0)
  {
  }

  /** Attaching with `start = "pre"`, `end = "show"` and no delay to an element
      already in view: `show` is there at once, `pre` is gone after the next
      microtask, and both are gone after `transitionend`. */
  lemma AttachInViewReveals(c: Config, g: Layout, classes0: set<string>)
    requires HasFrom(c) && c.from != c.to && c.delay == 0
    requires Visible(c.variant, g, c.start, c.end, c.mode)
    ensures c.to in Attached(c, g, classes0).classes
    ensures var s2 := AfterMicrotask(c, Attached(c, g, classes0));
            c.from !in s2.classes && c.to in s2.classes
    ensures var s3 := AfterTransitionEnd(c, AfterMicrotask(c, Attached(c, g, classes0)));
            c.from !in s3.classes && c.to !in s3.classes
  {
  }

  /** Everything that can happen to an instance after it is attached. */
  datatype Event =
    | Scroll(layout: Layout)
    | Write(key: string, value: JsValue)
    | Microtask
    | TransitionEnd
    | Transitioned
    | DelayFrame(index: nat, timestamp: int)

  function Apply(c: Config, s: EntryState, e: Event): EntryState
  {
    match e
    case Scroll(g) => AfterScroll(c, s, g)
    case Write(k, v) => AfterWrite(c, s, k, v).0
    case Microtask => AfterMicrotask(c, s)
    case TransitionEnd => AfterTransitionEnd(c, s)
    case Transitioned => AfterTransitioned(c, s)
    case DelayFrame(i, ts) => if i < |s.delayed| then AfterDelayFrame(c, s, i, ts) else s
  }

  function Replay(c: Config, s: EntryState, evs: seq<Event>): EntryState
    decreases |evs|
  {
    if evs == [] then s else Replay(c, Apply(c, s, evs[0]), evs[1..])
  }

  /** No event changes `isRun` or stores `stop`. */
  lemma ApplyKeepsGuard(c: Config, s: EntryState, e: Event)
    requires Guarded(s)
    ensures Guarded(Apply(c, s, e))
  {
  }

  /** Over the whole life of an instance `isRun` stays false and `stop` is
      never stored, so the returned object never offers a way to remove the
      scroll and resize listeners. */
  lemma {:induction false} GuardHoldsForever(c: Config, g: Layout, classes0: set<string>, evs: seq<Event>)
    ensures Guarded(Replay(c, Attached(c, g, classes0), evs))
  {
    AttachSetsState(c, g, classes0);
    GuardPreserved(c, Attached(c, g, classes0), evs);
  }

  /** From any guarded state, no run of events breaks the guard. */
  lemma {:induction false} GuardPreserved(c: Config, s: EntryState, evs: seq<Event>)
    requires Guarded(s)
    ensures Guarded(Replay(c, s, evs))
    decreases |evs|
  {
    if evs != [] {
      ApplyKeepsGuard(c, s, evs[0]);
      GuardPreserved(c, Apply(c, s, evs[0]), evs[1..]);
    }
  }

  // ---------------------------------------------------------------------
  // The instance as an object

  /** One `shouldEnter` / `shouldEnterBothSides` instance: the Proxy target,
      the element's class list and the pending browser work are fields; each
      method is one of the source's closures or one browser event. */
  class ElementEntry {
    const cfg: Config
    var target: map<string, JsValue>
    var classes: set<string>
    var microtasks: seq<Microtask>
    var delayed: seq<TimerState>
    var endListeners: nat
    var endedListeners: nat

    function State(): EntryState
      reads this
    {
      EntryState(target, classes, microtasks, delayed, endListeners, endedListeners)
    }

    /** `shouldEnter` (EnterOnly) or `shouldEnterBothSides` (BothSides) on an
        element whose class list is `classes0`, with the layout `g` at the
        moment of the call. */
    constructor (variant: Variant, g: Layout, classes0: set<string>, from: string, to: string,
                 offsetStart: Offset, offsetEnd: Offset, delay: int, mode: string)
      requires ValidToken(to) && (from == "" || ValidToken(from))
      ensures cfg == Configure(variant, g.node, from, to, offsetStart, offsetEnd, delay, mode)
      ensures State() == Attached(cfg, g, classes0)
      ensures Guarded(State())
    {
      var start := Resolve(offsetStart, g.node);
      var end := if variant == BothSides then Resolve(offsetEnd, g.node) else 0;
      cfg := Config(variant, from, to, start, end, delay, mode);
      classes := if from != "" then classes0 + {from} else classes0;
      target := map["isIn" := Bool(Visible(variant, g, start, end, mode)), "isRun" := Bool(false)];
      microtasks, delayed := [], [];
      endListeners, endedListeners := 0, 0;
      new;
      if !Truthy(target["isRun"]) {
        if IsIn(State()) {
          RunEnterEffect();
        }
        var stored := Set("stop", Func(0));
        stored := Set("isRun", Bool(true));
      }
    }

    method DoEnter()
      modifies this
      ensures State() == Entered(cfg, old(State()))
    {
      classes := classes + {cfg.to};
      microtasks := microtasks + [AfterEnter];
    }

    method DoEnterWhileNoFrom()
      modifies this
      ensures State() == EnteredNoFrom(cfg, old(State()))
    {
      classes := classes + {cfg.to};
      endedListeners := endedListeners + 1;
    }

    method DoExit()
      modifies this
      ensures State() == Exited(cfg, old(State()))
    {
      if cfg.from != "" {
        classes := classes + {cfg.from};
        microtasks := microtasks + [AfterExit];
      } else {
        classes := classes - {cfg.to};
      }
    }

    /** The enter branch of the trap and of the initial run. */
    method RunEnterEffect()
      modifies this
      ensures State() == EnterEffect(cfg, old(State()))
    {
      if cfg.from != "" {
        if cfg.delay == 0 {
          DoEnter();
        } else {
          delayed := delayed + [Created(cfg.delay)];
        }
      } else {
        DoEnterWhileNoFrom();
      }
    }

    /** The Proxy's set trap: `proxyOutput[key] = value`. */
    method Set(key: string, value: JsValue) returns (stored: bool)
      modifies this
      ensures (State(), stored) == AfterWrite(cfg, old(State()), key, value)
    {
      if key == "" {
        return false;
      }
      if key == "isIn" && value == Bool(false) {
        DoExit();
      }
      if key in target && target[key] != Undefined && target[key] == value {
        return false;
      }
      if key == "isRun" || key == "stop" {
        return false;
      }
      target := target[key := value];
      if IsIn(State()) {
        RunEnterEffect();
      } else {
        DoExit();
      }
      return true;
    }

    /** `scrollHandler`, with the layout at the moment it runs. */
    method ScrollHandler(g: Layout)
      modifies this
      ensures State() == AfterScroll(cfg, old(State()), g)
    {
      if !Visible(cfg.variant, g, 0, 0, cfg.mode) {
        var stored := Set("isIn", Bool(false));
        return;
      }
      if Visible(cfg.variant, g, cfg.start, cfg.end, cfg.mode) {
        var stored := Set("isIn", Bool(true));
        return;
      }
    }

    /** The oldest queued `nextTick` callback runs. */
    method RunMicrotask()
      modifies this
      ensures State() == AfterMicrotask(cfg, old(State()))
    {
      if microtasks == [] {
        return;
      }
      var task := microtasks[0];
      microtasks := microtasks[1..];
      match task
      case AfterEnter =>
        classes := classes - {cfg.from};
        endListeners := endListeners + 1;
      case AfterExit =>
        classes := classes - {cfg.to};
    }

    /** A `transitionend` event reaches the element. */
    method OnTransitionEnd()
      modifies this
      ensures State() == AfterTransitionEnd(cfg, old(State()))
    {
      if endListeners > 0 {
        classes := classes - {cfg.from} - {cfg.to};
        endListeners := 0;
      }
    }

    /** A `"transitioned"` event reaches the element. */
    method OnTransitioned()
      modifies this
      ensures State() == AfterTransitioned(cfg, old(State()))
    {
      if endedListeners > 0 {
        classes := classes - {cfg.to};
        endedListeners := 0;
      }
    }

    /** An animation frame reaches the timeout of delayed enter number `i`. */
    method OnDelayFrame(i: nat, timestamp: int)
      requires i < |delayed|
      modifies this
      ensures State() == AfterDelayFrame(cfg, old(State()), i, timestamp)
    {
      var n := OnFrame(delayed[i], cfg.delay, timestamp);
      delayed := delayed[i := n.0];
      if n.1 {
        DoEnter();
      }
    }
  }
}
