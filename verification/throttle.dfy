/**
 * The throttle wrapper (`throttle` in js/scrollAnimation.js). The wrapper it
 * returns runs the callback at once when it may (`canRun`), and then keeps a
 * frame-paced timeout going: while calls keep arriving during a window, the
 * end of the window runs the callback once more and opens a new window; a
 * window with no call in it makes the wrapper idle again. Calls made during a
 * window only set `callAgainNexTick`, so any number of them collapse into a
 * single trailing run.
 */
module Throttling {
  import opened Wrappers
  import opened FrameTimer

  /** The closure variables of one throttled wrapper, with the state of the
      timeout that `loop` last started. */
  datatype ThrottleState = ThrottleState(canRun: bool, callAgainNextTick: bool, timer: TimerState)

  /** The state `throttle(callback, tick)` returns with: idle, no timer. */
  function Initial(): ThrottleState
  {
    ThrottleState(true, false, TimerState(None, false))
  }

  /** The wrapper is busy exactly while a timer is waiting for frames, and a
      trailing run can only be owed while it is busy. */
  predicate Inv(s: ThrottleState)
  {
    (s.canRun <==> !s.timer.pending) && (s.callAgainNextTick ==> !s.canRun)
  }

  /** 1 when a trailing run is owed, else 0. */
  function Owed(s: ThrottleState): nat
  {
    if s.callAgainNextTick then 1 else 0
  }

  /** The throttled wrapper is called; the boolean says whether the callback ran. */
  function Called(s: ThrottleState, tick: int): (r: (ThrottleState, bool))
    ensures r.1 <==> s.canRun
    ensures r.1 ==> !r.0.canRun && r.0.timer == Created(tick)
    ensures !r.1 ==> r.0 == s.(callAgainNextTick := true)
    ensures Inv(s) ==> Inv(r.0)
  {
    if s.canRun then (ThrottleState(false, s.callAgainNextTick, Created(tick)), true)
    else (s.(callAgainNextTick := true), false)
  }

  /** A frame reaches the timer of the current window; when the timer fires,
      the callback runs again if a call was made meanwhile, otherwise the
      wrapper becomes idle. The boolean says whether the callback ran. */
  function TimerFrame(s: ThrottleState, tick: int, timestamp: int): (r: (ThrottleState, bool))
    ensures r.1 <==> OnFrame(s.timer, tick, timestamp).1 && s.callAgainNextTick
    ensures r.1 ==> !r.0.callAgainNextTick && r.0.canRun == s.canRun && r.0.timer == Created(tick)
    ensures OnFrame(s.timer, tick, timestamp).1 && !s.callAgainNextTick ==> r.0.canRun
    ensures !OnFrame(s.timer, tick, timestamp).1 ==> r.0.canRun == s.canRun && r.0.callAgainNextTick == s.callAgainNextTick
    ensures Inv(s) ==> Inv(r.0)
  {
    var n := OnFrame(s.timer, tick, timestamp);
    if !n.1 then (s.(timer := n.0), false)
    else if s.callAgainNextTick then (ThrottleState(s.canRun, false, Created(tick)), true)
    else (ThrottleState(true, s.callAgainNextTick, n.0), false)
  }

  /** What can happen to one throttled wrapper: it is called, or its timer gets a frame. */
  datatype Event = Call | Frame(timestamp: int)

  /** The final state after a run of events, and how many times the callback ran. */
  function Replay(s: ThrottleState, tick: int, evs: seq<Event>): (r: (ThrottleState, nat))
    decreases |evs|
  {
    if evs == [] then (s, 0)
    else
      var n := match evs[0]
        case Call => Called(s, tick)
        case Frame(ts) => TimerFrame(s, tick, ts);
      var rest := Replay(n.0, tick, evs[1..]);
      (rest.0, rest.1 + (if n.1 then 1 else 0))
  }

  /** How many calls of the wrapper a run of events holds. */
  function CallCount(evs: seq<Event>): nat
  {
    if evs == [] then 0 else (if evs[0].Call? then 1 else 0) + CallCount(evs[1..])
  }

  /** `n` calls in a row. */
  function Calls(n: nat): (evs: seq<Event>)
    ensures |evs| == n && forall i :: 0 <= i < n ==> evs[i] == Call
  {
    seq(n, _ => Call)
  }

  /** The callback never runs more often than the wrapper is called: every run
      is paid for by a call, and a trailing run still owed is paid for too. */
  lemma {:induction false} RunsNeverExceedCalls(s: ThrottleState, tick: int, evs: seq<Event>)
    requires Inv(s)
    ensures Inv(Replay(s, tick, evs).0)
    ensures Replay(s, tick, evs).1 + Owed(Replay(s, tick, evs).0) <= CallCount(evs) + Owed(s)
    decreases |evs|
  {
    if evs != [] {
      var n := match evs[0]
        case Call => Called(s, tick)
        case Frame(ts) => TimerFrame(s, tick, ts);
      RunsNeverExceedCalls(n.0, tick, evs[1..]);
    }
  }

  /** From a fresh wrapper, runs never exceed calls. */
  lemma FreshRunsNeverExceedCalls(tick: int, evs: seq<Event>)
    ensures Replay(Initial(), tick, evs).1 <= CallCount(evs)
  {
    RunsNeverExceedCalls(Initial(), tick, evs);
  }

  /** Any number of calls during a busy window, followed by the frame on which
      that window's timer fires, give exactly one callback run (none when no
      call was made), and the run opens a new window. */
  lemma {:induction false} CallsCollapseIntoOneTrailingRun(s: ThrottleState, tick: int, n: nat, timestamp: int)
    requires Inv(s) && !s.canRun && OnFrame(s.timer, tick, timestamp).1
    ensures var r := Replay(s, tick, Calls(n) + [Frame(timestamp)]);
            r.1 == (if n > 0 || s.callAgainNextTick then 1 else 0) &&
            !r.0.callAgainNextTick &&
            (r.1 == 1 ==> !r.0.canRun && r.0.timer == Created(tick)) &&
            (r.1 == 0 ==> r.0.canRun)
    decreases n
  {
    var evs := Calls(n) + [Frame(timestamp)];
    if n == 0 {
      assert evs == [Frame(timestamp)];
    } else {
      assert evs[0] == Call;
      assert evs[1..] == Calls(n - 1) + [Frame(timestamp)];
      var s' := s.(callAgainNextTick := true);
      CallsCollapseIntoOneTrailingRun(s', tick, n - 1, timestamp);
    }
  }

  /** The timestamps of the frame events in a run of events. */
  function Frames(evs: seq<Event>): seq<int>
  {
    if evs == [] then []
    else (if evs[0].Frame? then [evs[0].timestamp] else []) + Frames(evs[1..])
  }

  /** The timer after it has seen the frames `ts`, one after another. */
  function TimerAfter(t: TimerState, tick: int, ts: seq<int>): TimerState
    decreases |ts|
  {
    if ts == [] then t else TimerAfter(OnFrame(t, tick, ts[0]).0, tick, ts[1..])
  }

  /** Replaying two runs of events one after the other is replaying their
      concatenation: the runs of the callback add up. */
  lemma {:induction false} ReplayAppend(s: ThrottleState, tick: int, a: seq<Event>, b: seq<Event>)
    ensures var ra := Replay(s, tick, a);
            var rb := Replay(ra.0, tick, b);
            Replay(s, tick, a + b) == (rb.0, ra.1 + rb.1)
    decreases |a|
  {
    if a == [] {
      assert a + b == b;
    } else {
      assert (a + b)[0] == a[0];
      assert (a + b)[1..] == a[1..] + b;
      var n := match a[0]
        case Call => Called(s, tick)
        case Frame(ts) => TimerFrame(s, tick, ts);
      ReplayAppend(n.0, tick, a[1..], b);
    }
  }

  /** While the window's timer does not fire on any of the frames that
      arrive, the callback does not run, however many calls are made: the
      wrapper stays busy and its timer sees exactly those frames. */
  lemma {:induction false} NoRunWhileWindowOpen(s: ThrottleState, tick: int, evs: seq<Event>)
    requires Inv(s) && !s.canRun
    requires forall k :: 0 <= k < |Frames(evs)| ==> !Fires(s.timer, tick, Frames(evs))[k]
    ensures Replay(s, tick, evs).1 == 0
    ensures !Replay(s, tick, evs).0.canRun
    ensures Replay(s, tick, evs).0.callAgainNextTick == (s.callAgainNextTick || CallCount(evs) > 0)
    ensures Replay(s, tick, evs).0.timer == TimerAfter(s.timer, tick, Frames(evs))
    decreases |evs|
  {
    if evs != [] {
      var rest := evs[1..];
      match evs[0]
      case Call =>
        assert Frames(evs) == Frames(rest);
        NoRunWhileWindowOpen(s.(callAgainNextTick := true), tick, rest);
      case Frame(ts) =>
        var n := OnFrame(s.timer, tick, ts);
        assert Frames(evs) == [ts] + Frames(rest);
        assert ([ts] + Frames(rest))[1..] == Frames(rest);
        assert Fires(s.timer, tick, Frames(evs)) == [n.1] + Fires(n.0, tick, Frames(rest));
        assert !n.1 by { assert !Fires(s.timer, tick, Frames(evs))[0]; }
        forall k | 0 <= k < |Frames(rest)|
          ensures !Fires(n.0, tick, Frames(rest))[k]
        {
          assert !Fires(s.timer, tick, Frames(evs))[k + 1];
        }
        NoRunWhileWindowOpen(s.(timer := n.0), tick, rest);
    }
  }

  /** The collapse, wherever the calls fall: however the calls and the
      frames on which the window's timer does not fire are interleaved, the
      frame on which it fires runs the callback exactly once when a call was
      made during the window (or was already owed), and not at all otherwise. */
  lemma WindowCollapses(s: ThrottleState, tick: int, evs: seq<Event>, ts: int)
    requires Inv(s) && !s.canRun
    requires forall k :: 0 <= k < |Frames(evs)| ==> !Fires(s.timer, tick, Frames(evs))[k]
    requires OnFrame(TimerAfter(s.timer, tick, Frames(evs)), tick, ts).1
    ensures Replay(s, tick, evs + [Frame(ts)]).1 ==
            (if s.callAgainNextTick || CallCount(evs) > 0 then 1 else 0)
  {
    NoRunWhileWindowOpen(s, tick, evs);
    RunsNeverExceedCalls(s, tick, evs);
    var m := Replay(s, tick, evs).0;
    ReplayAppend(s, tick, evs, [Frame(ts)]);
    assert Calls(0) + [Frame(ts)] == [Frame(ts)];
    CallsCollapseIntoOneTrailingRun(m, tick, 0, ts);
  }

  /** The rate bound: once the callback has run and a window has opened
      (its timer just created), no further run happens on any frame less
      than `tick` after the window's start frame (its first frame), whatever
      calls arrive in between. */
  lemma WindowHoldsOffRuns(s: ThrottleState, tick: int, evs: seq<Event>)
    requires Inv(s) && !s.canRun && s.timer == Created(tick)
    requires Frames(evs) != [] ==> Frames(evs)[0] != 0
    requires forall k :: 1 <= k < |Frames(evs)| ==> Frames(evs)[k] - Frames(evs)[0] < tick
    ensures Replay(s, tick, evs).1 == 0
  {
    var fs := Frames(evs);
    forall k | 0 <= k < |fs| ensures !Fires(s.timer, tick, fs)[k] {
      FiresExactlyWhenDue(tick, fs, k);
    }
    NoRunWhileWindowOpen(s, tick, evs);
  }

  /** Three calls, at the start of a window and twice inside it, run the
      callback at once and exactly once more when the window closes. */
  lemma ThreeCallsRunTwice(tick: int)
    requires tick > 0
    ensures Replay(Initial(), tick, [Call, Frame(16), Call, Call, Frame(16 + tick)]).1 == 2
  {
    var e4 := [Frame(16 + tick)];
    var e3 := [Call] + e4;
    var e2 := [Call] + e3;
    var e1 := [Frame(16)] + e2;
    var e0 := [Call] + e1;
    assert e0 == [Call, Frame(16), Call, Call, Frame(16 + tick)];
    var s1 := ThrottleState(false, false, TimerState(None, true));
    var s2 := ThrottleState(false, false, TimerState(Some(16), true));
    var s3 := s2.(callAgainNextTick := true);
    var s5 := ThrottleState(false, false, Created(tick));
    assert Replay(s3, tick, e4) == (s5, 1) by { assert e4[1..] == []; }
    assert Replay(s3, tick, e3) == (s5, 1) by { assert e3[1..] == e4; }
    assert Replay(s2, tick, e2) == (s5, 1) by { assert e2[1..] == e3; }
    assert Replay(s1, tick, e1) == (s5, 1) by { assert e1[1..] == e2; }
    assert Replay(Initial(), tick, e0) == (s5, 2) by { assert e0[1..] == e1; }
  }

  /** A call that lands before the window's start frame is held back like
      the calls inside the window: two calls, a start frame, a third call and
      the frame `tick` later run the callback twice, once at once and once
      when the window closes. */
  lemma EarlyCallRunsOnceAtClose(tick: int)
    requires tick > 0
    ensures Replay(Initial(), tick, [Call, Call, Frame(16), Call, Frame(16 + tick)]).1 == 2
  {
    var window := [Call, Frame(16), Call];
    var first := Called(Initial(), tick);
    assert Frames(window) == [16];
    assert TimerAfter(first.0.timer, tick, [16]) == TimerState(Some(16), true);
    WindowCollapses(first.0, tick, window, 16 + tick);
    ReplayAppend(Initial(), tick, [Call], window + [Frame(16 + tick)]);
    assert [Call] + (window + [Frame(16 + tick)]) == [Call, Call, Frame(16), Call, Frame(16 + tick)];
  }

  /** One throttled wrapper as an object; its closure variables are fields. */
  class Throttle {
    const tick: int
    var canRun: bool
    var callAgainNextTick: bool
    /** The timeout that `loop` last started. */
    var timer: TimerState
    /** How often the wrapper was called and how often the callback ran. */
    ghost var calls: nat
    ghost var runs: nat

    function State(): ThrottleState
      reads this
    {
      ThrottleState(canRun, callAgainNextTick, timer)
    }

    ghost predicate Valid()
      reads this
    {
      Inv(State()) && runs + Owed(State()) <= calls
    }

    /** `throttle(callback, tick)`. */
    constructor (tick: int)
      ensures this.tick == tick && Valid()
      ensures State() == Initial() && calls == 0 && runs == 0
    {
      this.tick := tick;
      canRun := true;
      callAgainNextTick := false;
      timer := TimerState(None, false);
      calls, runs := 0, 0;
    }

    /** The returned wrapper is called. */
    method Call() returns (ran: bool)
      requires Valid()
      modifies this
      ensures Valid()
      ensures (State(), ran) == Called(old(State()), tick)
      ensures calls == old(calls) + 1 && runs == old(runs) + (if ran then 1 else 0)
    {
      calls := calls + 1;
      if canRun {
        canRun := false;
        ran := true;
        runs := runs + 1;
        timer := Created(tick);
      } else {
        callAgainNextTick := true;
        ran := false;
      }
    }

    /** A frame reaches the timer that `loop` started. */
    method OnTimerFrame(timestamp: int) returns (ran: bool)
      requires Valid()
      modifies this
      ensures Valid()
      ensures (State(), ran) == TimerFrame(old(State()), tick, timestamp)
      ensures calls == old(calls) && runs == old(runs) + (if ran then 1 else 0)
    {
      var n := OnFrame(timer, tick, timestamp);
      timer := n.0;
      ran := false;
      if n.1 {
        if callAgainNextTick {
          ran := true;
          runs := runs + 1;
          callAgainNextTick := false;
          timer := Created(tick);
        } else {
          canRun := true;
        }
      }
    }
  }
}
