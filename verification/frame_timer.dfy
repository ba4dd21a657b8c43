/**
 * The frame-paced timeout (`timeout` in js/scrollAnimation.js). A call records
 * nothing and asks for an animation frame; the first frame records its
 * timestamp as the start; every later frame either asks for one more frame or,
 * once at least `tick` milliseconds have passed since the start, runs the
 * callback and asks for nothing more. The browser is reduced to frame events
 * that carry an integer timestamp.
 */
module FrameTimer {
  import opened Wrappers

  /** The two variables one `timeout` call closes over: `start` (None while it
      is undefined) and whether a frame request (`animationFlag`) is live. */
  datatype TimerState = TimerState(start: Option<int>, pending: bool)

  /** JavaScript's `!start`: true while start is undefined, and also when the
      recorded timestamp happens to be 0. */
  predicate Unset(start: Option<int>)
  {
    start.None? || start.value == 0
  }

  /** One run of the inner `step` function with the given timestamp (None is
      the undefined argument of the first, direct call). The boolean says
      whether the callback ran; the new `pending` says whether another frame was
      requested. An undefined timestamp after a start was recorded gives a NaN
      progress, which is never below `tick`. */
  function Step(t: TimerState, tick: int, timestamp: Option<int>): (r: (TimerState, bool))
    ensures r.1 <==> !r.0.pending
    ensures r.1 ==> !Unset(t.start) && r.0.start == t.start
  {
    if Unset(t.start) then (TimerState(timestamp, true), false)
    else if timestamp.Some? && timestamp.value - t.start.value < tick then (TimerState(t.start, true), false)
    else (TimerState(t.start, false), true)
  }

  /** The timer state `timeout(callback, tick)` leaves behind when it returns:
      `step()` has run once with an undefined timestamp, recorded no start and
      requested a frame. */
  function Created(tick: int): (t: TimerState)
    ensures t.pending && Unset(t.start)
  {
    Step(TimerState(None, false), tick, None).0
  }

  /** The direct `step()` call inside `timeout` never runs the callback. */
  lemma CreationNeverRuns(tick: int)
    ensures !Step(TimerState(None, false), tick, None).1
  {
  }

  /** An animation frame with timestamp `timestamp`: only a live request makes
      the browser call `step`. */
  function OnFrame(t: TimerState, tick: int, timestamp: int): (r: (TimerState, bool))
    ensures !t.pending ==> r == (t, false)
    ensures r.1 ==> t.pending && !r.0.pending
    ensures t.pending && !r.1 ==> r.0.pending
  {
    if !t.pending then (t, false) else Step(t, tick, Some(timestamp))
  }

  /** The function `timeout` returns: it cancels the outstanding frame request. */
  function Cancelled(t: TimerState): (r: TimerState)
    ensures !r.pending && r.start == t.start
  {
    t.(pending := false)
  }

  /** For each of a run of frames, whether the callback ran in that frame. */
  function Fires(t: TimerState, tick: int, ts: seq<int>): (r: seq<bool>)
    ensures |r| == |ts|
    decreases |ts|
  {
    if ts == [] then []
    else
      var n := OnFrame(t, tick, ts[0]);
      [n.1] + Fires(n.0, tick, ts[1..])
  }

  /** How many entries of `bs` are true. */
  function Count(bs: seq<bool>): nat
  {
    if bs == [] then 0 else (if bs[0] then 1 else 0) + Count(bs[1..])
  }

  /** Frame `k` is the first frame after the start frame `ts[0]` whose distance
      from it reaches `tick`. */
  predicate FirstDue(ts: seq<int>, tick: int, k: nat)
    requires k < |ts|
  {
    1 <= k && ts[k] - ts[0] >= tick && forall j :: 1 <= j < k ==> ts[j] - ts[0] < tick
  }

  /** A timer with no live request never runs its callback again. */
  lemma {:induction false} IdleNeverFires(t: TimerState, tick: int, ts: seq<int>)
    requires !t.pending
    ensures forall k :: 0 <= k < |ts| ==> !Fires(t, tick, ts)[k]
    ensures Count(Fires(t, tick, ts)) == 0
    decreases |ts|
  {
    if ts != [] {
      IdleNeverFires(t, tick, ts[1..]);
    }
  }

  /** Whatever frames arrive, the callback runs at most once, and not at all
      once the request is gone (after firing or after cancellation). */
  lemma {:induction false} AtMostOnce(t: TimerState, tick: int, ts: seq<int>)
    ensures Count(Fires(t, tick, ts)) <= if t.pending then 1 else 0
    decreases |ts|
  {
    if ts != [] {
      var n := OnFrame(t, tick, ts[0]);
      if n.1 {
        IdleNeverFires(n.0, tick, ts[1..]);
      } else {
        AtMostOnce(n.0, tick, ts[1..]);
      }
    }
  }

  /** Cancelling before the callback ran means it never runs. */
  lemma CancelledNeverFires(t: TimerState, tick: int, ts: seq<int>)
    ensures forall k :: 0 <= k < |ts| ==> !Fires(Cancelled(t), tick, ts)[k]
  {
  }

  /** Once a nonzero start is recorded, the callback runs in exactly the first
      frame whose distance from the start reaches `tick`. */
  lemma {:induction false} FiresWhenDueFrom(s0: int, tick: int, ts: seq<int>, k: nat)
    requires s0 != 0 && k < |ts|
    ensures Fires(TimerState(Some(s0), true), tick, ts)[k] <==>
            ts[k] - s0 >= tick && forall j :: 0 <= j < k ==> ts[j] - s0 < tick
    decreases k
  {
    var t := TimerState(Some(s0), true);
    var n := OnFrame(t, tick, ts[0]);
    assert Fires(t, tick, ts) == [n.1] + Fires(n.0, tick, ts[1..]);
    if k > 0 {
      if n.1 {
        IdleNeverFires(n.0, tick, ts[1..]);
        assert !Fires(n.0, tick, ts[1..])[k - 1];
      } else {
        assert n.0 == t;
        FiresWhenDueFrom(s0, tick, ts[1..], k - 1);
        forall j | 0 <= j < k - 1 ensures ts[1..][j] == ts[j + 1] { }
        assert (forall j :: 0 <= j < k ==> ts[j] - s0 < tick) <==>
               ts[0] - s0 < tick && forall j :: 0 <= j < k - 1 ==> ts[1..][j] - s0 < tick;
      }
    }
  }

  /** The promise of `timeout`: it never runs the callback while it is being
      called; given frames whose first timestamp is nonzero, the callback runs
      in exactly one frame, the first after the start frame that is at least
      `tick` later (so even a `tick` of 0 waits for a second frame), and after
      it no further frame is requested. */
  lemma FiresExactlyWhenDue(tick: int, ts: seq<int>, k: nat)
    requires k < |ts| && ts[0] != 0
    ensures !Step(TimerState(None, false), tick, None).1
    ensures Fires(Created(tick), tick, ts)[k] <==> FirstDue(ts, tick, k)
    ensures Count(Fires(Created(tick), tick, ts)) <= 1
  {
    var t := Created(tick);
    var n := OnFrame(t, tick, ts[0]);
    assert n == (TimerState(Some(ts[0]), true), false);
    assert Fires(t, tick, ts) == [false] + Fires(n.0, tick, ts[1..]);
    AtMostOnce(t, tick, ts);
    if k > 0 {
      FiresWhenDueFrom(ts[0], tick, ts[1..], k - 1);
      forall j | 0 <= j < k - 1 ensures ts[1..][j] == ts[j + 1] { }
      assert (forall j :: 1 <= j < k ==> ts[j] - ts[0] < tick) <==>
             forall j :: 0 <= j < k - 1 ==> ts[1..][j] - ts[0] < tick by {
        forall j | 1 <= j < k ensures ts[j] == ts[1..][j - 1] { }
      }
    }
  }

  /** One call of `timeout`, as an object: its closure variables are fields and
      the browser delivers frames by calling `Frame`. */
  class FrameTimeout {
    const tick: int
    var start: Option<int>
    var pending: bool
    /** How many times the callback has run. */
    ghost var calls: nat

    function State(): TimerState
      reads this
    {
      TimerState(start, pending)
    }

    /** The callback runs at most once, and never while a frame is still requested. */
    ghost predicate Valid()
      reads this
    {
      calls + (if pending then 1 else 0) <= 1
    }

    /** `timeout(callback, tick)`: runs `step` once directly. */
    constructor (tick: int)
      ensures this.tick == tick && Valid()
      ensures State() == Created(tick) && calls == 0
    {
      this.tick := tick;
      start := None;
      pending := false;
      calls := 0;
      new;
      var fire := RunStep(None);
    }

    /** The body of `step`. */
    method RunStep(timestamp: Option<int>) returns (fire: bool)
      modifies this
      ensures (State(), fire) == Step(old(State()), tick, timestamp)
      ensures calls == old(calls) + (if fire then 1 else 0)
    {
      fire := false;
      if Unset(start) {
        start := timestamp;
        pending := true;
        return;
      }
      if timestamp.Some? && timestamp.value - start.value < tick {
        pending := true;
        return;
      }
      pending := false;
      fire := true;
      calls := calls + 1;
    }

    /** An animation frame arrives. */
    method Frame(timestamp: int) returns (fire: bool)
      requires Valid()
      modifies this
      ensures Valid()
      ensures (State(), fire) == OnFrame(old(State()), tick, timestamp)
      ensures calls == old(calls) + (if fire then 1 else 0)
    {
      if !pending {
        return false;
      }
      fire := RunStep(Some(timestamp));
    }

    /** The cancel function `timeout` returns: `cancelAnimationFrame(animationFlag)`. */
    method Cancel()
      requires Valid()
      modifies this
      ensures Valid() && calls == old(calls)
      ensures State() == Cancelled(old(State()))
    {
      pending := false;
    }
  }
}
