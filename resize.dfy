/**
 * The resize handshake of src/main.rs: the `ResizeState` shared (under a mutex)
 * between the window procedure on the UI thread and the render callbacks
 * `gl_fbo_callback` and `gl_present`. This module holds the state, the effect of
 * each actor on it as a pure transition, and what whole traces of transitions
 * guarantee about the blocked UI thread.
 */
module ResizeSync {

  const I32_MIN: int := -0x8000_0000
  const I32_MAX: int := 0x7FFF_FFFF
  const U32_MODULUS: int := 0x1_0000_0000

  type I32 = x: int | I32_MIN <= x <= I32_MAX

  /** `ResizeState::{Started(u32, u32), FrameGenerated, Done}`. */
  datatype ResizeState = Started(width: nat, height: nat) | FrameGenerated | Done

  /** A Win32 `RECT`, as handed to `WM_NCCALCSIZE` through `lparam`. */
  datatype Rect = Rect(left: I32, top: I32, right: I32, bottom: I32)

  /** `(hi - lo) as u32` on two `i32`s: the difference wraps modulo 2^32 and is
    * read back unsigned. Whenever `hi > lo` this is the exact distance. */
  function WrappingDistance(hi: I32, lo: I32): (d: nat)
    ensures d < U32_MODULUS
    ensures hi > lo ==> d == hi - lo
  {
    (hi - lo) % U32_MODULUS
  }

  /** The guard of the `WM_NCCALCSIZE` branch: window data attached and a rect
    * with positive width and height. */
  predicate AcceptsResize(hasWindowData: bool, r: Rect)
  {
    hasWindowData && r.right > r.left && r.bottom > r.top
  }

  /** `wnd_proc` on `WM_NCCALCSIZE`: the new state under the lock. */
  function OnResize(s: ResizeState, hasWindowData: bool, r: Rect): (t: ResizeState)
    ensures AcceptsResize(hasWindowData, r) ==>
              t == Started(r.right - r.left, r.bottom - r.top)
    ensures !AcceptsResize(hasWindowData, r) ==> t == s
  {
    if AcceptsResize(hasWindowData, r) then
      Started(WrappingDistance(r.right, r.left), WrappingDistance(r.bottom, r.top))
    else
      s
  }

  /** The new state after `gl_fbo_callback`. */
  function FboNext(s: ResizeState): (t: ResizeState)
    ensures s.Started? <==> t.FrameGenerated? && t != s
    ensures !s.Started? ==> t == s
  {
    match s
    case Started(_, _) => FrameGenerated
    case _ => s
  }

  /** What `gl_present` does with the frame: refuse it, or present it with or
    * without a `DwmFlush`. */
  datatype PresentOutcome = Refused | Presented(syncDwm: bool)

  function PresentDecision(s: ResizeState): (o: PresentOutcome)
    ensures o.Refused? <==> s.Started?
    ensures o.Presented? ==> (o.syncDwm <==> s.FrameGenerated?)
  {
    match s
    case Started(_, _) => Refused
    case FrameGenerated => Presented(true)
    case Done => Presented(false)
  }

  /** The new state after `gl_present`. */
  function PresentNext(s: ResizeState): (t: ResizeState)
    ensures t.Done? <==> s.FrameGenerated? || s.Done?
    ensures !s.FrameGenerated? ==> t == s
  {
    if s.FrameGenerated? then Done else s
  }

  /** The condition `wait_while` waits on, negated: the UI thread blocked in
    * `wnd_proc` may return exactly when the state is `Done`. */
  predicate WaiterReleased(s: ResizeState)
  {
    s.Done?
  }

  /** One action of one of the two threads on the shared state. */
  datatype Event = Resize(hasWindowData: bool, rect: Rect) | Fbo | Present

  /** The effect of one event; every transition is one of the four kinds
    * listed, so `Done` is entered only from `FrameGenerated` by a present. */
  function Step(s: ResizeState, e: Event): (t: ResizeState)
    ensures t == s
            || (e.Resize? && t.Started?)
            || (e.Fbo? && s.Started? && t.FrameGenerated?)
            || (e.Present? && s.FrameGenerated? && t.Done?)
    ensures t.Done? && !s.Done? ==> s.FrameGenerated? && e.Present?
  {
    match e
    case Resize(d, r) => OnResize(s, d, r)
    case Fbo => FboNext(s)
    case Present => PresentNext(s)
  }

  /** The state after a whole trace of events, taken in order. */
  function Run(s: ResizeState, evs: seq<Event>): ResizeState
    decreases |evs|
  {
    if evs == [] then s else Run(Step(s, evs[0]), evs[1..])
  }

  lemma RunCons(s: ResizeState, e: Event, evs: seq<Event>, k: nat)
    requires k <= |evs|
    ensures Run(s, ([e] + evs)[..k + 1]) == Run(Step(s, e), evs[..k])
  {
    assert ([e] + evs)[..k + 1] == [e] + evs[..k];
    assert ([e] + evs[..k])[1..] == evs[..k];
  }

  /** The waiter is still blocked after each of the first k + 1 prefixes of a trace. */
  ghost predicate BlockedThrough(s: ResizeState, evs: seq<Event>, k: nat)
    requires k <= |evs|
  {
    forall j :: 0 <= j <= k ==> !WaiterReleased(Run(s, evs[..j]))
  }

  /**
   * A UI thread blocked on a resize (state not `Done`) is released only by a
   * present that finds `FrameGenerated`: in any trace that ends released,
   * there is a first point k at which the state is `FrameGenerated` and the
   * event is a present, and the waiter stays blocked at every point up to k.
   */
  lemma {:induction false} ReleaseOnlyByPresentedFrame(s: ResizeState, evs: seq<Event>)
    requires !WaiterReleased(s)
    requires WaiterReleased(Run(s, evs))
    ensures exists k :: 0 <= k < |evs| && evs[k].Present? && Run(s, evs[..k]).FrameGenerated?
                        && WaiterReleased(Run(s, evs[..k + 1]))
                        && BlockedThrough(s, evs, k)
    decreases |evs|
  {
    if evs != [] {
      var e, rest := evs[0], evs[1..];
      assert evs == [e] + rest;
      var s1 := Step(s, e);
      assert Run(s, evs[..0]) == s;
      if WaiterReleased(s1) {
        RunCons(s, e, rest, 0);
        assert Run(s, evs[..1]) == s1 by { assert Run(s1, rest[..0]) == s1; }
        assert BlockedThrough(s, evs, 0);
      } else {
        ReleaseOnlyByPresentedFrame(s1, rest);
        var kr :| 0 <= kr < |rest| && rest[kr].Present? && Run(s1, rest[..kr]).FrameGenerated?
                   && WaiterReleased(Run(s1, rest[..kr + 1]))
                   && BlockedThrough(s1, rest, kr);
        var k := kr + 1;
        RunCons(s, e, rest, kr);
        RunCons(s, e, rest, k);
        assert evs[k] == rest[kr];
        assert Run(s, evs[..k]).FrameGenerated?;
        assert WaiterReleased(Run(s, evs[..k + 1]));
        forall j | 0 <= j <= k
          ensures !WaiterReleased(Run(s, evs[..j]))
        {
          if j > 0 {
            RunCons(s, e, rest, j - 1);
          }
        }
        assert BlockedThrough(s, evs, k);
      }
    }
  }

  /**
   * The full handshake of one resize: from `Done`, an accepted resize
   * notification, one framebuffer request and one present return to `Done`;
   * the waiter is blocked after the first two and released after the third.
   */
  lemma {:induction false} OneResizeCycle(hasWindowData: bool, r: Rect)
    requires AcceptsResize(hasWindowData, r)
    ensures Run(Done, [Resize(hasWindowData, r)]) == Started(r.right - r.left, r.bottom - r.top)
    ensures Run(Done, [Resize(hasWindowData, r), Fbo]) == FrameGenerated
    ensures Run(Done, [Resize(hasWindowData, r), Fbo, Present]) == Done
    ensures !WaiterReleased(Run(Done, [Resize(hasWindowData, r)]))
    ensures !WaiterReleased(Run(Done, [Resize(hasWindowData, r), Fbo]))
  {
    var st := Started(r.right - r.left, r.bottom - r.top);
    assert Run(Done, [Resize(hasWindowData, r)]) == Run(st, []);
    assert Run(Done, [Resize(hasWindowData, r), Fbo]) == Run(st, [Fbo]) == Run(FrameGenerated, []);
    assert Run(Done, [Resize(hasWindowData, r), Fbo, Present]) == Run(st, [Fbo, Present])
        == Run(FrameGenerated, [Present]) == Run(Done, []);
  }

  /** A transition of the designed cycle `Done -> Started -> FrameGenerated -> Done`,
    * or no change. */
  predicate CycleTransition(s: ResizeState, t: ResizeState)
  {
    t == s || (s.Done? && t.Started?) || (s.Started? && t.FrameGenerated?)
    || (s.FrameGenerated? && t.Done?)
  }

  /**
   * The discipline the code keeps: the only writer of `Started`, the UI
   * thread, blocks after each accepted resize until `Done`, so an accepted
   * resize happens only when the waiter is released.
   */
  ghost predicate ResizesOnlyWhenReleased(s: ResizeState, evs: seq<Event>)
    decreases |evs|
  {
    evs == []
    || ((evs[0].Resize? && AcceptsResize(evs[0].hasWindowData, evs[0].rect) ==> WaiterReleased(s))
        && ResizesOnlyWhenReleased(Step(s, evs[0]), evs[1..]))
  }

  /** Every event of the trace makes a transition of the designed cycle. */
  ghost predicate FollowsCycle(s: ResizeState, evs: seq<Event>)
    decreases |evs|
  {
    evs == [] || (CycleTransition(s, Step(s, evs[0])) && FollowsCycle(Step(s, evs[0]), evs[1..]))
  }

  /** Under that discipline every trace keeps to the designed cycle: an
    * accepted resize never overwrites an in-flight `Started` or
    * `FrameGenerated`. */
  lemma {:induction false} CycleUnderOneWaiter(s: ResizeState, evs: seq<Event>)
    requires ResizesOnlyWhenReleased(s, evs)
    ensures FollowsCycle(s, evs)
    decreases |evs|
  {
    if evs != [] {
      CycleUnderOneWaiter(Step(s, evs[0]), evs[1..]);
    }
  }
}
