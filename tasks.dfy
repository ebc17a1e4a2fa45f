/**
 * The platform task runner's side of the event loop in src/main.rs: posting a
 * Flutter task appends `(target_time_nanos, task)` to the `tasks` vector, and
 * after every event the loop runs a `retain` pass that runs each due task,
 * keeps the others in order, and arranges to wake at the earliest remaining
 * target.
 */
module PlatformTasks {
  import opened Wrappers

  /** A `FlutterTask`, opaque to the embedder. */
  type TaskId = nat

  /** One entry of the `tasks` vector. Times are engine nanoseconds. */
  datatype Pending = Pending(target: nat, task: TaskId)

  /** The event loop's control flow, as far as the pass sets it. */
  datatype ControlFlow = Wait | WaitUntil(deadline: nat)

  /** The test inside the `retain` closure. */
  predicate IsDue(p: Pending, now: nat)
  {
    now >= p.target
  }

  /** The entries `retain` keeps, in their order. */
  function Kept(ts: seq<Pending>, now: nat): (r: seq<Pending>)
    ensures |r| <= |ts|
    decreases |ts|
  {
    if ts == [] then []
    else
      var last := ts[|ts| - 1];
      Kept(ts[..|ts| - 1], now) + (if IsDue(last, now) then [] else [last])
  }

  /** The entries the pass runs, in the order it runs them. */
  function Due(ts: seq<Pending>, now: nat): (r: seq<Pending>)
    ensures |r| <= |ts|
    decreases |ts|
  {
    if ts == [] then []
    else
      var last := ts[|ts| - 1];
      Due(ts[..|ts| - 1], now) + (if IsDue(last, now) then [last] else [])
  }

  /** The tasks of a list of entries, in order. */
  function Ids(ps: seq<Pending>): seq<TaskId>
    decreases |ps|
  {
    if ps == [] then [] else Ids(ps[..|ps| - 1]) + [ps[|ps| - 1].task]
  }

  /** The positions in `ts` of the entries the pass keeps. */
  function KeptPositions(ts: seq<Pending>, now: nat): seq<nat>
    decreases |ts|
  {
    if ts == [] then []
    else
      var n := |ts| - 1;
      KeptPositions(ts[..n], now) + (if IsDue(ts[n], now) then [] else [n])
  }

  /**
   * `Kept` keeps the not-yet-due entries in their original relative order:
   * the positions of the kept entries are increasing and each names an entry
   * equal to the kept one.
   */
  lemma {:induction false} KeptPreservesOrder(ts: seq<Pending>, now: nat)
    ensures |KeptPositions(ts, now)| == |Kept(ts, now)|
    ensures forall k :: 0 <= k < |KeptPositions(ts, now)| ==>
              KeptPositions(ts, now)[k] < |ts| && ts[KeptPositions(ts, now)[k]] == Kept(ts, now)[k]
    ensures forall k, l :: 0 <= k < l < |KeptPositions(ts, now)| ==>
              KeptPositions(ts, now)[k] < KeptPositions(ts, now)[l]
    decreases |ts|
  {
    if ts != [] {
      var n := |ts| - 1;
      var pre := ts[..n];
      var ip, kp := KeptPositions(pre, now), Kept(pre, now);
      KeptPreservesOrder(pre, now);
      var idx, kept := KeptPositions(ts, now), Kept(ts, now);
      if !IsDue(ts[n], now) {
        assert idx == ip + [n] && kept == kp + [ts[n]];
        forall k | 0 <= k < |idx|
          ensures idx[k] < |ts| && ts[idx[k]] == kept[k]
        {
          if k < |ip| {
            assert pre[ip[k]] == ts[ip[k]];
          }
        }
      }
    }
  }

  /** Every entry that is not due is among the kept positions. */
  lemma {:induction false} KeptAllNotDue(ts: seq<Pending>, now: nat)
    ensures forall i :: 0 <= i < |ts| && !IsDue(ts[i], now) ==> i in KeptPositions(ts, now)
    decreases |ts|
  {
    if ts != [] {
      var n := |ts| - 1;
      var pre := ts[..n];
      var ip := KeptPositions(pre, now);
      KeptAllNotDue(pre, now);
      var idx := KeptPositions(ts, now);
      assert idx == ip + (if IsDue(ts[n], now) then [] else [n]);
      forall i | 0 <= i < |ts| && !IsDue(ts[i], now)
        ensures i in idx
      {
        if i < n {
          assert pre[i] == ts[i];
        }
      }
    }
  }

  /**
   * The earliest remaining target as a distance from `now`: none exactly
   * when nothing is kept, and otherwise positive (NextDeltaIsMinimum says
   * which distance it is).
   */
  function NextDelta(ts: seq<Pending>, now: nat): (r: Option<nat>)
    ensures r.None? <==> Kept(ts, now) == []
    ensures r.Some? ==> r.value > 0
    decreases |ts|
  {
    if ts == [] then None
    else
      var last := ts[|ts| - 1];
      var rest := NextDelta(ts[..|ts| - 1], now);
      if IsDue(last, now) then rest
      else Some(MinWith(rest, last.target - now))
  }

  /** `min(next, d)` when there is a `next`, else `d`: the accumulator step. */
  function MinWith(acc: Option<nat>, d: nat): nat
  {
    match acc
    case None => d
    case Some(m) => if m <= d then m else d
  }

  /** The wake instant on the monotonic clock, `clock` being `Instant::now()`. */
  function WakeAt(delta: Option<nat>, clock: nat): Option<nat>
  {
    match delta
    case None => None
    case Some(d) => Some(clock + d)
  }

  /** Nothing the pass keeps is due. */
  lemma {:induction false} KeptAreNotDue(ts: seq<Pending>, now: nat)
    ensures forall p :: p in Kept(ts, now) ==> !IsDue(p, now)
    decreases |ts|
  {
    if ts != [] {
      KeptAreNotDue(ts[..|ts| - 1], now);
    }
  }

  /** Everything the pass runs is due. */
  lemma {:induction false} DueAreDue(ts: seq<Pending>, now: nat)
    ensures forall p :: p in Due(ts, now) ==> IsDue(p, now)
    decreases |ts|
  {
    if ts != [] {
      DueAreDue(ts[..|ts| - 1], now);
    }
  }

  /** The wake distance is the least distance of a kept entry from `now`. */
  lemma {:induction false} NextDeltaIsMinimum(ts: seq<Pending>, now: nat)
    requires NextDelta(ts, now).Some?
    ensures forall p :: p in Kept(ts, now) ==> NextDelta(ts, now).value <= p.target - now
    ensures exists p :: p in Kept(ts, now) && NextDelta(ts, now).value == p.target - now
    decreases |ts|
  {
    var n := |ts| - 1;
    var k := Kept(ts[..n], now);
    if NextDelta(ts[..n], now).Some? {
      NextDeltaIsMinimum(ts[..n], now);
    }
    if IsDue(ts[n], now) {
      assert Kept(ts, now) == k;
    } else {
      assert Kept(ts, now) == k + [ts[n]];
    }
  }

  /** Every entry is either kept or run, and none is duplicated or lost. */
  lemma {:induction false} PassPartitions(ts: seq<Pending>, now: nat)
    ensures multiset(Kept(ts, now)) + multiset(Due(ts, now)) == multiset(ts)
    decreases |ts|
  {
    if ts != [] {
      var n := |ts| - 1;
      PassPartitions(ts[..n], now);
      assert ts == ts[..n] + [ts[n]];
      assert multiset(ts) == multiset(ts[..n]) + multiset{ts[n]};
    }
  }

  /** An entry of the input is kept exactly when it is not due, and run
    * exactly when it is. */
  lemma PassSeparatesDue(ts: seq<Pending>, now: nat, p: Pending)
    requires p in ts
    ensures p in Kept(ts, now) <==> !IsDue(p, now)
    ensures p in Due(ts, now) <==> IsDue(p, now)
  {
    PassPartitions(ts, now);
    KeptAreNotDue(ts, now);
    DueAreDue(ts, now);
    assert p in multiset(ts);
  }

  /** A second pass at the same instant runs nothing and keeps everything. */
  lemma {:induction false} PassIsIdempotent(ts: seq<Pending>, now: nat)
    ensures Kept(Kept(ts, now), now) == Kept(ts, now)
    ensures Due(Kept(ts, now), now) == []
    decreases |ts|
  {
    if ts != [] {
      var n := |ts| - 1;
      var k := Kept(ts[..n], now);
      PassIsIdempotent(ts[..n], now);
      if IsDue(ts[n], now) {
        assert Kept(ts, now) == k;
      } else {
        assert Kept(ts, now) == k + [ts[n]];
        var k' := k + [ts[n]];
        assert k'[..|k'| - 1] == k;
        assert Kept(k', now) == Kept(k, now) + [ts[n]];
        assert Due(k', now) == Due(k, now);
      }
    }
  }

  /** How each specification function grows by one entry that is due. */
  lemma PassStepDue(ts: seq<Pending>, x: Pending, now: nat)
    requires IsDue(x, now)
    ensures Kept(ts + [x], now) == Kept(ts, now)
    ensures Ids(Due(ts + [x], now)) == Ids(Due(ts, now)) + [x.task]
    ensures NextDelta(ts + [x], now) == NextDelta(ts, now)
  {
    var tx := ts + [x];
    assert tx[..|tx| - 1] == ts && tx[|tx| - 1] == x;
    var due := Due(ts, now);
    assert Due(tx, now) == due + [x];
    assert (due + [x])[..|due|] == due;
  }

  /** How each specification function grows by one entry that is not due:
    * the wake instant becomes the earlier of the two. */
  lemma PassStepKept(ts: seq<Pending>, x: Pending, now: nat, clock: nat)
    requires !IsDue(x, now)
    ensures Kept(ts + [x], now) == Kept(ts, now) + [x]
    ensures Due(ts + [x], now) == Due(ts, now)
    ensures WakeAt(NextDelta(ts + [x], now), clock) ==
              Some(MinWith(WakeAt(NextDelta(ts, now), clock), clock + (x.target - now)))
  {
    var tx := ts + [x];
    assert tx[..|tx| - 1] == ts && tx[|tx| - 1] == x;
    assert Kept(tx, now) == Kept(ts, now) + [x];
    assert Due(tx, now) == Due(ts, now);
    var d := x.target - now;
    var rest := NextDelta(ts, now);
    assert NextDelta(tx, now) == Some(MinWith(rest, d));
    if rest.Some? {
      assert WakeAt(rest, clock) == Some(clock + rest.value);
    }
  }

  /**
   * One `retain` pass over `tasks` at engine time `now`, with `clock` standing
   * for `Instant::now()`: the entries kept, the tasks run (each with
   * `FlutterEngineRunTask`, in order), and the wake instant accumulated as the
   * minimum of `clock + (target - now)` over the kept entries.
   */
  method RetainPass(tasks: seq<Pending>, now: nat, clock: nat)
    returns (kept: seq<Pending>, ran: seq<TaskId>, next: Option<nat>)
    ensures kept == Kept(tasks, now)
    ensures ran == Ids(Due(tasks, now))
    ensures next == WakeAt(NextDelta(tasks, now), clock)
  {
    kept, ran, next := [], [], None;
    ghost var seen: seq<Pending> := [];
    var i := 0;
    while i < |tasks|
      invariant 0 <= i <= |tasks| && seen == tasks[..i]
      invariant kept == Kept(seen, now)
      invariant ran == Ids(Due(seen, now))
      invariant next == WakeAt(NextDelta(seen, now), clock)
    {
      var entry := tasks[i];
      if now >= entry.target {
        PassStepDue(seen, entry, now);
        ran := ran + [entry.task];
      } else {
        PassStepKept(seen, entry, now, clock);
        var targetTime := clock + (entry.target - now);
        next := Some(MinWith(next, targetTime));
        kept := kept + [entry];
      }
      seen := seen + [entry];
      i := i + 1;
    }
    assert tasks[..i] == tasks;
  }

  /** The state the event-loop closure captures for the platform runner. */
  class PlatformLoop {
    var tasks: seq<Pending>
    var executed: seq<TaskId>      // tasks handed to `FlutterEngineRunTask`, in order
    var controlFlow: ControlFlow

    constructor ()
      ensures tasks == [] && executed == [] && controlFlow == Wait
    {
      tasks, executed, controlFlow := [], [], Wait;
    }

    /** `PlatformEvent::PostFlutterTask`: append, run nothing. */
    method PostTask(target: nat, task: TaskId)
      modifies this`tasks
      ensures tasks == old(tasks) + [Pending(target, task)]
    {
      tasks := tasks + [Pending(target, task)];
    }

    /** The pass that ends every event: due tasks run and leave the vector,
      * the rest stay in order, and the loop waits until the earliest of them;
      * with nothing left the control flow is not touched. */
    method RunDueTasks(now: nat, clock: nat)
      modifies this
      ensures tasks == Kept(old(tasks), now)
      ensures executed == old(executed) + Ids(Due(old(tasks), now))
      ensures NextDelta(old(tasks), now).None? ==> controlFlow == old(controlFlow)
      ensures NextDelta(old(tasks), now).Some? ==>
                controlFlow == WaitUntil(clock + NextDelta(old(tasks), now).value)
    {
      var kept, ran, next := RetainPass(tasks, now, clock);
      executed := executed + ran;
      tasks := kept;
      if next.Some? {
        controlFlow := WaitUntil(next.value);
      }
    }

    /** The closure's whole run for a posted task: the post, then the pass
      * over the list including it. */
    method OnPostFlutterTask(target: nat, task: TaskId, now: nat, clock: nat)
      modifies this
      ensures tasks == Kept(old(tasks) + [Pending(target, task)], now)
      ensures executed == old(executed) + Ids(Due(old(tasks) + [Pending(target, task)], now))
      ensures NextDelta(old(tasks) + [Pending(target, task)], now).None? ==>
                controlFlow == old(controlFlow)
      ensures NextDelta(old(tasks) + [Pending(target, task)], now).Some? ==>
                controlFlow == WaitUntil(clock + NextDelta(old(tasks) + [Pending(target, task)], now).value)
    {
      PostTask(target, task);
      RunDueTasks(now, clock);
    }
  }

  /** Three tasks due at 5, 1 and 10, posted at time 0 out of order; woken at 6,
    * the pass runs the first two, keeps the third and waits until 10. */
  method DueTasksScenario()
  {
    var loop := new PlatformLoop();
    loop.OnPostFlutterTask(5, 1, 0, 0);
    assert Kept([Pending(5, 1)], 0) == [Pending(5, 1)];
    assert loop.controlFlow == WaitUntil(5);
    loop.OnPostFlutterTask(1, 2, 0, 0);
    assert Kept([Pending(5, 1), Pending(1, 2)], 0) == [Pending(5, 1), Pending(1, 2)];
    loop.OnPostFlutterTask(10, 3, 0, 0);
    assert loop.tasks == [Pending(5, 1), Pending(1, 2), Pending(10, 3)];
    assert loop.executed == [];

    loop.RunDueTasks(6, 6);
    assert loop.executed == [1, 2];
    assert loop.tasks == [Pending(10, 3)];
    assert loop.controlFlow == WaitUntil(10);

    // A pass that leaves nothing keeps the deadline already passed.
    loop.RunDueTasks(11, 11);
    assert loop.tasks == [] && loop.controlFlow == WaitUntil(10);
  }
}
