/** The landing page's scenario controller. Selecting a scenario cancels every
    pending timer of the previous activation, resets the world to the baseline,
    logs the activation and schedules one timer per step. The clock is
    abstract: `AdvanceTo` plays the event loop, firing due timers earliest
    first. */
module Timeline {
  import opened WorldState
  import opened Notifications
  import opened ScenarioRegistry
  import opened ScenarioReplay

  /** A pending `setTimeout`: its handle, when it is due, and the step its
      callback applies. */
  datatype Timer = Timer(handle: nat, due: int, step: Step)

  /** The timers an activation at `t0` pushes for `steps`, with handles from
      `h0` on. */
  function Scheduled(steps: seq<Step>, t0: int, h0: nat): (r: seq<Timer>)
    ensures |r| == |steps|
    ensures forall k :: 0 <= k < |r| ==> r[k] == Timer(h0 + k, t0 + steps[k].offset, steps[k])
  {
    seq(|steps|, k requires 0 <= k < |steps| => Timer(h0 + k, t0 + steps[k].offset, steps[k]))
  }

  /** The timers of `ts` from position `n` on: those not yet fired. */
  function Pending(ts: seq<Timer>, n: nat): set<Timer>
    requires n <= |ts|
  {
    set i | n <= i < |ts| :: ts[i]
  }

  /** Pushing a timer makes it pending along with the others. */
  lemma PendingPush(ts: seq<Timer>, x: Timer)
    ensures Pending(ts + [x], 0) == Pending(ts, 0) + {x}
  {
    var ts' := ts + [x];
    forall q | q in Pending(ts, 0) + {x}
      ensures q in Pending(ts', 0)
    {
      if q == x {
        assert ts'[|ts|] == x;
      } else {
        var i :| 0 <= i < |ts| && ts[i] == q;
        assert ts'[i] == q;
      }
    }
  }

  /** Firing the timer at position `n` leaves the ones after it pending:
      handles are distinct, so no later timer equals it. */
  lemma PendingAdvance(steps: seq<Step>, t0: int, h0: nat, n: nat)
    requires n < |steps|
    ensures var ts := Scheduled(steps, t0, h0);
      Pending(ts, n) - {ts[n]} == Pending(ts, n + 1)
  {
    var ts := Scheduled(steps, t0, h0);
    forall q | q in Pending(ts, n) - {ts[n]}
      ensures q in Pending(ts, n + 1)
    {
      var i :| n <= i < |ts| && ts[i] == q;
      assert i != n;
    }
    forall q | q in Pending(ts, n + 1)
      ensures q in Pending(ts, n) - {ts[n]}
    {
      var i :| n + 1 <= i < |ts| && ts[i] == q;
      assert q.handle != ts[n].handle;
    }
  }

  /** The timer bookkeeping of an activation at `t0` that scheduled `steps`
      with handles from `h0` on, `fired` of which have run by `now`: the due
      steps are exactly the first `fired`, and the live timers are the rest. */
  ghost predicate Consistent(steps: seq<Step>, t0: int, h0: nat, fired: nat, now: int,
                             timeouts: seq<Timer>, live: set<Timer>)
  {
    && WellTimed(steps)
    && t0 <= now
    && fired <= |steps|
    && (fired > 0 ==> steps[fired - 1].offset <= now - t0)
    && (fired < |steps| ==> steps[fired].offset > now - t0)
    && timeouts == Scheduled(steps, t0, h0)
    && live == Pending(timeouts, fired)
  }

  /** `p` is live and no live timer is due before it. */
  predicate Earliest(p: Timer, live: set<Timer>) {
    p in live && forall q | q in live :: p.due <= q.due
  }

  /** When some live timer is due by `t`, the live timers have an earliest
      one, and it is due by `t`. */
  lemma EarliestExists(steps: seq<Step>, t0: int, h0: nat, fired: nat, now: int,
                       timeouts: seq<Timer>, live: set<Timer>, t: int)
    requires Consistent(steps, t0, h0, fired, now, timeouts, live)
    requires exists p :: p in live && p.due <= t
    ensures fired < |steps|
    ensures exists p :: Earliest(p, live) && p.due <= t
  {
    var p0 :| p0 in live && p0.due <= t;
    var i0 :| fired <= i0 < |timeouts| && timeouts[i0] == p0;
    var first := timeouts[fired];
    assert first in live;
    forall q | q in live
      ensures first.due <= q.due
    {
      var j :| fired <= j < |timeouts| && timeouts[j] == q;
    }
    assert Earliest(first, live);
  }

  /** The earliest live timer is the next step's: due times are distinct. */
  lemma EarliestIsNext(steps: seq<Step>, t0: int, h0: nat, fired: nat, now: int,
                       timeouts: seq<Timer>, live: set<Timer>, p: Timer)
    requires Consistent(steps, t0, h0, fired, now, timeouts, live)
    requires Earliest(p, live)
    ensures fired < |steps| && p == timeouts[fired]
  {
    var j :| fired <= j < |timeouts| && timeouts[j] == p;
    assert timeouts[fired] in live;
  }

  /** Firing the next step's timer at its due time keeps the bookkeeping. */
  lemma FireKeeps(steps: seq<Step>, t0: int, h0: nat, fired: nat, now: int,
                  timeouts: seq<Timer>, live: set<Timer>)
    requires Consistent(steps, t0, h0, fired, now, timeouts, live) && fired < |steps|
    ensures var first := timeouts[fired];
      && first.due == t0 + steps[fired].offset && first.step == steps[fired]
      && now <= first.due
      && Consistent(steps, t0, h0, fired + 1, first.due, timeouts, live - {first})
      && |live - {first}| < |live|
  {
    PendingAdvance(steps, t0, h0, fired);
    assert timeouts[fired] in live;
  }

  /** The clock moving to `t` with no live timer due keeps the bookkeeping. */
  lemma IdleKeeps(steps: seq<Step>, t0: int, h0: nat, fired: nat, now: int,
                  timeouts: seq<Timer>, live: set<Timer>, t: int)
    requires Consistent(steps, t0, h0, fired, now, timeouts, live) && now <= t
    requires forall p | p in live :: p.due > t
    ensures Consistent(steps, t0, h0, fired, t, timeouts, live)
  {
    if fired < |steps| {
      assert timeouts[fired] in live;
    }
  }

  /** The log before the first activation (the initial `useState` value). */
  const InitialLog := [Notification(1, SystemOperational, Success, Low)]

  class ScenarioController {
    var active: string
    var world: World
    var log: seq<Notification>
    var now: int
    /** Timers the event loop still holds. */
    var live: set<Timer>
    /** The `timeouts` array of the current activation. */
    var timeouts: seq<Timer>
    var nextHandle: nat
    /** The steps the current activation scheduled, when it happened, its
        first timer handle and the log right after its activation entry. */
    ghost var script: seq<Step>
    ghost var started: int
    ghost var firstHandle: nat
    ghost var activationLog: seq<Notification>
    /** How many of the activation's steps have fired. */
    ghost var fired: nat

    /** The controller shows exactly what the current activation's timeline
        has done by now, and only its not-yet-due timers are live. */
    ghost predicate Valid()
      reads this`script, this`started, this`firstHandle, this`fired, this`now
      reads this`timeouts, this`live, this`activationLog, this`nextHandle
    {
      && Consistent(script, started, firstHandle, fired, now, timeouts, live)
      && |activationLog| <= Capacity
      && firstHandle + |script| <= nextHandle
    }

    /** The world and the log are what the activation's fired steps made of
        the baseline and of the log right after activation. */
    ghost predicate Shows()
      reads this`world, this`log, this`script, this`fired, this`started, this`activationLog
    {
      fired <= |script|
      && world == RunWorld(script, fired)
      && log == RunLog(script, fired, started, activationLog)
    }

    /** The current activation runs the steps the active id selects. */
    ghost predicate Runs()
      reads this`script, this`active
    {
      script == ScriptFor(active)
    }

    /** Mounting the page: the initial state, then the effect for the
        initial scenario "normal". */
    constructor (clock: int)
      ensures Valid() && Shows() && Runs()
      ensures active == "normal" && now == clock && started == clock
      ensures world == Baseline
      ensures log == Push(InitialLog, Stamp(ActivationNote(Normal), clock))
    {
      active := "normal";
      world := Baseline;
      log := InitialLog;
      now := clock;
      live := {};
      timeouts := [];
      nextHandle := 1;
      script := [];
      started := clock;
      firstHandle := 1;
      activationLog := InitialLog;
      fired := 0;
      new;
      Activate();
    }

    /** The effect body for `active`: reset the world, log the activation and
        schedule the steps. The previous activation's timers are already
        cancelled. */
    method Activate()
      requires live == {} && timeouts == [] && |log| <= Capacity
      modifies this`world, this`log, this`live, this`timeouts, this`nextHandle
      modifies this`script, this`started, this`firstHandle, this`activationLog, this`fired
      ensures Valid() && Shows() && Runs()
      ensures world == Baseline && started == now && firstHandle == old(nextHandle)
      ensures log == match Parse(active)
                     case Some(s) => Push(old(log), Stamp(ActivationNote(s), now))
                     case None => old(log)
    {
      Announce();
      Start();
    }

    /** Reset the world to the baseline and log the activation of a known id. */
    method Announce()
      requires |log| <= Capacity
      modifies this`world, this`log
      ensures world == Baseline && |log| <= Capacity
      ensures log == match Parse(active)
                     case Some(s) => Push(old(log), Stamp(ActivationNote(s), now))
                     case None => old(log)
    {
      world := Baseline;
      match Parse(active) {
        case Some(s) => log := Push(log, Stamp(ActivationNote(s), now));
        case None =>
      }
    }

    /** Schedule the active id's steps from now on; none of them has fired. */
    method Start()
      requires live == {} && timeouts == [] && |log| <= Capacity
      modifies this`live, this`timeouts, this`nextHandle
      modifies this`script, this`started, this`firstHandle, this`activationLog, this`fired
      ensures Valid() && Runs()
      ensures fired == 0 && started == now && activationLog == log && firstHandle == old(nextHandle)
    {
      var steps := ScriptFor(active);
      script := steps;
      started := now;
      firstHandle := nextHandle;
      activationLog := log;
      fired := 0;
      Schedule(steps);
    }

    /** `timeouts.push(setTimeout(callback, offset))` for every step in turn. */
    method Schedule(steps: seq<Step>)
      requires live == {} && timeouts == []
      modifies this`live, this`timeouts, this`nextHandle
      ensures timeouts == Scheduled(steps, now, old(nextHandle))
      ensures nextHandle == old(nextHandle) + |steps|
      ensures live == Pending(timeouts, 0)
    {
      var k := 0;
      while k < |steps|
        invariant 0 <= k <= |steps|
        invariant nextHandle == old(nextHandle) + k && |timeouts| == k
        invariant forall j :: 0 <= j < k ==> timeouts[j] == Timer(old(nextHandle) + j, now + steps[j].offset, steps[j])
        invariant live == Pending(timeouts, 0)
      {
        var timer := Timer(nextHandle, now + steps[k].offset, steps[k]);
        PendingPush(timeouts, timer);
        timeouts := timeouts + [timer];
        live := live + {timer};
        nextHandle := nextHandle + 1;
        k := k + 1;
      }
    }

    /** `clearTimeouts`: clear every timer in `timeouts`, then empty it. */
    method Cancel()
      modifies this`live, this`timeouts
      ensures forall p :: p in live <==> p in old(live) && p !in old(timeouts)
      ensures timeouts == []
    {
      var ts := timeouts;
      var i := 0;
      while i < |ts|
        invariant 0 <= i <= |ts|
        invariant forall p :: p in live <==> p in old(live) && p !in ts[..i]
      {
        assert ts[..i + 1] == ts[..i] + [ts[i]];
        live := live - {ts[i]};
        i := i + 1;
      }
      assert ts[..i] == ts;
      timeouts := [];
    }

    /** A scenario button: a new id runs the old activation's cleanup and then
        the effect for the new id; the id already active re-runs nothing. */
    method Select(id: string)
      requires Valid() && Shows() && Runs()
      modifies this`active, this`world, this`log, this`live, this`timeouts, this`nextHandle
      modifies this`script, this`started, this`firstHandle, this`activationLog, this`fired
      ensures Valid() && Shows() && Runs()
      ensures active == id && now == old(now)
      ensures id == old(active) ==> unchanged(this)
      ensures id != old(active) ==>
        && world == Baseline && started == now
        && live !! old(live)
        && log == match Parse(id)
                  case Some(s) => Push(old(log), Stamp(ActivationNote(s), now))
                  case None => old(log)
    {
      if id != active {
        ghost var oldLive := live;
        ghost var oldNext := nextHandle;
        LogBounded();
        HandlesIssued();
        Cancel();
        assert forall p :: p !in live;
        active := id;
        Activate();
        forall p | p in live
          ensures p !in oldLive
        {
          var k :| 0 <= k < |timeouts| && timeouts[k] == p;
          assert p.handle >= oldNext;
        }
      }
    }

    /** The log never holds more than five entries. */
    lemma LogBounded()
      requires Shows() && |activationLog| <= Capacity
      ensures |log| <= Capacity
    {
      RunLogBounded(script, fired, started, activationLog);
    }

    /** Every live timer is one of the activation's, with a handle issued
        already. */
    lemma HandlesIssued()
      requires Valid()
      ensures forall p :: p in live ==> p in timeouts && p.handle < nextHandle
    {
      forall p | p in live
        ensures p in timeouts && p.handle < nextHandle
      {
        var k :| fired <= k < |timeouts| && timeouts[k] == p;
      }
    }

    /** The event loop runs until the clock reads `t`: every live timer due by
        then fires, earliest first, each at its own due time. */
    method AdvanceTo(t: int)
      requires Valid() && Shows() && now <= t
      modifies this`world, this`log, this`now, this`live, this`fired
      ensures Valid() && Shows() && now == t
      decreases |script| - fired
    {
      if exists p :: p in live && p.due <= t {
        FireNext(t);
        AdvanceTo(t);
      } else {
        Idle(t);
      }
    }

    /** What the controller shows is the timeline replayed up to the current
        instant. */
    lemma ShowsTimeline()
      requires Valid() && Shows()
      ensures world == WorldAt(script, now - started)
      ensures log == LogAt(script, now - started, started, activationLog)
    {
      DueInBetween(script, now - started, fired);
    }

    /** One turn of the event loop: a live timer is due by `t`, so the clock
        moves to the earliest due time and that timer's callback runs. */
    method FireNext(t: int)
      requires Valid() && Shows() && now <= t
      requires exists p :: p in live && p.due <= t
      modifies this`world, this`log, this`now, this`live, this`fired
      ensures Valid() && Shows() && now <= t && fired == old(fired) + 1
    {
      EarliestExists(script, started, firstHandle, fired, now, timeouts, live, t);
      var p :| Earliest(p, live) && p.due <= t;
      EarliestIsNext(script, started, firstHandle, fired, now, timeouts, live, p);
      Fire(p);
    }

    /** Firing the next step's timer: the event loop drops it, then runs its
        callback. */
    method Fire(p: Timer)
      requires Valid() && Shows() && fired < |script| && p == timeouts[fired]
      modifies this`world, this`log, this`now, this`live, this`fired
      ensures Valid() && Shows() && now == p.due && fired == old(fired) + 1
    {
      Tick(p);
      Callback(p);
      assert Consistent(script, started, firstHandle, fired, now, timeouts, live);
    }

    /** The event loop takes the next step's timer off its list and moves the
        clock to its due time. */
    method Tick(p: Timer)
      requires Valid() && fired < |script| && p == timeouts[fired]
      modifies this`now, this`live, this`fired
      ensures Valid() && fired == old(fired) + 1
      ensures now == p.due == started + p.step.offset && p.step == script[old(fired)]
    {
      FireKeeps(script, started, firstHandle, fired, now, timeouts, live);
      now := p.due;
      live := live - {p};
      fired := fired + 1;
    }

    /** The timer's callback: apply the step's effect and log its notes,
        stamped with the current clock reading. */
    method Callback(p: Timer)
      requires 0 < fired <= |script| && p.step == script[fired - 1] && now == started + p.step.offset
      requires world == RunWorld(script, fired - 1) && log == RunLog(script, fired - 1, started, activationLog)
      modifies this`world, this`log
      ensures Shows()
      ensures log == PushAll(old(log), StampAll(p.step.notes, now))
    {
      world := p.step.effect.Apply(world);
      log := PushAll(log, StampAll(p.step.notes, now));
    }

    /** No live timer is due by `t`: the clock just moves on. */
    method Idle(t: int)
      requires Valid() && now <= t
      requires forall p | p in live :: p.due > t
      modifies this`now
      ensures Valid() && now == t
    {
      IdleKeeps(script, started, firstHandle, fired, now, timeouts, live, t);
      now := t;
    }
  }
}
