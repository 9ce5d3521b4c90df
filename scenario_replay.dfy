/** What a timeline of steps has done by a given time after activation: the
    steps whose offset has passed, applied in order to the baseline world, and
    their notifications appended to the log. The controller's state is proved
    to equal these functions at every instant. */
module ScenarioReplay {
  import opened WorldState
  import opened Notifications
  import opened ScenarioRegistry

  /** The world after the first `k` steps, starting from the baseline. */
  function RunWorld(steps: seq<Step>, k: nat): World
    requires k <= |steps|
  {
    if k == 0 then Baseline else steps[k - 1].effect.Apply(RunWorld(steps, k - 1))
  }

  /** The log after the first `k` steps of an activation at `t0` whose log was
      `log0` right after activation; each step stamps its notes with the clock
      reading at which it fires. */
  function RunLog(steps: seq<Step>, k: nat, t0: int, log0: seq<Notification>): seq<Notification>
    requires k <= |steps|
  {
    if k == 0 then log0
    else PushAll(RunLog(steps, k - 1, t0, log0), StampAll(steps[k - 1].notes, t0 + steps[k - 1].offset))
  }

  /** How many leading steps are due `e` milliseconds after activation. */
  function DueIn(steps: seq<Step>, e: int): (n: nat)
    ensures n <= |steps|
    ensures forall k :: 0 <= k < n ==> steps[k].offset <= e
    ensures n < |steps| ==> steps[n].offset > e
  {
    if steps == [] || steps[0].offset > e then 0 else 1 + DueIn(steps[1..], e)
  }

  /** On a time-ordered list, exactly the steps before `DueIn` are due. */
  lemma DueInExact(steps: seq<Step>, e: int, m: nat)
    requires StrictlyIncreasing(steps) && m <= |steps|
    requires forall k :: 0 <= k < m ==> steps[k].offset <= e
    requires m < |steps| ==> steps[m].offset > e
    ensures DueIn(steps, e) == m
  {
  }

  /** On a time-ordered list, `m` steps are due once step `m - 1` is and
      step `m` is not. */
  lemma DueInBetween(steps: seq<Step>, e: int, m: nat)
    requires StrictlyIncreasing(steps) && m <= |steps|
    requires m > 0 ==> steps[m - 1].offset <= e
    requires m < |steps| ==> steps[m].offset > e
    ensures DueIn(steps, e) == m
  {
    DueInExact(steps, e, m);
  }

  lemma DueInSplits(steps: seq<Step>, e: int, k: nat)
    requires StrictlyIncreasing(steps) && k < |steps|
    ensures k < DueIn(steps, e) <==> steps[k].offset <= e
  {
  }

  /** Snapshots never go back: later, at least as many steps are due. */
  lemma {:induction false} DueInMonotone(steps: seq<Step>, e1: int, e2: int)
    requires e1 <= e2
    ensures DueIn(steps, e1) <= DueIn(steps, e2)
    decreases |steps|
  {
    if steps != [] && steps[0].offset <= e1 {
      DueInMonotone(steps[1..], e1, e2);
    }
  }

  /** The world `e` milliseconds after activation. */
  function WorldAt(steps: seq<Step>, e: int): World {
    RunWorld(steps, DueIn(steps, e))
  }

  /** The log `e` milliseconds after an activation at `t0`. */
  function LogAt(steps: seq<Step>, e: int, t0: int, log0: seq<Notification>): seq<Notification> {
    RunLog(steps, DueIn(steps, e), t0, log0)
  }

  /** Nothing is due at the activation instant: the world is the baseline. */
  lemma AtActivation(steps: seq<Step>, t0: int, log0: seq<Notification>)
    requires WellTimed(steps)
    ensures WorldAt(steps, 0) == Baseline && LogAt(steps, 0, t0, log0) == log0
  {
    DueInExact(steps, 0, 0);
  }

  // ---------------------------------------------------------------------------
  // Invariants a timeline keeps when each of its steps keeps them.
  // ---------------------------------------------------------------------------

  predicate AllHaltWithZeroSpeed(steps: seq<Step>) {
    forall k :: 0 <= k < |steps| ==> steps[k].effect.HaltsWithZeroSpeed()
  }

  lemma {:induction false} RunHaltsStill(steps: seq<Step>, k: nat)
    requires k <= |steps| && AllHaltWithZeroSpeed(steps)
    ensures HaltsStill(RunWorld(steps, k))
  {
    if k > 0 {
      RunHaltsStill(steps, k - 1);
      EffectKeepsHaltsStill(steps[k - 1].effect, RunWorld(steps, k - 1));
    }
  }

  /** Every metrics snapshot the steps install keeps safety at 99.9. */
  predicate AllKeepSafety(steps: seq<Step>) {
    forall k :: 0 <= k < |steps| && steps[k].effect.metrics.Some? ==> steps[k].effect.metrics.value.safety == 999
  }

  lemma {:induction false} RunSafety(steps: seq<Step>, k: nat)
    requires k <= |steps| && AllKeepSafety(steps)
    ensures RunWorld(steps, k).metrics.safety == 999
  {
    if k > 0 {
      RunSafety(steps, k - 1);
    }
  }

  /** Steps that install no metrics snapshot leave the metrics as they were. */
  lemma {:induction false} MetricsUntouched(steps: seq<Step>, j: nat, k: nat)
    requires j <= k <= |steps|
    requires forall i :: j <= i < k ==> steps[i].effect.metrics.None?
    ensures RunWorld(steps, k).metrics == RunWorld(steps, j).metrics
  {
    if k > j {
      MetricsUntouched(steps, j, k - 1);
    }
  }

  /** A step that sets no signal, no alert and no train's emergency flag. */
  predicate LeavesAlarms(e: Effect) {
    && e.signals == SignalPatch() && e.conflictDetected.None? && e.emergencyActive.None?
    && e.rajdhani.emergency.None? && e.intercity.emergency.None? && e.freight.emergency.None?
  }

  /** Two worlds that agree on the signals, the alerts and the emergency flags. */
  predicate SameAlarms(a: World, b: World) {
    && a.signals == b.signals && a.conflictDetected == b.conflictDetected && a.emergencyActive == b.emergencyActive
    && a.rajdhani.emergency == b.rajdhani.emergency && a.intercity.emergency == b.intercity.emergency
    && a.freight.emergency == b.freight.emergency
  }

  /** Steps that leave the alarms alone keep the signals, alerts and flags
      as they were. */
  lemma {:induction false} AlarmsUntouched(steps: seq<Step>, j: nat, k: nat)
    requires j <= k <= |steps|
    requires forall i :: j <= i < k ==> LeavesAlarms(steps[i].effect)
    ensures SameAlarms(RunWorld(steps, k), RunWorld(steps, j))
  {
    if k > j {
      AlarmsUntouched(steps, j, k - 1);
    }
  }

  lemma {:induction false} RunLogBounded(steps: seq<Step>, k: nat, t0: int, log0: seq<Notification>)
    requires k <= |steps| && |log0| <= Capacity
    ensures |RunLog(steps, k, t0, log0)| <= Capacity
  {
    if k > 0 {
      RunLogBounded(steps, k - 1, t0, log0);
      PushAllNewestFirst(RunLog(steps, k - 1, t0, log0), StampAll(steps[k - 1].notes, t0 + steps[k - 1].offset));
    }
  }

  /** Firing one step on top of a log of at most five entries. */
  lemma FiredNotesNewestFirst(before: seq<Notification>, notes: seq<Payload>, t: int)
    requires |before| <= Capacity
    ensures |PushAll(before, StampAll(notes, t))| == Min(|before| + |notes|, Capacity)
    ensures forall i :: 0 <= i < Min(|notes|, Capacity) ==>
      i < |PushAll(before, StampAll(notes, t))| && PushAll(before, StampAll(notes, t))[i] == Stamp(notes[|notes| - 1 - i], t)
  {
    var ns := StampAll(notes, t);
    var log := PushAll(before, ns);
    PushAllNewestFirst(before, ns);
    assert Min(|notes|, Capacity) <= |log| == Min(|before| + |notes|, Capacity);
    forall i | 0 <= i < Min(|notes|, Capacity)
      ensures i < |log| && log[i] == Stamp(notes[|notes| - 1 - i], t)
    {
      assert i < Min(|ns|, Capacity);
      assert log[i] == ns[|ns| - 1 - i];
    }
  }

  /** After step `k` fires, its notifications head the log in reverse order of
      their appends, all stamped with the step's firing time. */
  lemma StepNotesNewestFirst(steps: seq<Step>, k: nat, t0: int, log0: seq<Notification>)
    requires k < |steps| && |log0| <= Capacity
    ensures var notes := steps[k].notes;
      var log := RunLog(steps, k + 1, t0, log0);
      && |log| == Min(|RunLog(steps, k, t0, log0)| + |notes|, Capacity)
      && forall i :: 0 <= i < Min(|notes|, Capacity) ==>
        i < |log| && log[i] == Stamp(notes[|notes| - 1 - i], t0 + steps[k].offset)
  {
    var before := RunLog(steps, k, t0, log0);
    var notes := steps[k].notes;
    var t := t0 + steps[k].offset;
    var log := RunLog(steps, k + 1, t0, log0);
    assert log == PushAll(before, StampAll(notes, t));
    RunLogBounded(steps, k, t0, log0);
    FiredNotesNewestFirst(before, notes, t);
    assert Min(|notes|, Capacity) <= |log|;
  }
}
