/** What the four scripts promise: halted trains stand still and safety stays
    at 99.9 whatever runs, what each scenario shows at given times after
    activation, which fields individual steps leave alone, and how a step's
    notifications land in the log. */
module ScenarioProperties {
  import opened WorldState
  import opened Notifications
  import opened ScenarioRegistry
  import opened ScenarioReplay

  /** Every step of every script sets `emergency_stop`, `emergency_hold` or
      `medical_emergency` only together with speed 0, and a nonzero speed only
      together with a status that is not a halt. */
  lemma ScriptsHaltWithZeroSpeed(s: Scenario)
    ensures AllHaltWithZeroSpeed(Script(s))
  {
    match s
    case Normal => NormalHaltRule();
    case Conflict => ConflictHaltRule();
    case Emergency => EmergencyHaltRule();
    case Optimization => OptimizationHaltRule();
  }

  lemma NormalHaltRule()
    ensures AllHaltWithZeroSpeed(NormalScript)
  {
  }

  lemma ConflictHaltRule()
    ensures AllHaltWithZeroSpeed(ConflictScript)
  {
  }

  lemma EmergencyHaltRule()
    ensures AllHaltWithZeroSpeed(EmergencyScript)
  {
  }

  lemma OptimizationHaltRule()
    ensures AllHaltWithZeroSpeed(OptimizationScript)
  {
  }

  /** Every metrics snapshot a script installs keeps safety at 99.9. */
  lemma ScriptsKeepSafety(s: Scenario)
    ensures AllKeepSafety(Script(s))
  {
    var steps := Script(s);
    match s
    case Normal => assert AllKeepSafety(steps);
    case Conflict => assert AllKeepSafety(steps);
    case Emergency => assert AllKeepSafety(steps);
    case Optimization => assert AllKeepSafety(steps);
  }

  /** Whatever scenario runs and however long it has run, no train moves while
      it shows a halt status, and safety reads 99.9, on target. */
  lemma ReachableWorldInvariants(s: Scenario, e: int)
    ensures HaltsStill(WorldAt(Script(s), e))
    ensures WorldAt(Script(s), e).metrics.safety == 999
    ensures OnTarget(WorldAt(Script(s), e).metrics.safety, SafetyTarget)
  {
    ScriptsHaltWithZeroSpeed(s);
    ScriptsKeepSafety(s);
    RunHaltsStill(Script(s), DueIn(Script(s), e));
    RunSafety(Script(s), DueIn(Script(s), e));
  }

  /** Whatever scenario runs and however long it has run, a train flagged as
      an emergency shows a halt status, and while a conflict or an emergency
      is raised some signal is not green. */
  lemma ReachableAlarmsConsistent(s: Scenario, e: int)
    ensures AlarmsConsistent(WorldAt(Script(s), e))
  {
    var k := DueIn(Script(s), e);
    match s
    case Normal => NormalNeverAlarms(k);
    case Conflict => ConflictAlarmsConsistent(k);
    case Emergency => EmergencyAlarmsConsistent(k);
    case Optimization => OptimizationNeverAlarms(k);
  }

  lemma ConflictAlarmsConsistent(k: nat)
    requires k <= |Script(Conflict)|
    ensures AlarmsConsistent(RunWorld(Script(Conflict), k))
    ensures k == |Script(Conflict)| ==> Calm(RunWorld(Script(Conflict), k))
  {
    if k < 2 {
      AlarmsUntouched(Script(Conflict), 0, k);
      BaselineIsCalm();
    } else if k < 5 {
      ConflictRaised(k);
    } else {
      ConflictCleared(k);
    }
  }

  /** From the 4 s step until the 10 s step the conflict is up with S1 red,
      and no train is flagged. */
  lemma ConflictRaised(k: nat)
    requires 2 <= k <= 4
    ensures var w := RunWorld(Script(Conflict), k);
      && w.signals.s1 == Red && w.conflictDetected && !w.emergencyActive
      && !w.rajdhani.emergency && !w.intercity.emergency && !w.freight.emergency
  {
    var steps := Script(Conflict);
    var w2 := RunWorld(steps, 2);
    assert w2.signals.s1 == Red && w2.conflictDetected && !w2.emergencyActive;
    assert !w2.rajdhani.emergency && !w2.intercity.emergency && !w2.freight.emergency;
    AlarmsUntouched(steps, 2, k);
  }

  /** The 10 s step turns S2 green but S1 stays red while the conflict is up;
      the 12 s step clears everything. */
  lemma ConflictCleared(k: nat)
    requires 5 <= k <= 6
    ensures AlarmsConsistent(RunWorld(Script(Conflict), k))
    ensures k == 6 ==> Calm(RunWorld(Script(Conflict), k))
  {
    ConflictRaised(4);
    var w5 := RunWorld(Script(Conflict), 5);
    assert w5.signals.s1 == Red && w5.conflictDetected;
    assert AlarmsConsistent(w5);
  }

  lemma EmergencyAlarmsConsistent(k: nat)
    requires k <= |Script(Emergency)|
    ensures AlarmsConsistent(RunWorld(Script(Emergency), k))
    ensures k == |Script(Emergency)| ==> Calm(RunWorld(Script(Emergency), k))
  {
    if k < 2 {
      AlarmsUntouched(Script(Emergency), 0, k);
      BaselineIsCalm();
    } else if k < 5 {
      EmergencyRaised(k);
    } else {
      EmergencyCleared(k);
    }
  }

  /** From the 4 s step until the 12 s step the Intercity is flagged in
      medical_emergency, the alert is up and S1 is red. */
  lemma EmergencyRaised(k: nat)
    requires 2 <= k <= 4
    ensures var w := RunWorld(Script(Emergency), k);
      && AlarmsConsistent(w) && w.signals.s1 == Red && w.emergencyActive && !w.conflictDetected
      && !w.rajdhani.emergency && !w.freight.emergency
  {
    var steps := Script(Emergency);
    var w2 := RunWorld(steps, 2);
    assert AlarmsConsistent(w2) && w2.signals.s1 == Red && w2.emergencyActive && !w2.conflictDetected;
    assert !w2.rajdhani.emergency && !w2.freight.emergency;
    if k > 2 {
      assert RunWorld(steps, 3) == w2;
    }
    if k > 3 {
      assert RunWorld(steps, 4) == w2;
    }
  }

  /** The 12 s step clears the Intercity's flag while S1 stays red under the
      alert; the 15 s step clears everything. */
  lemma EmergencyCleared(k: nat)
    requires 5 <= k <= 6
    ensures AlarmsConsistent(RunWorld(Script(Emergency), k))
    ensures k == 6 ==> Calm(RunWorld(Script(Emergency), k))
  {
    EmergencyRaised(4);
    var w5 := RunWorld(Script(Emergency), 5);
    assert w5.signals.s1 == Red && !w5.intercity.emergency;
    assert AlarmsConsistent(w5);
  }

  /** Once every timer of a scenario has fired, the world is calm again: all
      signals green, no alert and no train flagged. */
  lemma ScriptsEndCalm(s: Scenario, e: int)
    requires forall k :: 0 <= k < |Script(s)| ==> Script(s)[k].offset <= e
    ensures Calm(WorldAt(Script(s), e))
  {
    ScriptsWellTimed(s);
    DueInExact(Script(s), e, |Script(s)|);
    FinalWorldCalm(s);
  }

  /** The world after a scenario's last step. */
  lemma FinalWorldCalm(s: Scenario)
    ensures Calm(RunWorld(Script(s), |Script(s)|))
  {
    match s
    case Normal => NormalNeverAlarms(|Script(Normal)|);
    case Conflict => ConflictAlarmsConsistent(|Script(Conflict)|);
    case Emergency => EmergencyAlarmsConsistent(|Script(Emergency)|);
    case Optimization => OptimizationNeverAlarms(|Script(Optimization)|);
  }

  /** Only the end of the optimization scenario puts all four metrics on
      target; no other reachable world does. */
  lemma AllOnTargetOnlyWhenOptimized(s: Scenario, e: int)
    ensures AllOnTarget(WorldAt(Script(s), e).metrics) <==> s == Optimization && e >= 15000
  {
    match s
    case Normal => NormalNeverAllOnTarget(e);
    case Conflict => ConflictNeverAllOnTarget(e);
    case Emergency => EmergencyNeverAllOnTarget(e);
    case Optimization => OptimizationOnTargetFrom(e);
  }

  lemma NormalNeverAllOnTarget(e: int)
    ensures !AllOnTarget(WorldAt(Script(Normal), e).metrics)
  {
    NormalKeepsMetrics(DueIn(Script(Normal), e));
  }

  lemma ConflictNeverAllOnTarget(e: int)
    ensures !AllOnTarget(WorldAt(Script(Conflict), e).metrics)
  {
    var steps := Script(Conflict);
    var k := DueIn(steps, e);
    if k < 2 { assert RunWorld(steps, 1).metrics == BaselineMetrics; }
    else if k < 6 { ConflictMetricsDuring(k); }
    else { assert RunWorld(steps, 6).metrics == Metrics(928, 964, 999, 847); }
  }

  lemma EmergencyNeverAllOnTarget(e: int)
    ensures !AllOnTarget(WorldAt(Script(Emergency), e).metrics)
  {
    var steps := Script(Emergency);
    var k := DueIn(steps, e);
    if k < 2 { assert RunWorld(steps, 1).metrics == BaselineMetrics; }
    else if k < 6 { EmergencyMetricsDuring(k); }
    else { assert RunWorld(steps, 6).metrics == Metrics(887, 915, 999, 789); }
  }

  lemma OptimizationOnTargetFrom(e: int)
    ensures AllOnTarget(WorldAt(Script(Optimization), e).metrics) <==> e >= 15000
  {
    var steps := Script(Optimization);
    ScriptsWellTimed(Optimization);
    var k := DueIn(steps, e);
    DueInSplits(steps, e, 5);
    if e < 15000 {
      OptimizationMetricsBefore(k);
    } else {
      OptimizationMetricsAfter(k);
    }
  }

  lemma NormalKeepsMetrics(k: nat)
    requires k <= |Script(Normal)|
    ensures RunWorld(Script(Normal), k).metrics == BaselineMetrics
  {
    MetricsUntouched(Script(Normal), 0, k);
  }

  lemma ConflictMetricsDuring(k: nat)
    requires 2 <= k < 6
    ensures RunWorld(Script(Conflict), k).metrics == Metrics(765, 892, 999, 651)
  {
    MetricsUntouched(Script(Conflict), 2, k);
  }

  lemma EmergencyMetricsDuring(k: nat)
    requires 2 <= k < 6
    ensures RunWorld(Script(Emergency), k).metrics == Metrics(583, 721, 999, 352)
  {
    MetricsUntouched(Script(Emergency), 2, k);
  }

  lemma OptimizationMetricsBefore(k: nat)
    requires k < 6
    ensures RunWorld(Script(Optimization), k).metrics == BaselineMetrics
  {
    MetricsUntouched(Script(Optimization), 0, k);
  }

  lemma OptimizationMetricsAfter(k: nat)
    requires 6 <= k <= 7
    ensures RunWorld(Script(Optimization), k).metrics == Metrics(978, 991, 999, 951)
  {
    MetricsUntouched(Script(Optimization), 6, k);
  }

  /** From 4 s until the 6 s rerouting step, the conflict scenario shows the
      detected conflict: S1 red, S2 yellow, the Rajdhani stopped dead. */
  lemma ConflictDetectedWindow(e: int)
    requires 4000 <= e < 6000
    ensures var w := WorldAt(Script(Conflict), e);
      && w.signals.s1 == Red && w.signals.s2 == Yellow
      && w.rajdhani.speed == 0 && w.rajdhani.status == EmergencyStop
      && w.metrics.efficiency == 765 && w.conflictDetected
  {
    ScriptsWellTimed(Conflict);
    DueInExact(Script(Conflict), e, 2);
  }

  /** From 12 s on, the conflict is resolved for good. */
  lemma ConflictResolvedAfter(e: int)
    requires e >= 12000
    ensures var w := WorldAt(Script(Conflict), e);
      && w.signals == AllGreen && w.metrics.efficiency == 928
      && w.rajdhani.status == NormalOperations && w.rajdhani.speed == 140
      && !w.rajdhani.rerouting && !w.conflictDetected
  {
    ScriptsWellTimed(Conflict);
    DueInExact(Script(Conflict), e, 6);
  }

  /** From 4 s until the 12 s clearance, every signal is red, every train
      stands still and the Intercity carries the medical emergency. */
  lemma EmergencyHaltWindow(e: int)
    requires 4000 <= e < 12000
    ensures var w := WorldAt(Script(Emergency), e);
      && w.signals == Signals(Red, Red, Red)
      && w.rajdhani.speed == 0 && w.intercity.speed == 0 && w.freight.speed == 0
      && w.intercity.status == MedicalEmergency && w.intercity.emergency
      && w.emergencyActive
  {
    ScriptsWellTimed(Emergency);
    if e < 6000 {
      DueInExact(Script(Emergency), e, 2);
    } else if e < 9000 {
      DueInExact(Script(Emergency), e, 3);
    } else {
      DueInExact(Script(Emergency), e, 4);
    }
  }

  /** From 12 s the Intercity's emergency flag is off; from 15 s all signals are
      green again and the emergency alert is cleared. */
  lemma EmergencyResolvedAfter(e: int)
    requires e >= 12000
    ensures !WorldAt(Script(Emergency), e).intercity.emergency
    ensures e >= 15000 ==>
      WorldAt(Script(Emergency), e).signals == AllGreen && !WorldAt(Script(Emergency), e).emergencyActive
  {
    ScriptsWellTimed(Emergency);
    if e < 15000 {
      DueInExact(Script(Emergency), e, 5);
    } else {
      DueInExact(Script(Emergency), e, 6);
    }
  }

  /** The normal scenario never raises anything: every signal stays green,
      no alert goes up and no train is flagged. */
  lemma NormalNeverAlarms(k: nat)
    requires k <= |Script(Normal)|
    ensures Calm(RunWorld(Script(Normal), k))
  {
    var steps := Script(Normal);
    assert forall i :: 0 <= i < |steps| ==> LeavesAlarms(steps[i].effect);
    AlarmsUntouched(steps, 0, k);
    BaselineIsCalm();
  }

  /** Nor does the optimization scenario. */
  lemma OptimizationNeverAlarms(k: nat)
    requires k <= |Script(Optimization)|
    ensures Calm(RunWorld(Script(Optimization), k))
  {
    var steps := Script(Optimization);
    assert forall i :: 0 <= i < |steps| ==> LeavesAlarms(steps[i].effect);
    AlarmsUntouched(steps, 0, k);
    BaselineIsCalm();
  }

  /** The conflict scenario's 2 s step moves only the Rajdhani and the
      Intercity: freight, signals, metrics and alerts carry over. */
  lemma ConflictApproachFrame(w: World)
    ensures var w' := Script(Conflict)[0].effect.Apply(w);
      && w'.freight == w.freight && w'.signals == w.signals && w'.metrics == w.metrics
      && w'.conflictDetected == w.conflictDetected && w'.emergencyActive == w.emergencyActive
      && w'.rajdhani == w.rajdhani.(x := 350, status := ApproachingJunction)
      && w'.intercity == w.intercity.(x := 550, status := ApproachingJunction)
  {
  }

  /** The emergency scenario's 2 s step moves only the Intercity. */
  lemma EmergencyApproachFrame(w: World)
    ensures var w' := Script(Emergency)[0].effect.Apply(w);
      && w'.rajdhani == w.rajdhani && w'.freight == w.freight
      && w'.signals == w.signals && w'.metrics == w.metrics
      && w'.conflictDetected == w.conflictDetected && w'.emergencyActive == w.emergencyActive
      && w'.intercity == w.intercity.(x := 450, status := ApproachingPlatform)
  {
  }

  /** The conflict's 6 s step logs two entries: the signal change ends up above
      the resolution decision. */
  lemma ConflictResolutionLogOrder(t0: int, log0: seq<Notification>)
    requires |log0| <= Capacity
    ensures var log := RunLog(Script(Conflict), 3, t0, log0);
      && |log| >= 2
      && log[0] == Notification(t0 + 6000, SignalS1Proceed, Info, Medium)
      && log[1] == Notification(t0 + 6000, ReroutingDecision, Warning, High)
  {
    StepNotesNewestFirst(Script(Conflict), 2, t0, log0);
  }

  /** The optimization's 12 s step logs four arrivals: the last appended is on
      top, the allocation summary fourth, and one older entry survives. */
  lemma OptimizationArrivalLogOrder(t0: int, log0: seq<Notification>)
    requires |log0| <= Capacity
    ensures var log := RunLog(Script(Optimization), 5, t0, log0);
      && |log| == Capacity
      && log[0].message == FreightArrivedPf3
      && log[1].message == IntercityArrivedPf2
      && log[2].message == RajdhaniArrivedPf1
      && log[3].message == AllocationSuccessful
  {
    var steps := Script(Optimization);
    StepNotesNewestFirst(steps, 3, t0, log0);
    ArrivalsHeadLog(RunLog(steps, 4, t0, log0), steps[4].notes, t0 + steps[4].offset);
  }

  /** The 12 s step's four notes on top of a log that already holds one. */
  lemma ArrivalsHeadLog(before: seq<Notification>, notes: seq<Payload>, t: int)
    requires 1 <= |before| <= Capacity
    requires notes == [Payload(AllocationSuccessful, Success, High), Payload(RajdhaniArrivedPf1, Success, Low),
                       Payload(IntercityArrivedPf2, Success, Low), Payload(FreightArrivedPf3, Success, Low)]
    ensures var log := PushAll(before, StampAll(notes, t));
      && |log| == Capacity
      && log[0].message == FreightArrivedPf3
      && log[1].message == IntercityArrivedPf2
      && log[2].message == RajdhaniArrivedPf1
      && log[3].message == AllocationSuccessful
  {
    FiredNotesNewestFirst(before, notes, t);
  }
}
