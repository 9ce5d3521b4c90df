/** The four scripted scenarios of the landing page. Each is a list of steps;
    a step fires a fixed number of milliseconds after activation, appends its
    notifications to the log and applies its effect to the world. */
module ScenarioRegistry {
  import opened WorldState
  import opened Notifications

  datatype Scenario = Normal | Conflict | Emergency | Optimization

  datatype Step = Step(offset: nat, notes: seq<Payload>, effect: Effect)

  /** The id the scenario buttons pass to `setActiveScenario`. */
  function Name(s: Scenario): string {
    match s
    case Normal => "normal"
    case Conflict => "conflict"
    case Emergency => "emergency"
    case Optimization => "optimization"
  }

  /** The `switch` on the active id: one of the four ids picks its scenario,
      any other id matches no case. */
  function Parse(id: string): (r: Option<Scenario>)
    ensures forall s :: r == Some(s) <==> id == Name(s)
  {
    if id == "normal" then Some(Normal)
    else if id == "conflict" then Some(Conflict)
    else if id == "emergency" then Some(Emergency)
    else if id == "optimization" then Some(Optimization)
    else None
  }

  /** Logged synchronously when the scenario is activated. */
  function ActivationNote(s: Scenario): Payload {
    match s
    case Normal => Payload(NormalActive, Success, Low)
    case Conflict => Payload(ConflictInit, Info, Medium)
    case Emergency => Payload(EmergencyInit, Warning, High)
    case Optimization => Payload(OptimizationInit, Info, Medium)
  }

  /** Each scenario announces itself with its own message, so the activation
      entry at the head of the log tells which scenario started. */
  lemma ActivationNotesDistinct(s: Scenario, s': Scenario)
    ensures ActivationNote(s).message == ActivationNote(s').message ==> s == s'
  {
  }

  const NormalScript: seq<Step> := [
    Step(1000, [Payload(AllProceeding, Success, Low)],
      Effect(
        rajdhani := TrainPatch(x := Some(250), speed := Some(140), status := Some(ExpressService)),
        intercity := TrainPatch(x := Some(600), speed := Some(95), status := Some(PassengerService)),
        freight := TrainPatch(x := Some(200), speed := Some(60), status := Some(CargoTransport)))),
    Step(4000, [Payload(ApproachingHub, Info, Low)],
      Effect(
        rajdhani := TrainPatch(x := Some(450), status := Some(ApproachingCentralHub)),
        intercity := TrainPatch(x := Some(450), status := Some(ApproachingCentralHub)),
        freight := TrainPatch(x := Some(400), status := Some(ApproachingCentralHub)))),
    Step(7000, [Payload(PlatformAllocation, Success, Medium)],
      Effect(
        rajdhani := TrainPatch(x := Some(480), platformStop := Some(true), status := Some(Platform1Service)),
        intercity := TrainPatch(x := Some(480), platformStop := Some(true), status := Some(Platform2Service)),
        freight := TrainPatch(x := Some(480), platformStop := Some(true), status := Some(Platform3Service)))),
    Step(11000, [Payload(AllDeparting, Success, Low)],
      Effect(
        rajdhani := TrainPatch(x := Some(600), platformStop := Some(false), status := Some(DepartingToMumbai)),
        intercity := TrainPatch(x := Some(300), platformStop := Some(false), status := Some(DepartingToDelhi)),
        freight := TrainPatch(x := Some(650), platformStop := Some(false), status := Some(ContinuingRoute)))),
    Step(15000, [Payload(NormalCycleComplete, Success, Low)],
      Effect(
        rajdhani := TrainPatch(x := Some(120), status := Some(NormalOperations)),
        intercity := TrainPatch(x := Some(700), status := Some(NormalOperations)),
        freight := TrainPatch(x := Some(120), status := Some(NormalOperations))))
  ]

  const ConflictScript: seq<Step> := [
    Step(2000, [Payload(ApproachingJunctionB, Warning, Medium)],
      Effect(
        rajdhani := TrainPatch(x := Some(350), status := Some(ApproachingJunction)),
        intercity := TrainPatch(x := Some(550), status := Some(ApproachingJunction)))),
    Step(4000, [Payload(ConflictAlarm, Error, Critical)],
      Effect(
        rajdhani := TrainPatch(speed := Some(0), status := Some(EmergencyStop), x := Some(350)),
        intercity := TrainPatch(speed := Some(40), status := Some(ReducedSpeed), x := Some(500)),
        signals := SignalPatch(s1 := Some(Red), s2 := Some(Yellow)),
        metrics := Some(Metrics(765, 892, 999, 651)),
        conflictDetected := Some(true))),
    Step(6000, [Payload(ReroutingDecision, Warning, High),
                Payload(SignalS1Proceed, Info, Medium)],
      Effect(
        rajdhani := TrainPatch(rerouting := Some(true), track := Some(2), status := Some(ReroutingTrack2), speed := Some(80)))),
    Step(8000, [Payload(RajdhaniSwitched, Success, Medium)],
      Effect(
        rajdhani := TrainPatch(x := Some(450), y := Some(190), track := Some(2), status := Some(ProceedingTrack2), speed := Some(120)))),
    Step(10000, [Payload(IntercityCleared, Success, Medium)],
      Effect(
        intercity := TrainPatch(speed := Some(95), status := Some(ProceedingClear), x := Some(350)),
        signals := SignalPatch(s2 := Some(Green)))),
    Step(12000, [Payload(ConflictResolved, Success, High)],
      Effect(
        rajdhani := TrainPatch(status := Some(NormalOperations), speed := Some(140), rerouting := Some(false)),
        intercity := TrainPatch(status := Some(NormalOperations), speed := Some(95)),
        signals := ToAllGreen,
        metrics := Some(Metrics(928, 964, 999, 847)),
        conflictDetected := Some(false)))
  ]

  const EmergencyScript: seq<Step> := [
    Step(2000, [Payload(IntercityApproachingPf3, Info, Low)],
      Effect(
        intercity := TrainPatch(x := Some(450), status := Some(ApproachingPlatform)))),
    Step(4000, [Payload(MedicalAlarm, Error, Critical),
                Payload(EmergencyProtocol, Error, Critical)],
      Effect(
        rajdhani := TrainPatch(speed := Some(0), status := Some(EmergencyHold), x := Some(300)),
        intercity := TrainPatch(speed := Some(0), status := Some(MedicalEmergency), x := Some(480),
                                platformStop := Some(true), emergency := Some(true)),
        freight := TrainPatch(speed := Some(0), status := Some(EmergencyHold), x := Some(200)),
        signals := SignalPatch(Some(Red), Some(Red), Some(Red)),
        metrics := Some(Metrics(583, 721, 999, 352)),
        emergencyActive := Some(true))),
    Step(6000, [Payload(MedicalTeamDispatched, Warning, High),
                Payload(TrafficHalted, Warning, High)],
      Effect()),
    Step(9000, [Payload(MedicalTeamOnSite, Info, Medium),
                Payload(PreparingEvacuation, Info, Medium)],
      Effect()),
    Step(12000, [Payload(PatientStabilized, Success, Medium),
                 Payload(IntercityClearedToDepart, Success, Medium)],
      Effect(
        intercity := TrainPatch(speed := Some(30), status := Some(CautiousDeparture),
                                emergency := Some(false), platformStop := Some(false)),
        freight := TrainPatch(speed := Some(40), status := Some(ProceedingCaution)),
        signals := SignalPatch(s2 := Some(Green), s3 := Some(Green)))),
    Step(15000, [Payload(EmergencyResolved, Success, High)],
      Effect(
        rajdhani := TrainPatch(speed := Some(140), status := Some(NormalOperations)),
        intercity := TrainPatch(speed := Some(95), status := Some(NormalOperations)),
        freight := TrainPatch(speed := Some(60), status := Some(NormalOperations)),
        signals := ToAllGreen,
        metrics := Some(Metrics(887, 915, 999, 789)),
        emergencyActive := Some(false)))
  ]

  const OptimizationScript: seq<Step> := [
    Step(2000, [Payload(Pf2Problem, Warning, High),
                Payload(CurrentRoutes, Warning, Medium)],
      Effect(
        rajdhani := TrainPatch(x := Some(350), track := Some(1), y := Some(110), status := Some(HeadingToPlatform2), speed := Some(140)),
        intercity := TrainPatch(x := Some(500), track := Some(2), y := Some(190), status := Some(HeadingToPlatform2), speed := Some(95)),
        freight := TrainPatch(x := Some(300), track := Some(3), y := Some(270), status := Some(HeadingToPlatform2), speed := Some(60)))),
    Step(5000, [Payload(Pf2Overload, Error, High),
                Payload(Calculating, Info, Medium)],
      Effect(
        rajdhani := TrainPatch(x := Some(420), status := Some(ConflictDetectedPf2)),
        intercity := TrainPatch(x := Some(450), status := Some(ConflictDetectedPf2)),
        freight := TrainPatch(x := Some(400), status := Some(ConflictDetectedPf2)))),
    Step(7000, [Payload(SolutionFound, Success, High),
                Payload(NewAllocation, Success, Medium),
                Payload(ExecutingRerouting, Info, Medium)],
      Effect()),
    Step(9000, [Payload(ReroutingRajdhaniPf1, Warning, Medium),
                Payload(ReroutingFreightPf3, Warning, Medium),
                Payload(IntercityContinuesPf2, Info, Medium)],
      Effect(
        rajdhani := TrainPatch(x := Some(480), track := Some(1), y := Some(110), rerouting := Some(true),
                               status := Some(ReroutedToPlatform1), speed := Some(120)),
        intercity := TrainPatch(x := Some(480), track := Some(2), y := Some(190),
                                status := Some(ProceedingToPlatform2), speed := Some(95)),
        freight := TrainPatch(x := Some(480), track := Some(3), y := Some(270), rerouting := Some(true),
                              status := Some(ReroutedToPlatform3), speed := Some(55)))),
    Step(12000, [Payload(AllocationSuccessful, Success, High),
                 Payload(RajdhaniArrivedPf1, Success, Low),
                 Payload(IntercityArrivedPf2, Success, Low),
                 Payload(FreightArrivedPf3, Success, Low)],
      Effect(
        rajdhani := TrainPatch(x := Some(480), platformStop := Some(true), status := Some(Platform1Optimized), speed := Some(0)),
        intercity := TrainPatch(x := Some(480), platformStop := Some(true), status := Some(Platform2AsPlanned), speed := Some(0)),
        freight := TrainPatch(x := Some(480), platformStop := Some(true), status := Some(Platform3Optimized), speed := Some(0)))),
    Step(15000, [Payload(OptimizationComplete, Success, High),
                 Payload(ConflictAvoidance, Success, Medium),
                 Payload(PlatformEfficiency, Success, Low)],
      Effect(
        rajdhani := TrainPatch(x := Some(550), platformStop := Some(false), status := Some(DepartingPlatform1),
                               speed := Some(140), rerouting := Some(false)),
        intercity := TrainPatch(x := Some(550), platformStop := Some(false), status := Some(DepartingPlatform2),
                                speed := Some(95)),
        freight := TrainPatch(x := Some(550), platformStop := Some(false), status := Some(DepartingPlatform3),
                              speed := Some(60), rerouting := Some(false)),
        metrics := Some(Metrics(978, 991, 999, 951)))),
    Step(18000, [Payload(LearningStored, Info, Low)],
      Effect(
        rajdhani := TrainPatch(x := Some(120), track := Some(1), y := Some(110), status := Some(NormalOperations)),
        intercity := TrainPatch(x := Some(700), track := Some(2), y := Some(190), status := Some(NormalOperations)),
        freight := TrainPatch(x := Some(120), track := Some(3), y := Some(270), status := Some(NormalOperations))))
  ]

  /** The registry lookup. */
  function Script(s: Scenario): seq<Step> {
    match s
    case Normal => NormalScript
    case Conflict => ConflictScript
    case Emergency => EmergencyScript
    case Optimization => OptimizationScript
  }

  /** The `setTimeout` delays of a list of steps, in order. */
  function Offsets(steps: seq<Step>): seq<nat> {
    seq(|steps|, k requires 0 <= k < |steps| => steps[k].offset)
  }

  predicate StrictlyIncreasing(steps: seq<Step>) {
    forall i, j :: 0 <= i < j < |steps| ==> steps[i].offset < steps[j].offset
  }

  /** Steps are listed in time order and none fires at the activation instant. */
  predicate WellTimed(steps: seq<Step>) {
    StrictlyIncreasing(steps) && forall k :: 0 <= k < |steps| ==> steps[k].offset > 0
  }

  /** The timers of each scenario, in the order they are scheduled. */
  lemma ScriptOffsets()
    ensures Offsets(Script(Normal)) == [1000, 4000, 7000, 11000, 15000]
    ensures Offsets(Script(Conflict)) == [2000, 4000, 6000, 8000, 10000, 12000]
    ensures Offsets(Script(Emergency)) == [2000, 4000, 6000, 9000, 12000, 15000]
    ensures Offsets(Script(Optimization)) == [2000, 5000, 7000, 9000, 12000, 15000, 18000]
  {
  }

  /** Each step fires strictly after the one before it, and the first one
      strictly after activation. */
  predicate Ascending(steps: seq<Step>) {
    && (|steps| > 0 ==> steps[0].offset > 0)
    && forall k :: 0 < k < |steps| ==> steps[k - 1].offset < steps[k].offset
  }

  /** Comparing neighbours is enough to put a whole list in time order. */
  lemma {:induction false} AscendingIsWellTimed(steps: seq<Step>)
    requires Ascending(steps)
    ensures WellTimed(steps)
  {
    if |steps| > 1 {
      var rest := steps[1..];
      assert Ascending(rest);
      AscendingIsWellTimed(rest);
      forall i, j | 0 <= i < j < |steps|
        ensures steps[i].offset < steps[j].offset
      {
        if i > 0 {
          assert steps[i].offset == rest[i - 1].offset && steps[j].offset == rest[j - 1].offset;
        } else if j > 1 {
          assert steps[1].offset == rest[0].offset && steps[j].offset == rest[j - 1].offset;
        }
      }
    }
  }

  /** So steps apply in list order, and only after activation returns. */
  lemma ScriptsWellTimed(s: Scenario)
    ensures WellTimed(Script(s))
  {
    var steps := Script(s);
    match s
    case Normal => assert Ascending(steps);
    case Conflict => assert Ascending(steps);
    case Emergency => assert Ascending(steps);
    case Optimization => assert Ascending(steps);
    AscendingIsWellTimed(steps);
  }

  /** What the `switch` schedules for an id: its scenario's steps, or nothing
      for an id no case matches. */
  function ScriptFor(id: string): (steps: seq<Step>)
    ensures WellTimed(steps)
    ensures Parse(id).None? ==> steps == []
  {
    match Parse(id)
    case Some(s) => ScriptsWellTimed(s); Script(s)
    case None => []
  }
}
