/** The landing page's simulated world: three trains, three signals, four
    performance metrics and two alert flags, with the fixed baseline every
    scenario activation resets to. Metrics are fixed-point in tenths of a
    percent (942 stands for 94.2%). */
module WorldState {

  datatype Option<T> = None | Some(value: T)

  datatype Signal = Red | Yellow | Green

  /** The status labels the scenarios give a train. */
  datatype Status =
    Moving
    | ExpressService
    | PassengerService
    | CargoTransport
    | ApproachingCentralHub
    | Platform1Service
    | Platform2Service
    | Platform3Service
    | DepartingToMumbai
    | DepartingToDelhi
    | ContinuingRoute
    | NormalOperations
    | ApproachingJunction
    | EmergencyStop
    | ReducedSpeed
    | ReroutingTrack2
    | ProceedingTrack2
    | ProceedingClear
    | ApproachingPlatform
    | EmergencyHold
    | MedicalEmergency
    | CautiousDeparture
    | ProceedingCaution
    | HeadingToPlatform2
    | ConflictDetectedPf2
    | ReroutedToPlatform1
    | ProceedingToPlatform2
    | ReroutedToPlatform3
    | Platform1Optimized
    | Platform2AsPlanned
    | Platform3Optimized
    | DepartingPlatform1
    | DepartingPlatform2
    | DepartingPlatform3
  {
    /** The label the page shows. */
    function Label(): string {
      match this
      case Moving => "moving"
      case ExpressService => "express_service"
      case PassengerService => "passenger_service"
      case CargoTransport => "cargo_transport"
      case ApproachingCentralHub => "approaching_central_hub"
      case Platform1Service => "platform_1_service"
      case Platform2Service => "platform_2_service"
      case Platform3Service => "platform_3_service"
      case DepartingToMumbai => "departing_to_mumbai"
      case DepartingToDelhi => "departing_to_delhi"
      case ContinuingRoute => "continuing_route"
      case NormalOperations => "normal_operations"
      case ApproachingJunction => "approaching_junction"
      case EmergencyStop => "emergency_stop"
      case ReducedSpeed => "reduced_speed"
      case ReroutingTrack2 => "rerouting_track_2"
      case ProceedingTrack2 => "proceeding_track_2"
      case ProceedingClear => "proceeding_clear"
      case ApproachingPlatform => "approaching_platform"
      case EmergencyHold => "emergency_hold"
      case MedicalEmergency => "medical_emergency"
      case CautiousDeparture => "cautious_departure"
      case ProceedingCaution => "proceeding_caution"
      case HeadingToPlatform2 => "heading_to_platform_2"
      case ConflictDetectedPf2 => "conflict_detected_pf2"
      case ReroutedToPlatform1 => "rerouted_to_platform_1"
      case ProceedingToPlatform2 => "proceeding_to_platform_2"
      case ReroutedToPlatform3 => "rerouted_to_platform_3"
      case Platform1Optimized => "platform_1_optimized"
      case Platform2AsPlanned => "platform_2_as_planned"
      case Platform3Optimized => "platform_3_optimized"
      case DepartingPlatform1 => "departing_platform_1"
      case DepartingPlatform2 => "departing_platform_2"
      case DepartingPlatform3 => "departing_platform_3"
    }
  }

  datatype Train = Train(
    x: int, y: int, track: int, speed: int, status: Status, nextStop: string,
    platformStop: bool, emergency: bool, rerouting: bool)

  datatype Signals = Signals(s1: Signal, s2: Signal, s3: Signal)

  datatype Metrics = Metrics(efficiency: int, punctuality: int, safety: int, utilization: int)

  datatype World = World(
    rajdhani: Train, intercity: Train, freight: Train,
    signals: Signals, metrics: Metrics,
    conflictDetected: bool, emergencyActive: bool)

  const AllGreen := Signals(Green, Green, Green)

  const BaselineMetrics := Metrics(942, 987, 999, 873)

  const BaselineRajdhani := Train(120, 110, 1, 140, Moving, "Mumbai", false, false, false)
  const BaselineIntercity := Train(700, 190, 2, 95, Moving, "Delhi", false, false, false)
  const BaselineFreight := Train(120, 270, 3, 60, Moving, "Mumbai", false, false, false)

  /** The snapshot every activation starts from, whatever the scenario. */
  const Baseline := World(BaselineRajdhani, BaselineIntercity, BaselineFreight,
                          AllGreen, BaselineMetrics, false, false)

  /** The three statuses that mean the train is held still. */
  predicate IsHalt(status: Status) {
    status.EmergencyStop? || status.EmergencyHold? || status.MedicalEmergency?
  }

  predicate HaltedAtZero(t: Train) {
    IsHalt(t.status) ==> t.speed == 0
  }

  /** No train shows a halt status while moving. */
  predicate HaltsStill(w: World) {
    HaltedAtZero(w.rajdhani) && HaltedAtZero(w.intercity) && HaltedAtZero(w.freight)
  }

  /** A train flagged as an emergency shows one of the halt statuses. */
  predicate FlagShowsHalt(t: Train) {
    t.emergency ==> IsHalt(t.status)
  }

  /** A raised alarm is always visible on the signals: while a conflict or
      an emergency is active, some signal is not green. */
  predicate AlarmsConsistent(w: World) {
    && FlagShowsHalt(w.rajdhani) && FlagShowsHalt(w.intercity) && FlagShowsHalt(w.freight)
    && (w.conflictDetected || w.emergencyActive ==> w.signals != AllGreen)
  }

  /** No alarm of any kind: all signals green, no alert, no train flagged. */
  predicate Calm(w: World) {
    && w.signals == AllGreen && !w.conflictDetected && !w.emergencyActive
    && !w.rajdhani.emergency && !w.intercity.emergency && !w.freight.emergency
  }

  /** The reset snapshot: nothing raised, every train moving at its cruising
      speed, and no halt status anywhere. */
  lemma BaselineIsCalm()
    ensures Calm(Baseline) && AlarmsConsistent(Baseline) && HaltsStill(Baseline)
    ensures Baseline.rajdhani.speed > 0 && Baseline.intercity.speed > 0 && Baseline.freight.speed > 0
    ensures Baseline.rajdhani.status == Moving && Baseline.intercity.status == Moving && Baseline.freight.status == Moving
  {
  }

  // ---------------------------------------------------------------------------
  // Step effects. A step rebuilds the state with `{ ...prev, f: v }`: the
  // fields it names get new values and every other field carries over. A
  // patch holds `Some(v)` for a named field and `None` for one carried over.
  // ---------------------------------------------------------------------------

  datatype TrainPatch = TrainPatch(
    x: Option<int> := None, y: Option<int> := None, track: Option<int> := None,
    speed: Option<int> := None, status: Option<Status> := None,
    platformStop: Option<bool> := None, emergency: Option<bool> := None,
    rerouting: Option<bool> := None)
  {
    function Apply(t: Train): Train {
      Train(
        if x.Some? then x.value else t.x,
        if y.Some? then y.value else t.y,
        if track.Some? then track.value else t.track,
        if speed.Some? then speed.value else t.speed,
        if status.Some? then status.value else t.status,
        t.nextStop,
        if platformStop.Some? then platformStop.value else t.platformStop,
        if emergency.Some? then emergency.value else t.emergency,
        if rerouting.Some? then rerouting.value else t.rerouting)
    }

    predicate IsKeep() {
      x.None? && y.None? && track.None? && speed.None? && status.None? &&
      platformStop.None? && emergency.None? && rerouting.None?
    }

    /** A halt status is only ever set together with speed 0, and a train is
        only ever set moving together with a status that is not a halt. */
    predicate HaltsWithZeroSpeed() {
      (status.Some? && IsHalt(status.value) ==> speed == Some(0)) &&
      (speed.Some? && speed.value != 0 ==> status.Some? && !IsHalt(status.value))
    }
  }

  datatype SignalPatch = SignalPatch(
    s1: Option<Signal> := None, s2: Option<Signal> := None, s3: Option<Signal> := None)
  {
    function Apply(s: Signals): Signals {
      Signals(
        if s1.Some? then s1.value else s.s1,
        if s2.Some? then s2.value else s.s2,
        if s3.Some? then s3.value else s.s3)
    }
  }

  /** `setSignalStates({ s1: 'green', s2: 'green', s3: 'green' })`. */
  const ToAllGreen := SignalPatch(Some(Green), Some(Green), Some(Green))

  /** Everything one step does to the world, all applied at once. */
  datatype Effect = Effect(
    rajdhani: TrainPatch := TrainPatch(), intercity: TrainPatch := TrainPatch(),
    freight: TrainPatch := TrainPatch(), signals: SignalPatch := SignalPatch(),
    metrics: Option<Metrics> := None,
    conflictDetected: Option<bool> := None, emergencyActive: Option<bool> := None)
  {
    function Apply(w: World): World {
      World(
        rajdhani.Apply(w.rajdhani), intercity.Apply(w.intercity), freight.Apply(w.freight),
        signals.Apply(w.signals),
        if metrics.Some? then metrics.value else w.metrics,
        if conflictDetected.Some? then conflictDetected.value else w.conflictDetected,
        if emergencyActive.Some? then emergencyActive.value else w.emergencyActive)
    }

    predicate HaltsWithZeroSpeed() {
      rajdhani.HaltsWithZeroSpeed() && intercity.HaltsWithZeroSpeed() && freight.HaltsWithZeroSpeed()
    }
  }

  /** `{ ...prev, f: v }` on a train: each field the patch names takes its new
      value, every other field carries over, the destination is never
      touched, and a patch naming nothing leaves the train as it was. */
  lemma TrainSpread(p: TrainPatch, t: Train)
    ensures p.IsKeep() ==> p.Apply(t) == t
    ensures p.Apply(t).nextStop == t.nextStop
    ensures (p.x.Some? ==> p.Apply(t).x == p.x.value) && (p.x.None? ==> p.Apply(t).x == t.x)
    ensures (p.y.Some? ==> p.Apply(t).y == p.y.value) && (p.y.None? ==> p.Apply(t).y == t.y)
    ensures (p.track.Some? ==> p.Apply(t).track == p.track.value) && (p.track.None? ==> p.Apply(t).track == t.track)
    ensures (p.speed.Some? ==> p.Apply(t).speed == p.speed.value) && (p.speed.None? ==> p.Apply(t).speed == t.speed)
    ensures (p.status.Some? ==> p.Apply(t).status == p.status.value) && (p.status.None? ==> p.Apply(t).status == t.status)
    ensures (p.platformStop.Some? ==> p.Apply(t).platformStop == p.platformStop.value)
         && (p.platformStop.None? ==> p.Apply(t).platformStop == t.platformStop)
    ensures (p.emergency.Some? ==> p.Apply(t).emergency == p.emergency.value)
         && (p.emergency.None? ==> p.Apply(t).emergency == t.emergency)
    ensures (p.rerouting.Some? ==> p.Apply(t).rerouting == p.rerouting.value)
         && (p.rerouting.None? ==> p.Apply(t).rerouting == t.rerouting)
  {
  }

  /** `setSignalStates(prev => ({ ...prev, sN: v }))`: only the named signals
      change aspect. */
  lemma SignalSpread(p: SignalPatch, s: Signals)
    ensures p.s1.None? && p.s2.None? && p.s3.None? ==> p.Apply(s) == s
    ensures (p.s1.Some? ==> p.Apply(s).s1 == p.s1.value) && (p.s1.None? ==> p.Apply(s).s1 == s.s1)
    ensures (p.s2.Some? ==> p.Apply(s).s2 == p.s2.value) && (p.s2.None? ==> p.Apply(s).s2 == s.s2)
    ensures (p.s3.Some? ==> p.Apply(s).s3 == p.s3.value) && (p.s3.None? ==> p.Apply(s).s3 == s.s3)
  {
  }

  /** A whole step: each train is rebuilt from its own patch only, and the
      metrics and the two alerts change only when the step names them. */
  lemma EffectSpread(e: Effect, w: World)
    ensures e.Apply(w).rajdhani == e.rajdhani.Apply(w.rajdhani)
    ensures e.Apply(w).intercity == e.intercity.Apply(w.intercity)
    ensures e.Apply(w).freight == e.freight.Apply(w.freight)
    ensures e.Apply(w).signals == e.signals.Apply(w.signals)
    ensures (e.metrics.Some? ==> e.Apply(w).metrics == e.metrics.value) && (e.metrics.None? ==> e.Apply(w).metrics == w.metrics)
    ensures (e.conflictDetected.Some? ==> e.Apply(w).conflictDetected == e.conflictDetected.value)
         && (e.conflictDetected.None? ==> e.Apply(w).conflictDetected == w.conflictDetected)
    ensures (e.emergencyActive.Some? ==> e.Apply(w).emergencyActive == e.emergencyActive.value)
         && (e.emergencyActive.None? ==> e.Apply(w).emergencyActive == w.emergencyActive)
  {
  }

  /** A patch obeying the halt rule keeps "halted implies still" true. */
  lemma PatchKeepsHaltsStill(p: TrainPatch, t: Train)
    requires p.HaltsWithZeroSpeed() && HaltedAtZero(t)
    ensures HaltedAtZero(p.Apply(t))
  {
  }

  lemma EffectKeepsHaltsStill(e: Effect, w: World)
    requires e.HaltsWithZeroSpeed() && HaltsStill(w)
    ensures HaltsStill(e.Apply(w))
  {
    PatchKeepsHaltsStill(e.rajdhani, w.rajdhani);
    PatchKeepsHaltsStill(e.intercity, w.intercity);
    PatchKeepsHaltsStill(e.freight, w.freight);
  }

  // ---------------------------------------------------------------------------
  // Metric targets shown in the "System Performance" panel.
  // ---------------------------------------------------------------------------

  const EfficiencyTarget := 950
  const PunctualityTarget := 980
  const SafetyTarget := 995
  const UtilizationTarget := 900

  /** A metric reads "On Target" when its value reaches the target. */
  predicate OnTarget(value: int, target: int) {
    value >= target
  }

  predicate AllOnTarget(m: Metrics) {
    OnTarget(m.efficiency, EfficiencyTarget) && OnTarget(m.punctuality, PunctualityTarget) &&
    OnTarget(m.safety, SafetyTarget) && OnTarget(m.utilization, UtilizationTarget)
  }

  /** The baseline metrics read "On Target" for punctuality and safety and
      "Below Target" for efficiency and utilization. */
  lemma BaselineTargets()
    ensures !OnTarget(BaselineMetrics.efficiency, EfficiencyTarget)
    ensures OnTarget(BaselineMetrics.punctuality, PunctualityTarget)
    ensures OnTarget(BaselineMetrics.safety, SafetyTarget)
    ensures !OnTarget(BaselineMetrics.utilization, UtilizationTarget)
    ensures !AllOnTarget(BaselineMetrics)
  {
  }
}
