/** The landing page's "AI Operations Log": a bounded, newest-first list of
    notifications. Every append puts the new entry at the head and keeps at
    most `Capacity` entries; older ones are dropped for good. */
module Notifications {

  datatype Kind = Success | Warning | Error | Info

  datatype Priority = Low | Medium | High | Critical

  /** The texts the scenarios log, one constructor per distinct message. */
  datatype Message =
    SystemOperational
    | NormalActive
    | AllProceeding
    | ApproachingHub
    | PlatformAllocation
    | AllDeparting
    | NormalCycleComplete
    | ConflictInit
    | ApproachingJunctionB
    | ConflictAlarm
    | ReroutingDecision
    | SignalS1Proceed
    | RajdhaniSwitched
    | IntercityCleared
    | ConflictResolved
    | EmergencyInit
    | IntercityApproachingPf3
    | MedicalAlarm
    | EmergencyProtocol
    | MedicalTeamDispatched
    | TrafficHalted
    | MedicalTeamOnSite
    | PreparingEvacuation
    | PatientStabilized
    | IntercityClearedToDepart
    | EmergencyResolved
    | OptimizationInit
    | Pf2Problem
    | CurrentRoutes
    | Pf2Overload
    | Calculating
    | SolutionFound
    | NewAllocation
    | ExecutingRerouting
    | ReroutingRajdhaniPf1
    | ReroutingFreightPf3
    | IntercityContinuesPf2
    | AllocationSuccessful
    | RajdhaniArrivedPf1
    | IntercityArrivedPf2
    | FreightArrivedPf3
    | OptimizationComplete
    | ConflictAvoidance
    | PlatformEfficiency
    | LearningStored
  {
    /** The text shown in the log. */
    function Text(): string {
      match this
      case SystemOperational => "System operational"
      case NormalActive => "Normal operations active"
      case AllProceeding => "All trains proceeding on schedule"
      case ApproachingHub => "Trains approaching Central Hub stations"
      case PlatformAllocation => "Platform allocation: Rajdhani→PF-1, Intercity→PF-2, Freight→PF-3"
      case AllDeparting => "All trains departing on schedule"
      case NormalCycleComplete => "Normal operations cycle complete"
      case ConflictInit => "Initializing conflict scenario"
      case ApproachingJunctionB => "Rajdhani and Intercity approaching Junction B"
      case ConflictAlarm => "🚨 CONFLICT DETECTED: Both trains targeting Junction B"
      case ReroutingDecision => "AI RESOLUTION: Rerouting Rajdhani to Track 2"
      case SignalS1Proceed => "Signal S1 switched to PROCEED via Track 2"
      case RajdhaniSwitched => "Rajdhani successfully switched to Track 2"
      case IntercityCleared => "Intercity cleared through Junction B on Track 2"
      case ConflictResolved => "✅ CONFLICT RESOLVED: All trains proceeding normally"
      case EmergencyInit => "Emergency scenario initiated"
      case IntercityApproachingPf3 => "Intercity approaching Central Hub Platform 3"
      case MedicalAlarm => "🚨 MEDICAL EMERGENCY: Passenger collapse on Intercity"
      case EmergencyProtocol => "Emergency protocol activated - All signals RED"
      case MedicalTeamDispatched => "Emergency medical team dispatched to Platform 3"
      case TrafficHalted => "All traffic halted - Priority medical assistance"
      case MedicalTeamOnSite => "Medical team on-site - Patient being treated"
      case PreparingEvacuation => "Preparing for emergency evacuation"
      case PatientStabilized => "Patient stabilized - Cleared for transport"
      case IntercityClearedToDepart => "Intercity cleared for departure"
      case EmergencyResolved => "✅ EMERGENCY RESOLVED: Normal operations resumed"
      case OptimizationInit => "AI Optimization engine activated"
      case Pf2Problem => "PROBLEM: All trains scheduled for Platform 2 at 14:30"
      case CurrentRoutes => "Current routes: Rajdhani→PF-2, Intercity→PF-2, Freight→PF-2"
      case Pf2Overload => "AI CONFLICT PREDICTION: Platform 2 will be overloaded"
      case Calculating => "CALCULATING... Optimal platform redistribution"
      case SolutionFound => "✅ SOLUTION FOUND: Redistribute to avoid conflict"
      case NewAllocation => "NEW ALLOCATION: Rajdhani→PF-1, Intercity→PF-2, Freight→PF-3"
      case ExecutingRerouting => "Executing real-time rerouting..."
      case ReroutingRajdhaniPf1 => "REROUTING: Rajdhani to Platform 1 (Track 1)"
      case ReroutingFreightPf3 => "REROUTING: Freight to Platform 3 (Track 3)"
      case IntercityContinuesPf2 => "Intercity continues to Platform 2 (Track 2)"
      case AllocationSuccessful => "✅ PLATFORM ALLOCATION SUCCESSFUL"
      case RajdhaniArrivedPf1 => "Rajdhani arrived at Platform 1"
      case IntercityArrivedPf2 => "Intercity arrived at Platform 2"
      case FreightArrivedPf3 => "Freight arrived at Platform 3"
      case OptimizationComplete => "OPTIMIZATION COMPLETE: Zero conflicts"
      case ConflictAvoidance => "Result: 100% conflict avoidance achieved"
      case PlatformEfficiency => "Platform efficiency improved to 95.1%"
      case LearningStored => "AI learning stored: Platform conflict prevention"
    }
  }

  /** What a scenario step asks to log: the notification without its id. */
  datatype Payload = Payload(message: Message, kind: Kind, priority: Priority)

  /** A logged entry. The source takes `id` from the wall clock at the moment
      of the append; here it is the abstract clock reading supplied by the caller. */
  datatype Notification = Notification(id: int, message: Message, kind: Kind, priority: Priority)

  /** The log never holds more than five entries. */
  const Capacity: nat := 5

  function Min(a: int, b: int): int { if a <= b then a else b }

  function Stamp(p: Payload, id: int): Notification {
    Notification(id, p.message, p.kind, p.priority)
  }

  /** What an entry says, without its id. */
  function Unstamp(n: Notification): Payload {
    Payload(n.message, n.kind, n.priority)
  }

  /** Every payload of one step gets the same clock reading as its id; taking
      the ids off again gives back the payloads, in order. */
  function StampAll(ps: seq<Payload>, id: int): (ns: seq<Notification>)
    ensures |ns| == |ps|
    ensures forall i :: 0 <= i < |ns| ==> ns[i].id == id
    ensures forall i :: 0 <= i < |ns| ==> Unstamp(ns[i]) == ps[i]
  {
    seq(|ps|, i requires 0 <= i < |ps| => Stamp(ps[i], id))
  }

  /** The newest `Capacity` entries of a newest-first list. */
  function Newest(s: seq<Notification>): seq<Notification> {
    s[..Min(|s|, Capacity)]
  }

  /** `addNotification`: the new entry goes in front of the first four old ones. */
  function Push(log: seq<Notification>, n: Notification): (r: seq<Notification>)
    ensures |r| == Min(|log| + 1, Capacity)
    ensures r[0] == n
    ensures forall i :: 1 <= i < |r| ==> r[i] == log[i - 1]
  {
    [n] + log[..Min(|log|, Capacity - 1)]
  }

  /** Several `addNotification` calls in a row, first element appended first. */
  function PushAll(log: seq<Notification>, ns: seq<Notification>): seq<Notification>
    decreases |ns|
  {
    if ns == [] then log else PushAll(Push(log, ns[0]), ns[1..])
  }

  function Reverse(s: seq<Notification>): (r: seq<Notification>)
    ensures |r| == |s|
    ensures forall i :: 0 <= i < |s| ==> r[i] == s[|s| - 1 - i]
  {
    if s == [] then [] else Reverse(s[1..]) + [s[0]]
  }

  lemma NewestAbsorbs(a: seq<Notification>, b: seq<Notification>)
    ensures Newest(a + Newest(b)) == Newest(a + b)
  {
    var k := Min(|a| + |b|, Capacity);
    assert Newest(a + b) == (a + b)[..k];
    forall i | 0 <= i < k
      ensures (a + Newest(b))[i] == (a + b)[i]
    {
    }
  }

  /** A batch of appends leaves the batch in reverse order in front of the
      old log, truncated to the newest five: the last payload appended ends up
      at the head. */
  lemma {:induction false} PushAllIsNewestOfReversed(log: seq<Notification>, ns: seq<Notification>)
    requires |log| <= Capacity
    ensures PushAll(log, ns) == Newest(Reverse(ns) + log)
    decreases |ns|
  {
    if ns == [] {
      assert Reverse(ns) + log == log;
      assert log[..|log|] == log;
    } else {
      var n := ns[0];
      PushAllIsNewestOfReversed(Push(log, n), ns[1..]);
      assert Push(log, n) == Newest([n] + log);
      NewestAbsorbs(Reverse(ns[1..]), [n] + log);
      assert Reverse(ns) == Reverse(ns[1..]) + [n];
      assert Reverse(ns[1..]) + ([n] + log) == Reverse(ns) + log;
    }
  }

  /** Appending a batch: the log grows by the batch up to five entries, the
      batch sits newest-first at the head and the old entries follow in order. */
  lemma PushAllNewestFirst(log: seq<Notification>, ns: seq<Notification>)
    requires |log| <= Capacity
    ensures |PushAll(log, ns)| == Min(|log| + |ns|, Capacity)
    ensures forall i :: 0 <= i < Min(|ns|, Capacity) ==> PushAll(log, ns)[i] == ns[|ns| - 1 - i]
    ensures forall i :: |ns| <= i < |PushAll(log, ns)| ==> PushAll(log, ns)[i] == log[i - |ns|]
  {
    PushAllIsNewestOfReversed(log, ns);
  }
}
