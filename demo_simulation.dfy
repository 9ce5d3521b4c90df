/** The demo page's five-phase simulation: while playing, an interval advances
    the phase counter cyclically and updates every train from the phase it
    had before the advance; the reset button restores a fixed roster. */
module DemoSimulation {

  datatype DemoStatus = Running | Conflict
  {
    /** The text shown in the train table. */
    function Label(): string {
      match this
      case Running => "running"
      case Conflict => "conflict"
    }
  }

  datatype Priority = High | Medium | Low

  /** A row of the train table; the animated position is not modelled. */
  datatype DemoTrain = DemoTrain(id: int, name: string, status: DemoStatus, priority: Priority, delay: int)

  /** The number of phases: Normal Operations, Conflict Detection, AI
      Analysis, Solution Generation, Implementation. */
  const StepCount: nat := 5

  /** The trains the page mounts with: Express 102 starts in conflict. */
  const InitialTrains: seq<DemoTrain> := [
    DemoTrain(1, "Express 101", Running, High, 0),
    DemoTrain(2, "Local 205", Running, Medium, 5),
    DemoTrain(3, "Freight 301", Running, Low, 12),
    DemoTrain(4, "Express 102", Conflict, High, 0)
  ]

  /** The trains the reset button installs: all four running. */
  const ResetTrains: seq<DemoTrain> := [
    DemoTrain(1, "Express 101", Running, High, 0),
    DemoTrain(2, "Local 205", Running, Medium, 5),
    DemoTrain(3, "Freight 301", Running, Low, 12),
    DemoTrain(4, "Express 102", Running, High, 0)
  ]

  /** The page mounts with four trains, ids 1 to 4 in order, none late by a
      negative amount, and only Express 102 in conflict. */
  lemma InitialRoster()
    ensures |InitialTrains| == 4 && DelaysNonNegative(InitialTrains)
    ensures forall i :: 0 <= i < |InitialTrains| ==> InitialTrains[i].id == i + 1
    ensures forall i :: 0 <= i < |InitialTrains| ==> (InitialTrains[i].status == Conflict <==> InitialTrains[i].name == "Express 102")
  {
  }

  /** The reset button installs the same roster with the same delays, with
      every train running: it differs from the mounted table only in Express
      102's status. */
  lemma ResetRoster()
    ensures SameRoster(ResetTrains, InitialTrains)
    ensures forall i :: 0 <= i < |ResetTrains| ==> ResetTrains[i] == InitialTrains[i].(status := Running)
    ensures ResetTrains != InitialTrains
  {
    assert ResetTrains[3] != InitialTrains[3];
  }

  /** The phase after `step`: one further, wrapping from the last to the first. */
  function NextStep(step: nat): (r: nat)
    requires step < StepCount
    ensures r < StepCount
    ensures step + 1 < StepCount ==> r == step + 1
    ensures step + 1 == StepCount ==> r == 0
  {
    (step + 1) % StepCount
  }

  function Floor0(d: int): int {
    if d < 0 then 0 else d
  }

  /** One tick's update of a train, driven by the phase before the advance:
      train 4 is flagged in conflict in phase 1, every train runs again and
      loses two minutes of delay (never below zero) in phase 4. */
  function TickTrain(t: DemoTrain, step: int): (r: DemoTrain)
    ensures r.id == t.id && r.name == t.name && r.priority == t.priority
    ensures step == 1 && t.id == 4 ==> r.status == Conflict
    ensures step > 3 ==> r.status == Running
    ensures step != 1 && step <= 3 ==> r.status == t.status
    ensures step == 1 && t.id != 4 ==> r.status == t.status
    ensures step > 3 ==> 0 <= r.delay && r.delay <= Floor0(t.delay) && (t.delay >= 2 ==> r.delay == t.delay - 2)
    ensures step > 3 && t.delay < 2 ==> r.delay == 0
    ensures step <= 3 ==> r.delay == t.delay
  {
    t.(status := if step == 1 && t.id == 4 then Conflict else if step > 3 then Running else t.status,
       delay := if step > 3 then Floor0(t.delay - 2) else t.delay)
  }

  /** The tick's `map` over the table: every train updated, none added,
      dropped or reordered. */
  function TickTrains(ts: seq<DemoTrain>, step: int): (r: seq<DemoTrain>)
    ensures SameRoster(r, ts)
    ensures DelaysNonNegative(ts) ==> DelaysNonNegative(r)
  {
    seq(|ts|, i requires 0 <= i < |ts| => TickTrain(ts[i], step))
  }

  /** The table after `n` ticks from phase `step`. */
  function Played(ts: seq<DemoTrain>, step: nat, n: nat): seq<DemoTrain>
    requires step < StepCount
    decreases n
  {
    if n == 0 then ts else Played(TickTrains(ts, step), NextStep(step), n - 1)
  }

  /** The phase after `n` ticks from phase `step`. */
  function StepAfter(step: nat, n: nat): (r: nat)
    requires step < StepCount
    ensures r < StepCount
    decreases n
  {
    if n == 0 then step else StepAfter(NextStep(step), n - 1)
  }

  // ---------------------------------------------------------------------------
  // Derived indicators.
  // ---------------------------------------------------------------------------

  /** The "Active Conflicts" metric: none once the solution is implemented. */
  function ActiveConflicts(step: int): (n: nat)
    ensures n <= 1
    ensures n == 0 <==> step > 3
  {
    if step > 3 then 0 else 1
  }

  /** The "Conflict Detected" banner over the track. */
  predicate BannerShown(step: int) {
    1 <= step <= 3
  }

  datatype CardState = Done | Current | Upcoming

  /** The look of phase card `index` in the decision-process strip. */
  function Card(index: int, step: int): CardState {
    if index == step then Current else if index < step then Done else Upcoming
  }

  /** In every phase exactly one card is current, the ones before it are done
      and the ones after it are upcoming. */
  lemma OneCurrentCard(step: nat)
    requires step < StepCount
    ensures exists i :: 0 <= i < StepCount && Card(i, step) == Current
    ensures forall i, j :: 0 <= i < StepCount && 0 <= j < StepCount && Card(i, step) == Current && Card(j, step) == Current ==> i == j
    ensures forall i :: 0 <= i < step ==> Card(i, step) == Done
    ensures forall i :: step < i < StepCount ==> Card(i, step) == Upcoming
  {
    assert Card(step, step) == Current;
  }

  /** The banner is up only while a conflict is counted; in the first phase
      the metric counts one conflict although the banner is down. */
  lemma BannerMeansConflict(step: nat)
    requires step < StepCount
    ensures BannerShown(step) ==> ActiveConflicts(step) == 1
    ensures !BannerShown(step) <==> step == 0 || step == 4
    ensures ActiveConflicts(0) == 1 && !BannerShown(0)
  {
  }

  // ---------------------------------------------------------------------------
  // Replaying ticks.
  // ---------------------------------------------------------------------------

  /** Trains keep their identity: same count, order, ids, names, priorities. */
  predicate SameRoster(a: seq<DemoTrain>, b: seq<DemoTrain>) {
    |a| == |b| && forall i :: 0 <= i < |a| ==> a[i].id == b[i].id && a[i].name == b[i].name && a[i].priority == b[i].priority
  }

  predicate DelaysNonNegative(ts: seq<DemoTrain>) {
    forall i :: 0 <= i < |ts| ==> ts[i].delay >= 0
  }

  /** However many ticks run, the roster is the one started with, and no
      delay grows or becomes negative. */
  lemma {:induction false} PlayedKeepsRoster(ts: seq<DemoTrain>, step: nat, n: nat)
    requires step < StepCount && DelaysNonNegative(ts)
    ensures SameRoster(Played(ts, step, n), ts)
    ensures DelaysNonNegative(Played(ts, step, n))
    ensures forall i :: 0 <= i < |ts| ==> Played(ts, step, n)[i].delay <= ts[i].delay
    decreases n
  {
    if n > 0 {
      var ts' := TickTrains(ts, step);
      PlayedKeepsRoster(ts', NextStep(step), n - 1);
    }
  }

  /** Ticking `a` and then `b` more times is ticking `a + b` times. */
  lemma {:induction false} PlayedSplits(ts: seq<DemoTrain>, step: nat, a: nat, b: nat)
    requires step < StepCount
    ensures Played(ts, step, a + b) == Played(Played(ts, step, a), StepAfter(step, a), b)
    ensures StepAfter(step, a + b) == StepAfter(StepAfter(step, a), b)
    decreases a
  {
    if a > 0 {
      PlayedSplits(TickTrains(ts, step), NextStep(step), a - 1, b);
    }
  }

  /** Phase `step` comes back after every five ticks, and each tick
      advances it by one modulo five. */
  lemma {:induction false} StepAfterIsModular(step: nat, n: nat)
    requires step < StepCount
    ensures StepAfter(step, n) == (step + n) % StepCount
    decreases n
  {
    if n > 0 {
      StepAfterIsModular(NextStep(step), n - 1);
    }
  }

  /** A train after a whole cycle from phase 0: running, two minutes less late. */
  function Settled(t: DemoTrain): DemoTrain {
    t.(status := Running, delay := Floor0(t.delay - 2))
  }

  /** Five ticks from phase 0 settle every train once. */
  lemma FullCycle(ts: seq<DemoTrain>)
    ensures var r := Played(ts, 0, 5);
      |r| == |ts| && forall i :: 0 <= i < |ts| ==> r[i] == Settled(ts[i])
  {
    var t1 := TickTrains(ts, 0);
    var t2 := TickTrains(t1, 1);
    var t3 := TickTrains(t2, 2);
    var t4 := TickTrains(t3, 3);
    var t5 := TickTrains(t4, 4);
    assert Played(ts, 0, 5) == Played(t1, 1, 4) == Played(t2, 2, 3) == Played(t3, 3, 2) == Played(t4, 4, 1) == t5;
  }

  /** After `k` whole cycles from phase 0 every delay has dropped by `2 * k`,
      floored at zero. */
  lemma {:induction false} CyclesReduceDelays(ts: seq<DemoTrain>, k: nat)
    requires DelaysNonNegative(ts)
    ensures var r := Played(ts, 0, 5 * k);
      |r| == |ts| && forall i :: 0 <= i < |ts| ==> r[i].delay == Floor0(ts[i].delay - 2 * k)
    decreases k
  {
    if k == 0 {
      forall i | 0 <= i < |ts|
        ensures ts[i].delay == Floor0(ts[i].delay - 0)
      {
      }
    } else {
      CyclesReduceDelays(ts, k - 1);
      var mid := Played(ts, 0, 5 * (k - 1));
      PlayedSplits(ts, 0, 5 * (k - 1), 5);
      StepAfterIsModular(0, 5 * (k - 1));
      assert 5 * (k - 1) + 5 == 5 * k;
      FullCycle(mid);
    }
  }

  /** Thirty ticks after a reset every train is on time; five ticks earlier
      the freight train is still two minutes late. */
  lemma ResetClearsDelays()
    ensures forall i :: 0 <= i < |Played(ResetTrains, 0, 30)| ==> Played(ResetTrains, 0, 30)[i].delay == 0
    ensures |Played(ResetTrains, 0, 25)| == 4 && Played(ResetTrains, 0, 25)[2].delay == 2
  {
    CyclesReduceDelays(ResetTrains, 6);
    CyclesReduceDelays(ResetTrains, 5);
  }

  // ---------------------------------------------------------------------------
  // The page's state.
  // ---------------------------------------------------------------------------

  class Demo {
    var isPlaying: bool
    var currentStep: nat
    var trains: seq<DemoTrain>

    /** The phase is one of the five and the table is the fixed roster with
        no negative delay. */
    ghost predicate Valid()
      reads this`currentStep, this`trains
    {
      currentStep < StepCount && SameRoster(trains, ResetTrains) && DelaysNonNegative(trains)
    }

    /** Mounting the page: paused, first phase, Express 102 in conflict. */
    constructor ()
      ensures Valid() && !isPlaying && currentStep == 0 && trains == InitialTrains
    {
      isPlaying := false;
      currentStep := 0;
      trains := InitialTrains;
    }

    /** The start/pause button. */
    method TogglePlay()
      modifies this`isPlaying
      ensures isPlaying == !old(isPlaying)
    {
      isPlaying := !isPlaying;
    }

    /** One firing of the three-second interval, which only runs while
        playing: advance the phase and update every train from the phase
        the tick started in. */
    method Tick()
      requires Valid()
      modifies this`currentStep, this`trains
      ensures Valid()
      ensures !isPlaying ==> currentStep == old(currentStep) && trains == old(trains)
      ensures isPlaying ==> currentStep == NextStep(old(currentStep)) && trains == TickTrains(old(trains), old(currentStep))
    {
      if isPlaying {
        var step := currentStep;
        currentStep := NextStep(step);
        trains := TickTrains(trains, step);
      }
    }

    /** The reset button: paused, first phase, all four trains running. */
    method Reset()
      modifies this
      ensures Valid() && !isPlaying && currentStep == 0 && trains == ResetTrains
    {
      isPlaying := false;
      currentStep := 0;
      trains := ResetTrains;
    }

    /** The interval firing `n` times while the simulation plays. */
    method Play(n: nat)
      requires Valid() && isPlaying
      modifies this`currentStep, this`trains
      ensures Valid()
      ensures trains == Played(old(trains), old(currentStep), n)
      ensures currentStep == (old(currentStep) + n) % StepCount
    {
      var k := 0;
      while k < n
        invariant 0 <= k <= n && Valid()
        invariant trains == Played(old(trains), old(currentStep), k)
        invariant currentStep == StepAfter(old(currentStep), k)
      {
        PlayedSplits(old(trains), old(currentStep), k, 1);
        Tick();
        k := k + 1;
      }
      StepAfterIsModular(old(currentStep), n);
    }
  }

  /** Reset, start, and let thirty ticks pass: the table shows no delay and
      the simulation is back in its first phase. */
  method ResetAndPlay(d: Demo) returns (delays: seq<int>, step: nat)
    modifies d
    ensures |delays| == 4 && forall i :: 0 <= i < 4 ==> delays[i] == 0
    ensures step == 0
  {
    d.Reset();
    d.TogglePlay();
    d.Play(30);
    ResetClearsDelays();
    var ts := d.trains;
    delays := seq(|ts|, i requires 0 <= i < |ts| => ts[i].delay);
    step := d.currentStep;
  }
}
