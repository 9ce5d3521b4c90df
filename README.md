# RailOptima scenario engine and demo cycler, in Dafny

This project models the two pieces of the RailOptima marketing site that
hold behaviour, and proves properties of them:

- **The landing page's scenario engine** (`src/components/HomePage.tsx`).
  The page shows three trains, three signals, four metrics and an
  "AI Operations Log". The user picks one of four scripted scenarios:
  normal, conflict, emergency or optimization. Picking a scenario does the
  following:
  - it cancels the previous scenario's pending timers;
  - it resets the world to a fixed baseline;
  - it logs an activation message;
  - it schedules one timer per scripted step.

  When a step's timer fires, the step logs its messages and rebuilds part
  of the world with `{ ...prev, field: value }`.
- **The demo page's step cycler** (`src/components/DemoPage.tsx`). While
  playing, an interval advances a five-phase counter modulo five. It
  updates each train of a four-row table from the phase the counter was
  in before the advance. A reset button restores a fixed roster.

Files and modules:

| file | module | what it holds |
|---|---|---|
| `notifications.dfy` | `Notifications` | the bounded newest-first log and `addNotification` |
| `world_state.dfy` | `WorldState` | trains, signals, metrics, the baseline, step effects as patches, metric targets |
| `scenario_registry.dfy` | `ScenarioRegistry` | the four scripts as data, the id `switch`, time ordering of steps |
| `scenario_replay.dfy` | `ScenarioReplay` | what a script has done by a given time: the world and the log it produces |
| `scenario_properties.dfy` | `ScenarioProperties` | what the four scripts promise at given times |
| `timeline.dfy` | `Timeline` | the `ScenarioController` class: activation, timers, cancellation, the event loop |
| `scenario_switching.dfy` | `ScenarioSwitching` | runs of the controller as the page drives it |
| `demo_simulation.dfy` | `DemoSimulation` | the demo's tick rule, indicators, and the `Demo` class |

The scenario controller's state includes the pending timers: a `timeouts`
sequence and the set of `live` timers the event loop still holds. The
class's invariant ties that state to a replay function: the world and the
log always equal the steps due by now, applied in order to the baseline.
The lemmas about what each scenario shows are stated on that replay
function. `ScenarioController.ShowsTimeline` carries them over to the
object.

Modelling conventions:
- Metric values are integers in tenths (94.2 is `942`).
- Train statuses and log messages are enumerations. `Status.Label()` and
  `Message.Text()` give the exact source strings.
- The clock is an integer in milliseconds that the caller supplies. Time
  passes only through `AdvanceTo`.

Behaviour of the code that the model keeps as written:
- **Unknown id.** The `switch` (`HomePage.tsx:93-474`) has no `default`.
  For an id no case matches, the effect still runs: it cancels the old
  timers, resets the world, logs nothing and schedules nothing. `Parse`
  returns `None` for such an id and `ScriptFor` returns no steps.
  `ScenarioController.Select` then resets the world and leaves the log as
  it was.
- **Re-selecting the active id.** This does nothing. The effect depends
  only on `activeScenario` (`HomePage.tsx:477`), so React does not re-run
  it.
- **Notification ids.** Each `addNotification` call reads `Date.now()`
  itself (`HomePage.tsx:55`). The model gives every note of a step the
  step's firing time, so the notes of one step share an id.
- **The 6 s conflict step.** It logs "Signal S1 switched to PROCEED"
  (`HomePage.tsx:191`) but sets no signal. S1 stays red until the 12 s
  step, and the model keeps it red.
- **Demo reset.** `resetDemo` sets Express 102 to `running`. The initial
  state has it in `conflict`. The two constants are kept apart
  (`InitialTrains`, `ResetTrains`).

## Model

| member | source | states |
|---|---|---|
| Notifications.StampAll | src/components/HomePage.tsx:54-60 | every note of one step becomes an entry carrying the step's clock reading as its id; taking the ids off gives back the payloads in order |
| Notifications.Push | src/components/HomePage.tsx:53-62 | the new entry is at the head, the first four old entries follow in order, and the log never exceeds five |
| Notifications.NewestAbsorbs | src/components/HomePage.tsx:61 | truncating to five before or after a prepend gives the same log |
| Notifications.PushAllIsNewestOfReversed | src/components/HomePage.tsx:53-62 | a batch of appends equals the batch reversed in front of the old log, cut to the newest five |
| Notifications.PushAllNewestFirst | src/components/HomePage.tsx:53-62 | after a batch the log has min(old + batch, 5) entries, the batch newest-first on top, and the surviving old entries in their old order below |
| WorldState.PatchKeepsHaltsStill | src/components/HomePage.tsx:183 | a train update that sets halt statuses only with speed 0 keeps "halted implies stopped" |
| WorldState.EffectKeepsHaltsStill | src/components/HomePage.tsx:180-184 | a step obeying the halt rule for all three trains keeps every train that shows a halt at speed 0 |
| WorldState.TrainSpread | src/components/HomePage.tsx:181-185 | `{ ...prev.train, f: v }`: each field the patch names takes its new value, every other field carries over, the destination never changes, and an empty patch leaves the train as it was |
| WorldState.SignalSpread | src/components/HomePage.tsx:170 | `{ ...prev, sN: v }`: only the named signals change aspect |
| WorldState.EffectSpread | src/components/HomePage.tsx:167-186 | a step rebuilds each train from its own patch only, and changes the metrics and the two alerts only when it names them |
| WorldState.BaselineIsCalm | src/components/HomePage.tsx:66-84 | the reset snapshot has all signals green, no alert, no train flagged or halted, and every train moving |
| WorldState.BaselineTargets | src/components/HomePage.tsx:1589-1655 | at the baseline the panel shows punctuality and safety on target and efficiency and utilization below target |
| ScenarioRegistry.Parse | src/components/HomePage.tsx:93-94 | an id selects a scenario exactly when it is that scenario's button id; any other id selects none |
| ScenarioRegistry.ActivationNotesDistinct | src/components/HomePage.tsx:94-324 | each scenario logs its own activation message, so the entry tells which scenario started |
| ScenarioRegistry.ScriptOffsets | src/components/HomePage.tsx:98-472 | the timers of each scenario are due at the offsets the code passes to `setTimeout`, in scheduling order |
| ScenarioRegistry.AscendingIsWellTimed | src/components/HomePage.tsx:98-472 | if each step's offset exceeds its predecessor's and the first is positive, the whole list is in strict time order |
| ScenarioRegistry.ScriptsWellTimed | src/components/HomePage.tsx:98-472 | every scenario's steps are in strict time order and none fires at the activation instant |
| ScenarioRegistry.ScriptFor | src/components/HomePage.tsx:93-473 | the steps the `switch` schedules for an id are in time order, and an unknown id schedules none |
| ScenarioReplay.DueIn | src/components/HomePage.tsx:98 | the number of due steps is at most the script length; every counted step's offset has passed and the next one's has not |
| ScenarioReplay.DueInExact | src/components/HomePage.tsx:98-150 | on a time-ordered script, exactly the steps whose offset has passed are due |
| ScenarioReplay.DueInBetween | src/components/HomePage.tsx:98-150 | on a time-ordered script, m steps are due when step m-1's offset has passed and step m's has not |
| ScenarioReplay.DueInSplits | src/components/HomePage.tsx:98-150 | on a time-ordered script, step k is due iff its offset has passed |
| ScenarioReplay.DueInMonotone | src/components/HomePage.tsx:98-150 | snapshots never go back: later, at least as many steps are due |
| ScenarioReplay.AtActivation | src/components/HomePage.tsx:64-84 | at the activation instant no step is due, so the world is the baseline and the log is the activation log |
| ScenarioReplay.RunHaltsStill | src/components/HomePage.tsx:180-184 | if every step obeys the halt rule, no replayed world shows a halted train moving |
| ScenarioReplay.RunSafety | src/components/HomePage.tsx:173-178 | if every metrics snapshot keeps safety at 99.9, every replayed world does |
| ScenarioReplay.MetricsUntouched | src/components/HomePage.tsx:157-164 | steps that set no metrics leave the metrics as they were |
| ScenarioReplay.AlarmsUntouched | src/components/HomePage.tsx:189-206 | steps that set no signal, alert or emergency flag leave all of them as they were |
| ScenarioReplay.RunLogBounded | src/components/HomePage.tsx:61 | the replayed log never exceeds five entries |
| ScenarioReplay.FiredNotesNewestFirst | src/components/HomePage.tsx:189-197 | after one step's appends, its notes head the log newest-first with the step's stamp |
| ScenarioReplay.StepNotesNewestFirst | src/components/HomePage.tsx:189-197 | once step k fires, its notes head the log newest-first, stamped with activation time plus its offset |
| ScenarioProperties.ScriptsHaltWithZeroSpeed | src/components/HomePage.tsx:183 | in every scenario, each step sets a halt status only with speed 0, and a nonzero speed only with a non-halt status |
| ScenarioProperties.NormalHaltRule | src/components/HomePage.tsx:98-150 | the normal scenario obeys the halt rule |
| ScenarioProperties.ConflictHaltRule | src/components/HomePage.tsx:157-237 | the conflict scenario obeys the halt rule |
| ScenarioProperties.EmergencyHaltRule | src/components/HomePage.tsx:244-320 | the emergency scenario obeys the halt rule |
| ScenarioProperties.OptimizationHaltRule | src/components/HomePage.tsx:327-472 | the optimization scenario obeys the halt rule |
| ScenarioProperties.ScriptsKeepSafety | src/components/HomePage.tsx:173-178 | every metrics snapshot any scenario installs has safety 99.9 |
| ScenarioProperties.ReachableWorldInvariants | src/components/HomePage.tsx:183 | at every time after any activation, no halted train moves and safety reads 99.9, on target |
| ScenarioProperties.ReachableAlarmsConsistent | src/components/HomePage.tsx:93-473 | at every time after any activation, a train flagged as an emergency shows a halt status, and while a conflict or an emergency is raised some signal is not green |
| ScenarioProperties.ConflictAlarmsConsistent | src/components/HomePage.tsx:157-237 | every world of the conflict scenario keeps the alarm invariant, and its last step leaves it calm |
| ScenarioProperties.ConflictRaised | src/components/HomePage.tsx:167-206 | from the 4 s step until the 10 s step the conflict is up with S1 red, and no train is flagged |
| ScenarioProperties.ConflictCleared | src/components/HomePage.tsx:209-237 | after the 10 s step S1 is still red under the conflict; after the 12 s step everything is calm |
| ScenarioProperties.EmergencyAlarmsConsistent | src/components/HomePage.tsx:244-320 | every world of the emergency scenario keeps the alarm invariant, and its last step leaves it calm |
| ScenarioProperties.EmergencyRaised | src/components/HomePage.tsx:253-298 | from the 4 s step until the 12 s step the Intercity is flagged in medical_emergency, the alert is up and S1 is red |
| ScenarioProperties.EmergencyCleared | src/components/HomePage.tsx:301-320 | after the 12 s step the Intercity's flag is down while S1 stays red under the alert; after the 15 s step everything is calm |
| ScenarioProperties.OptimizationNeverAlarms | src/components/HomePage.tsx:327-472 | at every point of the optimization scenario all signals are green, no alert is up and no train is flagged |
| ScenarioProperties.ScriptsEndCalm | src/components/HomePage.tsx:93-473 | once every timer of a scenario has fired, all signals are green, no alert is up and no train is flagged |
| ScenarioProperties.FinalWorldCalm | src/components/HomePage.tsx:93-473 | the world after each scenario's last step is calm |
| ScenarioProperties.AllOnTargetOnlyWhenOptimized | src/components/HomePage.tsx:1654 | all four metrics are on target iff the optimization scenario has run for 15 s or more |
| ScenarioProperties.NormalNeverAllOnTarget | src/components/HomePage.tsx:1654 | the normal scenario never puts all four metrics on target |
| ScenarioProperties.ConflictNeverAllOnTarget | src/components/HomePage.tsx:173-178 | the conflict scenario never puts all four metrics on target |
| ScenarioProperties.EmergencyNeverAllOnTarget | src/components/HomePage.tsx:259-264 | the emergency scenario never puts all four metrics on target |
| ScenarioProperties.OptimizationOnTargetFrom | src/components/HomePage.tsx:431-436 | the optimization scenario has all metrics on target exactly from 15 s on |
| ScenarioProperties.NormalKeepsMetrics | src/components/HomePage.tsx:98-150 | the normal scenario never changes the baseline metrics |
| ScenarioProperties.ConflictMetricsDuring | src/components/HomePage.tsx:173-178 | from the 4 s step until the 12 s step, the conflict scenario shows the conflict metrics |
| ScenarioProperties.EmergencyMetricsDuring | src/components/HomePage.tsx:259-264 | from the 4 s step until the 15 s step, the emergency scenario shows the emergency metrics |
| ScenarioProperties.OptimizationMetricsBefore | src/components/HomePage.tsx:327-422 | before the 15 s step, the optimization scenario shows the baseline metrics |
| ScenarioProperties.OptimizationMetricsAfter | src/components/HomePage.tsx:431-436 | from the 15 s step on, the optimization scenario shows the optimized metrics |
| ScenarioProperties.ConflictDetectedWindow | src/components/HomePage.tsx:167-186 | from 4 s until 6 s: S1 red, S2 yellow, the Rajdhani stopped in emergency_stop, efficiency 76.5, conflict flagged |
| ScenarioProperties.ConflictResolvedAfter | src/components/HomePage.tsx:219-237 | from 12 s on: all signals green, efficiency 92.8, the Rajdhani back at 140 in normal operations, no rerouting, no conflict |
| ScenarioProperties.EmergencyHaltWindow | src/components/HomePage.tsx:253-285 | from 4 s until 12 s: all signals red, all trains at speed 0, the Intercity in medical_emergency with its emergency flag, the alert on |
| ScenarioProperties.EmergencyResolvedAfter | src/components/HomePage.tsx:288-320 | from 12 s the Intercity's emergency flag is off; from 15 s all signals are green and the alert is cleared |
| ScenarioProperties.NormalNeverAlarms | src/components/HomePage.tsx:98-150 | at every point of the normal scenario all signals are green, no alert is up and no train is flagged |
| ScenarioProperties.ConflictApproachFrame | src/components/HomePage.tsx:157-164 | the conflict's 2 s step moves only the Rajdhani and the Intercity; freight, signals, metrics and alerts carry over |
| ScenarioProperties.EmergencyApproachFrame | src/components/HomePage.tsx:244-250 | the emergency's 2 s step moves only the Intercity |
| ScenarioProperties.ConflictResolutionLogOrder | src/components/HomePage.tsx:189-197 | after the conflict's 6 s step, the signal change is on top of the rerouting decision, both stamped at 6 s |
| ScenarioProperties.OptimizationArrivalLogOrder | src/components/HomePage.tsx:394-422 | after the optimization's 12 s step the log is full and its top four are the three arrivals (the last appended first) and the allocation summary |
| ScenarioProperties.ArrivalsHeadLog | src/components/HomePage.tsx:394-422 | four appends on top of a non-empty log fill it, with the last appended on top |
| Timeline.Scheduled | src/components/HomePage.tsx:98 | activation pushes one timer per step, in step order, with consecutive handles, each due at activation time plus its offset |
| Timeline.PendingPush | src/components/HomePage.tsx:98 | pushing a timer onto `timeouts` adds exactly that timer to the pending ones |
| Timeline.PendingAdvance | src/components/HomePage.tsx:98-150 | firing the next timer removes exactly it from the pending ones, because handles are distinct |
| Timeline.EarliestExists | src/components/HomePage.tsx:98-150 | if some live timer is due by t, there is an earliest live timer and it is due by t |
| Timeline.EarliestIsNext | src/components/HomePage.tsx:98-150 | the earliest live timer is the next unfired step's timer |
| Timeline.FireKeeps | src/components/HomePage.tsx:98-150 | firing the next step's timer at its due time keeps the timer bookkeeping and shrinks the live set |
| Timeline.IdleKeeps | src/components/HomePage.tsx:98-150 | moving the clock to t with no live timer due keeps the bookkeeping |
| Timeline.ScenarioController.constructor | src/components/HomePage.tsx:7-41 | mounting starts from the initial log and activates "normal": baseline world, the activation entry on top of "System operational" |
| Timeline.ScenarioController.Activate | src/components/HomePage.tsx:64-95 | the effect resets the world to the baseline, logs the activation note of a known id, and schedules that id's steps from now |
| Timeline.ScenarioController.Announce | src/components/HomePage.tsx:64-84 | the world is the baseline and the log gains the activation note iff the id is known |
| Timeline.ScenarioController.Start | src/components/HomePage.tsx:86-473 | the active id's steps are scheduled from now, none has fired, and the bookkeeping invariant holds |
| Timeline.ScenarioController.Schedule | src/components/HomePage.tsx:98-150 | `timeouts` becomes exactly the scheduled timers, handles advance by the step count, and all of them are live |
| Timeline.ScenarioController.Cancel | src/components/HomePage.tsx:88-91 | a timer stays live iff it was live and not in `timeouts`; `timeouts` becomes empty |
| Timeline.ScenarioController.Select | src/components/HomePage.tsx:476-477 | a new id kills every old live timer and restarts from the baseline with the new id's log entry; the active id changes nothing |
| Timeline.ScenarioController.LogBounded | src/components/HomePage.tsx:61 | the shown log never exceeds five entries |
| Timeline.ScenarioController.HandlesIssued | src/components/HomePage.tsx:98 | every live timer belongs to the current activation and has a handle already issued |
| Timeline.ScenarioController.AdvanceTo | src/components/HomePage.tsx:98-150 | letting time pass to t fires every due timer, earliest first, and the world and log stay the replay of the due steps |
| Timeline.ScenarioController.ShowsTimeline | src/components/HomePage.tsx:98-150 | the world and log shown are the script replayed up to the time elapsed since activation |
| Timeline.ScenarioController.FireNext | src/components/HomePage.tsx:98-150 | one turn of the event loop fires exactly one more step and keeps the invariants |
| Timeline.ScenarioController.Fire | src/components/HomePage.tsx:98-106 | firing the next timer moves the clock to its due time and shows one more step |
| Timeline.ScenarioController.Tick | src/components/HomePage.tsx:98-106 | the fired timer leaves the live set and the clock reads its due time, which is activation time plus the step's offset |
| Timeline.ScenarioController.Callback | src/components/HomePage.tsx:98-106 | the callback appends the step's notes stamped with the current time and applies its effect, giving the replay of one more step |
| Timeline.ScenarioController.Idle | src/components/HomePage.tsx:98-150 | with no live timer due by t, the clock moves to t and nothing else changes |
| ScenarioSwitching.EmergencyThenNormal | src/components/HomePage.tsx:86-91 | after switching from emergency to normal at any time, no emergency or alert ever shows and the metrics are the baseline |
| ScenarioSwitching.EmergencyAlone | src/components/HomePage.tsx:253-273 | left alone, the emergency scenario shows the emergency and the alert between 4 s and 12 s |
| ScenarioSwitching.EmergencyShown | src/components/HomePage.tsx:253-285 | a world replayed 4 s to 12 s into the emergency script shows the emergency and the alert |
| DemoSimulation.NextStep | src/components/DemoPage.tsx:63 | the phase stays in 0..4, advancing by one and wrapping from 4 to 0 |
| DemoSimulation.InitialRoster | src/components/DemoPage.tsx:17-22 | the page mounts with trains 1 to 4 in order, no negative delay, and only Express 102 in conflict |
| DemoSimulation.ResetRoster | src/components/DemoPage.tsx:80-85 | reset installs the mounted roster with the same delays, every train running; it differs from the mounted table only in Express 102's status |
| DemoSimulation.TickTrain | src/components/DemoPage.tsx:65-71 | identity is kept; train 4 turns conflict in phase 1; all run in phase 4, otherwise the status stays; the delay drops by 2, floored at 0, only in phase 4 |
| DemoSimulation.TickTrains | src/components/DemoPage.tsx:65-71 | the tick's `map` keeps the roster (count, order, ids, names, priorities) and never makes a delay negative |
| DemoSimulation.StepAfter | src/components/DemoPage.tsx:63 | the phase after any number of ticks stays in 0..4 |
| DemoSimulation.ActiveConflicts | src/components/DemoPage.tsx:54 | the metric shows 0 conflicts iff the phase is past 3, otherwise 1 |
| DemoSimulation.OneCurrentCard | src/components/DemoPage.tsx:278-283 | exactly one phase card is current; the earlier ones are done and the later ones are upcoming |
| DemoSimulation.BannerMeansConflict | src/components/DemoPage.tsx:201 | the banner shows only while a conflict is counted and is hidden only in phases 0 and 4; phase 0 counts a conflict with no banner |
| DemoSimulation.PlayedKeepsRoster | src/components/DemoPage.tsx:65-71 | any number of ticks keeps the roster (count, order, ids, names, priorities) and never makes a delay negative or larger |
| DemoSimulation.PlayedSplits | src/components/DemoPage.tsx:59-75 | a ticks then b ticks equal a + b ticks, for the table and the phase |
| DemoSimulation.StepAfterIsModular | src/components/DemoPage.tsx:63 | after n ticks the phase is (start + n) mod 5 |
| DemoSimulation.FullCycle | src/components/DemoPage.tsx:65-71 | five ticks from phase 0 set every train running and two minutes less late, floored at 0 |
| DemoSimulation.CyclesReduceDelays | src/components/DemoPage.tsx:70 | k full cycles from phase 0 reduce every delay by 2k, floored at 0 |
| DemoSimulation.ResetClearsDelays | src/components/DemoPage.tsx:77-86 | 30 ticks after a reset every delay is 0; after 25 the freight is still 2 minutes late |
| DemoSimulation.Demo.constructor | src/components/DemoPage.tsx:15-22 | the page mounts paused in phase 0 with Express 102 in conflict |
| DemoSimulation.Demo.TogglePlay | src/components/DemoPage.tsx:132 | the start/pause button flips the playing flag |
| DemoSimulation.Demo.Tick | src/components/DemoPage.tsx:59-75 | while paused nothing changes; while playing the phase advances and the table is updated from the old phase, keeping the roster |
| DemoSimulation.Demo.Reset | src/components/DemoPage.tsx:77-86 | reset pauses, returns to phase 0, and installs the four trains all running with delays 0, 5, 12 and 0 |
| DemoSimulation.Demo.Play | src/components/DemoPage.tsx:59-75 | n firings of the interval give the n-tick replay of the table, with the phase at (start + n) mod 5 |
| DemoSimulation.ResetAndPlay | src/components/DemoPage.tsx:77-86 | reset, start and thirty ticks leave every delay at 0 and the phase back at 0 |

## Left out

- Rendering is not modelled: JSX, SVG, framer-motion animation and CSS class choices, including the colour of each metric and card.
- The 3-second loader timer (`HomePage.tsx:43-50`) is presentation only.
- Real timers are not modelled. `setTimeout`/`setInterval` become an abstract millisecond clock that advances only through `AdvanceTo` (scenarios) or `Tick`/`Play` (demo). The demo's 3000 ms period is not modelled: one `Tick` is one firing.
- The `time` field of a notification (`toLocaleTimeString`) is a wall-clock read and is left out.
- Notification ids: every note appended by one step carries the step's firing time. In the source each `addNotification` reads `Date.now()` separately, so two notes of one callback may get ids one millisecond apart. The model leaves that difference out.
- The demo trains' `position` is left out. It drifts by `Math.random() * 5` modulo 100 on floats.
- The demo's "On-time Performance", "Average Delay" and "System Load" metrics are left out. They are constant strings chosen by the playing flag alone.
- The phase titles and descriptions of the demo are left out. They are static text.
- Status and message strings are enumerations. Their exact source strings are in `Status.Label()` and `Message.Text()`. No contract states anything about the text.
- Metric values are fixed-point integers in tenths, not floating point.
- The dashboard, integration, benefits, how-it-works, features, contact and footer pages, and the routing in `App.tsx`, are not part of this model. They hold static data, a form echo and routes.
- A step's callback calls the world setters and `addNotification` separately. React renders them together, so the model applies them as one update.
- The demo interval is re-created whenever the phase changes (its dependencies are `isPlaying` and `currentStep`). Its callback therefore always sees the phase before the advance, and that is the phase `Tick` passes to the train update.
