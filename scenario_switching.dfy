/** Runs of the scenario controller as the landing page drives it: mount,
    press scenario buttons, let time pass. */
module ScenarioSwitching {
  import opened WorldState
  import opened ScenarioRegistry
  import opened ScenarioProperties
  import opened ScenarioReplay
  import opened Timeline

  /** Switching from the emergency scenario to the normal one at any time:
      whatever the emergency timeline had pending never fires, so the
      normal run shows no emergency, no alert and the baseline metrics. */
  method EmergencyThenNormal(switchAt: int, observeAt: int) returns (emergency: bool, alert: bool, metrics: Metrics)
    requires 0 <= switchAt <= observeAt
    ensures !emergency && !alert && metrics == BaselineMetrics
  {
    var c := new ScenarioController(0);
    c.Select("emergency");
    c.AdvanceTo(switchAt);
    c.Select("normal");
    c.AdvanceTo(observeAt);
    emergency, alert, metrics := c.world.intercity.emergency, c.world.emergencyActive, c.world.metrics;
    NormalNeverAlarms(c.fired);
    NormalKeepsMetrics(c.fired);
  }

  /** Left alone, the emergency scenario does raise the emergency between
      4 s and 12 s. */
  method EmergencyAlone(observeAt: int) returns (emergency: bool, alert: bool)
    requires 4000 <= observeAt < 12000
    ensures emergency && alert
  {
    var c := new ScenarioController(0);
    c.Select("emergency");
    assert c.started == 0 && c.script == ScriptFor("emergency");
    c.AdvanceTo(observeAt);
    c.ShowsTimeline();
    EmergencyShown(c.script, c.now - c.started, c.world);
    emergency, alert := c.world.intercity.emergency, c.world.emergencyActive;
  }

  lemma EmergencyShown(script: seq<Step>, e: int, w: World)
    requires script == ScriptFor("emergency") && w == WorldAt(script, e) && 4000 <= e < 12000
    ensures w.intercity.emergency && w.emergencyActive
  {
    EmergencyHaltWindow(e);
  }
}
