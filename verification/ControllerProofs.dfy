/** One controller tick in terms of what the module returned and the sensors reported. */
module ControllerProofs {
  import opened Floats
  import opened SafetyFilter
  import opened SafetyFilterProofs
  import opened Evidence
  import opened Canary
  import opened Controller

  /** What the module asks of channel `i`; a channel it does not mention is asked for nothing. */
  function Asked(values: seq<F64>, i: nat): F64 {
    if i < |values| then values[i] else Finite(0.0)
  }

  /** The module asks for nothing on any channel. */
  predicate Idle(c: LoadedController, values: seq<F64>) {
    forall i :: 0 <= i < |c.profile.channels| && i < |values| ==> values[i].Finite? && Abs(values[i].v) < EPSILON
  }

  /** What the filter takes for the position of channel `i`: the reported positions, then the velocities. */
  function PositionAt(sensors: Sensors, i: nat): Option<F64> {
    if i < |sensors.positions| then Some(sensors.positions[i])
    else if i - |sensors.positions| < |sensors.velocities| then Some(sensors.velocities[i - |sensors.positions|])
    else None
  }

  /** The frame is what was asked for, within the controller's limits. */
  ghost predicate Obeys(c: LoadedController, values: seq<F64>, sensors: Sensors, frame: Frame) {
    && |frame| == |c.profile.channels|
    && forall i :: 0 <= i < |frame| ==> ObeysAt(c, values, sensors, i, frame[i])
  }

  ghost predicate ObeysAt(c: LoadedController, values: seq<F64>, sensors: Sensors, i: nat, out: real) {
    var cfg := c.profile.filter;
    if i >= |cfg.limits| || !Asked(values, i).Finite? then out == 0.0
    else exists kinds ::
      JointRule(cfg.limits[i], Asked(values, i).v, At(c.previous, i), PositionAt(sensors, i), cfg.period, out, kinds)
  }

  lemma IdleIsDefault(c: LoadedController, values: seq<F64>)
    ensures var raw := RawCommands(|c.profile.channels|, values); raw == [] || AllDefault(raw) <==> Idle(c, values)
  {
    var raw := RawCommands(|c.profile.channels|, values);
    if AllDefault(raw) {
      forall i | 0 <= i < |c.profile.channels| && i < |values|
        ensures values[i].Finite? && Abs(values[i].v) < EPSILON
      {
        assert raw[i] == values[i];
      }
    }
  }

  lemma StateIsPositions(sensors: Sensors, i: nat)
    ensures (if sensors.StateValues().Some? then At(sensors.StateValues().value, i) else None) == PositionAt(sensors, i)
  {
  }

  lemma FilteredObeys(c: LoadedController, values: seq<F64>, sensors: Sensors)
    requires !Filtered(c, values, sensors).estop
    ensures Obeys(c, values, sensors, Filtered(c, values, sensors).commands)
  {
    var raw := RawCommands(|c.profile.channels|, values);
    var out := Filtered(c, values, sensors).commands;
    forall i | 0 <= i < |out|
      ensures ObeysAt(c, values, sensors, i, out[i])
    {
      assert raw[i] == Asked(values, i);
      StateIsPositions(sensors, i);
      ChannelExactly(c.profile.filter, c.previous, raw, sensors.StateValues(), sensors.wrench, i);
      hide FilterTick, JointRule, PositionAt;
    }
  }

  /** A tick of a controller, exactly. A module that fails halts and is counted as a trap. Otherwise an
      idle output gives no command, whatever the sensors say; any other output halts the
      controller if the force or torque limit is exceeded, and else gives a frame that obeys the
      limits on every channel. The output, its latency and the kinds of all interventions are
      recorded, and the filtered vector is kept for the next tick. */
  lemma TickExactly(c: LoadedController, outcome: TickOutcome, sensors: Sensors)
    ensures var t := TickController(c, outcome, sensors);
      match outcome
      case Trapped =>
        t.result == TickResult(None, true) && t.controller == c.(collector := c.collector.(traps := c.collector.traps + 1))
      case Returned(values, micros) =>
        var over := OverForce(c.profile.filter, sensors.wrench) || OverTorque(c.profile.filter, sensors.wrench);
        var r := Filtered(c, values, sensors);
        && (t.result.halted <==> !Idle(c, values) && over)
        && (t.result.command.Some? <==> !Idle(c, values) && !over)
        && (t.result.command.Some? ==>
              t.result.command.value == t.controller.previous && Obeys(c, values, sensors, t.result.command.value))
        && t.controller.previous == r.commands
        && t.controller == c.(previous := r.commands,
                              collector := AfterTick(c.collector, TickRecord(micros, values, KindsOf(r.interventions))))
  {
    if outcome.Returned? {
      var values := outcome.values;
      var raw := RawCommands(|c.profile.channels|, values);
      IdleIsDefault(c, values);
      ForceStopsExactly(c.profile.filter, c.previous, raw, sensors.StateValues(), sensors.wrench);
      var r := Filtered(c, values, sensors);
      if !r.estop {
        FilteredObeys(c, values, sensors);
      }
      assert Kinds(r.interventions) == KindsOf(r.interventions);
      hide FilterTick, AfterTick, Obeys, OverForce, OverTorque, Idle, AllDefault;
    }
  }
}
