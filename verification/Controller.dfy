/** A loaded controller and one tick of it (crates/roz-copper/src/controller.rs,
    `LoadedController` and `tick_controller`). The WASM module is foreign: a tick
    either fails or returns any vector. A controller is owned by exactly one slot,
    so it is a value here. */
module Controller {
  import opened Floats
  import opened Artifacts
  import opened SafetyFilter
  import opened Evidence
  import opened Canary

  /** What preparation derives from the control manifest; command defaults are all zero. */
  datatype Profile = Profile(channels: seq<string>, spans: seq<real>, filter: Config)

  /** A profile whose filter could be constructed. */
  type ControlProfile = p: Profile | p.filter.Valid() witness Profile([], [], Config([], None, 1.0))

  datatype Prepared = Prepared(artifact: Artifact, profile: ControlProfile)

  datatype LoadedController = LoadedController(
    artifact: Artifact,
    running: bool,
    profile: ControlProfile,
    previous: seq<real>,
    collector: Collector)

  function FromPrepared(p: Prepared): LoadedController {
    LoadedController(p.artifact, true, p.profile, [], NewCollector(p.artifact.controllerId, p.profile.channels))
  }

  /** The last sensor frame. */
  datatype Sensors = Sensors(positions: seq<F64>, velocities: seq<F64>, wrench: Option<Wrench>)
  {
    /** The host's state vector: positions followed by velocities, absent when empty. */
    function StateValues(): Option<seq<F64>> {
      if positions + velocities == [] then None else Some(positions + velocities)
    }
  }

  datatype TickOutcome = Trapped | Returned(values: seq<F64>, micros: nat)

  datatype TickResult = TickResult(command: Option<Frame>, halted: bool)

  datatype Ticked = Ticked(controller: LoadedController, result: TickResult)

  /** The host's command slots: one per channel, zero unless the output covers it. */
  function RawCommands(width: nat, values: seq<F64>): (raw: seq<F64>)
    ensures |raw| == width
  {
    seq(width, i requires 0 <= i < width => if i < |values| then values[i] else Finite(0.0))
  }

  predicate AllDefault(raw: seq<F64>) {
    forall i :: 0 <= i < |raw| ==> raw[i].Finite? && Abs(raw[i].v) < EPSILON
  }

  function Filtered(c: LoadedController, values: seq<F64>, sensors: Sensors): FilterResult {
    FilterTick(c.profile.filter, c.previous, RawCommands(|c.profile.channels|, values), sensors.StateValues(), sensors.wrench)
  }

  function Kinds(interventions: seq<Intervention>): seq<Kind> {
    seq(|interventions|, i requires 0 <= i < |interventions| => interventions[i].kind)
  }

  /** What the tick adds to the evidence. */
  function RecordOf(c: LoadedController, values: seq<F64>, micros: nat, sensors: Sensors): TickRecord {
    TickRecord(micros, values, Kinds(Filtered(c, values, sensors).interventions))
  }

  /** A failing module is recorded as a trap and halts; otherwise the output is
      filtered and recorded. An empty or all-default output yields no command before
      the filter's e-stop is looked at; an e-stop halts; else the filtered frame. */
  function TickController(c: LoadedController, outcome: TickOutcome, sensors: Sensors): Ticked {
    match outcome
    case Trapped => Ticked(c.(collector := AfterTrap(c.collector)), TickResult(None, true))
    case Returned(values, micros) =>
      var r := Filtered(c, values, sensors);
      var raw := RawCommands(|c.profile.channels|, values);
      Ticked(
        c.(previous := r.commands, collector := AfterTick(c.collector, RecordOf(c, values, micros, sensors))),
        if raw == [] || AllDefault(raw) then TickResult(None, false)
        else if r.estop then TickResult(None, true)
        else TickResult(Some(r.commands), false))
  }

  /** A tick keeps the controller's identity; a halt yields no command; a command is the filter's
      whole output; and a filter e-stop yields no command and halts the controller if and only
      if it asked for something, so an idle output masks the e-stop. */
  lemma TickControllerFacts(c: LoadedController, outcome: TickOutcome, sensors: Sensors)
    ensures var t := TickController(c, outcome, sensors);
      && t.controller.artifact == c.artifact && t.controller.profile == c.profile && t.controller.running == c.running
      && (t.result.halted ==> t.result.command.None?)
      && (outcome.Trapped? ==> t.result.halted)
      && (outcome.Returned? && Filtered(c, outcome.values, sensors).estop ==>
            var raw := RawCommands(|c.profile.channels|, outcome.values);
            t.result.command.None? && (t.result.halted <==> raw != [] && !AllDefault(raw)))
      && (t.result.command.Some? ==> t.result.command.value == t.controller.previous)
      && (t.result.halted || outcome.Returned?)
      && (outcome.Returned? ==>
            t.controller.collector == AfterTick(c.collector, RecordOf(c, outcome.values, outcome.micros, sensors)))
  {
  }
}
