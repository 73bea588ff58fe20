/** A controller with its own filter and collector objects: one tick in place
    (crates/roz-copper/src/controller.rs, `tick_controller` and `rotate_evidence`),
    proved to be the tick that the rollout uses. */
module ControllerInstance {
  import opened Floats
  import opened Deployment
  import opened Artifacts
  import opened SafetyFilter
  import opened Evidence
  import opened Controller

  class Instance {
    const artifact: Artifact
    const profile: ControlProfile
    const filter: HotPathSafetyFilter
    var running: bool
    var collector: EvidenceCollector

    constructor (p: Prepared)
      ensures Valid() && View() == FromPrepared(p)
      ensures fresh(filter) && fresh(collector) && fresh(collector.latency)
    {
      artifact := p.artifact;
      profile := p.profile;
      running := true;
      filter := new HotPathSafetyFilter(p.profile.filter);
      collector := new EvidenceCollector(p.artifact.controllerId, p.profile.channels);
    }

    predicate Valid()
      reads this
    {
      && filter.cfg == profile.filter
      && collector.controllerId == artifact.controllerId
      && collector.channels == profile.channels
    }

    function View(): LoadedController
      reads this, filter, collector, collector.latency
    {
      LoadedController(artifact, running, profile, filter.previousCommands, collector.View())
    }

    method Tick(outcome: TickOutcome, sensors: Sensors) returns (r: TickResult)
      requires Valid()
      modifies filter, collector, collector.latency
      ensures Valid() && Ticked(View(), r) == TickController(old(View()), outcome, sensors)
    {
      match outcome {
        case Trapped =>
          collector.RecordTrap();
          return TickResult(None, true);
        case Returned(values, micros) =>
          hide Filtered, AfterTick, AllDefault, RecordOf;
          var result := FilterAndRecord(values, micros, sensors);
          var raw := RawCommands(|profile.channels|, values);
          if raw == [] {
            return TickResult(None, false);
          }
          var allDefault := IsAllDefault(raw);
          if allDefault {
            return TickResult(None, false);
          }
          if result.estop {
            return TickResult(None, true);
          }
          return TickResult(Some(result.commands), false);
      }
    }

    /** Filter the output and record the tick. */
    method FilterAndRecord(values: seq<F64>, micros: nat, sensors: Sensors) returns (r: FilterResult)
      requires Valid()
      modifies filter, collector, collector.latency
      ensures Valid() && r == Filtered(old(View()), values, sensors)
      ensures filter.previousCommands == r.commands
      ensures collector.View() == AfterTick(old(collector.View()), RecordOf(old(View()), values, micros, sensors))
    {
      hide FilterTick, AfterTick;
      r := filter.Filter(RawCommands(|profile.channels|, values), sensors.StateValues(), sensors.wrench);
      collector.RecordTick(TickRecord(micros, values, Kinds(r.interventions)));
    }

    static method IsAllDefault(raw: seq<F64>) returns (allDefault: bool)
      ensures allDefault == AllDefault(raw)
    {
      allDefault := true;
      for i := 0 to |raw|
        invariant allDefault <==> forall k :: 0 <= k < i ==> raw[k].Finite? && Abs(raw[k].v) < EPSILON
      {
        if !(raw[i].Finite? && Abs(raw[i].v - 0.0) < EPSILON) {
          allDefault := false;
        }
      }
    }

    /** Hand out the evidence collected so far and start over. */
    method RotateEvidence(mode: ExecutionMode) returns (b: Bundle)
      requires Valid()
      modifies this`collector
      ensures Valid() && fresh(collector) && fresh(collector.latency)
      ensures b == Finalize(old(collector.View()), artifact.key.digests, mode)
      ensures View() == old(View()).(collector := NewCollector(artifact.controllerId, profile.channels))
    {
      b := Finalize(collector.View(), artifact.key.digests, mode);
      collector := new EvidenceCollector(artifact.controllerId, profile.channels);
    }
  }
}
