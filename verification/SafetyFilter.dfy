/** The hot-path safety filter (crates/roz-copper/src/safety_filter.rs,
    `HotPathSafetyFilter`): every controller output passes through it before it
    can reach an actuator. */
module SafetyFilter {
  import opened Floats

  /** Distance from a position limit inside which a joint may only move away from it. */
  const POSITION_LIMIT_MARGIN: real := 0.05

  /** An acceleration limit; the fallback limits of the control manifest use infinity. */
  datatype Limit = Bounded(r: real) | Unlimited

  datatype JointLimits = JointLimits(
    name: string,
    maxVelocity: real,
    maxAcceleration: Limit,
    positionMin: real,
    positionMax: real)

  datatype ForceLimits = ForceLimits(maxForce: real, maxTorque: real)

  datatype Wrench = Wrench(fx: F64, fy: F64, fz: F64, tx: F64, ty: F64, tz: F64)

  datatype Kind = NanReject | VelocityClamp | AccelerationLimit | PositionLimit | UnconfiguredJoint | ForceLimit | TorqueLimit

  datatype Channel = Joint(name: string) | ChannelIndex(i: nat) | ForceTorque

  /** One audit record. For the two force kinds `raw` is the square of the measured magnitude. */
  datatype Intervention = Intervention(channel: Channel, raw: F64, clamped: real, kind: Kind)

  datatype Config = Config(limits: seq<JointLimits>, force: Option<ForceLimits>, period: real)
  {
    /** What construction and `f64::clamp` demand: a positive period and non-negative limits. */
    predicate Valid() {
      && period > 0.0
      && forall i :: 0 <= i < |limits| ==> ValidLimits(limits[i])
    }
  }

  predicate ValidLimits(l: JointLimits) {
    l.maxVelocity >= 0.0 && (l.maxAcceleration.Bounded? ==> l.maxAcceleration.r >= 0.0)
  }

  datatype FilterResult = FilterResult(commands: seq<real>, interventions: seq<Intervention>, estop: bool)

  // ------------------------------------------------------------------
  // One channel
  // ------------------------------------------------------------------

  datatype Staged = Staged(value: real, audit: seq<Intervention>)

  function VelocityStage(l: JointLimits, v: real): Staged
    requires ValidLimits(l)
  {
    var clamped := Clamp(v, -l.maxVelocity, l.maxVelocity);
    if Abs(clamped - v) > EPSILON then
      Staged(clamped, [Intervention(Joint(l.name), Finite(v), clamped, VelocityClamp)])
    else
      Staged(v, [])
  }

  function ClampAcceleration(l: JointLimits, a: real): real
    requires ValidLimits(l)
  {
    match l.maxAcceleration
    case Bounded(m) => Clamp(a, -m, m)
    case Unlimited => a
  }

  function AccelerationStage(l: JointLimits, v: real, prev: Option<real>, period: real): Staged
    requires ValidLimits(l) && period > 0.0
  {
    if prev.None? then Staged(v, [])
    else
      var a := (v - prev.value) / period;
      var clamped := ClampAcceleration(l, a);
      if Abs(clamped - a) > EPSILON then
        var w := clamped * period + prev.value;
        Staged(w, [Intervention(Joint(l.name), Finite(v), w, AccelerationLimit)])
      else
        Staged(v, [])
  }

  function PositionStage(l: JointLimits, v: real, pos: Option<F64>): Staged {
    if pos.Some? &&
       ((AtMost(pos.value, l.positionMin + POSITION_LIMIT_MARGIN) && v < 0.0) ||
        (AtLeast(pos.value, l.positionMax - POSITION_LIMIT_MARGIN) && v > 0.0))
    then Staged(0.0, [Intervention(Joint(l.name), Finite(v), 0.0, PositionLimit)])
    else Staged(v, [])
  }

  function JointChannel(l: JointLimits, cmd: F64, prev: Option<real>, pos: Option<F64>, period: real): Staged
    requires ValidLimits(l) && period > 0.0
  {
    match cmd
    case Finite(v) =>
      var s1 := VelocityStage(l, v);
      var s2 := AccelerationStage(l, s1.value, prev, period);
      var s3 := PositionStage(l, s2.value, pos);
      Staged(s3.value, s1.audit + s2.audit + s3.audit)
    case _ =>
      Staged(0.0, [Intervention(Joint(l.name), if cmd.NaN? then Finite(0.0) else cmd, 0.0, NanReject)])
  }

  function At<T>(s: seq<T>, i: nat): Option<T> {
    if i < |s| then Some(s[i]) else None
  }

  /** What the filter does to channel `i`, given the previous output vector. */
  function FilterChannel(cfg: Config, prev: seq<real>, cmd: F64, i: nat, positions: Option<seq<F64>>): Staged
    requires cfg.Valid()
  {
    if i < |cfg.limits| then
      JointChannel(cfg.limits[i], cmd, At(prev, i), if positions.Some? then At(positions.value, i) else None, cfg.period)
    else
      Staged(0.0, [Intervention(ChannelIndex(i), cmd, 0.0, UnconfiguredJoint)])
  }

  // ------------------------------------------------------------------
  // Force check and the whole tick
  // ------------------------------------------------------------------

  function Square(x: F64): F64 {
    match x
    case Finite(v) => Finite(v * v)
    case NaN => NaN
    case _ => PosInf
  }

  function PlusF(a: F64, b: F64): F64 {
    if a.NaN? || b.NaN? then NaN
    else if a.Finite? && b.Finite? then Finite(a.v + b.v)
    else PosInf
  }

  function SquaredNorm(x: F64, y: F64, z: F64): F64 {
    PlusF(Square(z), PlusF(Square(x), Square(y)))
  }

  /** `sqrt(squared) > limit`, decided without the square root. */
  predicate NormExceeds(squared: F64, limit: real) {
    squared.PosInf? || (squared.Finite? && (limit < 0.0 || squared.v > limit * limit))
  }

  function ForceAudit(cfg: Config, wrench: Option<Wrench>): seq<Intervention> {
    if cfg.force.None? || wrench.None? then []
    else
      var w := wrench.value;
      var f := SquaredNorm(w.fx, w.fy, w.fz);
      var t := SquaredNorm(w.tx, w.ty, w.tz);
      (if NormExceeds(f, cfg.force.value.maxForce) then [Intervention(ForceTorque, f, 0.0, ForceLimit)] else [])
      + (if NormExceeds(t, cfg.force.value.maxTorque) then [Intervention(ForceTorque, t, 0.0, TorqueLimit)] else [])
  }

  function ChannelAudits(cfg: Config, prev: seq<real>, commands: seq<F64>, positions: Option<seq<F64>>, n: nat): seq<Intervention>
    requires cfg.Valid() && n <= |commands|
  {
    if n == 0 then []
    else ChannelAudits(cfg, prev, commands, positions, n - 1)
         + FilterChannel(cfg, prev, commands[n - 1], n - 1, positions).audit
  }

  function FilterTick(
    cfg: Config, prev: seq<real>, commands: seq<F64>, positions: Option<seq<F64>>, wrench: Option<Wrench>): (r: FilterResult)
    requires cfg.Valid()
    ensures |r.commands| == |commands|
  {
    var estop := ForceAudit(cfg, wrench) != [];
    FilterResult(
      seq(|commands|, i requires 0 <= i < |commands| =>
        if estop then 0.0 else FilterChannel(cfg, prev, commands[i], i, positions).value),
      ChannelAudits(cfg, prev, commands, positions, |commands|) + ForceAudit(cfg, wrench),
      estop)
  }

  /** The per-joint pipeline, rewriting one value stage by stage. */
  method FilterJoint(limits: JointLimits, cmd: F64, prev: Option<real>, pos: Option<F64>, period: real)
    returns (value: real, audit: seq<Intervention>)
    requires ValidLimits(limits) && period > 0.0
    ensures Staged(value, audit) == JointChannel(limits, cmd, prev, pos, period)
  {
    hide Abs, Clamp, ClampAcceleration, AtMost, AtLeast;
    if !cmd.Finite? {
      return 0.0, [Intervention(Joint(limits.name), if cmd.NaN? then Finite(0.0) else cmd, 0.0, NanReject)];
    }
    value, audit := cmd.v, [];
    var clampedVel := Clamp(value, -limits.maxVelocity, limits.maxVelocity);
    if Abs(clampedVel - value) > EPSILON {
      audit := [Intervention(Joint(limits.name), Finite(value), clampedVel, VelocityClamp)];
      value := clampedVel;
    }
    ghost var s1 := Staged(value, audit);
    assert s1 == VelocityStage(limits, cmd.v);
    if prev.Some? {
      var accel := (value - prev.value) / period;
      var clampedAccel := ClampAcceleration(limits, accel);
      if Abs(clampedAccel - accel) > EPSILON {
        var newCmd := clampedAccel * period + prev.value;
        audit := audit + [Intervention(Joint(limits.name), Finite(value), newCmd, AccelerationLimit)];
        value := newCmd;
      }
    }
    ghost var s2 := AccelerationStage(limits, s1.value, prev, period);
    assert value == s2.value && audit == s1.audit + s2.audit;
    if pos.Some? &&
       ((AtMost(pos.value, limits.positionMin + POSITION_LIMIT_MARGIN) && value < 0.0) ||
        (AtLeast(pos.value, limits.positionMax - POSITION_LIMIT_MARGIN) && value > 0.0))
    {
      audit := audit + [Intervention(Joint(limits.name), Finite(value), 0.0, PositionLimit)];
      value := 0.0;
    }
  }

  method CheckForce(cfg: Config, wrench: Option<Wrench>) returns (audit: seq<Intervention>)
    ensures audit == ForceAudit(cfg, wrench)
  {
    audit := [];
    if cfg.force.Some? && wrench.Some? {
      var w := wrench.value;
      var f := SquaredNorm(w.fx, w.fy, w.fz);
      var t := SquaredNorm(w.tx, w.ty, w.tz);
      if NormExceeds(f, cfg.force.value.maxForce) {
        audit := audit + [Intervention(ForceTorque, f, 0.0, ForceLimit)];
      }
      if NormExceeds(t, cfg.force.value.maxTorque) {
        audit := audit + [Intervention(ForceTorque, t, 0.0, TorqueLimit)];
      }
    }
  }

  /** The filter object: its only state is the previous output vector. */
  class HotPathSafetyFilter {
    const cfg: Config
    var previousCommands: seq<real>

    constructor (cfg: Config)
      requires cfg.Valid()
      ensures this.cfg == cfg && previousCommands == []
    {
      this.cfg := cfg;
      previousCommands := [];
    }

    method Reset()
      modifies this
      ensures previousCommands == []
    {
      previousCommands := [];
    }

    method Filter(commands: seq<F64>, positions: Option<seq<F64>>, wrench: Option<Wrench>) returns (r: FilterResult)
      requires cfg.Valid()
      modifies this
      ensures r == FilterTick(cfg, old(previousCommands), commands, positions, wrench)
      ensures previousCommands == r.commands
    {
      var result := new real[|commands|];
      var interventions: seq<Intervention> := [];

      for i := 0 to |commands|
        invariant forall k :: 0 <= k < i ==> result[k] == FilterChannel(cfg, previousCommands, commands[k], k, positions).value
        invariant interventions == ChannelAudits(cfg, previousCommands, commands, positions, i)
        invariant previousCommands == old(previousCommands)
      {
        if i < |cfg.limits| {
          var pos := if positions.Some? then At(positions.value, i) else None;
          var value, audit := FilterJoint(cfg.limits[i], commands[i], At(previousCommands, i), pos, cfg.period);
          result[i] := value;
          interventions := interventions + audit;
        } else {
          result[i] := 0.0;
          interventions := interventions + [Intervention(ChannelIndex(i), commands[i], 0.0, UnconfiguredJoint)];
        }
      }

      var force := CheckForce(cfg, wrench);
      var estop := force != [];
      if estop {
        forall k | 0 <= k < result.Length { result[k] := 0.0; }
      }

      previousCommands := result[..];
      r := FilterResult(result[..], interventions + force, estop);
      assert r.commands == FilterTick(cfg, old(previousCommands), commands, positions, wrench).commands;
    }
  }
}
