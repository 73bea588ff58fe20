/** What the hot-path filter guarantees over whole runs: limits, audit trail and
    closed-loop joint safety. */
module SafetyFilterProofs {
  import opened Floats
  import opened SafetyFilter

  // ------------------------------------------------------------------
  // Limits
  // ------------------------------------------------------------------

  /** The largest magnitude channel `i` may output; a clamp that would move a
      value by no more than EPSILON is not applied, hence the slack. */
  function VelocityCap(cfg: Config, i: nat): real {
    if i < |cfg.limits| then cfg.limits[i].maxVelocity + EPSILON else 0.0
  }

  predicate WithinVelocity(cfg: Config, out: seq<real>) {
    forall i :: 0 <= i < |out| ==> Abs(out[i]) <= VelocityCap(cfg, i)
  }

  /** The channel was forced to zero instead of being limited. */
  predicate Stopped(audit: seq<Intervention>) {
    audit != [] && audit[|audit| - 1].kind in {NanReject, PositionLimit, UnconfiguredJoint}
  }

  lemma Scale(x: real, y: real, t: real)
    requires x <= y && t > 0.0
    ensures x * t <= y * t
  {
  }

  lemma ScaleAbs(x: real, y: real, t: real)
    requires Abs(x) <= y && t > 0.0
    ensures Abs(x * t) <= y * t
  {
    Scale(x, y, t);
    Scale(-x, y, t);
    assert (-x) * t == -(x * t);
  }

  lemma ScaleSign(x: real, t: real)
    requires t > 0.0
    ensures (x <= 0.0 ==> x * t <= 0.0) && (x >= 0.0 ==> x * t >= 0.0)
  {
  }

  /** Acceleration limiting moves the value towards the previous output, never
      past it, and bounds the move. */
  lemma AccelerationStageBounds(l: JointLimits, v: real, prev: real, period: real)
    requires ValidLimits(l) && period > 0.0
    ensures var w := AccelerationStage(l, v, Some(prev), period).value;
      && Between(prev, w, v)
      && (l.maxAcceleration.Bounded? ==> Abs(w - prev) <= (l.maxAcceleration.r + EPSILON) * period)
  {
    var a := (v - prev) / period;
    assert a * period == v - prev;
    var c := ClampAcceleration(l, a);
    if a >= 0.0 {
      assert 0.0 <= c <= a;
      Scale(0.0, c, period);
      Scale(c, a, period);
    } else {
      assert a <= c <= 0.0;
      Scale(c, 0.0, period);
      Scale(a, c, period);
    }
    if l.maxAcceleration.Bounded? {
      var w := AccelerationStage(l, v, Some(prev), period).value;
      var b := if Abs(c - a) > EPSILON then c else a;
      assert w - prev == b * period;
      ScaleAbs(b, l.maxAcceleration.r + EPSILON, period);
    }
  }

  lemma JointChannelBounds(l: JointLimits, cmd: F64, prev: Option<real>, pos: Option<F64>, period: real)
    requires ValidLimits(l) && period > 0.0
    requires prev.Some? ==> Abs(prev.value) <= l.maxVelocity + EPSILON
    ensures var s := JointChannel(l, cmd, prev, pos, period);
      && Abs(s.value) <= l.maxVelocity + EPSILON
      && (Stopped(s.audit) ==> s.value == 0.0)
      && (!Stopped(s.audit) && prev.Some? && l.maxAcceleration.Bounded? ==>
            Abs(s.value - prev.value) <= (l.maxAcceleration.r + EPSILON) * period)
  {
    if cmd.Finite? {
      var s1 := VelocityStage(l, cmd.v);
      assert Abs(s1.value) <= l.maxVelocity + EPSILON;
      if prev.Some? {
        AccelerationStageBounds(l, s1.value, prev.value, period);
      }
      var s2 := AccelerationStage(l, s1.value, prev, period);
      var s3 := PositionStage(l, s2.value, pos);
      var audit := JointChannel(l, cmd, prev, pos, period).audit;
      if s3.audit != [] {
        assert audit[|audit| - 1] == s3.audit[0];
      }
    }
  }

  /** A run of the filter object, from construction. */
  datatype Event =
    | Tick(commands: seq<F64>, positions: Option<seq<F64>>, wrench: Option<Wrench>)
    | Reset

  function PreviousAfter(cfg: Config, events: seq<Event>): seq<real>
    requires cfg.Valid()
  {
    if events == [] then []
    else
      var prev := PreviousAfter(cfg, events[..|events| - 1]);
      match events[|events| - 1]
      case Tick(commands, positions, wrench) => FilterTick(cfg, prev, commands, positions, wrench).commands
      case Reset => []
  }

  lemma {:induction false} PreviousWithinVelocity(cfg: Config, events: seq<Event>)
    requires cfg.Valid()
    ensures WithinVelocity(cfg, PreviousAfter(cfg, events))
  {
    if events != [] {
      var before := events[..|events| - 1];
      PreviousWithinVelocity(cfg, before);
      var e := events[|events| - 1];
      if e.Tick? {
        TickWithinLimits(cfg, PreviousAfter(cfg, before), e.commands, e.positions, e.wrench);
      }
    }
  }

  /** Channel `i` is zero because it was stopped, or within its acceleration limit of the last output. */
  predicate Limited(cfg: Config, prev: seq<real>, i: nat, s: Staged, out: real, estop: bool) {
    if estop || Stopped(s.audit) then out == 0.0
    else i < |cfg.limits| && i < |prev| && cfg.limits[i].maxAcceleration.Bounded? ==>
      Abs(out - prev[i]) <= (cfg.limits[i].maxAcceleration.r + EPSILON) * cfg.period
  }

  lemma ChannelWithinLimits(cfg: Config, prev: seq<real>, cmd: F64, i: nat, positions: Option<seq<F64>>)
    requires cfg.Valid() && WithinVelocity(cfg, prev)
    ensures var s := FilterChannel(cfg, prev, cmd, i, positions);
      Abs(s.value) <= VelocityCap(cfg, i) && Limited(cfg, prev, i, s, s.value, false)
  {
    hide JointChannel;
    if i < |cfg.limits| {
      assert ValidLimits(cfg.limits[i]);
      var pos := if positions.Some? then At(positions.value, i) else None;
      JointChannelBounds(cfg.limits[i], cmd, At(prev, i), pos, cfg.period);
    }
  }

  lemma CapIsNonNegative(cfg: Config, i: nat)
    requires cfg.Valid()
    ensures VelocityCap(cfg, i) >= 0.0
  {
    assert i < |cfg.limits| ==> ValidLimits(cfg.limits[i]);
  }

  /** One tick from a previous output within the velocity limits. */
  lemma TickWithinLimits(cfg: Config, prev: seq<real>, commands: seq<F64>, positions: Option<seq<F64>>, wrench: Option<Wrench>)
    requires cfg.Valid() && WithinVelocity(cfg, prev)
    ensures var r := FilterTick(cfg, prev, commands, positions, wrench);
      && WithinVelocity(cfg, r.commands)
      && forall i :: 0 <= i < |commands| ==>
           Limited(cfg, prev, i, FilterChannel(cfg, prev, commands[i], i, positions), r.commands[i], r.estop)
  {
    var r := FilterTick(cfg, prev, commands, positions, wrench);
    forall i | 0 <= i < |commands|
      ensures Abs(r.commands[i]) <= VelocityCap(cfg, i)
      ensures Limited(cfg, prev, i, FilterChannel(cfg, prev, commands[i], i, positions), r.commands[i], r.estop)
    {
      ChannelWithinLimits(cfg, prev, commands[i], i, positions);
      CapIsNonNegative(cfg, i);
    }
  }

  /** For every input history, with any widths and any non-finite values: each
      output respects the velocity limit, and the acceleration limit relative to
      the output before it. Limiting acceleration never breaks the velocity bound. */
  lemma EveryOutputWithinLimits(
    cfg: Config, history: seq<Event>, commands: seq<F64>, positions: Option<seq<F64>>, wrench: Option<Wrench>)
    requires cfg.Valid()
    ensures var prev := PreviousAfter(cfg, history);
      var r := FilterTick(cfg, prev, commands, positions, wrench);
      && WithinVelocity(cfg, r.commands)
      && forall i :: 0 <= i < |commands| ==>
           Limited(cfg, prev, i, FilterChannel(cfg, prev, commands[i], i, positions), r.commands[i], r.estop)
  {
    PreviousWithinVelocity(cfg, history);
    TickWithinLimits(cfg, PreviousAfter(cfg, history), commands, positions, wrench);
  }

  // ------------------------------------------------------------------
  // Audit trail
  // ------------------------------------------------------------------

  function ChannelOf(cfg: Config, i: nat): Channel {
    if i < |cfg.limits| then Joint(cfg.limits[i].name) else ChannelIndex(i)
  }

  /** The records kept for one channel, in order. */
  function OnChannel(list: seq<Intervention>, ch: Channel): seq<Intervention> {
    if list == [] then []
    else
      var rest := OnChannel(list[..|list| - 1], ch);
      if list[|list| - 1].channel == ch then rest + [list[|list| - 1]] else rest
  }

  /** The records lead from the raw command to the output without a gap; no record
      means the value passed through unchanged. NaN is logged as zero on a joint. */
  predicate Explains(cmd: F64, audit: seq<Intervention>, out: real) {
    if audit == [] then cmd == Finite(out)
    else
      && (audit[0].raw == cmd || (cmd.NaN? && audit[0].raw == Finite(0.0)))
      && (forall k :: 0 <= k < |audit| - 1 ==> audit[k + 1].raw == Finite(audit[k].clamped))
      && audit[|audit| - 1].clamped == out
  }

  lemma {:induction false} OnChannelConcat(a: seq<Intervention>, b: seq<Intervention>, ch: Channel)
    ensures OnChannel(a + b, ch) == OnChannel(a, ch) + OnChannel(b, ch)
  {
    if b == [] {
      assert a + b == a;
    } else {
      assert (a + b)[..|a + b| - 1] == a + b[..|b| - 1];
      OnChannelConcat(a, b[..|b| - 1], ch);
    }
  }

  lemma {:induction false} OnChannelAll(a: seq<Intervention>, own: Channel, ch: Channel)
    requires forall k :: 0 <= k < |a| ==> a[k].channel == own
    ensures OnChannel(a, ch) == if own == ch then a else []
  {
    if a != [] {
      OnChannelAll(a[..|a| - 1], own, ch);
      assert a == a[..|a| - 1] + [a[|a| - 1]];
    }
  }

  predicate DistinctNames(cfg: Config) {
    forall i, j :: 0 <= i < j < |cfg.limits| ==> cfg.limits[i].name != cfg.limits[j].name
  }

  lemma OwnAudit(cfg: Config, prev: seq<real>, cmd: F64, i: nat, positions: Option<seq<F64>>)
    requires cfg.Valid()
    ensures var audit := FilterChannel(cfg, prev, cmd, i, positions).audit;
      forall k :: 0 <= k < |audit| ==> audit[k].channel == ChannelOf(cfg, i)
  {
  }

  lemma ChannelOfInjective(cfg: Config, i: nat, j: nat)
    requires DistinctNames(cfg)
    ensures ChannelOf(cfg, i) == ChannelOf(cfg, j) ==> i == j
  {
    if i < j < |cfg.limits| || j < i < |cfg.limits| {
      assert cfg.limits[i].name != cfg.limits[j].name;
    }
  }

  lemma ChannelAuditsStep(cfg: Config, prev: seq<real>, commands: seq<F64>, positions: Option<seq<F64>>, n: nat, ch: Channel)
    requires cfg.Valid() && n <= |commands|
    ensures n == 0 ==> OnChannel(ChannelAudits(cfg, prev, commands, positions, n), ch) == []
    ensures n > 0 ==>
      ChannelAudits(cfg, prev, commands, positions, n)
      == ChannelAudits(cfg, prev, commands, positions, n - 1) + FilterChannel(cfg, prev, commands[n - 1], n - 1, positions).audit
  {
    hide FilterChannel;
  }

  lemma {:induction false} ChannelAuditsByChannel(
    cfg: Config, prev: seq<real>, commands: seq<F64>, positions: Option<seq<F64>>, n: nat, i: nat)
    requires cfg.Valid() && DistinctNames(cfg) && n <= |commands| && i < |commands|
    ensures OnChannel(ChannelAudits(cfg, prev, commands, positions, n), ChannelOf(cfg, i))
         == if i < n then FilterChannel(cfg, prev, commands[i], i, positions).audit else []
  {
    hide FilterChannel, ChannelOf, DistinctNames, OnChannel, ChannelAudits;
    ChannelAuditsStep(cfg, prev, commands, positions, n, ChannelOf(cfg, i));
    if n > 0 {
      ChannelOfInjective(cfg, i, n - 1);
      var own := FilterChannel(cfg, prev, commands[n - 1], n - 1, positions).audit;
      ChannelAuditsByChannel(cfg, prev, commands, positions, n - 1, i);
      OnChannelConcat(ChannelAudits(cfg, prev, commands, positions, n - 1), own, ChannelOf(cfg, i));
      OwnAudit(cfg, prev, commands[n - 1], n - 1, positions);
      OnChannelAll(own, ChannelOf(cfg, n - 1), ChannelOf(cfg, i));
    }
  }

  lemma ChannelExplained(cfg: Config, prev: seq<real>, cmd: F64, i: nat, positions: Option<seq<F64>>)
    requires cfg.Valid()
    ensures var s := FilterChannel(cfg, prev, cmd, i, positions); Explains(cmd, s.audit, s.value)
  {
  }

  lemma {:induction false} AuditsPrefix(cfg: Config, prev: seq<real>, commands: seq<F64>, positions: Option<seq<F64>>, m: nat, n: nat)
    requires cfg.Valid() && m <= n <= |commands|
    ensures ChannelAudits(cfg, prev, commands, positions, m) <= ChannelAudits(cfg, prev, commands, positions, n)
    decreases n
  {
    hide FilterChannel;
    if m < n {
      AuditsPrefix(cfg, prev, commands, positions, m, n - 1);
    }
  }

  /** Where the records of channel `i` start. */
  function Offset(cfg: Config, prev: seq<real>, commands: seq<F64>, positions: Option<seq<F64>>, i: nat): nat
    requires cfg.Valid() && i <= |commands|
  {
    |ChannelAudits(cfg, prev, commands, positions, i)|
  }

  /** Audit completeness for every tick and every configuration, repeated joint names included. The
      records come in consecutive blocks, one per channel in order, followed by the force
      records, which are there exactly on an e-stop. Each block carries its channel's name. After
      an e-stop every output is zero; otherwise the block leads from the raw command to the output. */
  lemma AuditIsComplete(cfg: Config, prev: seq<real>, commands: seq<F64>, positions: Option<seq<F64>>, wrench: Option<Wrench>, i: nat)
    requires cfg.Valid() && i < |commands|
    ensures var r := FilterTick(cfg, prev, commands, positions, wrench);
      var from, to := Offset(cfg, prev, commands, positions, i), Offset(cfg, prev, commands, positions, i + 1);
      var end := Offset(cfg, prev, commands, positions, |commands|);
      && from <= to <= end <= |r.interventions|
      && (forall k :: from <= k < to ==> r.interventions[k].channel == ChannelOf(cfg, i))
      && (forall k :: end <= k < |r.interventions| ==> r.interventions[k].channel == ForceTorque)
      && (r.estop <==> end < |r.interventions|)
      && (if r.estop then r.commands[i] == 0.0 else Explains(commands[i], r.interventions[from..to], r.commands[i]))
  {
    var r := FilterTick(cfg, prev, commands, positions, wrench);
    var own := FilterChannel(cfg, prev, commands[i], i, positions);
    var before, after := ChannelAudits(cfg, prev, commands, positions, i), ChannelAudits(cfg, prev, commands, positions, i + 1);
    var all := ChannelAudits(cfg, prev, commands, positions, |commands|);
    AuditsPrefix(cfg, prev, commands, positions, i + 1, |commands|);
    OwnAudit(cfg, prev, commands[i], i, positions);
    ChannelExplained(cfg, prev, commands[i], i, positions);
    ForceChannel(cfg, wrench);
    TickParts(cfg, prev, commands, positions, wrench, i);
    hide FilterTick, FilterChannel, ChannelAudits, ForceAudit, Explains;
    assert r.interventions == all + ForceAudit(cfg, wrench);
    assert after == before + own.audit;
    assert r.interventions[|before|..|after|] == own.audit;
  }

  lemma ForceChannel(cfg: Config, wrench: Option<Wrench>)
    ensures var a := ForceAudit(cfg, wrench); forall k :: 0 <= k < |a| ==> a[k].channel == ForceTorque
  {
  }

  lemma TickParts(cfg: Config, prev: seq<real>, commands: seq<F64>, positions: Option<seq<F64>>, wrench: Option<Wrench>, i: nat)
    requires cfg.Valid() && i < |commands|
    ensures var r := FilterTick(cfg, prev, commands, positions, wrench);
      && r.interventions == ChannelAudits(cfg, prev, commands, positions, |commands|) + ForceAudit(cfg, wrench)
      && r.estop == (ForceAudit(cfg, wrench) != [])
      && r.commands[i] == if r.estop then 0.0 else FilterChannel(cfg, prev, commands[i], i, positions).value
    ensures ChannelAudits(cfg, prev, commands, positions, i + 1)
         == ChannelAudits(cfg, prev, commands, positions, i) + FilterChannel(cfg, prev, commands[i], i, positions).audit
  {
    hide FilterChannel, ForceAudit;
  }

  /** With distinct joint names a block can be found by name: on a non-e-stop tick the records
      under a channel's name explain its output. */
  lemma AuditByName(cfg: Config, prev: seq<real>, commands: seq<F64>, positions: Option<seq<F64>>, wrench: Option<Wrench>, i: nat)
    requires cfg.Valid() && DistinctNames(cfg) && i < |commands|
    ensures var r := FilterTick(cfg, prev, commands, positions, wrench);
      !r.estop ==> Explains(commands[i], OnChannel(r.interventions, ChannelOf(cfg, i)), r.commands[i])
  {
    var all := ChannelAudits(cfg, prev, commands, positions, |commands|);
    ChannelAuditsByChannel(cfg, prev, commands, positions, |commands|, i);
    ChannelExplained(cfg, prev, commands[i], i, positions);
    TickParts(cfg, prev, commands, positions, wrench, i);
    hide FilterTick, FilterChannel, ChannelAudits, ForceAudit, Explains, OnChannel;
    assert all + [] == all;
  }

  // ------------------------------------------------------------------
  // When and how a channel is changed
  // ------------------------------------------------------------------

  /** Too fast by more than EPSILON, and the value becomes the limit in the same direction. */
  predicate SpeedRule(l: JointLimits, v: real, w: real) {
    if Abs(v) > l.maxVelocity + EPSILON then w == (if v > 0.0 then l.maxVelocity else -l.maxVelocity) else w == v
  }

  /** Too far from the previous output for one period, and the value becomes the nearest reachable one. */
  predicate RateRule(l: JointLimits, v: real, prev: Option<real>, period: real, w: real) {
    if prev.Some? && l.maxAcceleration.Bounded? && Abs(v - prev.value) > (l.maxAcceleration.r + EPSILON) * period
    then Abs(w - prev.value) == l.maxAcceleration.r * period && Between(prev.value, w, v)
    else w == v
  }

  /** Within 0.05 of a limit and moving towards it. */
  predicate MustStop(l: JointLimits, v: real, pos: Option<F64>) {
    && pos.Some?
    && ((v < 0.0 && (pos.value.NegInf? || (pos.value.Finite? && pos.value.v <= l.positionMin + 0.05)))
        || (v > 0.0 && (pos.value.PosInf? || (pos.value.Finite? && pos.value.v >= l.positionMax - 0.05))))
  }

  function KindsOf(audit: seq<Intervention>): seq<Kind> {
    seq(|audit|, i requires 0 <= i < |audit| => audit[i].kind)
  }

  function Noted(changed: bool, kind: Kind): seq<Kind> {
    if changed then [kind] else []
  }

  /** The three limits applied in order, with one record for each that changed the value. */
  ghost predicate JointRule(l: JointLimits, v: real, prev: Option<real>, pos: Option<F64>, period: real, out: real, kinds: seq<Kind>) {
    exists v1: real, v2: real ::
      && SpeedRule(l, v, v1) && RateRule(l, v1, prev, period, v2)
      && out == (if MustStop(l, v2, pos) then 0.0 else v2)
      && kinds == Noted(v1 != v, VelocityClamp) + Noted(v2 != v1, AccelerationLimit) + Noted(out != v2, PositionLimit)
  }

  lemma SpeedExactly(l: JointLimits, v: real)
    requires ValidLimits(l)
    ensures var s := VelocityStage(l, v);
      SpeedRule(l, v, s.value) && KindsOf(s.audit) == Noted(s.value != v, VelocityClamp)
  {
  }

  lemma RateExactly(l: JointLimits, v: real, prev: Option<real>, period: real)
    requires ValidLimits(l) && period > 0.0
    ensures var s := AccelerationStage(l, v, prev, period);
      RateRule(l, v, prev, period, s.value) && KindsOf(s.audit) == Noted(s.value != v, AccelerationLimit)
  {
    if prev.Some? && l.maxAcceleration.Bounded? {
      var m, a := l.maxAcceleration.r, (v - prev.value) / period;
      TooSteep(v, prev.value, period, m + EPSILON);
      AccelerationStageBounds(l, v, prev.value, period);
      if Abs(a) > m + EPSILON {
        var c := if a > 0.0 then m else -m;
        assert ClampAcceleration(l, a) == c && Abs(c - a) > EPSILON;
        AbsScaled(c, period);
        assert a * period == v - prev.value;
        Distinct(c, a, period);
      } else {
        assert Abs(ClampAcceleration(l, a) - a) <= EPSILON;
      }
    }
  }

  lemma TooSteep(v: real, prev: real, period: real, limit: real)
    requires period > 0.0
    ensures Abs((v - prev) / period) > limit <==> Abs(v - prev) > limit * period
  {
    var a := (v - prev) / period;
    assert a * period == v - prev;
    AbsScaled(a, period);
    ScaleIff(Abs(a), limit, period);
  }

  lemma ScaleIff(x: real, y: real, t: real)
    requires t > 0.0
    ensures x > y <==> x * t > y * t
  {
  }

  lemma AbsScaled(x: real, t: real)
    requires t > 0.0
    ensures Abs(x * t) == Abs(x) * t
  {
    ScaleSign(x, t);
    assert (-x) * t == -(x * t);
  }

  lemma Distinct(x: real, y: real, t: real)
    requires t > 0.0 && x != y
    ensures x * t != y * t
  {
    ScaleIff(x, y, t);
    ScaleIff(y, x, t);
  }

  lemma StopExactly(l: JointLimits, v: real, pos: Option<F64>)
    ensures var s := PositionStage(l, v, pos);
      s.value == (if MustStop(l, v, pos) then 0.0 else v) && KindsOf(s.audit) == Noted(s.value != v, PositionLimit)
  {
  }

  lemma KindsConcat(a: seq<Intervention>, b: seq<Intervention>)
    ensures KindsOf(a + b) == KindsOf(a) + KindsOf(b)
  {
  }

  lemma JointExactly(l: JointLimits, v: real, prev: Option<real>, pos: Option<F64>, period: real)
    requires ValidLimits(l) && period > 0.0
    ensures var s := JointChannel(l, Finite(v), prev, pos, period); JointRule(l, v, prev, pos, period, s.value, KindsOf(s.audit))
  {
    var s1 := VelocityStage(l, v);
    var s2 := AccelerationStage(l, s1.value, prev, period);
    var s3 := PositionStage(l, s2.value, pos);
    SpeedExactly(l, v);
    RateExactly(l, s1.value, prev, period);
    StopExactly(l, s2.value, pos);
    KindsConcat(s1.audit, s2.audit);
    KindsConcat(s1.audit + s2.audit, s3.audit);
    assert JointChannel(l, Finite(v), prev, pos, period) == Staged(s3.value, s1.audit + s2.audit + s3.audit);
    hide VelocityStage, AccelerationStage, PositionStage, SpeedRule, RateRule, MustStop, KindsOf, JointChannel;
  }

  /** On every tick and every channel without an e-stop, exactly what the filter does: a channel
      without limits and a value that is not finite become zero; any other value is limited in
      speed, then in rate of change, then stopped near a position limit, each only where it
      exceeds the limit and no further than that; and the kinds recorded say which. */
  lemma ChannelExactly(cfg: Config, prev: seq<real>, commands: seq<F64>, positions: Option<seq<F64>>, wrench: Option<Wrench>, i: nat)
    requires cfg.Valid() && i < |commands| && !FilterTick(cfg, prev, commands, positions, wrench).estop
    ensures var r := FilterTick(cfg, prev, commands, positions, wrench);
      var from, to := Offset(cfg, prev, commands, positions, i), Offset(cfg, prev, commands, positions, i + 1);
      && from <= to <= |r.interventions|
      && var kinds := KindsOf(r.interventions[from..to]);
         if i >= |cfg.limits| then r.commands[i] == 0.0 && kinds == [UnconfiguredJoint]
         else if !commands[i].Finite? then r.commands[i] == 0.0 && kinds == [NanReject]
         else JointRule(cfg.limits[i], commands[i].v, At(prev, i), if positions.Some? then At(positions.value, i) else None,
                        cfg.period, r.commands[i], kinds)
  {
    var own := FilterChannel(cfg, prev, commands[i], i, positions);
    AuditIsComplete(cfg, prev, commands, positions, wrench, i);
    OwnBlock(cfg, prev, commands, positions, wrench, i);
    if i < |cfg.limits| && commands[i].Finite? {
      assert ValidLimits(cfg.limits[i]);
      JointExactly(cfg.limits[i], commands[i].v, At(prev, i), if positions.Some? then At(positions.value, i) else None, cfg.period);
    }
    hide FilterTick, JointRule, Offset;
  }

  /** The records between a channel's offsets are its own. */
  lemma OwnBlock(cfg: Config, prev: seq<real>, commands: seq<F64>, positions: Option<seq<F64>>, wrench: Option<Wrench>, i: nat)
    requires cfg.Valid() && i < |commands| && !FilterTick(cfg, prev, commands, positions, wrench).estop
    ensures var r := FilterTick(cfg, prev, commands, positions, wrench);
      var own := FilterChannel(cfg, prev, commands[i], i, positions);
      var from, to := Offset(cfg, prev, commands, positions, i), Offset(cfg, prev, commands, positions, i + 1);
      from <= to <= |r.interventions| && r.interventions[from..to] == own.audit && r.commands[i] == own.value
  {
    AuditsPrefix(cfg, prev, commands, positions, i + 1, |commands|);
    TickParts(cfg, prev, commands, positions, wrench, i);
    hide FilterTick, FilterChannel, ChannelAudits, ForceAudit;
  }

  // ------------------------------------------------------------------
  // Force and torque
  // ------------------------------------------------------------------

  /** Three readings exceed a limit: none is NaN, and one is infinite, or the limit is negative, or the
      sum of the squares is more than the limit squared. */
  predicate Overloads(x: F64, y: F64, z: F64, limit: real) {
    && !x.NaN? && !y.NaN? && !z.NaN?
    && (x.Finite? && y.Finite? && z.Finite? ==> limit < 0.0 || x.v * x.v + y.v * y.v + z.v * z.v > limit * limit)
  }

  predicate Watches(cfg: Config, wrench: Option<Wrench>) {
    cfg.force.Some? && wrench.Some?
  }

  predicate OverForce(cfg: Config, wrench: Option<Wrench>) {
    Watches(cfg, wrench) && Overloads(wrench.value.fx, wrench.value.fy, wrench.value.fz, cfg.force.value.maxForce)
  }

  predicate OverTorque(cfg: Config, wrench: Option<Wrench>) {
    Watches(cfg, wrench) && Overloads(wrench.value.tx, wrench.value.ty, wrench.value.tz, cfg.force.value.maxTorque)
  }

  lemma NormMeans(x: F64, y: F64, z: F64, limit: real)
    ensures NormExceeds(SquaredNorm(x, y, z), limit) <==> Overloads(x, y, z, limit)
  {
    if x.Finite? && y.Finite? && z.Finite? {
      assert SquaredNorm(x, y, z) == Finite(z.v * z.v + (x.v * x.v + y.v * y.v));
    }
  }

  predicate Records(list: seq<Intervention>, kind: Kind) {
    exists k :: 0 <= k < |list| && list[k].kind == kind
  }

  lemma {:induction false} NoForceOnChannels(cfg: Config, prev: seq<real>, commands: seq<F64>, positions: Option<seq<F64>>, n: nat)
    requires cfg.Valid() && n <= |commands|
    ensures var a := ChannelAudits(cfg, prev, commands, positions, n); !Records(a, ForceLimit) && !Records(a, TorqueLimit)
  {
    if n > 0 {
      NoForceOnChannels(cfg, prev, commands, positions, n - 1);
      NoForceOnChannel(cfg, prev, commands[n - 1], n - 1, positions);
      hide FilterChannel;
    }
  }

  lemma NoForceOnChannel(cfg: Config, prev: seq<real>, cmd: F64, i: nat, positions: Option<seq<F64>>)
    requires cfg.Valid()
    ensures var a := FilterChannel(cfg, prev, cmd, i, positions).audit; !Records(a, ForceLimit) && !Records(a, TorqueLimit)
  {
    hide VelocityCap;
  }

  lemma ForceAuditMeans(cfg: Config, wrench: Option<Wrench>)
    ensures var a := ForceAudit(cfg, wrench);
      && (Records(a, ForceLimit) <==> OverForce(cfg, wrench)) && (Records(a, TorqueLimit) <==> OverTorque(cfg, wrench))
      && (a != [] <==> OverForce(cfg, wrench) || OverTorque(cfg, wrench))
  {
    var a := ForceAudit(cfg, wrench);
    if Watches(cfg, wrench) {
      var w := wrench.value;
      NormMeans(w.fx, w.fy, w.fz, cfg.force.value.maxForce);
      NormMeans(w.tx, w.ty, w.tz, cfg.force.value.maxTorque);
      hide NormExceeds, SquaredNorm, Overloads;
      assert OverForce(cfg, wrench) ==> a[0].kind == ForceLimit;
      assert OverTorque(cfg, wrench) ==> a[|a| - 1].kind == TorqueLimit;
    }
  }

  lemma RecordsConcat(a: seq<Intervention>, b: seq<Intervention>, kind: Kind)
    ensures Records(a + b, kind) <==> Records(a, kind) || Records(b, kind)
  {
    if Records(a, kind) {
      var k :| 0 <= k < |a| && a[k].kind == kind;
      assert (a + b)[k].kind == kind;
    }
    if Records(b, kind) {
      var k :| 0 <= k < |b| && b[k].kind == kind;
      assert (a + b)[|a| + k].kind == kind;
    }
  }

  /** The force check, on every tick: the e-stop is raised, and every output forced to zero, if and only
      if limits and a wrench are there and the force exceeds the force limit or the torque the torque
      limit; and a record of either kind is there exactly for its own excess. */
  lemma ForceStopsExactly(cfg: Config, prev: seq<real>, commands: seq<F64>, positions: Option<seq<F64>>, wrench: Option<Wrench>)
    requires cfg.Valid()
    ensures var r := FilterTick(cfg, prev, commands, positions, wrench);
      && (r.estop <==> OverForce(cfg, wrench) || OverTorque(cfg, wrench))
      && (Records(r.interventions, ForceLimit) <==> OverForce(cfg, wrench))
      && (Records(r.interventions, TorqueLimit) <==> OverTorque(cfg, wrench))
      && (r.estop ==> forall i :: 0 <= i < |commands| ==> r.commands[i] == 0.0)
  {
    var channels := ChannelAudits(cfg, prev, commands, positions, |commands|);
    NoForceOnChannels(cfg, prev, commands, positions, |commands|);
    ForceAuditMeans(cfg, wrench);
    RecordsConcat(channels, ForceAudit(cfg, wrench), ForceLimit);
    RecordsConcat(channels, ForceAudit(cfg, wrench), TorqueLimit);
    hide ForceAudit, ChannelAudits, FilterChannel, Records, OverForce, OverTorque;
  }

  // ------------------------------------------------------------------
  // Closed loop
  // ------------------------------------------------------------------

  /** One period of the closed loop: the controller asks for `commands`, the sensor
      reports joint `j` truly and every other joint arbitrarily. */
  datatype Period = Period(commands: seq<F64>, positions: seq<F64>, wrench: Option<Wrench>)

  datatype Plant = Plant(previous: seq<real>, position: real)

  predicate Reports(periods: seq<Period>, j: nat) {
    forall k :: 0 <= k < |periods| ==> j < |periods[k].positions|
  }

  /** Joint `j` moves by its filtered velocity times the period. */
  function PlantStep(cfg: Config, j: nat, s: Plant, p: Period): Plant
    requires cfg.Valid() && j < |p.positions|
  {
    var r := FilterTick(cfg, s.previous, p.commands, Some(p.positions[j := Finite(s.position)]), p.wrench);
    Plant(r.commands, if j < |r.commands| then s.position + r.commands[j] * cfg.period else s.position)
  }

  function PlantRun(cfg: Config, j: nat, s: Plant, periods: seq<Period>): Plant
    requires cfg.Valid() && Reports(periods, j)
  {
    if periods == [] then s
    else
      var n := |periods| - 1;
      PlantStep(cfg, j, PlantRun(cfg, j, s, periods[..n]), periods[n])
  }

  /** The distance the joint can cover in one period fits in the margin. */
  predicate MarginCoversTick(cfg: Config, j: nat)
    requires j < |cfg.limits|
  {
    (cfg.limits[j].maxVelocity + EPSILON) * cfg.period <= POSITION_LIMIT_MARGIN
  }

  predicate InRange(l: JointLimits, position: real) {
    l.positionMin <= position <= l.positionMax
  }

  lemma PositionStageGuards(l: JointLimits, cmd: F64, prev: Option<real>, position: real, period: real)
    requires ValidLimits(l) && period > 0.0
    ensures GuardedAt(l, position, JointChannel(l, cmd, prev, Some(Finite(position)), period).value)
  {
  }

  /** Near a limit the joint may only move away from it. */
  predicate GuardedAt(l: JointLimits, position: real, v: real) {
    && (position >= l.positionMax - POSITION_LIMIT_MARGIN ==> v <= 0.0)
    && (position <= l.positionMin + POSITION_LIMIT_MARGIN ==> v >= 0.0)
  }

  lemma GuardedStepInRange(l: JointLimits, position: real, v: real, period: real)
    requires InRange(l, position) && GuardedAt(l, position, v) && period > 0.0
    requires Abs(v) <= l.maxVelocity + EPSILON
    requires (l.maxVelocity + EPSILON) * period <= POSITION_LIMIT_MARGIN
    ensures InRange(l, position + v * period)
  {
    ScaleAbs(v, l.maxVelocity + EPSILON, period);
    ScaleSign(v, period);
    var move := v * period;
    assert Abs(move) <= POSITION_LIMIT_MARGIN;
  }

  lemma TickGuarded(cfg: Config, prev: seq<real>, commands: seq<F64>, positions: seq<F64>, wrench: Option<Wrench>, j: nat)
    requires cfg.Valid() && j < |cfg.limits| && j < |positions| && j < |commands| && positions[j].Finite?
    ensures GuardedAt(cfg.limits[j], positions[j].v, FilterTick(cfg, prev, commands, Some(positions), wrench).commands[j])
  {
    assert ValidLimits(cfg.limits[j]);
    PositionStageGuards(cfg.limits[j], commands[j], At(prev, j), positions[j].v, cfg.period);
  }

  lemma PlantStepSafe(cfg: Config, j: nat, s: Plant, p: Period)
    requires cfg.Valid() && j < |cfg.limits| && j < |p.positions| && MarginCoversTick(cfg, j)
    requires WithinVelocity(cfg, s.previous) && InRange(cfg.limits[j], s.position)
    ensures var t := PlantStep(cfg, j, s, p); WithinVelocity(cfg, t.previous) && InRange(cfg.limits[j], t.position)
  {
    hide FilterTick, FilterChannel, Limited;
    var positions := p.positions[j := Finite(s.position)];
    TickWithinLimits(cfg, s.previous, p.commands, Some(positions), p.wrench);
    if j < |p.commands| {
      TickGuarded(cfg, s.previous, p.commands, positions, p.wrench, j);
      var v := FilterTick(cfg, s.previous, p.commands, Some(positions), p.wrench).commands[j];
      assert Abs(v) <= VelocityCap(cfg, j);
      GuardedStepInRange(cfg.limits[j], s.position, v, cfg.period);
    }
  }

  lemma {:induction false} PlantRunSafe(cfg: Config, j: nat, position: real, periods: seq<Period>)
    requires cfg.Valid() && j < |cfg.limits| && MarginCoversTick(cfg, j)
    requires InRange(cfg.limits[j], position) && Reports(periods, j)
    ensures var t := PlantRun(cfg, j, Plant([], position), periods);
      WithinVelocity(cfg, t.previous) && InRange(cfg.limits[j], t.position)
  {
    if periods != [] {
      var n := |periods| - 1;
      PlantRunSafe(cfg, j, position, periods[..n]);
      PlantStepSafe(cfg, j, PlantRun(cfg, j, Plant([], position), periods[..n]), periods[n]);
    }
  }

  /** The joint never leaves its range: any start in range, any controller, any length. */
  ghost predicate AlwaysInRange(cfg: Config, j: nat)
    requires cfg.Valid() && j < |cfg.limits|
  {
    forall position: real, periods: seq<Period> ::
      InRange(cfg.limits[j], position) && Reports(periods, j) ==>
        InRange(cfg.limits[j], PlantRun(cfg, j, Plant([], position), periods).position)
  }

  /** A start in range, just outside the upper margin, from which `reach` is too far. */
  lemma EscapePoint(l: JointLimits, reach: real) returns (position: real)
    requires reach > POSITION_LIMIT_MARGIN && l.positionMax - l.positionMin > POSITION_LIMIT_MARGIN
    ensures InRange(l, position)
    ensures position < l.positionMax - POSITION_LIMIT_MARGIN && position + reach > l.positionMax
  {
    var room := l.positionMax - POSITION_LIMIT_MARGIN - l.positionMin;
    var excess := reach - POSITION_LIMIT_MARGIN;
    var delta := if room < excess / 2.0 then room else excess / 2.0;
    position := l.positionMax - POSITION_LIMIT_MARGIN - delta;
  }

  lemma RunOfOne(cfg: Config, j: nat, start: Plant, p: Period)
    requires cfg.Valid() && j < |p.positions|
    ensures Reports([p], j) && PlantRun(cfg, j, start, [p]) == PlantStep(cfg, j, start, p)
  {
    hide PlantStep;
    var run := [p];
    assert run[..0] == [];
    assert PlantRun(cfg, j, start, run[..0]) == start;
  }

  lemma FullSpeed(cfg: Config, j: nat, position: real, v: real, p: Period)
    requires cfg.Valid() && j < |cfg.limits| && j < |p.positions| && j < |p.commands|
    requires v == cfg.limits[j].maxVelocity + EPSILON
    requires p.commands[j] == Finite(v) && p.wrench.None?
    requires position < cfg.limits[j].positionMax - POSITION_LIMIT_MARGIN
    ensures PlantStep(cfg, j, Plant([], position), p).position == position + v * cfg.period
  {
    var l := cfg.limits[j];
    assert ValidLimits(l);
    assert VelocityStage(l, v) == Staged(v, []);
    assert JointChannel(l, Finite(v), None, Some(Finite(position)), cfg.period).value == v;
  }

  /** When the margin is too small, one tick of a fresh controller escapes. Should the start
      also be inside the lower margin, moving up is still allowed. */
  lemma OneTickEscape(cfg: Config, j: nat)
    requires cfg.Valid() && j < |cfg.limits| && !MarginCoversTick(cfg, j)
    requires cfg.limits[j].positionMax - cfg.limits[j].positionMin > POSITION_LIMIT_MARGIN
    ensures !AlwaysInRange(cfg, j)
  {
    var v := cfg.limits[j].maxVelocity + EPSILON;
    var position := EscapePoint(cfg.limits[j], v * cfg.period);
    var p := Period(seq(j + 1, i => Finite(v)), seq(j + 1, i => NaN), None);
    FullSpeed(cfg, j, position, v, p);
    hide PlantStep, PlantRun;
    RunOfOne(cfg, j, Plant([], position), p);
    assert !InRange(cfg.limits[j], PlantRun(cfg, j, Plant([], position), [p]).position);
  }

  /** A joint whose range is no wider than the margin is near both limits at once and never moves. */
  lemma NarrowStepStill(cfg: Config, j: nat, s: Plant, p: Period)
    requires cfg.Valid() && j < |cfg.limits| && j < |p.positions| && InRange(cfg.limits[j], s.position)
    requires cfg.limits[j].positionMax - cfg.limits[j].positionMin <= POSITION_LIMIT_MARGIN
    ensures PlantStep(cfg, j, s, p).position == s.position
  {
    hide FilterTick;
    if j < |p.commands| {
      TickGuarded(cfg, s.previous, p.commands, p.positions[j := Finite(s.position)], p.wrench, j);
    }
  }

  lemma {:induction false} NarrowRunStill(cfg: Config, j: nat, position: real, periods: seq<Period>)
    requires cfg.Valid() && j < |cfg.limits| && InRange(cfg.limits[j], position) && Reports(periods, j)
    requires cfg.limits[j].positionMax - cfg.limits[j].positionMin <= POSITION_LIMIT_MARGIN
    ensures PlantRun(cfg, j, Plant([], position), periods).position == position
  {
    hide PlantStep;
    if periods != [] {
      var n := |periods| - 1;
      NarrowRunStill(cfg, j, position, periods[..n]);
      NarrowStepStill(cfg, j, PlantRun(cfg, j, Plant([], position), periods[..n]), periods[n]);
    }
  }

  /** Closed-loop joint safety, with its exact condition: the joint stays in range from every
      start and for every controller output sequence if and only if one tick at the velocity
      limit fits in the margin, or its range is no wider than the margin. */
  lemma JointSafeIffMarginCoversTick(cfg: Config, j: nat)
    requires cfg.Valid() && j < |cfg.limits|
    ensures AlwaysInRange(cfg, j) <==>
      MarginCoversTick(cfg, j) || cfg.limits[j].positionMax - cfg.limits[j].positionMin <= POSITION_LIMIT_MARGIN
  {
    var narrow := cfg.limits[j].positionMax - cfg.limits[j].positionMin <= POSITION_LIMIT_MARGIN;
    if MarginCoversTick(cfg, j) || narrow {
      forall position: real, periods: seq<Period> | InRange(cfg.limits[j], position) && Reports(periods, j)
        ensures InRange(cfg.limits[j], PlantRun(cfg, j, Plant([], position), periods).position)
      {
        if narrow {
          NarrowRunStill(cfg, j, position, periods);
        } else {
          PlantRunSafe(cfg, j, position, periods);
        }
      }
    } else {
      OneTickEscape(cfg, j);
    }
  }
}
