/** The loop with a joint on the other end of it: a joint moved by the frames of every
    tick stays in its range through loads, promotions, blending, e-stops and rollbacks. A joint
    that keeps its last velocity does so as long as the loop is not silent while it moves. */
module RolloutPlant {
  import opened Floats
  import opened Deployment
  import opened SafetyFilter
  import opened SafetyFilterProofs
  import opened Canary
  import opened Lifecycle
  import opened Controller
  import opened Rollout
  import opened RolloutFrames
  import opened RolloutSafety
  import opened RolloutGuard

  /** Joint `j` with position range `l`, moved once per `period`. */
  datatype Joint = Joint(j: nat, l: JointLimits, period: real)
  {
    function At(position: real): Watch {
      Watch(j, l, position)
    }

    /** The profile knows the joint's range, and one tick at its velocity limit fits in the margin. */
    predicate Suits(p: ControlProfile) {
      && j < |p.filter.limits|
      && p.filter.limits[j].positionMin == l.positionMin && p.filter.limits[j].positionMax == l.positionMax
      && (p.filter.limits[j].maxVelocity + EPSILON) * period <= POSITION_LIMIT_MARGIN
    }

    predicate LoadsSuit(commands: seq<Command>) {
      forall i :: 0 <= i < |commands| && commands[i].LoadPrepared? ==> Suits(commands[i].p.profile)
    }

    predicate SeenBy(input: TickInput) {
      input.sensor.Some? && j < |input.sensor.value.positions|
    }

    /** `input` as it arrives with the joint at `position`: this joint is reported truly, all else is arbitrary. */
    function Report(input: TickInput, position: real): TickInput
      requires SeenBy(input)
    {
      var sensors := input.sensor.value;
      input.(sensor := Some(sensors.(positions := sensors.positions[j := Finite(position)])))
    }

    /** Where the joint goes under a frame; without one, or off its end, it stays. */
    function Moved(position: real, frame: Option<Frame>): real {
      if frame.Some? && j < |frame.value| then position + frame.value[j] * period else position
    }
  }

  /** The last frame sent since `base`, an earlier point of the same run. */
  function LastFrame(log: Log, base: Log): Option<Frame> {
    var frames := FrameList(log);
    if |frames| > |FrameList(base)| then Some(frames[|frames| - 1]) else None
  }

  datatype World = World(loop: Loop, position: real)

  function WorldTick(m: Joint, p: Policy, w: World, input: TickInput): World
    requires m.SeenBy(input)
  {
    var next := RunTick(p, w.loop, m.Report(input, w.position));
    World(next, m.Moved(w.position, LastFrame(next.log, w.loop.log)))
  }

  predicate AllSeen(m: Joint, inputs: seq<TickInput>) {
    forall k :: 0 <= k < |inputs| ==> m.SeenBy(inputs[k])
  }

  function WorldRun(m: Joint, p: Policy, position: real, inputs: seq<TickInput>): World
    requires AllSeen(m, inputs)
  {
    if inputs == [] then World(INITIAL, position)
    else
      var n := |inputs| - 1;
      WorldTick(m, p, WorldRun(m, p, position, inputs[..n]), inputs[n])
  }

  // ------------------------------------------------------------------
  // Velocity limits that cover every profile of a run
  // ------------------------------------------------------------------

  predicate Covers(caps: seq<real>, smaller: seq<real>) {
    |smaller| <= |caps| && forall i :: 0 <= i < |smaller| ==> smaller[i] <= caps[i]
  }

  /** The cap on the joint, if there is one, lets it move no further than the margin. */
  predicate Fits(m: Joint, caps: seq<real>) {
    NonNegative(caps) && (m.j < |caps| ==> (caps[m.j] + EPSILON) * m.period <= POSITION_LIMIT_MARGIN)
  }

  lemma CoverProfile(m: Joint, caps: seq<real>, p: ControlProfile) returns (r: seq<real>)
    requires Fits(m, caps) && m.Suits(p)
    ensures Fits(m, r) && Covers(r, caps) && ProfileWithin(r, p)
  {
    var limits := p.filter.limits;
    r := seq(if |caps| < |limits| then |limits| else |caps|, i requires 0 <= i =>
      if i < |caps| && (i >= |limits| || limits[i].maxVelocity <= caps[i]) then caps[i]
      else if i < |limits| then limits[i].maxVelocity
      else 0.0);
    assert r[m.j] == limits[m.j].maxVelocity || (m.j < |caps| && r[m.j] == caps[m.j]);
  }

  lemma CoversKeeps(caps: seq<real>, smaller: seq<real>, commands: seq<Command>)
    requires Covers(caps, smaller) && LoadsWithin(smaller, commands)
    ensures LoadsWithin(caps, commands)
  {
    forall i | 0 <= i < |commands| && commands[i].LoadPrepared?
      ensures ProfileWithin(caps, commands[i].p.profile)
    {
      assert ProfileWithin(smaller, commands[i].p.profile);
    }
  }

  lemma {:induction false} CoverCommands(m: Joint, caps: seq<real>, commands: seq<Command>) returns (r: seq<real>)
    requires Fits(m, caps) && m.LoadsSuit(commands)
    ensures Fits(m, r) && Covers(r, caps) && LoadsWithin(r, commands)
    decreases |commands|
  {
    if commands == [] {
      r := caps;
    } else {
      var n := |commands| - 1;
      var before := CoverCommands(m, caps, commands[..n]);
      hide Fits, ProfileWithin;
      if commands[n].LoadPrepared? {
        r := CoverProfile(m, before, commands[n].p.profile);
      } else {
        r := before;
      }
      CoversKeeps(r, before, commands[..n]);
      assert commands == commands[..n] + [commands[n]];
    }
  }

  predicate AllSuit(m: Joint, inputs: seq<TickInput>) {
    forall k :: 0 <= k < |inputs| ==> m.LoadsSuit(inputs[k].emergency + inputs[k].commands)
  }

  predicate AllWithin(caps: seq<real>, inputs: seq<TickInput>) {
    forall k :: 0 <= k < |inputs| ==> LoadsWithin(caps, inputs[k].emergency + inputs[k].commands)
  }

  lemma {:induction false} CoverRun(m: Joint, inputs: seq<TickInput>) returns (caps: seq<real>)
    requires AllSuit(m, inputs)
    ensures Fits(m, caps) && AllWithin(caps, inputs)
    decreases |inputs|
  {
    if inputs == [] {
      caps := [];
    } else {
      var n := |inputs| - 1;
      var before := CoverRun(m, inputs[..n]);
      hide Fits, LoadsWithin, Covers;
      caps := CoverCommands(m, before, inputs[n].emergency + inputs[n].commands);
      forall k | 0 <= k < n
        ensures LoadsWithin(caps, inputs[k].emergency + inputs[k].commands)
      {
        assert LoadsWithin(before, inputs[..n][k].emergency + inputs[..n][k].commands);
        CoversKeeps(caps, before, inputs[k].emergency + inputs[k].commands);
      }
    }
  }

  // ------------------------------------------------------------------
  // The joint stays in range
  // ------------------------------------------------------------------

  predicate Known(m: Joint, s: Loop) {
    var q := m.At(0.0);
    q.KnownTo(s.active) && q.KnownTo(s.candidate) && q.KnownTo(s.rollback)
  }

  lemma {:induction false} DrainKnown(m: Joint, p: Policy, s: Loop, commands: seq<Command>)
    requires Known(m, s) && m.LoadsSuit(commands)
    ensures Known(m, Drain(p, s, commands))
  {
    if commands != [] {
      var n := |commands| - 1;
      DrainKnown(m, p, s, commands[..n]);
      hide Known, Process;
      ProcessKnown(m, p, Drain(p, s, commands[..n]), commands[n]);
    }
  }

  lemma ProcessKnown(m: Joint, p: Policy, s: Loop, cmd: Command)
    requires Known(m, s) && (cmd.LoadPrepared? ==> m.Suits(cmd.p.profile))
    ensures Known(m, Process(p, s, cmd))
  {
    hide LoadArtifact;
  }

  lemma {:induction false} LastGuarded(q: Watch, caps: seq<real>, log: Log, base: Log)
    requires q.GuardsSince(log, base) && FramesWithin(caps, log)
    ensures var f := LastFrame(log, base); f.Some? ==> q.Guards(f.value) && WithinCaps(caps, f.value)
  {
    if log != base && !log.last.Sent? {
      assert FrameList(log) == FrameList(log.before);
      LastGuarded(q, caps, log.before, base);
    }
  }

  lemma MovedInRange(m: Joint, caps: seq<real>, position: real, frame: Option<Frame>)
    requires Fits(m, caps) && m.period > 0.0 && InRange(m.l, position)
    requires frame.Some? ==> m.At(position).Guards(frame.value) && WithinCaps(caps, frame.value)
    ensures InRange(m.l, m.Moved(position, frame))
  {
    if frame.Some? && m.j < |frame.value| {
      if m.j < |caps| {
        GuardedStepInRange(m.l.(maxVelocity := caps[m.j]), position, frame.value[m.j], m.period);
      } else {
        assert frame.value[m.j] == 0.0;
      }
    }
  }

  lemma WorldTickSafe(m: Joint, caps: seq<real>, p: Policy, w: World, input: TickInput)
    requires m.SeenBy(input) && m.period > 0.0 && Fits(m, caps)
    requires m.LoadsSuit(input.emergency + input.commands) && LoadsWithin(caps, input.emergency + input.commands)
    requires Tame(caps, w.loop) && Known(m, w.loop) && InRange(m.l, w.position)
    ensures var v := WorldTick(m, p, w, input); Tame(caps, v.loop) && Known(m, v.loop) && InRange(m.l, v.position)
  {
    var q := m.At(w.position);
    var i := m.Report(input, w.position);
    DrainKnown(m, p, w.loop, i.emergency + i.commands);
    hide RunTick, Drain;
    RunTickTame(caps, p, w.loop, i);
    EveryFrameGuarded(q, p, w.loop, i);
    var next := RunTick(p, w.loop, i);
    LastGuarded(q, caps, next.log, w.loop.log);
    MovedInRange(m, caps, w.position, LastFrame(next.log, w.loop.log));
  }

  lemma {:induction false} WorldRunSafe(m: Joint, caps: seq<real>, p: Policy, position: real, inputs: seq<TickInput>)
    requires AllSeen(m, inputs) && AllSuit(m, inputs) && AllWithin(caps, inputs)
    requires m.period > 0.0 && Fits(m, caps) && InRange(m.l, position)
    ensures var w := WorldRun(m, p, position, inputs); Tame(caps, w.loop) && Known(m, w.loop) && InRange(m.l, w.position)
  {
    if inputs != [] {
      var n := |inputs| - 1;
      WorldRunSafe(m, caps, p, position, inputs[..n]);
      hide WorldTick, Tame, Known, Fits, LoadsWithin;
      WorldTickSafe(m, caps, p, WorldRun(m, p, position, inputs[..n]), inputs[n]);
    }
  }

  /** Over every run of the loop, whatever is loaded, promoted, blended, halted or rolled
      back and whatever the controllers return: a joint that starts in range, is truly
      reported, and is moved on each tick by the last frame sent on it, stays in range, as
      long as every loaded profile knows the range and its velocity limit fits the margin. */
  lemma JointStaysInRange(m: Joint, p: Policy, position: real, inputs: seq<TickInput>)
    requires AllSeen(m, inputs) && AllSuit(m, inputs)
    requires m.period > 0.0 && InRange(m.l, position)
    ensures InRange(m.l, WorldRun(m, p, position, inputs).position)
  {
    var caps := CoverRun(m, inputs);
    WorldRunSafe(m, caps, p, position, inputs);
  }

  // ------------------------------------------------------------------
  // A joint that keeps its last velocity
  // ------------------------------------------------------------------

  /** The loop and a joint that goes on at `velocity` until a frame says otherwise. */
  datatype Held = Held(loop: Loop, position: real, velocity: real)

  function HeldTick(m: Joint, p: Policy, w: Held, input: TickInput): Held
    requires m.SeenBy(input)
  {
    var next := RunTick(p, w.loop, m.Report(input, w.position));
    var frame := LastFrame(next.log, w.loop.log);
    var velocity := if frame.Some? && m.j < |frame.value| then frame.value[m.j] else w.velocity;
    Held(next, w.position + velocity * m.period, velocity)
  }

  function HeldRun(m: Joint, p: Policy, w: Held, inputs: seq<TickInput>): Held
    requires AllSeen(m, inputs)
  {
    if inputs == [] then w
    else
      var n := |inputs| - 1;
      HeldTick(m, p, HeldRun(m, p, w, inputs[..n]), inputs[n])
  }

  function AtRest(position: real): Held {
    Held(INITIAL, position, 0.0)
  }

  /** The tick's frame commands the joint. */
  predicate Commands(m: Joint, p: Policy, w: Held, input: TickInput)
    requires m.SeenBy(input)
  {
    var frame := LastFrame(RunTick(p, w.loop, m.Report(input, w.position)).log, w.loop.log);
    frame.Some? && m.j < |frame.value|
  }

  /** The loop is silent only while the joint stands still. */
  predicate Steered(m: Joint, p: Policy, position: real, inputs: seq<TickInput>)
    requires AllSeen(m, inputs)
  {
    inputs == [] ||
    var n := |inputs| - 1;
    var w := HeldRun(m, p, AtRest(position), inputs[..n]);
    Steered(m, p, position, inputs[..n]) && (Commands(m, p, w, inputs[n]) || w.velocity == 0.0)
  }

  lemma {:induction false} SteeredMovesAlike(m: Joint, p: Policy, position: real, inputs: seq<TickInput>)
    requires AllSeen(m, inputs) && Steered(m, p, position, inputs)
    ensures var h := HeldRun(m, p, AtRest(position), inputs);
      WorldRun(m, p, position, inputs) == World(h.loop, h.position)
  {
    hide HeldTick, WorldTick, Commands, RunTick;
    if inputs != [] {
      var n := |inputs| - 1;
      SteeredMovesAlike(m, p, position, inputs[..n]);
      MovesAlike(m, p, HeldRun(m, p, AtRest(position), inputs[..n]), inputs[n]);
    }
  }

  lemma MovesAlike(m: Joint, p: Policy, w: Held, input: TickInput)
    requires m.SeenBy(input) && (Commands(m, p, w, input) || w.velocity == 0.0)
    ensures var h := HeldTick(m, p, w, input); WorldTick(m, p, World(w.loop, w.position), input) == World(h.loop, h.position)
  {
    hide RunTick, LastFrame;
  }

  /** The same result for a joint that keeps its last velocity, over every run in which the loop
      is silent only while the joint stands still; in particular, if every tick sends a frame. */
  lemma HeldJointStaysInRange(m: Joint, p: Policy, position: real, inputs: seq<TickInput>)
    requires AllSeen(m, inputs) && AllSuit(m, inputs) && Steered(m, p, position, inputs)
    requires m.period > 0.0 && InRange(m.l, position)
    ensures InRange(m.l, HeldRun(m, p, AtRest(position), inputs).position)
  {
    SteeredMovesAlike(m, p, position, inputs);
    JointStaysInRange(m, p, position, inputs);
  }

  /** Nothing is resumed or loaded. */
  predicate Quiet(m: Joint, inputs: seq<TickInput>) {
    && AllSeen(m, inputs)
    && forall k :: 0 <= k < |inputs| ==> AllKeepHalt(inputs[k].emergency + inputs[k].commands)
  }

  /** How far the joint gets in `n` ticks at velocity `v`. */
  function Drift(m: Joint, v: real, n: nat): real {
    n as real * (v * m.period)
  }

  lemma OneMore(m: Joint, v: real, n: nat)
    ensures Drift(m, v, n + 1) == Drift(m, v, n) + v * m.period
  {
    var d := v * m.period;
    assert (n as real + 1.0) * d == n as real * d + d;
  }

  lemma {:induction false} HaltedDrifts(m: Joint, p: Policy, w: Held, inputs: seq<TickInput>)
    requires AllHalted(w.loop) && Quiet(m, inputs)
    ensures var h := HeldRun(m, p, w, inputs);
      && AllHalted(h.loop) && h.velocity == w.velocity
      && h.position == w.position + Drift(m, w.velocity, |inputs|)
  {
    hide RunTick, AllKeepHalt;
    if inputs != [] {
      var n := |inputs| - 1;
      HaltedDrifts(m, p, w, inputs[..n]);
      var h := HeldRun(m, p, w, inputs[..n]);
      HaltedTick(p, h.loop, m.Report(inputs[n], h.position));
      OneMore(m, w.velocity, n);
      hide Drift;
    }
  }

  lemma HaltSendsNothing(m: Joint, p: Policy, w: Held, input: TickInput, k: nat)
    requires m.SeenBy(input) && Halts(input, k)
    ensures var h := HeldTick(m, p, w, input);
      AllHalted(h.loop) && h.velocity == w.velocity && h.position == w.position + Drift(m, w.velocity, 1)
  {
    var i := m.Report(input, w.position);
    HaltSilencesTheLoop(p, w.loop, i, k, []);
    DrainSends(p, w.loop, (i.emergency + i.commands)[..k]);
    hide RunTick, Drain, AllHalted;
  }

  lemma Archimedes(width: real, d: real) returns (n: nat)
    requires d > 0.0 && width >= 0.0
    ensures n as real * d > width
  {
    var q := width / d;
    assert q * d == width;
    n := (q + 1.0).Floor;
    assert n as real > q;
    Widen(n as real, q, d);
  }

  lemma Widen(a: real, b: real, d: real)
    requires a > b && d > 0.0
    ensures a * d > b * d
  {
  }

  /** Enough ticks at a non-zero velocity lead out of any range. */
  lemma DriftsOut(m: Joint, position: real, v: real) returns (n: nat)
    requires v != 0.0 && m.period > 0.0 && InRange(m.l, position)
    ensures !InRange(m.l, position + Drift(m, v, 1) + Drift(m, v, n))
  {
    var d := v * m.period;
    StepIsZeroIffStill(v, m.period);
    n := Archimedes(m.l.positionMax - m.l.positionMin, Abs(d));
    if d < 0.0 {
      assert n as real * -d == -(n as real * d);
    }
  }

  lemma StepIsZeroIffStill(v: real, period: real)
    requires period > 0.0
    ensures v * period == 0.0 <==> v == 0.0
  {
    if v > 0.0 {
      Widen(v, 0.0, period);
    } else if v < 0.0 {
      Widen(0.0, v, period);
    }
  }

  lemma StillStaysPut(m: Joint, p: Policy, w: Held, input: TickInput, k: nat, rest: seq<TickInput>)
    requires m.SeenBy(input) && Halts(input, k) && w.velocity == 0.0 && Quiet(m, rest)
    ensures HeldRun(m, p, HeldTick(m, p, w, input), rest).position == w.position
  {
    hide RunTick, AllHalted, AllKeepHalt, HeldTick, HeldRun, Halts;
    HaltSendsNothing(m, p, w, input, k);
    HaltedDrifts(m, p, HeldTick(m, p, w, input), rest);
  }

  /** `n` ticks without commands. */
  function Waiting(input: TickInput, n: nat): seq<TickInput> {
    seq(n, _ => input.(emergency := [], commands := []))
  }

  lemma WaitingIsQuiet(m: Joint, input: TickInput, n: nat)
    requires m.SeenBy(input)
    ensures |Waiting(input, n)| == n && Quiet(m, Waiting(input, n))
  {
  }

  lemma MovingEscapes(m: Joint, p: Policy, w: Held, input: TickInput, k: nat) returns (n: nat)
    requires m.SeenBy(input) && Halts(input, k) && m.period > 0.0 && InRange(m.l, w.position) && w.velocity != 0.0
    ensures Quiet(m, Waiting(input, n))
    ensures !InRange(m.l, HeldRun(m, p, HeldTick(m, p, w, input), Waiting(input, n)).position)
  {
    n := DriftsOut(m, w.position, w.velocity);
    WaitingIsQuiet(m, input, n);
    hide RunTick, AllHalted, AllKeepHalt, HeldTick, HeldRun, Halts, InRange, Waiting, Drift;
    HaltSendsNothing(m, p, w, input, k);
    HaltedDrifts(m, p, HeldTick(m, p, w, input), Waiting(input, n));
  }

  /** The joint is in range however long the halt lasts that this tick begins. */
  ghost predicate SafelyHalted(m: Joint, p: Policy, w: Held, input: TickInput)
    requires m.SeenBy(input)
  {
    forall rest :: Quiet(m, rest) ==> InRange(m.l, HeldRun(m, p, HeldTick(m, p, w, input), rest).position)
  }

  /** A halt is silent, so it stops such a joint only if the joint already stands still: from any
      state with the joint in range, it stays in range however long the halt lasts if and only
      if its velocity is zero. */
  lemma HaltKeepsRangeIffStill(m: Joint, p: Policy, w: Held, input: TickInput, k: nat)
    requires m.SeenBy(input) && Halts(input, k) && m.period > 0.0 && InRange(m.l, w.position)
    ensures SafelyHalted(m, p, w, input) <==> w.velocity == 0.0
  {
    hide RunTick, HeldTick, HeldRun, Halts, AllKeepHalt, Waiting;
    if w.velocity == 0.0 {
      forall rest | Quiet(m, rest)
        ensures InRange(m.l, HeldRun(m, p, HeldTick(m, p, w, input), rest).position)
      {
        StillStaysPut(m, p, w, input, k, rest);
      }
    } else {
      var n := MovingEscapes(m, p, w, input, k);
    }
  }

  /** The loop is just as silent when the active controller asks for zero on every channel. */
  lemma ZeroOutputIsSilent(p: Policy, s: Loop, input: TickInput)
    requires var t := Opening(p, s, input);
      && IsRunning(t.active) && !IsRunning(t.candidate) && !input.watchdogExpired && input.activeOutcome.Returned?
      && AllDefault(RawCommands(|t.active.value.profile.channels|, input.activeOutcome.values))
    ensures LastFrame(RunTick(p, s, input).log, s.log).None?
  {
    TickSends(p, s, input);
    hide RunTick, Opening, FrameList;
  }
}
