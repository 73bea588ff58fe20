/** Halting, execution-only policies and velocity limits, over whole runs. */
module RolloutSafety {
  import opened Floats
  import opened Deployment
  import opened SafetyFilter
  import opened SafetyFilterProofs
  import opened Evidence
  import opened Lifecycle
  import opened Canary
  import opened Controller
  import opened Rollout

  // ------------------------------------------------------------------
  // Halt
  // ------------------------------------------------------------------

  predicate AllHalted(s: Loop) {
    !IsRunning(s.active) && !IsRunning(s.candidate) && !IsRunning(s.rollback)
  }

  /** Neither resumes nor loads anything. */
  predicate KeepsHalt(cmd: Command) {
    !cmd.Resume? && !cmd.LoadPrepared?
  }

  predicate AllKeepHalt(commands: seq<Command>) {
    forall i :: 0 <= i < |commands| ==> KeepsHalt(commands[i])
  }

  /** Both controllers that could run stay as they are, and nothing at all is done. */
  predicate SameActivity(s: Loop, t: Loop) {
    && s.active == t.active && s.candidate == t.candidate && (AllHalted(s) ==> AllHalted(t))
    && s.lifecycle == t.lifecycle && s.estop == t.estop && s.log == t.log
  }

  lemma {:induction false} DrainHalted(p: Policy, s: Loop, commands: seq<Command>)
    requires !AnyRunning(s) && AllKeepHalt(commands)
    ensures SameActivity(s, Drain(p, s, commands))
  {
    if commands != [] {
      DrainHalted(p, s, commands[..|commands| - 1]);
      assert KeepsHalt(commands[|commands| - 1]);
    }
  }

  lemma HaltedTickDoesNothing(p: Policy, s: Loop, input: TickInput)
    requires !AnyRunning(s)
    ensures TickControllers(p, s, input) == s
  {
  }

  lemma HaltedTick(p: Policy, s: Loop, input: TickInput)
    requires !AnyRunning(s) && AllKeepHalt(input.emergency + input.commands)
    ensures SameActivity(s, RunTick(p, s, input))
  {
    hide Drain, TickControllers;
    DrainHalted(p, s, input.emergency + input.commands);
    var t := ReadSensors(Drain(p, s, input.emergency + input.commands), input.sensor);
    HaltedTickDoesNothing(p, t, input);
  }

  lemma {:induction false} HaltedRun(p: Policy, s: Loop, inputs: seq<TickInput>)
    requires !AnyRunning(s)
    requires forall k :: 0 <= k < |inputs| ==> AllKeepHalt(inputs[k].emergency + inputs[k].commands)
    ensures SameActivity(s, Run(p, s, inputs))
  {
    hide RunTick, AllKeepHalt;
    if inputs != [] {
      var n := |inputs| - 1;
      HaltedRun(p, s, inputs[..n]);
      HaltedTick(p, Run(p, s, inputs[..n]), inputs[n]);
    }
  }

  /** Command `k` of this tick is a Halt, and no later one resumes or loads anything. */
  predicate Halts(input: TickInput, k: nat) {
    var commands := input.emergency + input.commands;
    k < |commands| && commands[k] == Halt && AllKeepHalt(commands[k + 1..])
  }

  /** Everything is halted, and nothing was done. */
  predicate Silenced(before: Loop, after: Loop) {
    AllHalted(after) && after.log == before.log && after.lifecycle == before.lifecycle && after.estop == before.estop
  }

  /** From any state: once a Halt is processed, and until something is resumed or loaded,
      the loop sends no frame, raises no e-stop, promotes and rejects nothing, whatever other
      commands, sensor frames, watchdog verdicts and controller outcomes occur: nothing at
      all is added to what was done before the Halt. */
  lemma {:induction false} HaltSilencesTheLoop(p: Policy, s: Loop, first: TickInput, k: nat, rest: seq<TickInput>)
    requires Halts(first, k)
    requires forall j :: 0 <= j < |rest| ==> AllKeepHalt(rest[j].emergency + rest[j].commands)
    ensures var before := Drain(p, s, (first.emergency + first.commands)[..k]);
      Silenced(before, Run(p, RunTick(p, s, first), rest))
  {
    hide Drain, TickControllers, RunTick, AllKeepHalt;
    var commands := first.emergency + first.commands;
    DrainAfterHalt(p, s, commands, k);
    HaltedRestOfTick(p, s, first, Drain(p, s, commands));
    HaltedRun(p, RunTick(p, s, first), rest);
  }

  lemma DrainAfterHalt(p: Policy, s: Loop, commands: seq<Command>, k: nat)
    requires k < |commands| && commands[k] == Halt && AllKeepHalt(commands[k + 1..])
    ensures Silenced(Drain(p, s, commands[..k]), Drain(p, s, commands))
  {
    var halted := Drain(p, s, commands[..k + 1]);
    assert commands[..k + 1][..k] == commands[..k];
    assert halted == SetAllRunning(Drain(p, s, commands[..k]), false);
    hide Drain, AllKeepHalt;
    DrainConcat(p, s, commands[..k + 1], commands[k + 1..]);
    assert commands == commands[..k + 1] + commands[k + 1..];
    DrainHalted(p, halted, commands[k + 1..]);
  }

  lemma HaltedRestOfTick(p: Policy, s: Loop, input: TickInput, halted: Loop)
    requires var d := Drain(p, s, input.emergency + input.commands); !AnyRunning(d) && SameActivity(halted, d)
    ensures SameActivity(halted, RunTick(p, s, input))
  {
    hide Drain, TickControllers;
    HaltedTickDoesNothing(p, ReadSensors(Drain(p, s, input.emergency + input.commands), input.sensor), input);
  }

  /** The controller is the same, but no longer runs. */
  predicate SwitchedOff(before: Option<LoadedController>, after: Option<LoadedController>) {
    && before.Some? == after.Some?
    && (after.Some? ==> !after.value.running && after.value == before.value.(running := false))
  }

  /** From any state: a tick on which the watchdog has expired while something runs switches both
      controllers off and leaves the e-stop raised; and until something is resumed or loaded,
      nothing more is sent, raised, promoted or rejected, however often the watchdog recovers
      or expires again. */
  lemma {:induction false} WatchdogSilencesTheLoop(p: Policy, s: Loop, input: TickInput, rest: seq<TickInput>)
    requires input.watchdogExpired && AnyRunning(ReadSensors(Drain(p, s, input.emergency + input.commands), input.sensor))
    requires forall j :: 0 <= j < |rest| ==> AllKeepHalt(rest[j].emergency + rest[j].commands)
    ensures var before := Drain(p, s, input.emergency + input.commands);
      var fired := RunTick(p, s, input);
      var after := Run(p, fired, rest);
      && SwitchedOff(before.active, fired.active) && SwitchedOff(before.candidate, fired.candidate)
      && fired.estop && fired.lifecycle == before.lifecycle
      && after.active == fired.active && after.candidate == fired.candidate && after.estop
      && after.lifecycle == fired.lifecycle && after.log == fired.log
  {
    hide Drain;
    assert !AnyRunning(RunTick(p, s, input));
    HaltedRun(p, RunTick(p, s, input), rest);
    hide RunTick, Run;
  }

  // ------------------------------------------------------------------
  // Policies without rollout authority
  // ------------------------------------------------------------------

  predicate IsZero(f: Frame) {
    forall i :: 0 <= i < |f| ==> f[i] == 0.0
  }

  /** No stage was entered, nothing was promoted, and only zero frames were sent. */
  predicate InertLog(log: Log) {
    match log
    case Empty => true
    case Snoc(before, e) =>
      InertLog(before) && !e.StageAccepted? && !e.Promoted? && !e.Restored? && (e.Sent? ==> IsZero(e.frame))
  }

  predicate Inert(s: Loop) {
    && s.active.None? && s.rollback.None? && !s.requested
    && (s.stage.None? || s.stage == Some(VerifiedOnly))
    && s.lifecycle.stage in {None, Some(VerifiedOnly), Some(Rejected)}
    && InertLog(s.log)
  }

  lemma {:induction false} DrainInert(p: Policy, s: Loop, commands: seq<Command>)
    requires !p.AllowsRollout() && Inert(s)
    ensures Inert(Drain(p, s, commands))
  {
    if commands != [] {
      DrainInert(p, s, commands[..|commands| - 1]);
    }
  }

  lemma NoticeInert(s: Loop, e: Rollout.Event)
    requires Inert(s) && (e.EstopRaised? || e.CandidateRejected? || e.CandidateTick? || (e.Sent? && IsZero(e.frame)))
    ensures Inert(s.Emit(e))
  {
  }

  lemma FailCandidateInert(s: Loop)
    requires Inert(s)
    ensures Inert(FailCandidate(s, false))
  {
    var t := s.(estop := true);
    NoticeInert(t, EstopRaised);
    var u := t.Emit(EstopRaised);
    var v := Reject(u, false);
    NoticeInert(v.(log := u.log), CandidateRejected);
    NoticeInert(v, v.EmitZero().log.last);
  }

  lemma TickInert(p: Policy, s: Loop, input: TickInput)
    requires Inert(s)
    ensures Inert(TickControllers(p, s, input))
  {
    hide TickController, RecordOf, FailCandidate;
    if IsRunning(s.candidate) {
      var t := TickController(s.candidate.value, input.candidateOutcome, s.sensors);
      TickControllerFacts(s.candidate.value, input.candidateOutcome, s.sensors);
      var u := s.(candidate := Some(t.controller.(running := !t.result.halted)));
      FailCandidateInert(u);
      if !t.result.halted {
        var o := input.candidateOutcome;
        var record := RecordOf(s.candidate.value, o.values, o.micros, s.sensors);
        NoticeInert(u, CandidateTick(s.stage, record, false, None, t.result.command, false));
      }
    }
  }

  lemma WatchdogInert(s: Loop)
    requires Inert(s)
    ensures Inert(FireWatchdog(s))
  {
    var t := s.(active := SetRunning(s.active, false), candidate := SetRunning(s.candidate, false), estop := true);
    NoticeInert(t, t.EmitZero().log.last);
    NoticeInert(t.EmitZero(), EstopRaised);
  }

  /** Under an execution-only or compatibility policy no run ever fills the active slot or
      moves a candidate past VerifiedOnly, and every frame sent is zero. */
  lemma {:induction false} NoRolloutWithoutAuthority(p: Policy, inputs: seq<TickInput>)
    requires p.source in {ExecutionOnly, CompatibilityFallback}
    ensures Inert(Run(p, INITIAL, inputs))
  {
    if inputs != [] {
      var n := |inputs| - 1;
      var input := inputs[n];
      NoRolloutWithoutAuthority(p, inputs[..n]);
      hide Drain, TickControllers, FireWatchdog;
      var s := Run(p, INITIAL, inputs[..n]);
      DrainInert(p, s, input.emergency + input.commands);
      var t := ReadSensors(Drain(p, s, input.emergency + input.commands), input.sensor);
      TickInert(p, t, input);
      WatchdogInert(t);
    }
  }

  // ------------------------------------------------------------------
  // Actuation limits
  // ------------------------------------------------------------------

  /** Channel `i` of a robot whose velocity limits are `caps`. */
  function Cap(caps: seq<real>, i: nat): real {
    if i < |caps| then caps[i] + EPSILON else 0.0
  }

  predicate WithinCaps(caps: seq<real>, f: Frame) {
    forall i :: 0 <= i < |f| ==> Abs(f[i]) <= Cap(caps, i)
  }

  predicate NonNegative(caps: seq<real>) {
    forall i :: 0 <= i < |caps| ==> caps[i] >= 0.0
  }

  /** The profile's own limits are no looser than the robot's. */
  predicate ProfileWithin(caps: seq<real>, p: ControlProfile) {
    && |p.filter.limits| <= |caps|
    && forall i :: 0 <= i < |p.filter.limits| ==> p.filter.limits[i].maxVelocity <= caps[i]
  }

  predicate SlotWithin(caps: seq<real>, slot: Option<LoadedController>) {
    slot.Some? ==> ProfileWithin(caps, slot.value.profile) && WithinVelocity(slot.value.profile.filter, slot.value.previous)
  }

  predicate FramesWithin(caps: seq<real>, log: Log) {
    match log
    case Empty => true
    case Snoc(before, Sent(f)) => FramesWithin(caps, before) && WithinCaps(caps, f)
    case Snoc(before, _) => FramesWithin(caps, before)
  }

  predicate Tame(caps: seq<real>, s: Loop) {
    && SlotWithin(caps, s.active) && SlotWithin(caps, s.candidate) && SlotWithin(caps, s.rollback)
    && FramesWithin(caps, s.log)
  }

  predicate LoadsWithin(caps: seq<real>, commands: seq<Command>) {
    forall i :: 0 <= i < |commands| && commands[i].LoadPrepared? ==> ProfileWithin(caps, commands[i].p.profile)
  }

  lemma {:induction false} DrainTame(caps: seq<real>, p: Policy, s: Loop, commands: seq<Command>)
    requires Tame(caps, s) && LoadsWithin(caps, commands)
    ensures Tame(caps, Drain(p, s, commands))
  {
    if commands != [] {
      DrainTame(caps, p, s, commands[..|commands| - 1]);
      ProcessTame(caps, p, Drain(p, s, commands[..|commands| - 1]), commands[|commands| - 1]);
    }
  }

  lemma ProcessTame(caps: seq<real>, p: Policy, s: Loop, cmd: Command)
    requires Tame(caps, s) && LoadsWithin(caps, [cmd])
    ensures Tame(caps, Process(p, s, cmd))
  {
    assert cmd.LoadPrepared? ==> ProfileWithin(caps, [cmd][0].p.profile);
  }

  lemma TickControllerTame(caps: seq<real>, c: LoadedController, outcome: TickOutcome, sensors: Sensors)
    requires SlotWithin(caps, Some(c)) && NonNegative(caps)
    ensures var t := TickController(c, outcome, sensors);
      SlotWithin(caps, Some(t.controller)) && (t.result.command.Some? ==> WithinCaps(caps, t.result.command.value))
  {
    TickControllerFacts(c, outcome, sensors);
    hide TickController, FilterTick, FilterChannel, Limited, AfterTick;
    if outcome.Returned? {
      var raw := RawCommands(|c.profile.channels|, outcome.values);
      TickWithinLimits(c.profile.filter, c.previous, raw, sensors.StateValues(), sensors.wrench);
      TickPrevious(c, outcome, sensors);
    } else {
      TrapPrevious(c, outcome, sensors);
    }
  }

  lemma TickPrevious(c: LoadedController, outcome: TickOutcome, sensors: Sensors)
    requires outcome.Returned?
    ensures TickController(c, outcome, sensors).controller.previous == Filtered(c, outcome.values, sensors).commands
  {
    hide FilterTick;
  }

  lemma TrapPrevious(c: LoadedController, outcome: TickOutcome, sensors: Sensors)
    requires outcome.Trapped?
    ensures TickController(c, outcome, sensors).controller.previous == c.previous
    ensures TickController(c, outcome, sensors).result.command.None?
  {
  }

  lemma ZeroWithin(caps: seq<real>, n: nat)
    requires NonNegative(caps)
    ensures WithinCaps(caps, ZeroFrame(n))
  {
  }

  lemma BlendWithin(caps: seq<real>, p: Policy, active: Option<Frame>, candidate: Frame, spans: seq<real>)
    requires WithinCaps(caps, candidate) && (active.Some? ==> WithinCaps(caps, active.value))
    ensures WithinCaps(caps, BlendCommand(p, active, candidate, spans).frame)
  {
    var b := BlendCommand(p, active, candidate, spans).frame;
    if active.Some? && Comparable(active, Some(candidate), spans) {
      forall i | 0 <= i < |b|
        ensures Abs(b[i]) <= Cap(caps, i)
      {
        BoundChannelEnvelope(active.value[i], candidate[i], spans[i], p.CanaryMaxDelta());
        hide BoundChannel;
      }
    }
  }

  lemma RecoverTame(caps: seq<real>, s: Loop)
    requires Tame(caps, s) && s.active.Some? && NonNegative(caps)
    ensures Tame(caps, Recover(s))
  {
    hide WithinCaps, ProfileWithin, WithinVelocity;
    ZeroWithin(caps, if s.lastWidth < 6 then 6 else s.lastWidth);
    if s.rollback.Some? && s.lifecycle.lastKnownGood.Some? {
      var e := Restored(s.active.value.artifact, s.rollback.value.artifact, s.lifecycle.lastKnownGood.value);
      assert FramesWithin(caps, Snoc(s.log, e));
    }
    assert FramesWithin(caps, Snoc(s.log, RestoreFailed));
    assert FramesWithin(caps, Snoc(Snoc(s.log, RestoreFailed), EstopRaised));
  }

  lemma FailCandidateTame(caps: seq<real>, s: Loop, fallback: bool)
    requires Tame(caps, s) && NonNegative(caps)
    ensures Tame(caps, FailCandidate(s, fallback))
  {
    hide RestoreLastKnownGoodActive, RetireCurrent, WithinCaps, ProfileWithin, WithinVelocity;
    ZeroWithin(caps, if s.lastWidth < 6 then 6 else s.lastWidth);
    assert FramesWithin(caps, Snoc(s.log, EstopRaised));
    assert FramesWithin(caps, Snoc(Snoc(s.log, EstopRaised), CandidateRejected));
  }

  lemma ActuateTame(caps: seq<real>, s: Loop, command: Option<Frame>)
    requires Tame(caps, s) && (command.Some? ==> WithinCaps(caps, command.value))
    ensures Tame(caps, Actuate(s, command))
  {
  }

  lemma TryPromoteTame(caps: seq<real>, s: Loop, mode: ExecutionMode, target: DeploymentState)
    requires Tame(caps, s) && s.candidate.Some?
    ensures Tame(caps, TryPromote(s, mode, target))
  {
    hide RestoreLastKnownGoodActive, RetireCurrent, SubmitEvidence, PromoteTo, Finalize, JudgeEvidence;
    hide WithinCaps, ProfileWithin, WithinVelocity;
    var r := SubmitStageEvidenceAndPromote(s, mode, target);
    assert Tame(caps, r.next);
  }

  lemma AdvanceTame(caps: seq<real>, p: Policy, s: Loop, counts: bool)
    requires Tame(caps, s) && s.candidate.Some?
    ensures Tame(caps, AdvanceCandidateStage(p, s, counts))
  {
    hide TryPromote, WithinCaps, ProfileWithin, WithinVelocity;
    if s.requested && s.stage.Some? && p.NextTarget(s.stage.value).Some? {
      var target := p.NextTarget(s.stage.value).value;
      TryPromoteTame(caps, s, Verify, target);
      TryPromoteTame(caps, s.(shadowTicks := s.shadowTicks + 1), ShadowRun, target);
      TryPromoteTame(caps, s.(canaryTicks := s.canaryTicks + 1), CanaryRun, target);
    }
  }

  lemma CanaryTickTame(caps: seq<real>, p: Policy, s: Loop, active: Option<Frame>, command: Frame, record: TickRecord)
    requires Tame(caps, s) && NonNegative(caps) && s.candidate.Some? && WithinCaps(caps, command)
    requires active.Some? ==> WithinCaps(caps, active.value)
    ensures Tame(caps, CanaryTick(p, s, active, command, record))
  {
    hide BlendCommand, FailCandidate, AdvanceCandidateStage, WithinCaps, ProfileWithin, WithinVelocity;
    var b := BlendCommand(p, active, command, s.candidate.value.profile.spans);
    BlendWithin(caps, p, active, command, s.candidate.value.profile.spans);
    var t := s.(boundedTicks := s.boundedTicks + if b.bounded then 1 else 0)
              .Emit(CandidateTick(s.stage, record, IsRunning(s.active), active, Some(command), b.bounded));
    assert Tame(caps, t);
    if b.bounded && t.boundedTicks > p.maxBoundedTicks {
      FailCandidateTame(caps, t, IsRunning(s.active));
      ActuateTame(caps, FailCandidate(t, IsRunning(s.active)), active);
    } else {
      ActuateTame(caps, t, Some(b.frame));
      AdvanceTame(caps, p, Actuate(t, Some(b.frame)), !b.bounded);
    }
  }

  lemma TickCandidateTame(caps: seq<real>, p: Policy, s: Loop, active: Option<Frame>, outcome: TickOutcome)
    requires Tame(caps, s) && NonNegative(caps) && (active.Some? ==> WithinCaps(caps, active.value))
    ensures Tame(caps, TickCandidate(p, s, active, outcome))
  {
    hide TickController, RecordOf, CanaryTick, FailCandidate, AdvanceCandidateStage, CandidateFails, Actuate;
    hide WithinCaps, ProfileWithin, WithinVelocity;
    if !IsRunning(s.candidate) {
      ActuateTame(caps, s, active);
      return;
    }
    var t := TickController(s.candidate.value, outcome, s.sensors);
    TickControllerFacts(s.candidate.value, outcome, s.sensors);
    TickControllerTame(caps, s.candidate.value, outcome, s.sensors);
    var u := s.(candidate := Some(t.controller.(running := !t.result.halted)));
    assert Tame(caps, u);
    if CandidateFails(p, s, active, t) {
      FailCandidateTame(caps, u, IsRunning(s.active));
      ActuateTame(caps, FailCandidate(u, IsRunning(s.active)), active);
    } else {
      NotFailing(p, s, active, t);
      var record := RecordOf(s.candidate.value, outcome.values, outcome.micros, s.sensors);
      if s.stage == Some(Canary) {
        CanaryTickTame(caps, p, u, active, t.result.command.value, record);
      } else {
        var v := u.Emit(CandidateTick(s.stage, record, IsRunning(s.active), active, t.result.command, false));
        assert Tame(caps, v);
        ActuateTame(caps, v, active);
        ActuateKeepsCandidate(v, active);
        AdvanceTame(caps, p, Actuate(v, active), true);
      }
    }
  }

  lemma ActuateKeepsCandidate(s: Loop, command: Option<Frame>)
    ensures Actuate(s, command).candidate == s.candidate
  {
  }

  lemma TickActiveTame(caps: seq<real>, s: Loop, outcome: TickOutcome)
    requires Tame(caps, s) && NonNegative(caps)
    ensures var a := TickActive(s, outcome);
      Tame(caps, a.next) && (a.command.Some? ==> WithinCaps(caps, a.command.value))
  {
    hide TickController, Recover, WithinCaps, ProfileWithin, WithinVelocity;
    if IsRunning(s.active) {
      TickControllerTame(caps, s.active.value, outcome, s.sensors);
      var t := TickController(s.active.value, outcome, s.sensors);
      var next := s.(active := Some(t.controller.(running := !t.result.halted)));
      assert Tame(caps, next);
      RecoverTame(caps, next);
    }
  }

  lemma WatchdogTame(caps: seq<real>, s: Loop)
    requires Tame(caps, s) && NonNegative(caps)
    ensures Tame(caps, FireWatchdog(s))
  {
    hide WithinCaps, ProfileWithin, WithinVelocity;
    var n := if s.lastWidth < 6 then 6 else s.lastWidth;
    ZeroWithin(caps, n);
    assert FramesWithin(caps, Snoc(s.log, Sent(ZeroFrame(n))));
  }

  lemma RunTickTame(caps: seq<real>, p: Policy, s: Loop, input: TickInput)
    requires NonNegative(caps) && Tame(caps, s) && LoadsWithin(caps, input.emergency + input.commands)
    ensures Tame(caps, RunTick(p, s, input))
  {
    DrainTame(caps, p, s, input.emergency + input.commands);
    hide Drain, TickActive, TickCandidate, FireWatchdog, SlotWithin, FramesWithin;
    var t := ReadSensors(Drain(p, s, input.emergency + input.commands), input.sensor);
    assert Tame(caps, t);
    if input.watchdogExpired && AnyRunning(t) {
      WatchdogTame(caps, t);
    } else {
      TickActiveTame(caps, t, input.activeOutcome);
      var a := TickActive(t, input.activeOutcome);
      TickCandidateTame(caps, p, a.next, a.command, input.candidateOutcome);
    }
  }

  /** Every frame the loop ever sends, safe-stop, active or blended, respects the robot's
      velocity limits, for every run in which the loaded profiles do. */
  lemma {:induction false} EveryFrameWithinLimits(caps: seq<real>, p: Policy, inputs: seq<TickInput>)
    requires NonNegative(caps)
    requires forall k :: 0 <= k < |inputs| ==> LoadsWithin(caps, inputs[k].emergency + inputs[k].commands)
    ensures Tame(caps, Run(p, INITIAL, inputs))
  {
    if inputs != [] {
      var n := |inputs| - 1;
      EveryFrameWithinLimits(caps, p, inputs[..n]);
      hide RunTick, Tame, LoadsWithin;
      RunTickTame(caps, p, Run(p, INITIAL, inputs[..n]), inputs[n]);
    }
  }
}
