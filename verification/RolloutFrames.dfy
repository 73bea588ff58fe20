/** What a tick does to the outside: every tick sends at most one frame, which is the safe-stop
    frame, the active controller's own command or the canary blend, and raises at most
    one e-stop. */
module RolloutFrames {
  import opened Floats
  import opened Deployment
  import opened Evidence
  import opened Lifecycle
  import opened Canary
  import opened CanaryProofs
  import opened Controller
  import opened Rollout

  /** The frames sent, in order. */
  function FrameList(log: Log): seq<Frame> {
    match log
    case Empty => []
    case Snoc(before, Sent(f)) => FrameList(before) + [f]
    case Snoc(before, _) => FrameList(before)
  }

  /** The e-stops raised. */
  function Estops(log: Log): nat {
    match log
    case Empty => 0
    case Snoc(before, EstopRaised) => Estops(before) + 1
    case Snoc(before, _) => Estops(before)
  }

  // ------------------------------------------------------------------
  // One tick, as seen from its start
  // ------------------------------------------------------------------

  /** The state that the watchdog and the controllers of this tick see. */
  function Opening(p: Policy, s: Loop, input: TickInput): Loop {
    ReadSensors(Drain(p, s, input.emergency + input.commands), input.sensor)
  }

  function ActiveResult(t: Loop, input: TickInput): TickResult {
    if IsRunning(t.active) then TickController(t.active.value, input.activeOutcome, t.sensors).result else TickResult(None, false)
  }

  /** Which controller is in a slot, whatever its progress. */
  function Occupant(slot: Option<LoadedController>): Option<Prepared> {
    if slot.Some? then Some(Prepared(slot.value.artifact, slot.value.profile)) else None
  }

  predicate WatchdogFires(t: Loop, input: TickInput) {
    input.watchdogExpired && AnyRunning(t)
  }

  /** The loop stops the robot before any candidate is looked at. */
  predicate Stops(t: Loop, input: TickInput) {
    WatchdogFires(t, input) || ActiveResult(t, input).halted
  }

  /** There is a controller to roll back to, and the lifecycle can restore an artifact. */
  predicate CanRestore(t: Loop) {
    && t.rollback.Some? && t.lifecycle.current.Some? && t.lifecycle.lastKnownGood.Some?
    && t.lifecycle.stage !in {Some(RolledBack), Some(Rejected)}
  }

  /** The active controller fails and the rollback one takes over. */
  predicate RollsBack(t: Loop, input: TickInput) {
    !WatchdogFires(t, input) && ActiveResult(t, input).halted && CanRestore(t)
  }

  function CandidateResult(t: Loop, input: TickInput): TickResult
    requires t.candidate.Some?
  {
    TickController(t.candidate.value, input.candidateOutcome, t.sensors).result
  }

  /** The candidate runs and passes the checks of its stage: it does not fail, and in shadow or
      canary it has a command, close to the active controller's if that one runs. */
  predicate Passes(p: Policy, t: Loop, input: TickInput) {
    && IsRunning(t.candidate) && !CandidateResult(t, input).halted
    && (t.stage in {Some(Shadow), Some(Canary)} ==>
          && CandidateResult(t, input).command.Some?
          && (IsRunning(t.active) ==>
                && ActiveResult(t, input).command.Some?
                && Close(p.maxStageDeltaBps, ActiveResult(t, input).command.value, CandidateResult(t, input).command.value,
                         t.candidate.value.profile.spans)))
  }

  lemma PassesUnlessFails(p: Policy, t: Loop, input: TickInput)
    requires IsRunning(t.candidate)
    ensures var c := TickController(t.candidate.value, input.candidateOutcome, t.sensors);
      Passes(p, t, input) <==> !CandidateFails(p, t, ActiveResult(t, input).command, c)
  {
    var c := TickController(t.candidate.value, input.candidateOutcome, t.sensors);
    TickControllerFacts(t.candidate.value, input.candidateOutcome, t.sensors);
    if c.result.command.Some? {
      ComparisonIsCloseness(p, ActiveResult(t, input).command, c.result.command.value, t.candidate.value.profile.spans);
    }
    hide TickController, CompareSpec, Close, ActiveResult;
  }

  function BlendOf(p: Policy, t: Loop, input: TickInput): Blend
    requires t.candidate.Some? && CandidateResult(t, input).command.Some?
  {
    BlendCommand(p, ActiveResult(t, input).command, CandidateResult(t, input).command.value, t.candidate.value.profile.spans)
  }

  /** This tick would be a clamped one. */
  predicate ClampedTick(p: Policy, t: Loop, input: TickInput)
    requires t.candidate.Some? && CandidateResult(t, input).command.Some?
  {
    Clamped(p.canaryDeltaBps, ActiveResult(t, input).command, CandidateResult(t, input).command.value,
            t.candidate.value.profile.spans)
  }

  lemma BoundedIfClamped(p: Policy, t: Loop, input: TickInput)
    requires Passes(p, t, input) && t.stage == Some(Canary)
    ensures BlendOf(p, t, input).bounded <==> ClampedTick(p, t, input)
  {
    SilentUnlessRunning(t, input);
    var active, command := ActiveResult(t, input).command, CandidateResult(t, input).command.value;
    hide TickController, BlendCommand, ActiveResult, CandidateResult, WithinBps;
    if active.Some? {
      BlendOnEnvelope(p, active.value, command, t.candidate.value.profile.spans);
    } else {
      OwnCommandWithoutActive(p, command, t.candidate.value.profile.spans);
    }
  }

  /** The candidate has a share in the frame: it is in canary, passes, and is within its budget of clamped ticks. */
  predicate Contributes(p: Policy, t: Loop, input: TickInput) {
    && Passes(p, t, input) && t.stage == Some(Canary)
    && (ClampedTick(p, t, input) ==> t.boundedTicks < p.maxBoundedTicks)
  }

  /** The candidate fails with no active controller to fall back on. */
  predicate FailsAlone(p: Policy, t: Loop, input: TickInput) {
    !Stops(t, input) && IsRunning(t.candidate) && !IsRunning(t.active) && !Passes(p, t, input)
  }

  /** The command that is actuated. */
  function Actuated(p: Policy, t: Loop, input: TickInput): Option<Frame> {
    if Contributes(p, t, input) then Some(BlendOf(p, t, input).frame) else ActiveResult(t, input).command
  }

  function StopFrame(width: nat): Frame {
    ZeroFrame(if width < 6 then 6 else width)
  }

  function AsList(f: Option<Frame>): seq<Frame> {
    if f.Some? then [f.value] else []
  }

  /** The frames of a tick. */
  function Outgoing(p: Policy, t: Loop, input: TickInput): seq<Frame> {
    if Stops(t, input) || FailsAlone(p, t, input) then [StopFrame(t.lastWidth)] else AsList(Actuated(p, t, input))
  }

  /** An e-stop is raised: the watchdog fires, the active controller fails with nothing to restore,
      or the candidate fails alone. */
  predicate Alarms(p: Policy, t: Loop, input: TickInput) {
    || WatchdogFires(t, input)
    || (ActiveResult(t, input).halted && !CanRestore(t))
    || FailsAlone(p, t, input)
  }

  /** The width of the last actuated command. */
  function WidthAfter(p: Policy, t: Loop, input: TickInput): nat {
    if !Stops(t, input) && !FailsAlone(p, t, input) && Actuated(p, t, input).Some?
    then |Actuated(p, t, input).value| else t.lastWidth
  }

  // ------------------------------------------------------------------
  // The parts of a tick
  // ------------------------------------------------------------------

  /** From `s` to `t` these frames are sent and so many e-stops raised. */
  predicate Does(s: Loop, t: Loop, frames: seq<Frame>, alarms: nat) {
    FrameList(t.log) == FrameList(s.log) + frames && Estops(t.log) == Estops(s.log) + alarms
  }

  predicate SameOutside(s: Loop, t: Loop) {
    Does(s, t, [], 0) && t.estop == s.estop && t.lastWidth == s.lastWidth
  }

  lemma {:induction false} DrainSends(p: Policy, s: Loop, commands: seq<Command>)
    ensures SameOutside(s, Drain(p, s, commands))
  {
    if commands != [] {
      DrainSends(p, s, commands[..|commands| - 1]);
      hide LoadArtifact;
    }
  }

  lemma NoticeSends(s: Loop, e: Rollout.Event)
    requires !e.Sent? && !e.EstopRaised?
    ensures SameOutside(s, s.Emit(e))
  {
  }

  lemma EstopSends(s: Loop)
    ensures Does(s, s.Emit(EstopRaised), [], 1)
  {
  }

  lemma ZeroSends(s: Loop)
    ensures Does(s, s.EmitZero(), [StopFrame(s.lastWidth)], 0)
  {
  }

  lemma RejectSends(s: Loop, restoreActive: bool)
    ensures SameOutside(s, Reject(s, restoreActive))
  {
    hide RestoreLastKnownGoodActive, RetireCurrent;
  }

  lemma FailCandidateSends(s: Loop, fallback: bool)
    ensures var t := FailCandidate(s, fallback);
      if fallback then SameOutside(s, t)
      else Does(s, t, [StopFrame(s.lastWidth)], 1) && t.estop && t.lastWidth == s.lastWidth
  {
    hide Reject, FrameList, Estops;
    RejectSends(s, true);
    var t := s.(estop := true);
    EstopSends(t);
    RejectSends(t.Emit(EstopRaised), false);
    ZeroSends(Reject(t.Emit(EstopRaised), false));
  }

  lemma TryPromoteSends(s: Loop, mode: ExecutionMode, target: DeploymentState)
    requires s.candidate.Some?
    ensures SameOutside(s, TryPromote(s, mode, target))
    ensures Extends(TryPromote(s, mode, target).log, s.log)
  {
    hide Finalize, JudgeEvidence, SubmitEvidence, PromoteTo, RestoreLastKnownGoodActive, RetireCurrent;
    var r := SubmitStageEvidenceAndPromote(s, mode, target);
    assert SameOutside(s, r.next) && Extends(r.next.log, s.log);
  }

  lemma AdvanceSends(p: Policy, s: Loop, counts: bool)
    requires s.candidate.Some?
    ensures SameOutside(s, AdvanceCandidateStage(p, s, counts))
    ensures Extends(AdvanceCandidateStage(p, s, counts).log, s.log)
  {
    hide TryPromote;
    if s.requested && s.stage.Some? && p.NextTarget(s.stage.value).Some? {
      var target := p.NextTarget(s.stage.value).value;
      TryPromoteSends(s, Verify, target);
      TryPromoteSends(s.(shadowTicks := s.shadowTicks + 1), ShadowRun, target);
      TryPromoteSends(s.(canaryTicks := s.canaryTicks + 1), CanaryRun, target);
    }
  }

  lemma ActuateSends(s: Loop, command: Option<Frame>)
    ensures var t := Actuate(s, command);
      && Does(s, t, AsList(command), 0) && t.estop == s.estop && t.candidate == s.candidate
      && t.lastWidth == if command.Some? then |command.value| else s.lastWidth
  {
  }

  lemma RestoreSucceeds(s: Loop)
    ensures s.rollback.Some? && RestoreLastKnownGoodActive(s.lifecycle).result.Ok? <==> CanRestore(s)
  {
  }

  lemma RecoverSends(s: Loop)
    requires s.active.Some?
    ensures var t := Recover(s);
      && Does(s, t, [StopFrame(s.lastWidth)], if CanRestore(s) then 0 else 1)
      && t.estop == !CanRestore(s) && t.lastWidth == s.lastWidth
      && (IsRunning(t.candidate) ==> IsRunning(t.active) && !InStage(t))
  {
    RestoreSucceeds(s);
    hide FrameList, Estops;
    var r := RestoreLastKnownGoodActive(s.lifecycle);
    if CanRestore(s) {
      var e := Restored(s.active.value.artifact, s.rollback.value.artifact, s.lifecycle.lastKnownGood.value);
      NoticeSends(s, e);
      var t := s.(active := SetRunning(s.rollback, true), rollback := None, lifecycle := r.next,
                  goodId := r.result.value.restored, stage := None, requested := false,
                  shadowTicks := 0, canaryTicks := 0, boundedTicks := 0, estop := false).Emit(e);
      ZeroSends(t);
    } else {
      NoticeSends(s, RestoreFailed);
      var t := s.(active := None, rollback := None, candidate := SetRunning(s.candidate, false), estop := true).Emit(RestoreFailed);
      EstopSends(t);
      ZeroSends(t.Emit(EstopRaised));
    }
  }

  /** After a rollback the candidate's tick sends nothing more. */
  lemma NothingMore(p: Policy, s: Loop, outcome: TickOutcome)
    requires IsRunning(s.candidate) ==> IsRunning(s.active) && !InStage(s)
    ensures SameOutside(s, TickCandidate(p, s, None, outcome))
  {
    hide TickController, RecordOf, FailCandidate, AdvanceCandidateStage, CandidateFails, FrameList, Estops;
    if IsRunning(s.candidate) {
      var t := TickController(s.candidate.value, outcome, s.sensors);
      TickControllerFacts(s.candidate.value, outcome, s.sensors);
      var u := s.(candidate := Some(t.controller.(running := !t.result.halted)));
      if CandidateFails(p, s, None, t) {
        FailCandidateSends(u, true);
      } else {
        NotFailing(p, s, None, t);
        var record := RecordOf(s.candidate.value, outcome.values, outcome.micros, s.sensors);
        var e := CandidateTick(s.stage, record, IsRunning(s.active), None, t.result.command, false);
        NoticeSends(u, e);
        AdvanceSends(p, u.Emit(e), true);
      }
    }
  }

  lemma SilentUnlessRunning(t: Loop, input: TickInput)
    ensures ActiveResult(t, input).command.Some? ==> IsRunning(t.active)
  {
  }

  lemma SameChecks(p: Policy, t: Loop, s: Loop, active: Option<Frame>, c: Ticked)
    requires Beside(t, s)
    ensures CandidateFails(p, s, active, c) == CandidateFails(p, t, active, c)
  {
    hide CompareSpec;
  }

  lemma CanarySends(p: Policy, s: Loop, active: Option<Frame>, command: Frame, record: TickRecord)
    requires s.candidate.Some? && (active.Some? ==> IsRunning(s.active))
    ensures var b := BlendCommand(p, active, command, s.candidate.value.profile.spans);
      var sent := if b.bounded && s.boundedTicks + 1 > p.maxBoundedTicks then active else Some(b.frame);
      var t := CanaryTick(p, s, active, command, record);
      && Does(s, t, AsList(sent), 0) && t.estop == s.estop
      && t.lastWidth == if sent.Some? then |sent.value| else s.lastWidth
  {
    hide FailCandidate, AdvanceCandidateStage, BlendCommand, Actuate, FrameList, Estops;
    var b := BlendCommand(p, active, command, s.candidate.value.profile.spans);
    if active.None? {
      OwnCommandWithoutActive(p, command, s.candidate.value.profile.spans);
    }
    var e := CandidateTick(s.stage, record, IsRunning(s.active), active, Some(command), b.bounded);
    var r := s.(boundedTicks := s.boundedTicks + if b.bounded then 1 else 0);
    NoticeSends(r, e);
    var t := r.Emit(e);
    FailCandidateSends(t, IsRunning(s.active));
    ActuateSends(FailCandidate(t, IsRunning(s.active)), active);
    ActuateSends(t, Some(b.frame));
    AdvanceSends(p, Actuate(t, Some(b.frame)), !b.bounded);
  }

  /** The whole outward effect of a tick that starts in `t`. */
  predicate Effect(p: Policy, t: Loop, input: TickInput, u: Loop) {
    && Does(t, u, Outgoing(p, t, input), if Alarms(p, t, input) then 1 else 0)
    && (u.estop <==> Alarms(p, t, input) || (t.estop && !RollsBack(t, input)))
    && u.lastWidth == WidthAfter(p, t, input)
  }

  /** `u` follows from `t` by sending the actuated command, or by a lone failure. */
  predicate Follows(p: Policy, t: Loop, input: TickInput, u: Loop) {
    if FailsAlone(p, t, input)
    then Does(t, u, [StopFrame(t.lastWidth)], 1) && u.estop && u.lastWidth == t.lastWidth
    else
      var sent := Actuated(p, t, input);
      && Does(t, u, AsList(sent), 0) && u.estop == t.estop
      && u.lastWidth == if sent.Some? then |sent.value| else t.lastWidth
  }

  lemma FollowsIsEffect(p: Policy, t: Loop, input: TickInput, u: Loop)
    requires !Stops(t, input) && Follows(p, t, input, u)
    ensures Effect(p, t, input, u)
  {
    hide ActiveResult, Passes, Contributes, Actuated, Does, StopFrame;
  }

  /** The same loop up to the progress of the active controller. */
  predicate Beside(t: Loop, s: Loop) {
    s == t.(active := s.active) && IsRunning(s.active) == IsRunning(t.active)
  }

  /** When nothing stops the robot, the active controller's part only moves that controller on. */
  lemma ActiveGoesOn(t: Loop, input: TickInput)
    requires !Stops(t, input)
    ensures var a := TickActive(t, input.activeOutcome);
      && a.command == ActiveResult(t, input).command && Beside(t, a.next)
      && Occupant(a.next.active) == Occupant(t.active)
  {
    hide TickController, Recover;
    if IsRunning(t.active) {
      TickControllerFacts(t.active.value, input.activeOutcome, t.sensors);
    }
  }

  lemma FailingSends(p: Policy, t: Loop, s: Loop, input: TickInput)
    requires !Stops(t, input) && Beside(t, s) && IsRunning(t.candidate) && !Passes(p, t, input)
    ensures Follows(p, t, input, TickCandidate(p, s, ActiveResult(t, input).command, input.candidateOutcome))
  {
    var active := ActiveResult(t, input).command;
    var c := TickController(t.candidate.value, input.candidateOutcome, t.sensors);
    PassesUnlessFails(p, t, input);
    SilentUnlessRunning(t, input);
    SameChecks(p, t, s, active, c);
    hide TickController, FailCandidate, CandidateFails, Passes, Actuate, FrameList, Estops, ActiveResult, Stops;
    var u := s.(candidate := Some(c.controller.(running := !c.result.halted)));
    FailCandidateSends(u, IsRunning(s.active));
    ActuateSends(FailCandidate(u, IsRunning(s.active)), active);
  }

  /** The candidate after its tick. */
  function Ticking(t: Loop, s: Loop, input: TickInput): Loop
    requires t.candidate.Some?
  {
    s.(candidate := Some(TickController(t.candidate.value, input.candidateOutcome, t.sensors).controller))
  }

  function RecordAt(t: Loop, input: TickInput): TickRecord
    requires t.candidate.Some? && input.candidateOutcome.Returned?
  {
    RecordOf(t.candidate.value, input.candidateOutcome.values, input.candidateOutcome.micros, t.sensors)
  }

  /** How the candidate's part goes on once it has passed. */
  lemma PassingTick(p: Policy, t: Loop, s: Loop, input: TickInput)
    requires Beside(t, s) && Passes(p, t, input)
    ensures input.candidateOutcome.Returned?
    ensures var active := ActiveResult(t, input).command;
      var u := Ticking(t, s, input);
      TickCandidate(p, s, active, input.candidateOutcome)
      == if t.stage == Some(Canary) then CanaryTick(p, u, active, CandidateResult(t, input).command.value, RecordAt(t, input))
         else
           var e := CandidateTick(t.stage, RecordAt(t, input), IsRunning(t.active), active, CandidateResult(t, input).command, false);
           AdvanceCandidateStage(p, Actuate(u.Emit(e), active), true)
  {
    var active := ActiveResult(t, input).command;
    var c := TickController(t.candidate.value, input.candidateOutcome, t.sensors);
    TickControllerFacts(t.candidate.value, input.candidateOutcome, t.sensors);
    PassesUnlessFails(p, t, input);
    SameChecks(p, t, s, active, c);
    NotFailing(p, t, active, c);
    hide TickController, CandidateFails, Close, CanaryTick, AdvanceCandidateStage, Actuate, ActiveResult, RecordOf;
    assert Ticking(t, s, input) == s.(candidate := Some(c.controller.(running := !c.result.halted)));
  }

  lemma PassingSends(p: Policy, t: Loop, s: Loop, input: TickInput)
    requires Beside(t, s) && Passes(p, t, input)
    ensures Follows(p, t, input, TickCandidate(p, s, ActiveResult(t, input).command, input.candidateOutcome))
  {
    var active := ActiveResult(t, input).command;
    PassingTick(p, t, s, input);
    TickControllerFacts(t.candidate.value, input.candidateOutcome, t.sensors);
    SilentUnlessRunning(t, input);
    hide TickController, TickCandidate, CanaryTick, AdvanceCandidateStage, BlendCommand, Clamped, Close;
    hide Actuate, FrameList, Estops, ActiveResult, RecordAt;
    var u := Ticking(t, s, input);
    if t.stage == Some(Canary) {
      BoundedIfClamped(p, t, input);
      CanarySends(p, u, active, CandidateResult(t, input).command.value, RecordAt(t, input));
    } else {
      var e := CandidateTick(t.stage, RecordAt(t, input), IsRunning(t.active), active, CandidateResult(t, input).command, false);
      NoticeSends(u, e);
      ActuateSends(u.Emit(e), active);
      AdvanceSends(p, Actuate(u.Emit(e), active), true);
    }
  }

  /** The candidate's part, when the active controller did not fail. */
  lemma CandidateSends(p: Policy, t: Loop, s: Loop, input: TickInput)
    requires !Stops(t, input) && Beside(t, s)
    ensures Effect(p, t, input, TickCandidate(p, s, ActiveResult(t, input).command, input.candidateOutcome))
  {
    if IsRunning(t.candidate) {
      if Passes(p, t, input) {
        PassingSends(p, t, s, input);
      } else {
        FailingSends(p, t, s, input);
      }
      hide TickCandidate, ActiveResult, Passes, Follows, Effect;
    } else {
      ActuateSends(s, ActiveResult(t, input).command);
      hide Actuate, ActiveResult, FrameList, Estops;
    }
    FollowsIsEffect(p, t, input, TickCandidate(p, s, ActiveResult(t, input).command, input.candidateOutcome));
  }

  // ------------------------------------------------------------------
  // Every tick
  // ------------------------------------------------------------------

  /** From any state and for any input: the frames a tick sends, the e-stops it raises, whether an
      e-stop is left standing and the width kept for the next safe-stop frame, exactly. */
  lemma TickSends(p: Policy, s: Loop, input: TickInput)
    ensures var t, u := Opening(p, s, input), RunTick(p, s, input);
      && Does(s, u, Outgoing(p, t, input), if Alarms(p, t, input) then 1 else 0)
      && (u.estop <==> Alarms(p, t, input) || (s.estop && !RollsBack(t, input)))
      && u.lastWidth == WidthAfter(p, t, input)
  {
    DrainSends(p, s, input.emergency + input.commands);
    var t := Opening(p, s, input);
    hide Drain, TickController, TickCandidate, Recover, FrameList, Estops, Passes, Contributes, BlendOf, Actuated;
    if WatchdogFires(t, input) {
      var v := t.(active := SetRunning(t.active, false), candidate := SetRunning(t.candidate, false), estop := true);
      ZeroSends(v);
      EstopSends(v.EmitZero());
    } else if ActiveResult(t, input).halted {
      TickControllerFacts(t.active.value, input.activeOutcome, t.sensors);
      var c := TickController(t.active.value, input.activeOutcome, t.sensors);
      var next := t.(active := Some(c.controller.(running := false)));
      RecoverSends(next);
      NothingMore(p, Recover(next), input.candidateOutcome);
    } else {
      ActiveGoesOn(t, input);
      CandidateSends(p, t, TickActive(t, input.activeOutcome).next, input);
    }
  }

  predicate IsStop(f: Frame) {
    forall i :: 0 <= i < |f| ==> f[i] == 0.0
  }

  /** From any state and for any input: a tick sends at most one frame, and it has one of three
      sources. The safe-stop frame is sent only if the watchdog fires, the active controller
      fails or none runs; the blend only if the candidate runs in canary; anything else is
      the active controller's own command on this tick. */
  lemma EveryFrameHasASource(p: Policy, s: Loop, input: TickInput)
    ensures var t, n := Opening(p, s, input), |FrameList(s.log)|;
      var frames := FrameList(RunTick(p, s, input).log);
      && FrameList(s.log) <= frames && |frames| <= n + 1
      && (|frames| == n + 1 ==>
            || (IsStop(frames[n]) && |frames[n]| >= 6 && (Stops(t, input) || !IsRunning(t.active)))
            || ActiveResult(t, input).command == Some(frames[n])
            || (&& t.stage == Some(Canary) && IsRunning(t.candidate)
                && CandidateResult(t, input).command.Some? && frames[n] == BlendOf(p, t, input).frame))
  {
    TickSends(p, s, input);
    hide RunTick, Opening, ActiveResult, BlendOf, CandidateResult, FrameList, TickController, Close, Clamped;
  }

  /** The width of the last of these frames, but at least six. */
  function CoverWidth(frames: seq<Frame>): nat {
    if frames == [] || |frames[|frames| - 1]| < 6 then 6 else |frames[|frames| - 1]|
  }

  lemma TickKeepsWidth(p: Policy, s: Loop, input: TickInput)
    requires |StopFrame(s.lastWidth)| == CoverWidth(FrameList(s.log))
    ensures var u := RunTick(p, s, input); |StopFrame(u.lastWidth)| == CoverWidth(FrameList(u.log))
  {
    TickSends(p, s, input);
    DrainSends(p, s, input.emergency + input.commands);
    hide RunTick, Drain, FrameList, Estops, ActiveResult, Passes, Contributes, Actuated, BlendOf;
  }

  lemma {:induction false} RunKeepsWidth(p: Policy, inputs: seq<TickInput>)
    ensures var s := Run(p, INITIAL, inputs); |StopFrame(s.lastWidth)| == CoverWidth(FrameList(s.log))
  {
    if inputs != [] {
      hide RunTick, FrameList;
      RunKeepsWidth(p, inputs[..|inputs| - 1]);
      TickKeepsWidth(p, Run(p, INITIAL, inputs[..|inputs| - 1]), inputs[|inputs| - 1]);
    }
  }

  /** In every run, a safe-stop frame is zero on every channel of the last frame sent, and on at least six. */
  lemma {:induction false} SafeStopCoversLastFrame(p: Policy, history: seq<TickInput>, input: TickInput)
    requires var t := Opening(p, Run(p, INITIAL, history), input); Stops(t, input) || FailsAlone(p, t, input)
    ensures var s := Run(p, INITIAL, history);
      var before, after := FrameList(s.log), FrameList(RunTick(p, s, input).log);
      && |after| == |before| + 1 && before <= after
      && IsStop(after[|before|]) && |after[|before|]| == CoverWidth(before)
  {
    var s := Run(p, INITIAL, history);
    RunKeepsWidth(p, history);
    TickSends(p, s, input);
    DrainSends(p, s, input.emergency + input.commands);
    hide Run, RunTick, Drain, FrameList, Estops, Stops, FailsAlone, Actuated;
  }

  /** Outside canary the candidate never reaches the hardware. While the active controller runs,
      what a tick sends is fixed by the active controller and the watchdog alone, so two ticks
      that differ in the candidate or in what it returns send the same; and without a running
      active controller only safe-stop frames are sent. */
  lemma ShadowReachesNoHardware(p: Policy, s: Loop, input: TickInput)
    requires Opening(p, s, input).stage != Some(Canary)
    ensures var t, n := Opening(p, s, input), |FrameList(s.log)|;
      var frames := FrameList(RunTick(p, s, input).log);
      && (IsRunning(t.active) ==>
            frames == FrameList(s.log)
                      + if input.watchdogExpired || ActiveResult(t, input).halted
                        then [StopFrame(s.lastWidth)]
                        else AsList(ActiveResult(t, input).command))
      && (!IsRunning(t.active) ==> |frames| <= n + 1 && forall k :: n <= k < |frames| ==> IsStop(frames[k]))
  {
    TickSends(p, s, input);
    DrainSends(p, s, input.emergency + input.commands);
    hide RunTick, Drain, FrameList, Estops, TickController, Close, Clamped;
  }

  predicate SameExceptCandidate(s: Loop, t: Loop) {
    t == s.(candidate := t.candidate) && s.stage != Some(Canary) && IsRunning(s.active)
  }

  /** Non-interference: any other candidate with any other output, and the frames are the same. */
  lemma CandidateDoesNotInterfere(p: Policy, s: Loop, s': Loop, input: TickInput, outcome: TickOutcome)
    requires SameExceptCandidate(s, s') && input.emergency + input.commands == []
    ensures FrameList(RunTick(p, s, input).log) == FrameList(RunTick(p, s', input.(candidateOutcome := outcome)).log)
  {
    ShadowReachesNoHardware(p, s, input);
    ShadowReachesNoHardware(p, s', input.(candidateOutcome := outcome));
    hide RunTick, TickController;
  }

  // ------------------------------------------------------------------
  // Canary
  // ------------------------------------------------------------------

  /** The candidate and the active controller both run in canary, and nothing stops the robot. */
  predicate InCanary(t: Loop, input: TickInput) {
    t.stage == Some(Canary) && IsRunning(t.candidate) && IsRunning(t.active) && !Stops(t, input)
  }

  /** Canary actuation from any state, for every frame of the tick. While both controllers run
      and nothing stops the robot, at most one frame is sent. It is the active command, on a
      tick that drops the candidate; or the widths match, the candidate is under the
      divergence limit on every channel, and each channel is the candidate's, or at the edge of
      its share of the span around the active command if the candidate's is beyond it. */
  lemma CanaryFrameEnvelope(p: Policy, s: Loop, input: TickInput)
    requires InCanary(Opening(p, s, input), input)
    ensures var t, n := Opening(p, s, input), |FrameList(s.log)|;
      var frames := FrameList(RunTick(p, s, input).log);
      && n <= |frames| <= n + 1
      && (|frames| == n + 1 ==>
            && ActiveResult(t, input).command.Some?
            && var active := ActiveResult(t, input).command.value;
               if Contributes(p, t, input)
               then Close(p.maxStageDeltaBps, active, CandidateResult(t, input).command.value, t.candidate.value.profile.spans)
                    && FrameOnEnvelope(p.canaryDeltaBps, active, CandidateResult(t, input).command.value, frames[n],
                                       t.candidate.value.profile.spans)
               else frames[n] == active)
  {
    TickSends(p, s, input);
    var t := Opening(p, s, input);
    if Contributes(p, t, input) {
      BlendOnEnvelope(p, ActiveResult(t, input).command.value, CandidateResult(t, input).command.value,
                      t.candidate.value.profile.spans);
    }
    hide RunTick, Opening, ActiveResult, CandidateResult, BlendCommand, FrameList, TickController, FrameOnEnvelope, WithinBps, Clamped;
  }

  /** What the log records of it: the candidate's tick with both commands and whether it was
      clamped, directly followed by the frame. */
  lemma ContributionIsLogged(p: Policy, s: Loop, input: TickInput)
    requires var t := Opening(p, s, input); Contributes(p, t, input) && !Stops(t, input)
    ensures var t := Opening(p, s, input);
      && input.candidateOutcome.Returned?
      && Extends(RunTick(p, s, input).log,
                 Snoc(Snoc(t.log, CandidateTick(Some(Canary), RecordAt(t, input), IsRunning(t.active), ActiveResult(t, input).command,
                                                CandidateResult(t, input).command, ClampedTick(p, t, input))),
                      Sent(BlendOf(p, t, input).frame)))
  {
    var t := Opening(p, s, input);
    ActiveGoesOn(t, input);
    hide Drain, TickController, TickCandidate, TickActive, Passes, BlendCommand, RecordAt, Clamped, ActiveResult;
    var a := TickActive(t, input.activeOutcome);
    PassingTick(p, t, a.next, input);
    BoundedIfClamped(p, t, input);
    CanaryLogged(p, Ticking(t, a.next, input), ActiveResult(t, input).command, CandidateResult(t, input).command.value,
                 RecordAt(t, input));
  }

  lemma CanaryLogged(p: Policy, s: Loop, active: Option<Frame>, command: Frame, record: TickRecord)
    requires s.candidate.Some?
    requires var b := BlendCommand(p, active, command, s.candidate.value.profile.spans);
      b.bounded ==> s.boundedTicks + 1 <= p.maxBoundedTicks
    ensures var b := BlendCommand(p, active, command, s.candidate.value.profile.spans);
      Extends(CanaryTick(p, s, active, command, record).log,
              Snoc(Snoc(s.log, CandidateTick(s.stage, record, IsRunning(s.active), active, Some(command), b.bounded)),
                   Sent(b.frame)))
  {
    hide BlendCommand, AdvanceCandidateStage, FailCandidate, Extends;
    var b := BlendCommand(p, active, command, s.candidate.value.profile.spans);
    var v := s.(boundedTicks := s.boundedTicks + if b.bounded then 1 else 0)
              .Emit(CandidateTick(s.stage, record, IsRunning(s.active), active, Some(command), b.bounded));
    AdvanceSends(p, Actuate(v, Some(b.frame)), !b.bounded);
  }

  /** What the candidate adds to the frame; one that is dropped adds nothing to the active command. */
  function Share(p: Policy, t: Loop, input: TickInput): Option<Frame> {
    if Contributes(p, t, input) then CandidateResult(t, input).command else ActiveResult(t, input).command
  }

  predicate SendsOn(p: Policy, s: Loop, input: TickInput, f: Frame) {
    FrameList(RunTick(p, s, input).log) == FrameList(s.log) + [f]
  }

  lemma SentIsBound(p: Policy, s: Loop, input: TickInput, f: Frame, i: nat)
    requires InCanary(Opening(p, s, input), input) && SendsOn(p, s, input, f) && i < |f|
    requires i < |Opening(p, s, input).candidate.value.profile.spans|
    ensures var t := Opening(p, s, input);
      && ActiveResult(t, input).command.Some? && Share(p, t, input).Some?
      && |ActiveResult(t, input).command.value| == |Share(p, t, input).value| == |f|
      && f[i] == BoundChannel(ActiveResult(t, input).command.value[i], Share(p, t, input).value[i],
                              t.candidate.value.profile.spans[i], p.CanaryMaxDelta())
  {
    TickSends(p, s, input);
    CanaryFrameEnvelope(p, s, input);
    var t := Opening(p, s, input);
    hide RunTick, Opening, ActiveResult, CandidateResult, FrameList, TickController, Clamped, WithinBps, OnEnvelope, BoundChannel;
    if !Contributes(p, t, input) {
      BoundChannelEnvelope(f[i], f[i], t.candidate.value.profile.spans[i], p.CanaryMaxDelta());
    }
  }

  /** Between any two canary ticks of controllers with the same spans, from any two states, each
      channel sent moves by at most the larger of the moves of the active command and of
      the candidate's share, so a rate bound they share is kept. */
  lemma CanaryFramesAddNoSpeed(p: Policy, s1: Loop, i1: TickInput, f1: Frame, s2: Loop, i2: TickInput, f2: Frame, i: nat)
    requires InCanary(Opening(p, s1, i1), i1) && SendsOn(p, s1, i1, f1) && i < |f1|
    requires InCanary(Opening(p, s2, i2), i2) && SendsOn(p, s2, i2, f2) && i < |f2|
    requires Opening(p, s1, i1).candidate.value.profile.spans == Opening(p, s2, i2).candidate.value.profile.spans
    requires i < |Opening(p, s1, i1).candidate.value.profile.spans|
    ensures var t1, t2 := Opening(p, s1, i1), Opening(p, s2, i2);
      && ActiveResult(t1, i1).command.Some? && Share(p, t1, i1).Some?
      && |ActiveResult(t1, i1).command.value| == |Share(p, t1, i1).value| == |f1|
      && ActiveResult(t2, i2).command.Some? && Share(p, t2, i2).Some?
      && |ActiveResult(t2, i2).command.value| == |Share(p, t2, i2).value| == |f2|
      && Abs(f2[i] - f1[i])
         <= Max(Abs(ActiveResult(t2, i2).command.value[i] - ActiveResult(t1, i1).command.value[i]),
                Abs(Share(p, t2, i2).value[i] - Share(p, t1, i1).value[i]))
  {
    SentIsBound(p, s1, i1, f1, i);
    SentIsBound(p, s2, i2, f2, i);
    var t1, t2 := Opening(p, s1, i1), Opening(p, s2, i2);
    hide RunTick, Opening, ActiveResult, FrameList, TickController, Share;
    BoundChannelNonExpansive(
      ActiveResult(t1, i1).command.value[i], Share(p, t1, i1).value[i],
      ActiveResult(t2, i2).command.value[i], Share(p, t2, i2).value[i],
      t1.candidate.value.profile.spans[i], p.CanaryMaxDelta());
  }
}
