/** Position limits at the actuator: on no tick does any frame push a joint further
    towards a limit it is already close to, blended canary frames included. */
module RolloutGuard {
  import opened Floats
  import opened Deployment
  import opened SafetyFilter
  import opened SafetyFilterProofs
  import opened Evidence
  import opened Lifecycle
  import opened Canary
  import opened Controller
  import opened Rollout

  /** Joint `j` has limits `l` and is reported at `position`. */
  datatype Watch = Watch(j: nat, l: JointLimits, position: real)
  {
    predicate Guards(f: Frame) {
      j < |f| ==> GuardedAt(l, position, f[j])
    }

    /** Every frame sent since `base` is guarded. */
    predicate GuardsSince(log: Log, base: Log) {
      log == base || (log.Snoc? && GuardsSince(log.before, base) && (log.last.Sent? ==> Guards(log.last.frame)))
    }

    /** The profile's filter knows the joint's position range. */
    predicate KnownIn(p: ControlProfile) {
      var limits := p.filter.limits;
      j < |limits| && limits[j].positionMin == l.positionMin && limits[j].positionMax == l.positionMax
    }

    predicate KnownTo(slot: Option<LoadedController>) {
      slot.Some? ==> KnownIn(slot.value.profile)
    }

    predicate ReportedBy(sensors: Sensors) {
      j < |sensors.positions| && sensors.positions[j] == Finite(position)
    }
  }

  predicate Good(q: Watch, base: Log, s: Loop) {
    && q.KnownTo(s.active) && q.KnownTo(s.candidate) && q.KnownTo(s.rollback)
    && q.ReportedBy(s.sensors) && q.GuardsSince(s.log, base)
  }

  lemma TickGuards(q: Watch, c: LoadedController, outcome: TickOutcome, sensors: Sensors)
    requires q.KnownTo(Some(c)) && q.ReportedBy(sensors)
    ensures var t := TickController(c, outcome, sensors);
      q.KnownTo(Some(t.controller)) && (t.result.command.Some? ==> q.Guards(t.result.command.value))
  {
    TickControllerFacts(c, outcome, sensors);
    if outcome.Returned? && q.j < |c.profile.channels| {
      var raw := RawCommands(|c.profile.channels|, outcome.values);
      var state := sensors.positions + sensors.velocities;
      assert state[q.j] == sensors.positions[q.j];
      TickGuarded(c.profile.filter, c.previous, raw, state, sensors.wrench, q.j);
    }
    hide FilterTick, AfterTick;
  }

  lemma ZeroGuards(q: Watch, n: nat)
    ensures q.Guards(ZeroFrame(n))
  {
  }

  lemma BlendGuards(q: Watch, p: Policy, active: Option<Frame>, candidate: Frame, spans: seq<real>)
    requires q.Guards(candidate) && (active.Some? ==> q.Guards(active.value))
    ensures q.Guards(BlendCommand(p, active, candidate, spans).frame)
  {
    if active.Some? && Comparable(active, Some(candidate), spans) && q.j < |candidate| {
      BoundChannelEnvelope(active.value[q.j], candidate[q.j], spans[q.j], p.CanaryMaxDelta());
    }
    hide BoundChannel;
  }

  /** One more event. */
  lemma EmitGood(q: Watch, base: Log, s: Loop, e: Rollout.Event)
    requires Good(q, base, s) && (e.Sent? ==> q.Guards(e.frame))
    ensures Good(q, base, s.Emit(e))
  {
  }

  lemma EmitZeroGood(q: Watch, base: Log, s: Loop)
    requires Good(q, base, s)
    ensures Good(q, base, s.EmitZero())
  {
    var n := if s.lastWidth < 6 then 6 else s.lastWidth;
    ZeroGuards(q, n);
    EmitGood(q, base, s, Sent(ZeroFrame(n)));
  }

  lemma WatchdogGood(q: Watch, base: Log, s: Loop)
    requires Good(q, base, s)
    ensures Good(q, base, FireWatchdog(s))
  {
    var t := s.(active := SetRunning(s.active, false), candidate := SetRunning(s.candidate, false), estop := true);
    EmitZeroGood(q, base, t);
    EmitGood(q, base, t.EmitZero(), EstopRaised);
  }

  lemma RecoverGood(q: Watch, base: Log, s: Loop)
    requires Good(q, base, s) && s.active.Some?
    ensures Good(q, base, Recover(s))
  {
    var r := RestoreLastKnownGoodActive(s.lifecycle);
    if s.rollback.Some? && r.result.Ok? {
      var t := s.(active := SetRunning(s.rollback, true), rollback := None, lifecycle := r.next,
                  goodId := r.result.value.restored, stage := None, requested := false,
                  shadowTicks := 0, canaryTicks := 0, boundedTicks := 0, estop := false);
      var e := Restored(s.active.value.artifact, s.rollback.value.artifact, s.lifecycle.lastKnownGood.value);
      EmitGood(q, base, t, e);
      EmitZeroGood(q, base, t.Emit(e));
    } else {
      var t := s.(active := None, rollback := None, candidate := SetRunning(s.candidate, false), estop := true);
      EmitGood(q, base, t, RestoreFailed);
      EmitGood(q, base, t.Emit(RestoreFailed), EstopRaised);
      EmitZeroGood(q, base, t.Emit(RestoreFailed).Emit(EstopRaised));
    }
  }

  lemma TickActiveGood(q: Watch, base: Log, s: Loop, outcome: TickOutcome)
    requires Good(q, base, s)
    ensures var a := TickActive(s, outcome);
      Good(q, base, a.next) && (a.command.Some? ==> q.Guards(a.command.value))
  {
    hide TickController, Recover;
    if IsRunning(s.active) {
      TickGuards(q, s.active.value, outcome, s.sensors);
      var t := TickController(s.active.value, outcome, s.sensors);
      var next := s.(active := Some(t.controller.(running := !t.result.halted)));
      assert Good(q, base, next);
      RecoverGood(q, base, next);
    }
  }

  lemma RejectGood(q: Watch, base: Log, s: Loop, restoreActive: bool)
    requires Good(q, base, s)
    ensures Good(q, base, Reject(s, restoreActive))
  {
    hide RestoreLastKnownGoodActive, RetireCurrent;
    EmitGood(q, base, Reject(s, restoreActive).(log := s.log), CandidateRejected);
  }

  lemma FailCandidateGood(q: Watch, base: Log, s: Loop, fallback: bool)
    requires Good(q, base, s)
    ensures Good(q, base, FailCandidate(s, fallback))
  {
    hide Reject;
    if fallback {
      RejectGood(q, base, s, true);
    } else {
      var t := s.(estop := true);
      EmitGood(q, base, t, EstopRaised);
      RejectGood(q, base, t.Emit(EstopRaised), false);
      EmitZeroGood(q, base, Reject(t.Emit(EstopRaised), false));
    }
  }

  lemma ActuateGood(q: Watch, base: Log, s: Loop, command: Option<Frame>)
    requires Good(q, base, s) && (command.Some? ==> q.Guards(command.value))
    ensures Good(q, base, Actuate(s, command))
  {
    if command.Some? {
      EmitGood(q, base, s.(lastWidth := |command.value|), Sent(command.value));
    }
  }

  lemma TryPromoteGood(q: Watch, base: Log, s: Loop, mode: ExecutionMode, target: DeploymentState)
    requires Good(q, base, s) && s.candidate.Some?
    ensures Good(q, base, TryPromote(s, mode, target))
  {
    hide SubmitStageEvidenceAndPromote, Reject, PromoteCandidateToActive, Good;
    SubmitGood(q, base, s, mode, target);
    var r := SubmitStageEvidenceAndPromote(s, mode, target);
    if !r.accepted {
      RejectGood(q, base, r.next, s.active.Some?);
    } else {
      EnterGood(q, base, r.next, target);
    }
  }

  lemma SubmitGood(q: Watch, base: Log, s: Loop, mode: ExecutionMode, target: DeploymentState)
    requires Good(q, base, s) && s.candidate.Some?
    ensures var t := SubmitStageEvidenceAndPromote(s, mode, target).next; Good(q, base, t) && t.candidate.Some?
  {
    hide Finalize, JudgeEvidence, SubmitEvidence, PromoteTo;
    var r := SubmitStageEvidenceAndPromote(s, mode, target);
    if r.accepted {
      EmitGood(q, base, r.next.(log := s.log), r.next.log.last);
    }
  }

  lemma EnterGood(q: Watch, base: Log, s: Loop, target: DeploymentState)
    requires Good(q, base, s) && s.candidate.Some?
    ensures Good(q, base, EnterStage(s, target))
  {
    var promoted := PromoteCandidateToActive(s);
    EmitGood(q, base, promoted.(log := s.log), promoted.log.last);
  }

  lemma AdvanceGood(q: Watch, base: Log, p: Policy, s: Loop, counts: bool)
    requires Good(q, base, s) && s.candidate.Some?
    ensures Good(q, base, AdvanceCandidateStage(p, s, counts))
  {
    hide TryPromote;
    if s.requested && s.stage.Some? && p.NextTarget(s.stage.value).Some? {
      var target := p.NextTarget(s.stage.value).value;
      TryPromoteGood(q, base, s, Verify, target);
      TryPromoteGood(q, base, s.(shadowTicks := s.shadowTicks + 1), ShadowRun, target);
      TryPromoteGood(q, base, s.(canaryTicks := s.canaryTicks + 1), CanaryRun, target);
    }
  }

  lemma CanaryTickGood(q: Watch, base: Log, p: Policy, s: Loop, active: Option<Frame>, command: Frame, record: TickRecord)
    requires Good(q, base, s) && s.candidate.Some? && q.Guards(command) && (active.Some? ==> q.Guards(active.value))
    ensures Good(q, base, CanaryTick(p, s, active, command, record))
  {
    hide BlendCommand, FailCandidate, AdvanceCandidateStage;
    var b := BlendCommand(p, active, command, s.candidate.value.profile.spans);
    BlendGuards(q, p, active, command, s.candidate.value.profile.spans);
    var r := s.(boundedTicks := s.boundedTicks + if b.bounded then 1 else 0);
    var e := CandidateTick(s.stage, record, IsRunning(s.active), active, Some(command), b.bounded);
    EmitGood(q, base, r, e);
    var t := r.Emit(e);
    if b.bounded && t.boundedTicks > p.maxBoundedTicks {
      FailCandidateGood(q, base, t, IsRunning(s.active));
      ActuateGood(q, base, FailCandidate(t, IsRunning(s.active)), active);
    } else {
      ActuateGood(q, base, t, Some(b.frame));
      AdvanceGood(q, base, p, Actuate(t, Some(b.frame)), !b.bounded);
    }
  }

  lemma TickCandidateGood(q: Watch, base: Log, p: Policy, s: Loop, active: Option<Frame>, outcome: TickOutcome)
    requires Good(q, base, s) && (active.Some? ==> q.Guards(active.value))
    ensures Good(q, base, TickCandidate(p, s, active, outcome))
  {
    hide TickController, RecordOf, CanaryTick, FailCandidate, AdvanceCandidateStage, CandidateFails;
    if !IsRunning(s.candidate) {
      ActuateGood(q, base, s, active);
      return;
    }
    var t := TickController(s.candidate.value, outcome, s.sensors);
    TickControllerFacts(s.candidate.value, outcome, s.sensors);
    TickGuards(q, s.candidate.value, outcome, s.sensors);
    var u := s.(candidate := Some(t.controller.(running := !t.result.halted)));
    assert Good(q, base, u);
    if CandidateFails(p, s, active, t) {
      FailCandidateGood(q, base, u, IsRunning(s.active));
      ActuateGood(q, base, FailCandidate(u, IsRunning(s.active)), active);
    } else {
      NotFailing(p, s, active, t);
      var record := RecordOf(s.candidate.value, outcome.values, outcome.micros, s.sensors);
      if s.stage == Some(Canary) {
        CanaryTickGood(q, base, p, u, active, t.result.command.value, record);
      } else {
        var e := CandidateTick(s.stage, record, IsRunning(s.active), active, t.result.command, false);
        EmitGood(q, base, u, e);
        ActuateGood(q, base, u.Emit(e), active);
        AdvanceGood(q, base, p, Actuate(u.Emit(e), active), true);
      }
    }
  }

  /** Reading commands sends no frame. */
  lemma {:induction false} DrainSendsNothing(q: Watch, p: Policy, s: Loop, commands: seq<Command>)
    ensures q.GuardsSince(Drain(p, s, commands).log, s.log)
  {
    if commands != [] {
      DrainSendsNothing(q, p, s, commands[..|commands| - 1]);
    }
  }

  /** From any state and for any input: if joint `j` is reported at a position, and every
      controller in a slot knows its range, then no frame sent on this tick, whether
      safe-stop, active or blended, moves it further towards a limit it is near, and every
      slot still holds a controller that knows the range. */
  lemma EveryFrameGuarded(q: Watch, p: Policy, s: Loop, input: TickInput)
    requires var t := ReadSensors(Drain(p, s, input.emergency + input.commands), input.sensor);
      q.KnownTo(t.active) && q.KnownTo(t.candidate) && q.KnownTo(t.rollback) && q.ReportedBy(t.sensors)
    ensures Good(q, s.log, RunTick(p, s, input))
  {
    DrainSendsNothing(q, p, s, input.emergency + input.commands);
    hide Drain, FireWatchdog, TickActive, TickCandidate;
    var t := ReadSensors(Drain(p, s, input.emergency + input.commands), input.sensor);
    assert Good(q, s.log, t);
    if input.watchdogExpired && AnyRunning(t) {
      WatchdogGood(q, s.log, t);
    } else {
      TickActiveGood(q, s.log, t, input.activeOutcome);
      var a := TickActive(t, input.activeOutcome);
      TickCandidateGood(q, s.log, p, a.next, a.command, input.candidateOutcome);
    }
  }
}
