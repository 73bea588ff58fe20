/** How a controller can become active: over every run and every command sequence,
    each promotion is justified by the history before it. */
module RolloutPromotion {
  import opened Floats
  import opened Deployment
  import opened Artifacts
  import opened Evidence
  import opened EvidenceProofs
  import opened Lifecycle
  import opened Canary
  import opened CanaryProofs
  import opened Controller
  import opened Rollout
  import opened RolloutFrames

  // ------------------------------------------------------------------
  // Reading a log
  // ------------------------------------------------------------------

  function LastLoaded(log: Log): Option<Prepared> {
    match log
    case Empty => None
    case Snoc(before, Loaded(p)) => Some(p)
    case Snoc(before, _) => LastLoaded(before)
  }

  /** The stages the last loaded controller has been through, according to the acceptances since its load. */
  function Path(log: Log): seq<DeploymentState> {
    match log
    case Empty => []
    case Snoc(before, Loaded(_)) => [VerifiedOnly]
    case Snoc(before, StageAccepted(_, _, to)) => Path(before) + [to]
    case Snoc(before, _) => Path(before)
  }

  /** The stage it is in now. */
  function StageOf(log: Log): DeploymentState {
    match log
    case Empty => VerifiedOnly
    case Snoc(before, Loaded(_)) => VerifiedOnly
    case Snoc(before, StageAccepted(_, _, to)) => to
    case Snoc(before, _) => StageOf(before)
  }

  /** Its ticks since it entered that stage. */
  function StageTicks(log: Log): seq<TickRecord> {
    match log
    case Empty => []
    case Snoc(before, Loaded(_)) => []
    case Snoc(before, StageAccepted(_, _, _)) => []
    case Snoc(before, CandidateTick(_, record, _, _, _, _)) => StageTicks(before) + [record]
    case Snoc(before, _) => StageTicks(before)
  }

  /** How many of those were shadow ticks. */
  function ShadowCount(log: Log): nat {
    match log
    case Empty => 0
    case Snoc(before, Loaded(_)) => 0
    case Snoc(before, StageAccepted(_, _, _)) => 0
    case Snoc(before, CandidateTick(stage, _, _, _, _, _)) => ShadowCount(before) + if stage == Some(Shadow) then 1 else 0
    case Snoc(before, _) => ShadowCount(before)
  }

  /** How many of the candidate's latest ticks in a row were canary ticks without clamping. */
  function CanaryStreak(log: Log): nat {
    match log
    case Empty => 0
    case Snoc(before, Loaded(_)) => 0
    case Snoc(before, StageAccepted(_, _, _)) => 0
    case Snoc(before, CandidateTick(stage, _, _, _, _, bounded)) =>
      if stage == Some(Canary) && !bounded then CanaryStreak(before) + 1 else 0
    case Snoc(before, _) => CanaryStreak(before)
  }

  /** Who holds the active slot according to the promotions and rollbacks alone: the controller
      loaded last takes it when promoted, the one in the rollback slot when restored. */
  function ActiveOf(log: Log): Option<Prepared> {
    match log
    case Empty => None
    case Snoc(before, Promoted(_, _)) => LastLoaded(before)
    case Snoc(before, Restored(_, _, _)) => RollbackOf(before)
    case Snoc(before, RestoreFailed) => None
    case Snoc(before, _) => ActiveOf(before)
  }

  /** Who holds the rollback slot: the controller last displaced, until it is restored or lost. */
  function RollbackOf(log: Log): Option<Prepared> {
    match log
    case Empty => None
    case Snoc(before, Promoted(_, _)) => if ActiveOf(before).Some? then ActiveOf(before) else RollbackOf(before)
    case Snoc(before, Restored(_, _, _)) => None
    case Snoc(before, RestoreFailed) => None
    case Snoc(before, _) => RollbackOf(before)
  }

  /** This very controller, artifact and profile, was promoted. */
  predicate WasPromoted(log: Log, c: Prepared) {
    match log
    case Empty => false
    case Snoc(before, Promoted(_, _)) => LastLoaded(before) == Some(c) || WasPromoted(before, c)
    case Snoc(before, _) => WasPromoted(before, c)
  }

  function ArtifactOf(c: Option<Prepared>): Option<Artifact> {
    if c.Some? then Some(c.value.artifact) else None
  }

  /** How many of its ticks since it entered the stage were clamped. */
  function ClampedCount(log: Log): nat {
    match log
    case Empty => 0
    case Snoc(before, Loaded(_)) => 0
    case Snoc(before, StageAccepted(_, _, _)) => 0
    case Snoc(before, CandidateTick(_, _, _, _, _, bounded)) => ClampedCount(before) + if bounded then 1 else 0
    case Snoc(before, _) => ClampedCount(before)
  }

  predicate EndsInCanaryTick(log: Log) {
    log.Snoc? && log.last.CandidateTick? && log.last.stage == Some(Canary)
  }

  /** The last thing done was to send the frame that the candidate itself produced on
      this canary tick: the hand-over causes no jump. */
  predicate SentOwnCommand(log: Log) {
    && log.Snoc? && log.last.Sent?
    && EndsInCanaryTick(log.before)
    && log.before.last.command == Some(log.last.frame)
    && !log.before.last.bounded
  }

  // ------------------------------------------------------------------
  // Justification
  // ------------------------------------------------------------------

  /** The evidence of the ticks run since the stage was entered, as judged by the loop. */
  function EvidenceOf(h: Log, mode: ExecutionMode): Bundle
    requires LastLoaded(h).Some?
  {
    var p := LastLoaded(h).value;
    JudgeEvidence(Finalize(After(p.artifact.controllerId, p.profile.channels, StageTicks(h)), p.artifact.key.digests, mode))
  }

  /** A stage change is justified when the policy names it, the bundle is exactly the
      evidence of this controller's ticks in the stage it leaves and in that stage's
      mode, the bundle passes, and the stage lasted exactly as long as demanded. */
  predicate AcceptanceJustified(p: Policy, h: Log, bundle: Bundle, from: DeploymentState, to: DeploymentState) {
    && LastLoaded(h).Some?
    && from == StageOf(h)
    && p.NextTarget(from) == Some(to)
    && bundle == EvidenceOf(h, ModeFor(from))
    && bundle.status == Complete
    && (from == Shadow ==> ShadowCount(h) == AtLeastOne(p.shadowTicks))
    && (from == Canary ==> CanaryStreak(h) == AtLeastOne(p.canaryTicks) && SentOwnCommand(h))
  }

  /** A policy that demands no ticks still gets one. */
  function AtLeastOne(n: nat): nat {
    if n == 0 then 1 else n
  }

  /** Every event is justified by the history before it. */
  predicate Justified(p: Policy, log: Log) {
    match log
    case Empty => true
    case Snoc(h, e) =>
      && Justified(p, h)
      && match e
         case StageAccepted(bundle, from, to) => AcceptanceJustified(p, h, bundle, from, to)
         case Promoted(a, displaced) =>
           && h.Snoc? && h.last.StageAccepted?
           && StageOf(h) == Active
           && LastLoaded(h).Some? && LastLoaded(h).value.artifact == a
           && a.PromotionEligible()
           && displaced == ArtifactOf(ActiveOf(h))
         case Restored(failed, slot, _) => ArtifactOf(ActiveOf(h)) == Some(failed) && ArtifactOf(RollbackOf(h)) == Some(slot)
         case CandidateTick(stage, _, activeRan, active, command, _) =>
           && (active.Some? ==> activeRan)
           && (stage in {Some(Shadow), Some(Canary)} ==>
                 LastLoaded(h).Some? && ComparisonPassed(p, activeRan, active, command, LastLoaded(h).value.profile.spans))
         case Sent(frame) => EndsInCanaryTick(h) ==> BlendedFrom(p, h, frame)
         case _ => true
  }

  /** In a stage the candidate produced a command; and if the active controller is running,
      so did it, and the two were close enough. */
  predicate ComparisonPassed(p: Policy, activeRan: bool, active: Option<Frame>, command: Option<Frame>, spans: seq<real>) {
    command.Some? && (activeRan ==> active.Some? && Close(p.maxStageDeltaBps, active.value, command.value, spans))
  }

  /** The frame is the blend of the two commands of the canary tick that ends `h`. */
  predicate BlendedFrom(p: Policy, h: Log, frame: Frame)
    requires EndsInCanaryTick(h)
  {
    && h.last.command.Some? && LastLoaded(h).Some?
    && frame == BlendCommand(p, h.last.active, h.last.command.value, LastLoaded(h).value.profile.spans).frame
    && (h.last.bounded <==> BlendCommand(p, h.last.active, h.last.command.value, LastLoaded(h).value.profile.spans).bounded)
  }

  // ------------------------------------------------------------------
  // The invariant
  // ------------------------------------------------------------------

  /** The candidate slot holds the last loaded controller with the evidence of its ticks. */
  predicate CandidateSynced(s: Loop) {
    s.candidate.Some? ==>
      var c := s.candidate.value;
      && LastLoaded(s.log) == Some(Prepared(c.artifact, c.profile))
      && c.collector == After(c.artifact.controllerId, c.profile.channels, StageTicks(s.log))
      && (s.requested ==> c.artifact.PromotionEligible())
  }

  /** While the lifecycle is in a rollout stage it tracks the last loaded controller. */
  predicate LifecycleSynced(s: Loop) {
    && (s.lifecycle.stage.Some? <==> s.lifecycle.current.Some?)
    && (s.lifecycle.stage in {Some(VerifiedOnly), Some(Shadow), Some(Canary)} ==>
          && LastLoaded(s.log).Some?
          && s.lifecycle.current == Some(LastLoaded(s.log).value.artifact)
          && Some(StageOf(s.log)) == s.lifecycle.stage)
  }

  /** The two stage variables agree whenever the loop acts on a stage beyond VerifiedOnly. */
  predicate StagesAgree(s: Loop) {
    && s.stage in {None, Some(VerifiedOnly), Some(Shadow), Some(Canary)}
    && (s.requested ==> s.stage.Some?)
    && (InStage(s) ==> s.candidate.Some? && s.requested && s.lifecycle.stage == s.stage)
  }

  /** The two slots hold what the history says. */
  predicate SlotsTraced(s: Loop) {
    Occupant(s.active) == ActiveOf(s.log) && Occupant(s.rollback) == RollbackOf(s.log)
  }

  predicate Core(p: Policy, s: Loop) {
    && CandidateSynced(s) && LifecycleSynced(s) && StagesAgree(s) && SlotsTraced(s) && Justified(p, s.log)
    && (s.requested ==> p.AllowsRollout())
  }

  /** The loop's counters count what the log shows, and have not reached what the policy demands. */
  predicate Counted(p: Policy, s: Loop) {
    && (s.stage == Some(Shadow) ==> s.shadowTicks == ShadowCount(s.log) < AtLeastOne(p.shadowTicks))
    && (s.stage == Some(Canary) ==>
          && s.canaryTicks == CanaryStreak(s.log) < AtLeastOne(p.canaryTicks)
          && s.boundedTicks == ClampedCount(s.log) <= p.maxBoundedTicks)
  }

  predicate Inv(p: Policy, s: Loop) {
    Core(p, s) && Counted(p, s) && !EndsInCanaryTick(s.log)
  }

  // ------------------------------------------------------------------
  // Every part of a tick keeps it
  // ------------------------------------------------------------------

  lemma ProcessKeeps(p: Policy, s: Loop, cmd: Command)
    requires Inv(p, s)
    ensures Inv(p, Process(p, s, cmd))
  {
    hide Finalize, AfterTick, JudgeEvidence, CompareSpec, ComparisonPassed;
  }

  lemma {:induction false} DrainKeeps(p: Policy, s: Loop, commands: seq<Command>)
    requires Inv(p, s)
    ensures Inv(p, Drain(p, s, commands))
  {
    hide Inv, Process;
    if commands != [] {
      DrainKeeps(p, s, commands[..|commands| - 1]);
      ProcessKeeps(p, Drain(p, s, commands[..|commands| - 1]), commands[|commands| - 1]);
    }
  }

  /** Frames and notices change nothing that the invariant reads. */
  lemma NoticeKeeps(p: Policy, s: Loop, e: Event)
    requires Inv(p, s) && (e.Sent? || e.EstopRaised? || e.CandidateRejected?)
    ensures Inv(p, s.Emit(e))
  {
    hide Finalize, AfterTick, JudgeEvidence, CompareSpec, ComparisonPassed;
  }

  lemma WatchdogKeeps(p: Policy, s: Loop)
    requires Inv(p, s)
    ensures Inv(p, FireWatchdog(s))
  {
    hide Finalize, AfterTick, JudgeEvidence, CompareSpec, ComparisonPassed;
    var t := s.(active := SetRunning(s.active, false), candidate := SetRunning(s.candidate, false), estop := true);
    assert Inv(p, t);
    NoticeKeeps(p, t, t.EmitZero().log.last);
    NoticeKeeps(p, t.EmitZero(), EstopRaised);
  }

  lemma RecoverKeeps(p: Policy, s: Loop)
    requires Inv(p, s) && s.active.Some?
    ensures Inv(p, Recover(s))
  {
    hide Finalize, AfterTick, JudgeEvidence, CompareSpec, ComparisonPassed;
    var r := RestoreLastKnownGoodActive(s.lifecycle);
    if s.rollback.Some? && r.result.Ok? {
      var t := s.(active := SetRunning(s.rollback, true), rollback := None, lifecycle := r.next,
                  goodId := r.result.value.restored, stage := None, requested := false,
                  shadowTicks := 0, canaryTicks := 0, boundedTicks := 0, estop := false)
                .Emit(Restored(s.active.value.artifact, s.rollback.value.artifact, s.lifecycle.lastKnownGood.value));
      assert Inv(p, t);
      NoticeKeeps(p, t, t.EmitZero().log.last);
    } else {
      var u := s.(active := None, rollback := None, candidate := SetRunning(s.candidate, false), estop := true)
                .Emit(RestoreFailed);
      assert Inv(p, u);
      NoticeKeeps(p, u, EstopRaised);
      var v := u.Emit(EstopRaised);
      NoticeKeeps(p, v, v.EmitZero().log.last);
    }
  }

  lemma TickActiveKeeps(p: Policy, s: Loop, outcome: TickOutcome)
    requires Inv(p, s)
    ensures Inv(p, TickActive(s, outcome).next)
    ensures TickActive(s, outcome).command.Some? ==> IsRunning(TickActive(s, outcome).next.active)
  {
    hide Finalize, AfterTick, JudgeEvidence, CompareSpec, ComparisonPassed, TickController, Recover;
    if IsRunning(s.active) {
      var t := TickController(s.active.value, outcome, s.sensors);
      TickControllerFacts(s.active.value, outcome, s.sensors);
      var next := s.(active := Some(t.controller.(running := !t.result.halted)));
      assert Inv(p, next);
      if t.result.halted {
        RecoverKeeps(p, next);
      }
    }
  }

  lemma RejectKeeps(p: Policy, s: Loop, restoreActive: bool)
    requires LifecycleSynced(s) && SlotsTraced(s) && Justified(p, s.log)
    ensures Inv(p, Reject(s, restoreActive))
  {
    hide Finalize, AfterTick, JudgeEvidence, CompareSpec, ComparisonPassed;
  }

  lemma FailCandidateKeeps(p: Policy, s: Loop, fallback: bool)
    requires LifecycleSynced(s) && SlotsTraced(s) && Justified(p, s.log)
    ensures Inv(p, FailCandidate(s, fallback))
  {
    hide Finalize, AfterTick, JudgeEvidence, CompareSpec, ComparisonPassed, Reject;
    if fallback {
      RejectKeeps(p, s, true);
    } else {
      var t := s.(estop := true).Emit(EstopRaised);
      RejectKeeps(p, t, false);
      assert Inv(p, Reject(t, false).EmitZero());
    }
  }

  lemma ActuateKeeps(p: Policy, s: Loop, command: Option<Frame>)
    requires Inv(p, s)
    ensures Inv(p, Actuate(s, command))
  {
    hide Finalize, AfterTick, JudgeEvidence, CompareSpec, ComparisonPassed;
  }

  lemma TryPromoteKeeps(p: Policy, s: Loop, target: DeploymentState)
    requires Core(p, s) && s.candidate.Some? && s.requested && s.stage.Some?
    requires s.stage.value in {VerifiedOnly, Shadow, Canary} && p.NextTarget(s.stage.value) == Some(target)
    requires s.stage == Some(Shadow) ==> ShadowCount(s.log) == AtLeastOne(p.shadowTicks)
    requires s.stage == Some(Canary) ==> CanaryStreak(s.log) == AtLeastOne(p.canaryTicks) && SentOwnCommand(s.log)
    ensures Inv(p, TryPromote(s, ModeFor(s.stage.value), target))
  {
    hide Finalize, AfterTick, JudgeEvidence, CompareSpec, ComparisonPassed, Reject;
    var mode := ModeFor(s.stage.value);
    var r := SubmitStageEvidenceAndPromote(s, mode, target);
    if !r.accepted {
      RejectKeeps(p, r.next, s.active.Some?);
    } else {
      AcceptedIsJustified(p, s, target);
      EnterStageKeeps(p, s, r.next, target);
    }
  }

  lemma EnterStageKeeps(p: Policy, s: Loop, t: Loop, target: DeploymentState)
    requires Core(p, s) && s.candidate.Some? && s.requested && s.stage.Some? && target in {Shadow, Canary, Active}
    requires t == SubmitStageEvidenceAndPromote(s, ModeFor(s.stage.value), target).next
    requires SubmitStageEvidenceAndPromote(s, ModeFor(s.stage.value), target).accepted
    requires AcceptanceJustified(p, s.log, StageBundle(s.candidate.value, ModeFor(s.stage.value)), s.stage.value, target)
    requires s.lifecycle.stage == s.stage
    ensures Inv(p, EnterStage(t, target))
  {
    AcceptedState(s, t, target);
    hide SubmitStageEvidenceAndPromote, Finalize, AfterTick, JudgeEvidence, CompareSpec, ComparisonPassed, AcceptanceJustified;
    assert Justified(p, t.log);
    assert StageOf(t.log) == target && StageTicks(t.log) == [] && LastLoaded(t.log) == LastLoaded(s.log);
    assert SlotsTraced(t);
    if target == Active {
      PromoteKeeps(p, t);
    }
  }

  /** All that an accepted stage change does. */
  lemma AcceptedState(s: Loop, t: Loop, target: DeploymentState)
    requires s.candidate.Some? && s.stage.Some? && s.lifecycle.stage == s.stage
    requires t == SubmitStageEvidenceAndPromote(s, ModeFor(s.stage.value), target).next
    requires SubmitStageEvidenceAndPromote(s, ModeFor(s.stage.value), target).accepted
    ensures var c := s.candidate.value;
      t == s.(candidate := Some(c.(collector := NewCollector(c.artifact.controllerId, c.profile.channels))),
              lifecycle := s.lifecycle.(stage := Some(target), evidence := None),
              log := Snoc(s.log, StageAccepted(StageBundle(c, ModeFor(s.stage.value)), s.stage.value, target)))
  {
    hide Finalize, AfterTick, JudgeEvidence;
  }

  lemma PromoteKeeps(p: Policy, t: Loop)
    requires t.candidate.Some? && CandidateSynced(t) && SlotsTraced(t) && Justified(p, t.log) && t.requested
    requires t.log.Snoc? && t.log.last.StageAccepted? && StageOf(t.log) == Active
    requires t.lifecycle.stage == Some(Active) && t.lifecycle.current.Some?
    ensures Inv(p, PromoteCandidateToActive(t))
  {
    hide Finalize, AfterTick, JudgeEvidence, CompareSpec, ComparisonPassed, AcceptanceJustified;
  }

  lemma AcceptedIsJustified(p: Policy, s: Loop, target: DeploymentState)
    requires Core(p, s) && s.candidate.Some? && s.requested && s.stage.Some?
    requires s.stage.value in {VerifiedOnly, Shadow, Canary} && p.NextTarget(s.stage.value) == Some(target)
    requires s.stage == Some(Shadow) ==> ShadowCount(s.log) == AtLeastOne(p.shadowTicks)
    requires s.stage == Some(Canary) ==> CanaryStreak(s.log) == AtLeastOne(p.canaryTicks) && SentOwnCommand(s.log)
    requires SubmitStageEvidenceAndPromote(s, ModeFor(s.stage.value), target).accepted
    ensures AcceptanceJustified(p, s.log, StageBundle(s.candidate.value, ModeFor(s.stage.value)), s.stage.value, target)
    ensures s.lifecycle.stage == s.stage
  {
    hide AfterTick;
  }

  lemma AdvanceKeeps(p: Policy, s: Loop, counts: bool)
    requires Core(p, s) && s.candidate.Some? && !EndsInCanaryTick(s.log)
    requires s.stage == Some(Shadow) ==> s.shadowTicks + 1 == ShadowCount(s.log) <= AtLeastOne(p.shadowTicks)
    requires s.stage == Some(Canary) ==>
      && s.boundedTicks == ClampedCount(s.log) <= p.maxBoundedTicks
      && (counts ==> s.canaryTicks + 1 == CanaryStreak(s.log) <= AtLeastOne(p.canaryTicks) && SentOwnCommand(s.log))
      && (!counts ==> CanaryStreak(s.log) == 0)
    ensures Inv(p, AdvanceCandidateStage(p, s, counts))
  {
    hide Finalize, AfterTick, JudgeEvidence, CompareSpec, ComparisonPassed, TryPromote;
    if s.requested && s.stage.Some? && p.NextTarget(s.stage.value).Some? {
      var target := p.NextTarget(s.stage.value).value;
      match s.stage.value {
        case VerifiedOnly => TryPromoteKeeps(p, s, target);
        case Shadow =>
          var t := s.(shadowTicks := s.shadowTicks + 1);
          if t.shadowTicks >= p.ShadowTicksRequired() {
            TryPromoteKeeps(p, t, target);
          }
        case Canary =>
          var t := s.(canaryTicks := s.canaryTicks + 1);
          if counts && t.canaryTicks >= p.CanaryTicksRequired() {
            TryPromoteKeeps(p, t, target);
          }
        case _ =>
      }
    }
  }

  /** After a candidate tick is logged, everything but the counters still holds. */
  lemma LogTickKeepsCore(p: Policy, s: Loop, u: Loop, e: Event, boundedTicks: nat)
    requires Core(p, s) && s.candidate.Some? && u.candidate.Some?
    requires e.CandidateTick? && e.stage == s.stage
    requires e.active.Some? ==> e.activeRan
    requires InStage(s) ==> ComparisonPassed(p, e.activeRan, e.active, e.command, s.candidate.value.profile.spans)
    requires u == s.(candidate := u.candidate)
    requires u.candidate.value == s.candidate.value.(
               previous := u.candidate.value.previous,
               running := u.candidate.value.running,
               collector := AfterTick(s.candidate.value.collector, e.record))
    ensures Core(p, u.(boundedTicks := boundedTicks).Emit(e))
  {
    hide Finalize, AfterTick, JudgeEvidence, CompareSpec, ComparisonPassed;
    var ticks := StageTicks(s.log);
    assert (ticks + [e.record])[..|ticks|] == ticks;
  }

  /** The frame sent right after a canary tick is the blend of its two commands. */
  lemma SendBlendKeepsCore(p: Policy, t: Loop, frame: Frame)
    requires Core(p, t) && EndsInCanaryTick(t.log) && BlendedFrom(p, t.log, frame)
    ensures var v := Actuate(t, Some(frame));
      && Core(p, v) && !EndsInCanaryTick(v.log)
      && CanaryStreak(v.log) == CanaryStreak(t.log) && ClampedCount(v.log) == ClampedCount(t.log)
      && v == t.(lastWidth := v.lastWidth, log := Snoc(t.log, Sent(frame)))
  {
    hide Finalize, AfterTick, JudgeEvidence, CompareSpec, ComparisonPassed, BlendCommand;
  }

  lemma UnboundedIsOwnCommand(p: Policy, active: Option<Frame>, candidate: Frame, spans: seq<real>)
    ensures var b := BlendCommand(p, active, candidate, spans); !b.bounded ==> b.frame == candidate
  {
  }

  lemma CanaryTickKeeps(p: Policy, s: Loop, u: Loop, active: Option<Frame>, command: Frame, record: TickRecord)
    requires Inv(p, s) && s.candidate.Some? && u.candidate.Some? && s.stage == Some(Canary)
    requires ComparisonPassed(p, IsRunning(s.active), active, Some(command), s.candidate.value.profile.spans)
    requires active.Some? ==> IsRunning(s.active)
    requires u == s.(candidate := u.candidate)
    requires u.candidate.value == s.candidate.value.(
               previous := u.candidate.value.previous,
               running := u.candidate.value.running,
               collector := AfterTick(s.candidate.value.collector, record))
    ensures Inv(p, CanaryTick(p, u, active, command, record))
  {
    hide Finalize, AfterTick, JudgeEvidence, CompareSpec, ComparisonPassed, FailCandidate, AdvanceCandidateStage;
    hide BlendCommand, After, Justified, StageTicks, ShadowCount, StageOf, ActiveOf, RollbackOf;
    var b := BlendCommand(p, active, command, u.candidate.value.profile.spans);
    var bounded := u.boundedTicks + if b.bounded then 1 else 0;
    var e := CandidateTick(u.stage, record, IsRunning(u.active), active, Some(command), b.bounded);
    var t := u.(boundedTicks := bounded).Emit(e);
    LogTickKeepsCore(p, s, u, e, bounded);
    if b.bounded && t.boundedTicks > p.maxBoundedTicks {
      FailCandidateKeeps(p, t, IsRunning(u.active));
      ActuateKeeps(p, FailCandidate(t, IsRunning(u.active)), active);
    } else {
      UnboundedIsOwnCommand(p, active, command, u.candidate.value.profile.spans);
      SendBlendKeepsCore(p, t, b.frame);
      AdvanceKeeps(p, Actuate(t, Some(b.frame)), !b.bounded);
    }
  }

  lemma TickCandidateKeeps(p: Policy, s: Loop, active: Option<Frame>, outcome: TickOutcome)
    requires Inv(p, s) && (active.Some? ==> IsRunning(s.active))
    ensures Inv(p, TickCandidate(p, s, active, outcome))
  {
    hide Finalize, AfterTick, JudgeEvidence, CompareSpec, ComparisonPassed, FailCandidate, AdvanceCandidateStage;
    hide CanaryTick, TickController, RecordOf, Actuate;
    if !IsRunning(s.candidate) {
      ActuateKeeps(p, s, active);
      return;
    }
    var t := TickController(s.candidate.value, outcome, s.sensors);
    TickControllerFacts(s.candidate.value, outcome, s.sensors);
    var u := s.(candidate := Some(t.controller.(running := !t.result.halted)));
    if CandidateFails(p, s, active, t) {
      FailCandidateKeeps(p, u, IsRunning(s.active));
      ActuateKeeps(p, FailCandidate(u, IsRunning(s.active)), active);
    } else {
      TickOnlyUpdates(s.candidate.value, outcome, s.sensors);
      if InStage(s) {
        NotFailingPassed(p, s, active, t);
      }
      var record := RecordOf(s.candidate.value, outcome.values, outcome.micros, s.sensors);
      if s.stage == Some(Canary) {
        CanaryTickKeeps(p, s, u, active, t.result.command.value, record);
      } else {
        var e := CandidateTick(s.stage, record, IsRunning(s.active), active, t.result.command, false);
        LogTickKeepsCore(p, s, u, e, u.boundedTicks);
        ActuateKeepsCore(p, u.Emit(e), active);
        AdvanceKeeps(p, Actuate(u.Emit(e), active), true);
      }
    }
  }

  lemma NotFailingPassed(p: Policy, s: Loop, active: Option<Frame>, t: Ticked)
    requires !CandidateFails(p, s, active, t) && InStage(s)
    ensures ComparisonPassed(p, IsRunning(s.active), active, t.result.command, t.controller.profile.spans)
  {
    ComparisonIsCloseness(p, active, t.result.command.value, t.controller.profile.spans);
    hide CompareSpec, Close;
  }

  lemma ActuateKeepsCore(p: Policy, s: Loop, command: Option<Frame>)
    requires Core(p, s) && !EndsInCanaryTick(s.log)
    ensures var t := Actuate(s, command);
      && Core(p, t) && !EndsInCanaryTick(t.log) && ShadowCount(t.log) == ShadowCount(s.log)
      && t == s.(lastWidth := t.lastWidth, log := t.log)
  {
    hide Finalize, AfterTick, JudgeEvidence, CompareSpec, ComparisonPassed;
  }

  lemma TickOnlyUpdates(c: LoadedController, outcome: TickOutcome, sensors: Sensors)
    requires outcome.Returned?
    ensures var d := TickController(c, outcome, sensors).controller;
      d == c.(previous := d.previous, collector := AfterTick(c.collector, RecordOf(c, outcome.values, outcome.micros, sensors)))
  {
  }

  lemma RunTickKeeps(p: Policy, s: Loop, input: TickInput)
    requires Inv(p, s)
    ensures Inv(p, RunTick(p, s, input))
  {
    hide Finalize, AfterTick, JudgeEvidence, CompareSpec, ComparisonPassed, Drain, FireWatchdog, TickActive, TickCandidate;
    var d := Drain(p, s, input.emergency + input.commands);
    DrainKeeps(p, s, input.emergency + input.commands);
    var t := ReadSensors(d, input.sensor);
    assert Inv(p, t);
    if input.watchdogExpired && AnyRunning(t) {
      WatchdogKeeps(p, t);
    } else {
      TickActiveKeeps(p, t, input.activeOutcome);
      var a := TickActive(t, input.activeOutcome);
      TickCandidateKeeps(p, a.next, a.command, input.candidateOutcome);
    }
  }

  lemma {:induction false} RunKeeps(p: Policy, inputs: seq<TickInput>)
    ensures Inv(p, Run(p, INITIAL, inputs))
  {
    if inputs != [] {
      RunKeeps(p, inputs[..|inputs| - 1]);
      RunTickKeeps(p, Run(p, INITIAL, inputs[..|inputs| - 1]), inputs[|inputs| - 1]);
    }
  }

  // ------------------------------------------------------------------
  // What follows
  // ------------------------------------------------------------------

  /** The stages a controller must pass under this policy. */
  function PolicyPath(p: Policy): seq<DeploymentState> {
    [VerifiedOnly]
    + (if p.requireShadow then [Shadow] else [])
    + (if p.requireCanary || !p.requireShadow then [Canary] else [])
    + [Active]
  }

  lemma {:induction false} JustifiedPath(p: Policy, log: Log)
    requires Justified(p, log) && LastLoaded(log).Some?
    ensures match StageOf(log)
      case VerifiedOnly => Path(log) == [VerifiedOnly]
      case Shadow => p.requireShadow && Path(log) == [VerifiedOnly, Shadow]
      case Canary => Path(log) == PolicyPath(p)[..|PolicyPath(p)| - 1] && PolicyPath(p)[|PolicyPath(p)| - 2] == Canary
      case Active => Path(log) == PolicyPath(p)
      case _ => false
  {
    if !log.last.Loaded? {
      JustifiedPath(p, log.before);
    }
  }

  /** The history `h` certifies the controller loaded last: it went through exactly the
      policy's stages, each left on passing evidence of its own ticks in that stage, and
      the stages lasted as long as the policy demands. */
  predicate Certifies(p: Policy, h: Log, a: Artifact) {
    && LastLoaded(h).Some? && LastLoaded(h).value.artifact == a
    && a.PromotionEligible()
    && Path(h) == PolicyPath(p)
    && AcceptancesSinceLoad(p, h)
  }

  predicate AcceptancesSinceLoad(p: Policy, h: Log) {
    match h
    case Empty => true
    case Snoc(before, Loaded(_)) => true
    case Snoc(before, StageAccepted(bundle, from, to)) =>
      AcceptanceJustified(p, before, bundle, from, to) && AcceptancesSinceLoad(p, before)
    case Snoc(before, _) => AcceptancesSinceLoad(p, before)
  }

  lemma {:induction false} JustifiedAcceptances(p: Policy, h: Log)
    requires Justified(p, h)
    ensures AcceptancesSinceLoad(p, h)
  {
    hide AcceptanceJustified;
    if h.Snoc? {
      JustifiedAcceptances(p, h.before);
    }
  }

  lemma {:induction false} JustifiedPrefix(p: Policy, log: Log, prefix: Log)
    requires Justified(p, log) && Extends(log, prefix)
    ensures Justified(p, prefix)
  {
    if log != prefix {
      JustifiedPrefix(p, log.before, prefix);
    }
  }

  lemma PromotionCertified(p: Policy, h: Log, a: Artifact, displaced: Option<Artifact>)
    requires Justified(p, Snoc(h, Promoted(a, displaced)))
    ensures Certifies(p, h, a) && displaced == ArtifactOf(ActiveOf(h))
  {
    JustifiedPath(p, h);
    JustifiedAcceptances(p, h);
  }

  lemma {:induction false} TracedWasPromoted(log: Log)
    ensures ActiveOf(log).Some? ==> WasPromoted(log, ActiveOf(log).value)
    ensures RollbackOf(log).Some? ==> WasPromoted(log, RollbackOf(log).value)
  {
    if log.Snoc? {
      TracedWasPromoted(log.before);
    }
  }

  /** Each promotion rests on a history that certifies the controller, and displaces exactly the one that was active. */
  ghost predicate PromotionsCertified(p: Policy, log: Log) {
    forall h: Log, a: Artifact, displaced: Option<Artifact> {:trigger Extends(log, Snoc(h, Promoted(a, displaced)))} ::
      Extends(log, Snoc(h, Promoted(a, displaced))) ==> Certifies(p, h, a) && displaced == ArtifactOf(ActiveOf(h))
  }

  /** Each rollback replaces exactly the active controller by the one in the rollback slot. */
  ghost predicate RollbacksTraced(log: Log) {
    forall h: Log, failed: Artifact, slot: Artifact, reported: Artifact
      {:trigger Extends(log, Snoc(h, Restored(failed, slot, reported)))} ::
      Extends(log, Snoc(h, Restored(failed, slot, reported))) ==>
        ArtifactOf(ActiveOf(h)) == Some(failed) && ArtifactOf(RollbackOf(h)) == Some(slot)
  }

  lemma RollbackTraced(p: Policy, h: Log, failed: Artifact, slot: Artifact, reported: Artifact)
    requires Justified(p, Snoc(h, Restored(failed, slot, reported)))
    ensures ArtifactOf(ActiveOf(h)) == Some(failed) && ArtifactOf(RollbackOf(h)) == Some(slot)
  {
    hide ActiveOf, RollbackOf;
  }

  lemma JustifiedPromotions(p: Policy, log: Log)
    requires Justified(p, log)
    ensures PromotionsCertified(p, log)
  {
    hide Justified, Extends, ActiveOf, Certifies;
    forall h: Log, a: Artifact, displaced: Option<Artifact> | Extends(log, Snoc(h, Promoted(a, displaced)))
      ensures Certifies(p, h, a) && displaced == ArtifactOf(ActiveOf(h))
    {
      JustifiedPrefix(p, log, Snoc(h, Promoted(a, displaced)));
      PromotionCertified(p, h, a, displaced);
    }
  }

  lemma JustifiedRollbacks(p: Policy, log: Log)
    requires Justified(p, log)
    ensures RollbacksTraced(log)
  {
    hide Justified, Extends, ActiveOf, RollbackOf;
    forall h: Log, failed: Artifact, slot: Artifact, reported: Artifact
      | Extends(log, Snoc(h, Restored(failed, slot, reported)))
      ensures ArtifactOf(ActiveOf(h)) == Some(failed) && ArtifactOf(RollbackOf(h)) == Some(slot)
    {
      JustifiedPrefix(p, log, Snoc(h, Restored(failed, slot, reported)));
      RollbackTraced(p, h, failed, slot, reported);
    }
  }

  /** In every run, under every policy, whatever the commands: the active and the rollback slot
      hold exactly what the promotions and rollbacks so far say, every promotion was
      certified, and every rollback took the displaced controller back. So nothing enters
      the active slot on any other way, and whatever is in a slot was itself promoted earlier. */
  lemma ActiveOnlyByCertifiedRollout(p: Policy, inputs: seq<TickInput>)
    ensures var s := Run(p, INITIAL, inputs);
      && Occupant(s.active) == ActiveOf(s.log) && (s.active.Some? ==> WasPromoted(s.log, ActiveOf(s.log).value))
      && Occupant(s.rollback) == RollbackOf(s.log) && (s.rollback.Some? ==> WasPromoted(s.log, RollbackOf(s.log).value))
      && PromotionsCertified(p, s.log) && RollbacksTraced(s.log)
  {
    RunKeeps(p, inputs);
    var s := Run(p, INITIAL, inputs);
    TracedWasPromoted(s.log);
    JustifiedPromotions(p, s.log);
    JustifiedRollbacks(p, s.log);
  }

  /** Bumpless hand-over: whenever the canary stage leads to promotion, the candidate's
      last N ticks were all canary ticks without clamping, and the frame just sent is
      the candidate's own filtered command. */
  lemma CanaryPromotionIsBumpless(p: Policy, inputs: seq<TickInput>, h: Log, bundle: Bundle, to: DeploymentState)
    requires Extends(Run(p, INITIAL, inputs).log, Snoc(h, StageAccepted(bundle, Canary, to)))
    ensures to == Active && CanaryStreak(h) == AtLeastOne(p.canaryTicks) && SentOwnCommand(h)
  {
    RunKeeps(p, inputs);
    JustifiedPrefix(p, Run(p, INITIAL, inputs).log, Snoc(h, StageAccepted(bundle, Canary, to)));
  }

  /** The widest output recorded since the stage was entered has exactly the manifest's
      width, and no tick since then oscillated. */
  predicate StageCovered(h: Log) {
    && LastLoaded(h).Some?
    && (Distinct(LastLoaded(h).value.profile.channels) ==>
          Widest(StageTicks(h)) == |LastLoaded(h).value.profile.channels|)
    && forall t :: 0 < t < |StageTicks(h)| ==> !OscillatesAt(StageTicks(h), t)
  }

  lemma PassingEvidenceCovers(h: Log, mode: ExecutionMode)
    requires LastLoaded(h).Some? && EvidenceOf(h, mode).status == Complete
    ensures StageCovered(h)
  {
    var l := LastLoaded(h).value;
    SteadyWindow(l.artifact.controllerId, l.profile.channels, StageTicks(h));
    if Distinct(l.profile.channels) {
      CoverageGate(l.artifact.controllerId, l.profile.channels, StageTicks(h), l.artifact.key.digests, mode);
    }
    hide After, Select, SignChanges, Oscillates;
  }

  /** In every run a stage is left only with full coverage and without oscillation. */
  lemma AcceptedStageCoversManifest(
    p: Policy, inputs: seq<TickInput>, h: Log, bundle: Bundle, from: DeploymentState, to: DeploymentState)
    ensures Extends(Run(p, INITIAL, inputs).log, Snoc(h, StageAccepted(bundle, from, to))) ==> StageCovered(h)
  {
    if Extends(Run(p, INITIAL, inputs).log, Snoc(h, StageAccepted(bundle, from, to))) {
      RunKeeps(p, inputs);
      JustifiedPrefix(p, Run(p, INITIAL, inputs).log, Snoc(h, StageAccepted(bundle, from, to)));
      hide EvidenceOf, StageCovered, Run;
      PassingEvidenceCovers(h, ModeFor(from));
    }
  }

  /** In every run, a tick that counts towards a shadow or canary stage had a command; and if the
      active controller was running, so had it, of the same width, and on no channel were the
      two further apart than the policy's basis points of the span. */
  lemma StageTicksCompared(p: Policy, inputs: seq<TickInput>, h: Log, e: Event)
    requires Extends(Run(p, INITIAL, inputs).log, Snoc(h, e)) && e.CandidateTick? && e.stage in {Some(Shadow), Some(Canary)}
    ensures e.command.Some? && LastLoaded(h).Some?
    ensures var spans := LastLoaded(h).value.profile.spans;
      e.activeRan ==>
        && e.active.Some? && |e.active.value| == |e.command.value| <= |spans|
        && forall i :: 0 <= i < |e.command.value| ==>
             WithinBps(p.maxStageDeltaBps, e.active.value[i], e.command.value[i], spans[i])
  {
    RunKeeps(p, inputs);
    JustifiedPrefix(p, Run(p, INITIAL, inputs).log, Snoc(h, e));
    hide Run, Justified, Extends, WithinBps;
    JustifiedTick(p, h, e);
  }

  lemma JustifiedTick(p: Policy, h: Log, e: Event)
    requires Justified(p, Snoc(h, e)) && e.CandidateTick? && e.stage in {Some(Shadow), Some(Canary)}
    ensures LastLoaded(h).Some? && ComparisonPassed(p, e.activeRan, e.active, e.command, LastLoaded(h).value.profile.spans)
  {
    hide Close;
  }

  // ------------------------------------------------------------------
  // Arming twice
  // ------------------------------------------------------------------

  /** Evidence of one stage's mode does not lead out of another stage. */
  lemma WrongModeRefused(s: Loop, mode: ExecutionMode, target: DeploymentState)
    requires s.candidate.Some? && s.lifecycle.stage.Some? && s.lifecycle.current.Some? && mode != ModeFor(s.lifecycle.stage.value)
    ensures !SubmitStageEvidenceAndPromote(s, mode, target).accepted
  {
    hide AfterTick;
    var submitted := SubmitEvidence(s.lifecycle, StageBundle(s.candidate.value, mode));
    if submitted.result.Ok? {
      GateIsConjunction(submitted.next, s.candidate.value.artifact.key, target);
    }
  }

  predicate LetGo(s: Loop, t: Loop) {
    t.candidate.None? && t.stage.None? && !t.requested && Occupant(t.active) == Occupant(s.active)
  }

  lemma RejectDrops(s: Loop, restoreActive: bool)
    ensures LetGo(s, Reject(s, restoreActive))
  {
  }

  lemma FailDrops(s: Loop, fallback: bool)
    ensures LetGo(s, FailCandidate(s, fallback))
  {
    hide RestoreLastKnownGoodActive, RetireCurrent;
  }

  lemma RearmedAdvanceDrops(p: Policy, s: Loop)
    requires s.candidate.Some? && s.requested && s.stage == Some(VerifiedOnly) && p.NextTarget(VerifiedOnly).Some?
    requires s.lifecycle.stage in {Some(Shadow), Some(Canary)} && s.lifecycle.current.Some?
    ensures LetGo(s, AdvanceCandidateStage(p, s, true))
  {
    var target := p.NextTarget(VerifiedOnly).value;
    WrongModeRefused(s, Verify, target);
    hide SubmitEvidence, PromoteTo, StageBundle, Reject;
    var r := SubmitStageEvidenceAndPromote(s, Verify, target);
    RejectDrops(r.next, s.active.Some?);
  }

  lemma RearmedTickDrops(p: Policy, s: Loop, active: Option<Frame>, outcome: TickOutcome)
    requires IsRunning(s.candidate) && s.requested && s.stage == Some(VerifiedOnly) && p.NextTarget(VerifiedOnly).Some?
    requires s.lifecycle.stage in {Some(Shadow), Some(Canary)} && s.lifecycle.current.Some?
    ensures LetGo(s, TickCandidate(p, s, active, outcome))
  {
    hide TickController, RecordOf, FailCandidate, AdvanceCandidateStage, CandidateFails;
    var t := TickController(s.candidate.value, outcome, s.sensors);
    TickControllerFacts(s.candidate.value, outcome, s.sensors);
    var u := s.(candidate := Some(t.controller.(running := !t.result.halted)));
    if CandidateFails(p, s, active, t) {
      FailDrops(u, IsRunning(s.active));
    } else {
      NotFailing(p, s, active, t);
      var record := RecordOf(s.candidate.value, outcome.values, outcome.micros, s.sensors);
      var v := u.Emit(CandidateTick(s.stage, record, IsRunning(s.active), active, t.result.command, false));
      RearmedAdvanceDrops(p, Actuate(v, active));
    }
  }

  lemma RearmOpens(p: Policy, s: Loop, input: TickInput)
    requires Inv(p, s) && InStage(s) && input.emergency + input.commands == [PromoteActive]
    ensures Opening(p, s, input) == ReadSensors(s.(stage := Some(VerifiedOnly)), input.sensor)
    ensures p.AllowsRollout() && s.requested && s.lifecycle.stage == s.stage && s.lifecycle.current.Some?
  {
    hide Justified, After, ActiveOf, RollbackOf;
    assert [PromoteActive][..0] == [];
    assert Drain(p, s, [PromoteActive]) == Arm(p, s);
  }

  /** Asking for promotion a second time ends the rollout: in every run, PromoteActive sent while
      the candidate is in shadow or canary makes the loop judge it by the first stage's
      evidence, which the lifecycle refuses; the tick drops the candidate, and the active
      slot stays as it was. */
  lemma RearmingDropsCandidate(p: Policy, inputs: seq<TickInput>, input: TickInput)
    requires var s := Run(p, INITIAL, inputs);
      && InStage(s) && IsRunning(s.candidate) && input.emergency + input.commands == [PromoteActive]
      && !Stops(Opening(p, s, input), input)
    ensures LetGo(Run(p, INITIAL, inputs), RunTick(p, Run(p, INITIAL, inputs), input))
  {
    RunKeeps(p, inputs);
    var s := Run(p, INITIAL, inputs);
    RearmOpens(p, s, input);
    var t := Opening(p, s, input);
    ActiveGoesOn(t, input);
    hide Run, Inv, Drain, TickCandidate, TickActive, Stops;
    var a := TickActive(t, input.activeOutcome);
    RearmedTickDrops(p, a.next, a.command, input.candidateOutcome);
  }
}
