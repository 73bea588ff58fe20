/** The staged controller rollout (crates/roz-copper/src/controller.rs,
    `run_controller_loop_with_policy`) as a state machine over ticks.

    Commands, sensor frames, the watchdog's verdict and both controllers' outcomes
    are inputs. What the loop does (frames sent, e-stops raised, stage changes) is
    kept in order in a log, so that properties can speak about whole runs. */
module Rollout {
  import opened Floats
  import opened Deployment
  import opened Artifacts
  import opened Evidence
  import opened Lifecycle
  import opened Canary
  import opened Controller

  datatype Command = LoadPrepared(p: Prepared) | PromoteActive | Halt | Resume | UpdateParams

  datatype TickInput = TickInput(
    emergency: seq<Command>,
    commands: seq<Command>,
    sensor: Option<Sensors>,
    watchdogExpired: bool,
    activeOutcome: TickOutcome,
    candidateOutcome: TickOutcome)

  datatype Event =
    | Loaded(p: Prepared)
    /** The candidate ran in `stage`; `command` is its own filtered command, `activeRan`
        says whether the active controller is running on this tick and `active` is its command. */
    | CandidateTick(
        stage: Option<DeploymentState>, record: TickRecord,
        activeRan: bool, active: Option<Frame>, command: Option<Frame>, bounded: bool)
    | Sent(frame: Frame)
    | EstopRaised
    /** The lifecycle accepted a bundle and moved the candidate on. */
    | StageAccepted(bundle: Bundle, from: DeploymentState, to: DeploymentState)
    | CandidateRejected
    /** The candidate entered the active slot, displacing the active controller if there was one. */
    | Promoted(artifact: Artifact, displaced: Option<Artifact>)
    /** The active controller failed; `slot` runs again, and `reported` is what the lifecycle put back. */
    | Restored(failed: Artifact, slot: Artifact, reported: Artifact)
    | RestoreFailed

  /** Events in order, the newest last. */
  datatype Log = Empty | Snoc(before: Log, last: Event)

  /** `prefix` is the log at some earlier point of the same run. */
  predicate Extends(log: Log, prefix: Log) {
    log == prefix || (log.Snoc? && Extends(log.before, prefix))
  }

  datatype Loop = Loop(
    active: Option<LoadedController>,
    candidate: Option<LoadedController>,
    rollback: Option<LoadedController>,
    lifecycle: State,
    stage: Option<DeploymentState>,
    requested: bool,
    shadowTicks: nat,
    canaryTicks: nat,
    boundedTicks: nat,
    goodId: Option<string>,
    estop: bool,
    lastWidth: nat,
    sensors: Sensors,
    log: Log)
  {
    function Emit(e: Event): Loop {
      this.(log := Snoc(log, e))
    }

    /** The safe-stop frame: zero on at least six channels. */
    function EmitZero(): Loop {
      Emit(Sent(ZeroFrame(if lastWidth < 6 then 6 else lastWidth)))
    }
  }

  const INITIAL := Loop(None, None, None, EMPTY, None, false, 0, 0, 0, None, false, 0, Sensors([], [], None), Empty)

  function ZeroFrame(n: nat): Frame {
    seq(n, i => 0.0)
  }

  function SetRunning(slot: Option<LoadedController>, running: bool): Option<LoadedController> {
    if slot.Some? then Some(slot.value.(running := running)) else None
  }

  predicate IsRunning(slot: Option<LoadedController>) {
    slot.Some? && slot.value.running
  }

  function IdOf(a: Option<Artifact>): Option<string> {
    if a.Some? then Some(a.value.controllerId) else None
  }

  // ------------------------------------------------------------------
  // Commands, sensors and the watchdog
  // ------------------------------------------------------------------

  function Load(s: Loop, p: Prepared): Loop {
    var lifecycle := LoadArtifact(s.lifecycle, p.artifact);
    s.(candidate := Some(FromPrepared(p)), lifecycle := lifecycle, stage := lifecycle.stage,
       goodId := IdOf(lifecycle.lastKnownGood), requested := false)
     .Emit(Loaded(p))
  }

  function Arm(p: Policy, s: Loop): Loop {
    if p.AllowsRollout() && s.candidate.Some? && s.candidate.value.artifact.PromotionEligible()
    then s.(requested := true, stage := Some(VerifiedOnly))
    else s
  }

  function SetAllRunning(s: Loop, running: bool): Loop {
    s.(active := SetRunning(s.active, running),
       candidate := SetRunning(s.candidate, running),
       rollback := SetRunning(s.rollback, running))
  }

  function Process(p: Policy, s: Loop, cmd: Command): Loop {
    match cmd
    case LoadPrepared(prepared) => Load(s, prepared)
    case PromoteActive => Arm(p, s)
    case Halt => SetAllRunning(s, false)
    case Resume => SetAllRunning(s, true)
    case UpdateParams => s
  }

  function Drain(p: Policy, s: Loop, commands: seq<Command>): Loop {
    if commands == [] then s
    else Process(p, Drain(p, s, commands[..|commands| - 1]), commands[|commands| - 1])
  }

  lemma {:induction false} DrainConcat(p: Policy, s: Loop, a: seq<Command>, b: seq<Command>)
    ensures Drain(p, s, a + b) == Drain(p, Drain(p, s, a), b)
  {
    hide Process;
    if b == [] {
      assert a + b == a;
    } else {
      assert (a + b)[..|a + b| - 1] == a + b[..|b| - 1];
      DrainConcat(p, s, a, b[..|b| - 1]);
    }
  }

  function ReadSensors(s: Loop, sensor: Option<Sensors>): Loop {
    if sensor.Some? then s.(sensors := sensor.value) else s
  }

  predicate AnyRunning(s: Loop) {
    IsRunning(s.active) || IsRunning(s.candidate)
  }

  function FireWatchdog(s: Loop): Loop {
    s.(active := SetRunning(s.active, false), candidate := SetRunning(s.candidate, false), estop := true)
     .EmitZero().Emit(EstopRaised)
  }

  // ------------------------------------------------------------------
  // The active controller
  // ------------------------------------------------------------------

  /** The active controller has failed: the rollback slot takes over if the lifecycle
      can restore its last-known-good artifact; otherwise both are dropped and the
      e-stop is raised. */
  function Recover(s: Loop): Loop
    requires s.active.Some?
  {
    var restored := RestoreLastKnownGoodActive(s.lifecycle);
    if s.rollback.Some? && restored.result.Ok? then
      s.(active := SetRunning(s.rollback, true), rollback := None, lifecycle := restored.next,
         goodId := restored.result.value.restored, stage := None, requested := false,
         shadowTicks := 0, canaryTicks := 0, boundedTicks := 0, estop := false)
       .Emit(Restored(s.active.value.artifact, s.rollback.value.artifact, s.lifecycle.lastKnownGood.value))
       .EmitZero()
    else
      s.(active := None, rollback := None, candidate := SetRunning(s.candidate, false), estop := true)
       .Emit(RestoreFailed).Emit(EstopRaised).EmitZero()
  }

  datatype ActiveTick = ActiveTick(next: Loop, command: Option<Frame>)

  function TickActive(s: Loop, outcome: TickOutcome): ActiveTick {
    if !IsRunning(s.active) then ActiveTick(s, None)
    else
      var t := TickController(s.active.value, outcome, s.sensors);
      var next := s.(active := Some(t.controller.(running := !t.result.halted)));
      ActiveTick(if t.result.halted then Recover(next) else next, t.result.command)
  }

  // ------------------------------------------------------------------
  // The candidate
  // ------------------------------------------------------------------

  function Reject(s: Loop, restoreActive: bool): Loop {
    var retired := if restoreActive then RestoreLastKnownGoodActive(s.lifecycle) else RetireCurrent(s.lifecycle);
    s.(candidate := None, stage := None, requested := false, lifecycle := retired.next,
       goodId := if retired.result.Ok? && retired.result.value.restored.Some? then retired.result.value.restored else s.goodId)
     .Emit(CandidateRejected)
  }

  /** With an active controller to fall back on the candidate is dropped quietly;
      without one the e-stop is raised and a zero frame is sent. */
  function FailCandidate(s: Loop, fallback: bool): Loop {
    if fallback then Reject(s, true)
    else Reject(s.(estop := true).Emit(EstopRaised), false).EmitZero()
  }

  predicate InStage(s: Loop) {
    s.stage == Some(Shadow) || s.stage == Some(Canary)
  }

  /** The candidate halted, fell silent in a stage, cannot be compared with a running
      active controller, or diverged from it too far. */
  predicate CandidateFails(p: Policy, s: Loop, active: Option<Frame>, t: Ticked) {
    t.result.halted ||
    (InStage(s) &&
     (t.result.command.None? ||
      (IsRunning(s.active) &&
       match CompareSpec(active, t.result.command, t.controller.profile.spans)
       case Compared(_, normalized) => Above(normalized, p.MaxStageDelta())
       case NothingToCompare => false
       case Incomparable => true)))
  }

  lemma NotFailing(p: Policy, s: Loop, active: Option<Frame>, t: Ticked)
    requires !CandidateFails(p, s, active, t)
    ensures !t.result.halted && (InStage(s) ==> t.result.command.Some?)
  {
  }

  datatype Blend = Blend(frame: Frame, bounded: bool)

  /** The canary command; on a width mismatch the active command is used. */
  function BlendCommand(p: Policy, active: Option<Frame>, candidate: Frame, spans: seq<real>): Blend {
    match BoundCanaryCommand(active, candidate, spans, p.CanaryMaxDelta())
    case Some(frame) => Blend(frame, frame != candidate)
    case None => Blend(if active.Some? then active.value else candidate, true)
  }

  function Actuate(s: Loop, command: Option<Frame>): Loop {
    if command.None? then s else s.(lastWidth := |command.value|).Emit(Sent(command.value))
  }

  datatype Promotion = Promotion(next: Loop, accepted: bool)

  function JudgeEvidence(b: Bundle): Bundle {
    b.(status := if b.HasSafetyIssues() || b.HasUntouchedChannels() then Failed else Complete)
  }

  function StageBundle(c: LoadedController, mode: ExecutionMode): Bundle {
    JudgeEvidence(Finalize(c.collector, c.artifact.key.digests, mode))
  }

  /** Rotate the candidate's evidence, submit it and ask the lifecycle for the target stage. */
  function SubmitStageEvidenceAndPromote(s: Loop, mode: ExecutionMode, target: DeploymentState): Promotion
    requires s.candidate.Some?
  {
    var c := s.candidate.value;
    var bundle := StageBundle(c, mode);
    var rotated := s.(candidate := Some(c.(collector := NewCollector(c.artifact.controllerId, c.profile.channels))));
    var submitted := SubmitEvidence(s.lifecycle, bundle);
    if submitted.result.Err? then Promotion(rotated, false)
    else
      var promoted := PromoteTo(submitted.next, c.artifact.key, target);
      if promoted.result.Err? then Promotion(rotated.(lifecycle := promoted.next), false)
      else Promotion(
        rotated.(lifecycle := promoted.next).Emit(StageAccepted(bundle, promoted.result.value.from, promoted.result.value.to)),
        true)
  }

  function PromoteCandidateToActive(s: Loop): Loop
    requires s.candidate.Some?
  {
    s.(active := s.candidate, candidate := None,
       rollback := if s.active.Some? then SetRunning(s.active, false) else s.rollback,
       stage := None, requested := false, shadowTicks := 0, canaryTicks := 0, boundedTicks := 0,
       goodId := IdOf(s.lifecycle.lastKnownGood))
     .Emit(Promoted(s.candidate.value.artifact, if s.active.Some? then Some(s.active.value.artifact) else None))
  }

  function EnterStage(s: Loop, to: DeploymentState): Loop
    requires s.candidate.Some?
  {
    match to
    case Shadow => s.(stage := Some(to), shadowTicks := 0)
    case Canary => s.(stage := Some(to), canaryTicks := 0, boundedTicks := 0)
    case Active => PromoteCandidateToActive(s)
    case _ => s.(stage := Some(to))
  }

  function TryPromote(s: Loop, mode: ExecutionMode, target: DeploymentState): Loop
    requires s.candidate.Some?
  {
    var r := SubmitStageEvidenceAndPromote(s, mode, target);
    if r.accepted then EnterStage(r.next, target) else Reject(r.next, s.active.Some?)
  }

  /** One successful candidate tick's worth of progress. */
  function AdvanceCandidateStage(p: Policy, s: Loop, counts: bool): Loop
    requires s.candidate.Some?
  {
    if !s.requested || s.stage.None? then s
    else if p.NextTarget(s.stage.value).None? then s.(requested := false)
    else
      var target := p.NextTarget(s.stage.value).value;
      match s.stage.value
      case VerifiedOnly => TryPromote(s, Verify, target)
      case Shadow =>
        var t := s.(shadowTicks := s.shadowTicks + 1);
        if t.shadowTicks >= p.ShadowTicksRequired() then TryPromote(t, ShadowRun, target) else t
      case Canary =>
        if !counts then s.(canaryTicks := 0)
        else
          var t := s.(canaryTicks := s.canaryTicks + 1);
          if t.canaryTicks >= p.CanaryTicksRequired() then TryPromote(t, CanaryRun, target) else t
      case _ => s
  }

  /** The rest of a tick on which the candidate ran in canary without failing. */
  function CanaryTick(p: Policy, s: Loop, active: Option<Frame>, command: Frame, record: TickRecord): Loop
    requires s.candidate.Some?
  {
    var b := BlendCommand(p, active, command, s.candidate.value.profile.spans);
    var t := s.(boundedTicks := s.boundedTicks + if b.bounded then 1 else 0)
              .Emit(CandidateTick(s.stage, record, IsRunning(s.active), active, Some(command), b.bounded));
    if b.bounded && t.boundedTicks > p.maxBoundedTicks
    then Actuate(FailCandidate(t, IsRunning(s.active)), active)
    else AdvanceCandidateStage(p, Actuate(t, Some(b.frame)), !b.bounded)
  }

  /** The candidate's part of a tick, given the active controller's command. */
  function TickCandidate(p: Policy, s: Loop, active: Option<Frame>, outcome: TickOutcome): Loop {
    if !IsRunning(s.candidate) then Actuate(s, active)
    else
      var t := TickController(s.candidate.value, outcome, s.sensors);
      var u := s.(candidate := Some(t.controller.(running := !t.result.halted)));
      if CandidateFails(p, s, active, t) then Actuate(FailCandidate(u, IsRunning(s.active)), active)
      else
        var record := RecordOf(s.candidate.value, outcome.values, outcome.micros, s.sensors);
        if s.stage == Some(Canary) then CanaryTick(p, u, active, t.result.command.value, record)
        else
          var v := u.Emit(CandidateTick(s.stage, record, IsRunning(s.active), active, t.result.command, false));
          AdvanceCandidateStage(p, Actuate(v, active), true)
  }

  // ------------------------------------------------------------------
  // Whole ticks and runs
  // ------------------------------------------------------------------

  function TickControllers(p: Policy, s: Loop, input: TickInput): Loop {
    var a := TickActive(s, input.activeOutcome);
    TickCandidate(p, a.next, a.command, input.candidateOutcome)
  }

  function RunTick(p: Policy, s: Loop, input: TickInput): Loop {
    var t := ReadSensors(Drain(p, s, input.emergency + input.commands), input.sensor);
    if input.watchdogExpired && AnyRunning(t) then FireWatchdog(t) else TickControllers(p, t, input)
  }

  function Run(p: Policy, s: Loop, inputs: seq<TickInput>): Loop {
    if inputs == [] then s
    else RunTick(p, Run(p, s, inputs[..|inputs| - 1]), inputs[|inputs| - 1])
  }
}
