/** The rollout as a small stage machine: what becomes of a candidate on a tick, decided by the
    history and the two controllers' results alone, and that the loop does exactly that. */
module RolloutStages {
  import opened Floats
  import opened Deployment
  import opened Artifacts
  import opened Evidence
  import opened EvidenceProofs
  import opened Lifecycle
  import opened Canary
  import opened CanaryProofs
  import opened Controller
  import opened Rollout
  import opened RolloutFrames
  import opened RolloutPromotion
  import RolloutRollback

  /** What a tick does with a running candidate. */
  datatype Fate = Stays | MovesTo(stage: DeploymentState) | Drops

  /** The stage after `stage`, by the policy's two switches. */
  function Next(p: Policy, stage: DeploymentState): DeploymentState {
    match stage
    case VerifiedOnly => if p.requireShadow then Shadow else Canary
    case Shadow => if p.requireCanary then Canary else Active
    case _ => Active
  }

  /** This tick completes the stage. */
  predicate Completes(p: Policy, t: Loop, input: TickInput)
    requires Passes(p, t, input)
  {
    match t.stage
    case Some(VerifiedOnly) => true
    case Some(Shadow) => ShadowCount(t.log) + 1 == AtLeastOne(p.shadowTicks)
    case Some(Canary) => !ClampedTick(p, t, input) && CanaryStreak(t.log) + 1 == AtLeastOne(p.canaryTicks)
    case _ => false
  }

  /** The candidate's ticks in this stage, with the current one, are evidence enough. */
  predicate Convinces(t: Loop, input: TickInput)
    requires t.candidate.Some? && input.candidateOutcome.Returned?
  {
    CleanTicks(t.candidate.value.profile.channels, StageTicks(t.log) + [RecordAt(t, input)])
  }

  /** Failing, or one clamped tick too many, drops it. An armed candidate that completes its stage moves
      on if its evidence convinces and the lifecycle is in that stage, and is dropped otherwise. */
  function FateOf(p: Policy, t: Loop, input: TickInput): Fate
    requires input.candidateOutcome.Returned? || !Passes(p, t, input)
  {
    if !Passes(p, t, input) then Drops
    else if t.stage == Some(Canary) && ClampedTick(p, t, input) && ClampedCount(t.log) == p.maxBoundedTicks then Drops
    else if !t.requested || !Completes(p, t, input) then Stays
    else if t.lifecycle.stage == t.stage && Convinces(t, input) then MovesTo(Next(p, t.stage.value))
    else Drops
  }

  /** The slots, the stage and the lifecycle after a tick with this fate. */
  predicate Meets(t: Loop, u: Loop, fate: Fate) {
    match fate
    case Drops => RolloutRollback.Dropped(t, u)
    case Stays =>
      && Occupant(u.candidate) == Occupant(t.candidate) && u.stage == t.stage && u.requested == t.requested
      && Occupant(u.active) == Occupant(t.active) && Occupant(u.rollback) == Occupant(t.rollback) && u.lifecycle == t.lifecycle
    case MovesTo(Active) =>
      && u.candidate.None? && u.stage.None? && !u.requested
      && IsRunning(u.active) && Occupant(u.active) == Occupant(t.candidate)
      && Occupant(u.rollback) == (if t.active.Some? then Occupant(t.active) else Occupant(t.rollback))
      && u.lifecycle == t.lifecycle.(stage := Some(Active), evidence := None)
    case MovesTo(stage) =>
      && Occupant(u.candidate) == Occupant(t.candidate) && u.stage == Some(stage) && u.requested
      && Occupant(u.active) == Occupant(t.active) && Occupant(u.rollback) == Occupant(t.rollback)
      && u.lifecycle == t.lifecycle.(stage := Some(stage), evidence := None)
  }

  // ------------------------------------------------------------------
  // Leaving a stage
  // ------------------------------------------------------------------

  /** The evidence submitted is complete if and only if the ticks in the stage are clean. */
  lemma BundlePasses(p: Policy, s: Loop, mode: ExecutionMode)
    requires CandidateSynced(s) && s.candidate.Some?
    ensures var b := StageBundle(s.candidate.value, mode);
      && (b.status == Complete && !b.HasSafetyIssues() && !b.HasUntouchedChannels()
          <==> CleanTicks(s.candidate.value.profile.channels, StageTicks(s.log)))
      && b.controllerId == s.candidate.value.artifact.controllerId && b.mode == mode
      && b.digests == s.candidate.value.artifact.key.digests
  {
    var c := s.candidate.value;
    EvidencePassesIffClean(c.artifact.controllerId, c.profile.channels, StageTicks(s.log), c.artifact.key.digests, mode);
    CoverageIsWidth(c.artifact.controllerId, c.profile.channels, StageTicks(s.log));
    hide After, CleanTicks, Select, Covered, Widest, Range;
  }

  lemma SubmitExactly(p: Policy, s: Loop, target: DeploymentState)
    requires Core(p, s) && s.candidate.Some? && s.requested && p.NextTarget(s.stage.value) == Some(target)
    ensures SubmitStageEvidenceAndPromote(s, ModeFor(s.stage.value), target).accepted <==>
      s.lifecycle.stage == s.stage && CleanTicks(s.candidate.value.profile.channels, StageTicks(s.log))
  {
    var mode := ModeFor(s.stage.value);
    BundlePasses(p, s, mode);
    hide StageBundle, CleanTicks, GateError, Justified, After, StageTicks, CandidateSynced, SlotsTraced;
    var b := StageBundle(s.candidate.value, mode);
    var submitted := SubmitEvidence(s.lifecycle, b);
    if submitted.result.Ok? {
      GateIsConjunction(submitted.next, s.candidate.value.artifact.key, target);
    }
  }

  lemma NextIsTarget(p: Policy, stage: DeploymentState)
    requires p.AllowsRollout() && stage in {VerifiedOnly, Shadow, Canary}
    ensures p.NextTarget(stage) == Some(Next(p, stage)) && Next(p, stage) in {Shadow, Canary, Active}
  {
  }

  lemma TryPromoteExactly(p: Policy, s: Loop)
    requires Core(p, s) && s.candidate.Some? && s.candidate.value.running && s.requested
    ensures var target := Next(p, s.stage.value);
      var t := TryPromote(s, ModeFor(s.stage.value), target);
      Meets(s, t, if s.lifecycle.stage == s.stage && CleanTicks(s.candidate.value.profile.channels, StageTicks(s.log))
                  then MovesTo(target) else Drops)
  {
    var mode, target := ModeFor(s.stage.value), Next(p, s.stage.value);
    AuthorityKnown(p, s);
    NextIsTarget(p, s.stage.value);
    SubmitExactly(p, s, target);
    RolloutRollback.SubmitKeepsSlots(s, mode, target);
    hide SubmitStageEvidenceAndPromote, CleanTicks, Core, Reject, EnterStage, Next, ModeFor;
    var r := SubmitStageEvidenceAndPromote(s, mode, target);
    if r.accepted {
      AcceptedState(s, r.next, target);
      EnteredExactly(s, r.next, target);
    } else {
      RefusedExactly(s, r.next, s.active.Some?);
    }
  }

  lemma AuthorityKnown(p: Policy, s: Loop)
    requires Core(p, s) && s.requested
    ensures p.AllowsRollout() && s.stage in {Some(VerifiedOnly), Some(Shadow), Some(Canary)}
  {
    hide Justified, After;
  }

  lemma EnteredExactly(s: Loop, t: Loop, target: DeploymentState)
    requires s.candidate.Some? && s.candidate.value.running && s.requested && t.candidate.Some? && target in {Shadow, Canary, Active}
    requires t == s.(candidate := t.candidate, lifecycle := s.lifecycle.(stage := Some(target), evidence := None), log := t.log)
    requires t.candidate.value == s.candidate.value.(collector := t.candidate.value.collector)
    ensures Meets(s, EnterStage(t, target), MovesTo(target))
  {
  }

  lemma RefusedExactly(s: Loop, t: Loop, restoreActive: bool)
    requires s.candidate.Some? && RolloutRollback.Promotions(t.log) == RolloutRollback.Promotions(s.log)
    ensures Meets(s, Reject(t, restoreActive), Drops)
  {
    hide RestoreLastKnownGoodActive, RetireCurrent;
  }

  // ------------------------------------------------------------------
  // The candidate's part of a tick
  // ------------------------------------------------------------------

  /** The same as far as the stage machine is concerned. */
  predicate SameStanding(t: Loop, v: Loop) {
    && t.candidate.Some? && v.candidate.Some? && Occupant(v.candidate) == Occupant(t.candidate)
    && Occupant(v.active) == Occupant(t.active) && Occupant(v.rollback) == Occupant(t.rollback)
    && v.stage == t.stage && v.requested == t.requested && v.lifecycle == t.lifecycle
    && RolloutRollback.Promotions(v.log) == RolloutRollback.Promotions(t.log)
  }

  lemma MeetsFrom(t: Loop, v: Loop, u: Loop, fate: Fate)
    requires SameStanding(t, v) && Meets(v, u, fate)
    ensures Meets(t, u, fate)
  {
  }

  lemma StandingStays(t: Loop, v: Loop)
    requires SameStanding(t, v)
    ensures Meets(t, v, Stays)
  {
  }

  /** What a stage that is, or is not yet, complete leads to. */
  function Outcome(p: Policy, s: Loop, ticks: seq<TickRecord>, done: bool): Fate
    requires s.candidate.Some?
  {
    if !s.requested || s.stage.None? || !done then Stays
    else if s.lifecycle.stage == s.stage && CleanTicks(s.candidate.value.profile.channels, ticks)
    then MovesTo(Next(p, s.stage.value)) else Drops
  }

  /** The counters and `done` agree about whether the stage is complete. */
  predicate CountsTo(p: Policy, s: Loop, counts: bool, done: bool) {
    match s.stage
    case Some(Shadow) => s.shadowTicks + 1 <= AtLeastOne(p.shadowTicks) && done == (s.shadowTicks + 1 == AtLeastOne(p.shadowTicks))
    case Some(Canary) =>
      && s.canaryTicks + 1 <= AtLeastOne(p.canaryTicks)
      && done == (counts && s.canaryTicks + 1 == AtLeastOne(p.canaryTicks))
    case Some(VerifiedOnly) => done
    case _ => true
  }

  lemma AdvanceWaits(p: Policy, s: Loop, counts: bool)
    requires Core(p, s) && s.candidate.Some? && CountsTo(p, s, counts, false)
    ensures SameStanding(s, AdvanceCandidateStage(p, s, counts))
  {
    hide TryPromote, Justified, After, CandidateSynced, SlotsTraced, LifecycleSynced;
  }

  lemma AdvanceTries(p: Policy, s: Loop, counts: bool)
    requires Core(p, s) && s.candidate.Some? && s.requested && CountsTo(p, s, counts, true)
    ensures var t := AdvanceTried(s);
      Core(p, t) && SameStanding(s, t) && t.candidate == s.candidate && t.log == s.log
      && AdvanceCandidateStage(p, s, counts) == TryPromote(t, ModeFor(s.stage.value), Next(p, s.stage.value))
  {
    NextIsTarget(p, s.stage.value);
    CounterKeepsCore(p, s, AdvanceTried(s));
    hide TryPromote, Justified, After, CandidateSynced, SlotsTraced, LifecycleSynced;
  }

  /** The counter moves on before the evidence is submitted. */
  function AdvanceTried(s: Loop): Loop {
    match s.stage
    case Some(Shadow) => s.(shadowTicks := s.shadowTicks + 1)
    case Some(Canary) => s.(canaryTicks := s.canaryTicks + 1)
    case _ => s
  }

  /** One tick's worth of progress, with the tick already in the log. */
  lemma AdvanceExactly(p: Policy, s: Loop, counts: bool, done: bool)
    requires Core(p, s) && s.candidate.Some? && s.candidate.value.running && CountsTo(p, s, counts, done)
    ensures Meets(s, AdvanceCandidateStage(p, s, counts), Outcome(p, s, StageTicks(s.log), done))
  {
    if !s.requested || s.stage.None? {
      return;
    }
    if done {
      AdvanceTries(p, s, counts);
      var t := AdvanceTried(s);
      hide Core, CountsTo, AdvanceCandidateStage, TryPromote, CleanTicks, Next, Meets;
      StageKnown(p, s);
      TryPromoteExactly(p, t);
      MeetsFrom(s, t, AdvanceCandidateStage(p, s, counts), Outcome(p, s, StageTicks(s.log), done));
    } else {
      AdvanceWaits(p, s, counts);
      hide Core, AdvanceCandidateStage;
      StandingStays(s, AdvanceCandidateStage(p, s, counts));
    }
  }

  lemma StageKnown(p: Policy, s: Loop)
    requires Core(p, s)
    ensures s.stage in {None, Some(VerifiedOnly), Some(Shadow), Some(Canary)}
  {
    hide Justified, After;
  }

  lemma CounterKeepsCore(p: Policy, s: Loop, t: Loop)
    requires Core(p, s) && t == s.(shadowTicks := t.shadowTicks, canaryTicks := t.canaryTicks)
    ensures Core(p, t)
  {
    hide Justified, After;
  }

  /** The event that records the candidate's tick. */
  function EventOf(t: Loop, input: TickInput, clamped: bool): Rollout.Event
    requires t.candidate.Some? && input.candidateOutcome.Returned?
  {
    CandidateTick(t.stage, RecordAt(t, input), IsRunning(t.active), ActiveResult(t, input).command,
                  CandidateResult(t, input).command, clamped)
  }

  /** Recording the tick and sending the frame change nothing the stage machine looks at but the ticks. */
  lemma TickIsLogged(p: Policy, t: Loop, s: Loop, input: TickInput, clamped: bool, bounded: nat)
    requires Inv(p, s) && Beside(t, s) && Occupant(s.active) == Occupant(t.active) && Passes(p, t, input)
    requires input.candidateOutcome.Returned?
    ensures var v := Ticking(t, s, input).(boundedTicks := bounded).Emit(EventOf(t, input, clamped));
      && Core(p, v) && SameStanding(t, v) && IsRunning(v.candidate)
      && StageTicks(v.log) == StageTicks(t.log) + [RecordAt(t, input)]
  {
    var u := Ticking(t, s, input);
    var e := EventOf(t, input, clamped);
    TickControllerFacts(t.candidate.value, input.candidateOutcome, t.sensors);
    TickOnlyUpdates(t.candidate.value, input.candidateOutcome, t.sensors);
    SilentUnlessRunning(t, input);
    hide TickController, AfterTick, Close, ActiveResult, Justified;
    LogTickKeepsCore(p, s, u, e, bounded);
    hide Core;
    assert RolloutRollback.Promotions(Snoc(s.log, e)) == RolloutRollback.Promotions(s.log);
  }

  lemma SentIsSame(p: Policy, v: Loop, command: Option<Frame>)
    requires Core(p, v) && v.candidate.Some?
    requires !EndsInCanaryTick(v.log) || (command.Some? && BlendedFrom(p, v.log, command.value))
    ensures var w := Actuate(v, command);
      && Core(p, w) && SameStanding(v, w) && w.candidate == v.candidate && StageTicks(w.log) == StageTicks(v.log)
      && w.shadowTicks == v.shadowTicks && w.canaryTicks == v.canaryTicks && w.boundedTicks == v.boundedTicks
  {
    if command.Some? && EndsInCanaryTick(v.log) {
      SendBlendKeepsCore(p, v, command.value);
    } else {
      ActuateKeepsCore(p, v, command);
    }
    hide Core, BlendCommand;
  }

  lemma StandingTrans(t: Loop, v: Loop, w: Loop)
    requires SameStanding(t, v) && SameStanding(v, w)
    ensures SameStanding(t, w)
  {
  }

  /** Outside canary. */
  lemma PassingExactly(p: Policy, t: Loop, s: Loop, input: TickInput)
    requires Inv(p, t) && Inv(p, s) && Beside(t, s) && Occupant(s.active) == Occupant(t.active) && Passes(p, t, input)
    requires t.stage != Some(Canary) && input.candidateOutcome.Returned?
    ensures Meets(t, TickCandidate(p, s, ActiveResult(t, input).command, input.candidateOutcome), FateOf(p, t, input))
  {
    var active := ActiveResult(t, input).command;
    hide Close, ActiveResult, TickController, TickCandidate, AdvanceCandidateStage, Actuate, RecordAt, Core, StageTicks, SameStanding;
    PassingTick(p, t, s, input);
    TickIsLogged(p, t, s, input, false, s.boundedTicks);
    var v := Ticking(t, s, input).Emit(EventOf(t, input, false));
    SentIsSame(p, v, active);
    var w := Actuate(v, active);
    var done := Completes(p, t, input);
    StandingTrans(t, v, w);
    FateOfPassing(p, t, input);
    hide CleanTicks, Meets, FateOf, Outcome;
    AdvancesFrom(p, t, w, true, done);
  }

  lemma AdvancesFrom(p: Policy, t: Loop, w: Loop, counts: bool, done: bool)
    requires Core(p, w) && SameStanding(t, w) && w.candidate.value.running && CountsTo(p, w, counts, done)
    ensures Meets(t, AdvanceCandidateStage(p, w, counts), Outcome(p, t, StageTicks(w.log), done))
  {
    hide Core, CleanTicks, StageTicks, AdvanceCandidateStage, CountsTo, Meets;
    AdvanceExactly(p, w, counts, done);
    MeetsFrom(t, w, AdvanceCandidateStage(p, w, counts), Outcome(p, t, StageTicks(w.log), done));
  }

  /** What passing leads to. */
  lemma FateOfPassing(p: Policy, t: Loop, input: TickInput)
    requires Passes(p, t, input) && input.candidateOutcome.Returned?
    ensures FateOf(p, t, input)
         == if t.stage == Some(Canary) && ClampedTick(p, t, input) && ClampedCount(t.log) == p.maxBoundedTicks then Drops
            else Outcome(p, t, StageTicks(t.log) + [RecordAt(t, input)], Completes(p, t, input))
  {
    hide Passes, ClampedTick, CleanTicks, RecordAt;
  }

  /** A canary tick with the record in the log, before anything is sent. */
  function CanaryLogged(p: Policy, t: Loop, s: Loop, input: TickInput): Loop
    requires Passes(p, t, input) && t.stage == Some(Canary) && input.candidateOutcome.Returned?
  {
    var clamped := ClampedTick(p, t, input);
    Ticking(t, s, input).(boundedTicks := s.boundedTicks + if clamped then 1 else 0).Emit(EventOf(t, input, clamped))
  }

  lemma CanaryTickUnfolds(p: Policy, s: Loop, active: Option<Frame>, command: Frame, record: TickRecord, b: Blend)
    requires s.candidate.Some? && b == BlendCommand(p, active, command, s.candidate.value.profile.spans)
    ensures var v := s.(boundedTicks := s.boundedTicks + if b.bounded then 1 else 0)
                      .Emit(CandidateTick(s.stage, record, IsRunning(s.active), active, Some(command), b.bounded));
      CanaryTick(p, s, active, command, record)
      == if b.bounded && s.boundedTicks + 1 > p.maxBoundedTicks
         then Actuate(FailCandidate(v, IsRunning(s.active)), active)
         else AdvanceCandidateStage(p, Actuate(v, Some(b.frame)), !b.bounded)
  {
    hide BlendCommand, FailCandidate, Actuate, AdvanceCandidateStage;
  }

  lemma CanaryUnfolds(p: Policy, t: Loop, s: Loop, input: TickInput)
    requires Beside(t, s) && Passes(p, t, input) && t.stage == Some(Canary)
    ensures input.candidateOutcome.Returned?
    ensures var v := CanaryLogged(p, t, s, input);
      var active := ActiveResult(t, input).command;
      TickCandidate(p, s, active, input.candidateOutcome)
      == if ClampedTick(p, t, input) && s.boundedTicks + 1 > p.maxBoundedTicks
         then Actuate(FailCandidate(v, IsRunning(t.active)), active)
         else AdvanceCandidateStage(p, Actuate(v, Some(BlendOf(p, t, input).frame)), !ClampedTick(p, t, input))
  {
    hide ActiveResult, TickController, TickCandidate, AdvanceCandidateStage, FailCandidate, Actuate, RecordAt, BlendCommand, CanaryTick;
    hide Clamped, Close, CandidateResult;
    PassingTick(p, t, s, input);
    BoundedIfClamped(p, t, input);
    TickKeepsSpans(t, input);
    CanaryTickUnfolds(p, Ticking(t, s, input), ActiveResult(t, input).command, CandidateResult(t, input).command.value,
                      RecordAt(t, input), BlendOf(p, t, input));
  }

  lemma TickKeepsSpans(t: Loop, input: TickInput)
    requires t.candidate.Some?
    ensures TickController(t.candidate.value, input.candidateOutcome, t.sensors).controller.profile == t.candidate.value.profile
  {
    TickControllerFacts(t.candidate.value, input.candidateOutcome, t.sensors);
  }

  lemma CanaryBlended(p: Policy, t: Loop, s: Loop, input: TickInput)
    requires Inv(p, s) && Beside(t, s) && Passes(p, t, input) && t.stage == Some(Canary) && input.candidateOutcome.Returned?
    ensures var v := CanaryLogged(p, t, s, input); EndsInCanaryTick(v.log) && BlendedFrom(p, v.log, BlendOf(p, t, input).frame)
  {
    BoundedIfClamped(p, t, input);
    hide ActiveResult, TickController, RecordAt, BlendCommand, Clamped, Close, Justified, After;
  }

  /** In canary. */
  lemma CanaryExactly(p: Policy, t: Loop, s: Loop, input: TickInput)
    requires Inv(p, t) && Inv(p, s) && Beside(t, s) && Occupant(s.active) == Occupant(t.active) && Passes(p, t, input)
    requires t.stage == Some(Canary) && input.candidateOutcome.Returned?
    ensures Meets(t, TickCandidate(p, s, ActiveResult(t, input).command, input.candidateOutcome), FateOf(p, t, input))
  {
    CanaryCounts(p, t, s, input);
    hide ActiveResult, TickController, TickCandidate, AdvanceCandidateStage, FailCandidate, Actuate, RecordAt;
    hide BlendOf, ClampedTick, Passes;
    hide Inv, Core, StageTicks, CleanTicks, Meets, SameStanding, FateOf, Outcome, Completes, CountsTo, CanaryLogged, BlendedFrom;
    CanaryUnfolds(p, t, s, input);
    CanaryBlended(p, t, s, input);
    CanaryStanding(p, t, s, input);
    FateOfPassing(p, t, input);
    var active := ActiveResult(t, input).command;
    var v := CanaryLogged(p, t, s, input);
    if ClampedTick(p, t, input) && s.boundedTicks + 1 > p.maxBoundedTicks {
      DroppedByFailing(t, v, IsRunning(t.active), active);
    } else {
      var frame := BlendOf(p, t, input).frame;
      SentIsSame(p, v, Some(frame));
      StandingTrans(t, v, Actuate(v, Some(frame)));
      CountsToSame(p, v, Actuate(v, Some(frame)), !ClampedTick(p, t, input), Completes(p, t, input));
      AdvancesFrom(p, t, Actuate(v, Some(frame)), !ClampedTick(p, t, input), Completes(p, t, input));
    }
  }

  lemma CountsToSame(p: Policy, v: Loop, w: Loop, counts: bool, done: bool)
    requires CountsTo(p, v, counts, done) && w.stage == v.stage && w.shadowTicks == v.shadowTicks && w.canaryTicks == v.canaryTicks
    ensures CountsTo(p, w, counts, done)
  {
  }

  lemma CanaryCounts(p: Policy, t: Loop, s: Loop, input: TickInput)
    requires Inv(p, t) && Inv(p, s) && Beside(t, s) && Passes(p, t, input) && t.stage == Some(Canary)
    requires input.candidateOutcome.Returned?
    ensures CountsTo(p, CanaryLogged(p, t, s, input), !ClampedTick(p, t, input), Completes(p, t, input))
    ensures s.boundedTicks + 1 > p.maxBoundedTicks <==> ClampedCount(t.log) == p.maxBoundedTicks
  {
    hide Core, Passes, ClampedTick, TickController, ActiveResult, RecordAt;
  }

  lemma CanaryStanding(p: Policy, t: Loop, s: Loop, input: TickInput)
    requires Inv(p, s) && Beside(t, s) && Occupant(s.active) == Occupant(t.active) && Passes(p, t, input) && t.stage == Some(Canary)
    requires input.candidateOutcome.Returned?
    ensures var v := CanaryLogged(p, t, s, input);
      && Core(p, v) && SameStanding(t, v) && IsRunning(v.candidate)
      && StageTicks(v.log) == StageTicks(t.log) + [RecordAt(t, input)]
  {
    hide ActiveResult, TickController, RecordAt, ClampedTick, Inv, Core, StageTicks, Close, SameStanding;
    TickIsLogged(p, t, s, input, ClampedTick(p, t, input), s.boundedTicks + if ClampedTick(p, t, input) then 1 else 0);
  }

  lemma DroppedByFailing(t: Loop, v: Loop, fallback: bool, command: Option<Frame>)
    requires SameStanding(t, v)
    ensures Meets(t, Actuate(FailCandidate(v, fallback), command), Drops)
  {
    hide RestoreLastKnownGoodActive, RetireCurrent;
    assert RolloutRollback.Promotions(Snoc(v.log, EstopRaised)) == RolloutRollback.Promotions(v.log);
    assert RolloutRollback.Promotions(FailCandidate(v, fallback).log) == RolloutRollback.Promotions(v.log);
  }

  lemma FailingExactly(p: Policy, t: Loop, s: Loop, input: TickInput)
    requires Beside(t, s) && IsRunning(t.candidate) && !Passes(p, t, input) && Occupant(s.active) == Occupant(t.active)
    ensures Meets(t, TickCandidate(p, s, ActiveResult(t, input).command, input.candidateOutcome), Drops)
  {
    var active := ActiveResult(t, input).command;
    var c := TickController(t.candidate.value, input.candidateOutcome, t.sensors);
    TickControllerFacts(t.candidate.value, input.candidateOutcome, t.sensors);
    PassesUnlessFails(p, t, input);
    SameChecks(p, t, s, active, c);
    hide TickController, FailCandidate, CandidateFails, Passes, Actuate, ActiveResult;
    DroppedByFailing(t, s.(candidate := Some(c.controller.(running := !c.result.halted))), IsRunning(s.active), active);
  }

  // ------------------------------------------------------------------
  // Every tick of every run
  // ------------------------------------------------------------------

  /** From every reachable state, on every tick on which a candidate runs and nothing stops the robot:
      whether it stays, moves to the next stage, becomes active or is dropped, and what
      the slots, the stage variable and the lifecycle are then, is exactly as the stage
      machine says. In particular a failing or diverging candidate is dropped at once, a
      stage lasts exactly as long as the policy demands, clean evidence is never refused, and
      other evidence is never accepted. */
  lemma {:induction false} LoopIsStageMachine(p: Policy, history: seq<TickInput>, input: TickInput)
    requires var t := Opening(p, Run(p, INITIAL, history), input); IsRunning(t.candidate) && !Stops(t, input)
    ensures var s := Run(p, INITIAL, history);
      var t := Opening(p, s, input);
      && (Passes(p, t, input) ==> input.candidateOutcome.Returned?)
      && Meets(t, RunTick(p, s, input), FateOf(p, t, input))
  {
    var s := Run(p, INITIAL, history);
    RunKeeps(p, history);
    DrainKeeps(p, s, input.emergency + input.commands);
    hide Run, Drain, TickActive, TickCandidate, Justified, After, TickController;
    var t := Opening(p, s, input);
    assert Inv(p, t);
    ActiveGoesOn(t, input);
    TickActiveKeeps(p, t, input.activeOutcome);
    var a := TickActive(t, input.activeOutcome);
    hide Inv, Passes, FateOf, Meets, ActiveResult;
    if !Passes(p, t, input) {
      FailingExactly(p, t, a.next, input);
      NotPassingDrops(p, t, input);
    } else if t.stage == Some(Canary) {
      PassingReturns(p, t, input);
      CanaryExactly(p, t, a.next, input);
    } else {
      PassingReturns(p, t, input);
      PassingExactly(p, t, a.next, input);
    }
  }

  lemma PassingReturns(p: Policy, t: Loop, input: TickInput)
    requires Passes(p, t, input)
    ensures input.candidateOutcome.Returned?
  {
    TickControllerFacts(t.candidate.value, input.candidateOutcome, t.sensors);
    hide TickController, ActiveResult, Close;
  }

  lemma NotPassingDrops(p: Policy, t: Loop, input: TickInput)
    requires !Passes(p, t, input)
    ensures FateOf(p, t, input) == Drops
  {
    hide Passes;
  }

  /** Both controllers run and have commands that differ on channel `i`, with a positive span, by more than the policy allows. */
  predicate Diverges(p: Policy, t: Loop, input: TickInput, i: nat) {
    && t.stage in {Some(Shadow), Some(Canary)} && IsRunning(t.candidate) && IsRunning(t.active)
    && ActiveResult(t, input).command.Some? && CandidateResult(t, input).command.Some?
    && var a, c := ActiveResult(t, input).command.value, CandidateResult(t, input).command.value;
       var spans := t.candidate.value.profile.spans;
       i < |a| && i < |c| && i < |spans| && spans[i] > 0.0 && !WithinBps(p.maxStageDeltaBps, a[i], c[i], spans[i])
  }

  lemma DivergingFails(p: Policy, t: Loop, input: TickInput, i: nat)
    requires Diverges(p, t, input, i)
    ensures IsRunning(t.candidate) && FateOf(p, t, input) == Drops
  {
    hide TickController, ActiveResult, CandidateResult, WithinBps;
  }

  /** A larger difference than the policy allows, on one channel with a positive span, drops a shadow or
      canary candidate on that very tick. */
  lemma {:induction false} DivergenceDrops(p: Policy, history: seq<TickInput>, input: TickInput, i: nat)
    requires var t := Opening(p, Run(p, INITIAL, history), input); Diverges(p, t, input, i) && !Stops(t, input)
    ensures var s := Run(p, INITIAL, history); RolloutRollback.Dropped(Opening(p, s, input), RunTick(p, s, input))
  {
    hide Run, RunTick, Opening, Diverges, Stops, FateOf, Passes;
    DivergingFails(p, Opening(p, Run(p, INITIAL, history), input), input, i);
    LoopIsStageMachine(p, history, input);
  }
}
