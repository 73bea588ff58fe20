/** Rolling back a failed active controller, and when the controller slots and the
    lifecycle agree about what was restored. */
module RolloutRollback {
  import opened Floats
  import opened Deployment
  import opened Artifacts
  import opened Evidence
  import opened Lifecycle
  import opened Canary
  import opened CanaryProofs
  import opened Controller
  import opened Rollout
  import opened RolloutFrames
  import RolloutPromotion

  // ------------------------------------------------------------------
  // Reading a log
  // ------------------------------------------------------------------

  function Restores(log: Log): nat {
    match log
    case Empty => 0
    case Snoc(before, Restored(_, _, _)) => Restores(before) + 1
    case Snoc(before, _) => Restores(before)
  }

  /** Promotions that displaced an active controller. */
  function Displacements(log: Log): nat {
    match log
    case Empty => 0
    case Snoc(before, Promoted(_, displaced)) => Displacements(before) + if displaced.Some? then 1 else 0
    case Snoc(before, _) => Displacements(before)
  }

  /** Something was loaded after the last promotion. */
  predicate LoadedSincePromotion(log: Log) {
    match log
    case Empty => false
    case Snoc(before, Loaded(_)) => true
    case Snoc(before, Promoted(_, _)) => false
    case Snoc(before, _) => LoadedSincePromotion(before)
  }

  /** Every rollback so far happened with nothing loaded since the failed controller's promotion. */
  predicate Clean(log: Log) {
    match log
    case Empty => true
    case Snoc(before, Restored(_, _, _)) => Clean(before) && !LoadedSincePromotion(before)
    case Snoc(before, _) => Clean(before)
  }

  /** The artifact the lifecycle takes to be active: the last one promoted or reported as restored. */
  function Belief(log: Log): Option<Artifact> {
    match log
    case Empty => None
    case Snoc(before, Promoted(a, _)) => Some(a)
    case Snoc(before, Restored(_, _, reported)) => Some(reported)
    case Snoc(before, _) => Belief(before)
  }

  /** The artifact it keeps as last-known-good: what it took to be active at the last load. */
  function Kept(log: Log): Option<Artifact> {
    match log
    case Empty => None
    case Snoc(before, Loaded(_)) => Belief(before)
    case Snoc(before, _) => Kept(before)
  }

  /** Every rollback reported the artifact kept at that point. */
  predicate ReportsKept(log: Log) {
    match log
    case Empty => true
    case Snoc(before, Restored(_, _, reported)) => ReportsKept(before) && Kept(before) == Some(reported)
    case Snoc(before, _) => ReportsKept(before)
  }

  /** At each rollback that follows only clean ones, the artifact kept is the one that took over
      the slot, or, after a load, the one that had just failed. */
  predicate Explained(log: Log) {
    match log
    case Empty => true
    case Snoc(before, Restored(failed, slot, reported)) =>
      Explained(before) && (Clean(before) ==> reported == if LoadedSincePromotion(before) then failed else slot)
    case Snoc(before, _) => Explained(before)
  }

  // ------------------------------------------------------------------
  // The invariant
  // ------------------------------------------------------------------

  /** The lifecycle always has something to fall back on when a slot does. */
  predicate Grounded(s: Loop) {
    && (s.lifecycle.stage.Some? <==> s.lifecycle.current.Some?)
    && (s.active.None? ==> s.rollback.None?)
    && (s.candidate.Some? ==>
          LoadedSincePromotion(s.log) && s.lifecycle.stage in {Some(VerifiedOnly), Some(Shadow), Some(Canary), Some(Active)})
    && (s.candidate.Some? && s.active.Some? ==> s.lifecycle.lastKnownGood.Some?)
    && (s.active.Some? ==> s.lifecycle.current.Some? && (s.lifecycle.stage == Some(Active) || s.lifecycle.lastKnownGood.Some?))
    && (s.rollback.Some? ==> s.lifecycle.lastKnownGood.Some?)
    && Restores(s.log) + (if s.rollback.Some? then 1 else 0) <= Displacements(s.log)
  }

  /** In a rollout stage the lifecycle tracks the candidate slot. */
  predicate Tracks(s: Loop) {
    s.candidate.Some? && s.lifecycle.stage in {Some(VerifiedOnly), Some(Shadow), Some(Canary)} ==>
      s.lifecycle.current == Some(s.candidate.value.artifact)
  }

  /** The artifact the lifecycle believes to be active. */
  function Believed(l: State): Option<Artifact> {
    if l.stage == Some(Active) then l.current else l.lastKnownGood
  }

  /** As long as all rollbacks were clean, the lifecycle's belief matches the slots. */
  predicate Agrees(s: Loop) {
    Clean(s.log) && s.active.Some? ==>
      && Believed(s.lifecycle) == Some(s.active.value.artifact)
      && (s.candidate.Some? ==> s.lifecycle.lastKnownGood == Some(s.active.value.artifact))
      && (s.rollback.Some? ==>
            s.lifecycle.lastKnownGood == Some((if LoadedSincePromotion(s.log) then s.active else s.rollback).value.artifact))
  }

  /** The lifecycle's last-known-good artifact, the id reported for it and its belief can be read off the log. */
  predicate Tallies(s: Loop) {
    && s.lifecycle.lastKnownGood == Kept(s.log)
    && s.goodId == (if Kept(s.log).Some? then Some(Kept(s.log).value.controllerId) else None)
    && Believed(s.lifecycle) == Belief(s.log)
    && (s.candidate.Some? ==> Belief(s.log) == Kept(s.log))
    && ReportsKept(s.log)
  }

  predicate Inv(s: Loop) {
    Grounded(s) && Tracks(s) && Tallies(s) && Agrees(s) && Explained(s.log)
  }

  // ------------------------------------------------------------------
  // Every part of a tick keeps it
  // ------------------------------------------------------------------

  predicate Notice(e: Event) {
    e.Sent? || e.EstopRaised? || e.CandidateRejected? || e.RestoreFailed? || e.CandidateTick? || e.StageAccepted?
  }

  lemma NoticeKeeps(s: Loop, e: Event)
    requires Inv(s) && Notice(e)
    ensures Inv(s.Emit(e))
  {
  }

  lemma ProcessKeeps(p: Policy, s: Loop, cmd: Command)
    requires Inv(s)
    ensures Inv(Process(p, s, cmd))
  {
  }

  lemma {:induction false} DrainKeeps(p: Policy, s: Loop, commands: seq<Command>)
    requires Inv(s)
    ensures Inv(Drain(p, s, commands))
  {
    hide Inv, Process;
    if commands != [] {
      DrainKeeps(p, s, commands[..|commands| - 1]);
      ProcessKeeps(p, Drain(p, s, commands[..|commands| - 1]), commands[|commands| - 1]);
    }
  }

  lemma WatchdogKeeps(s: Loop)
    requires Inv(s)
    ensures Inv(FireWatchdog(s))
  {
    var t := s.(active := SetRunning(s.active, false), candidate := SetRunning(s.candidate, false), estop := true);
    assert Inv(t);
    NoticeKeeps(t, t.EmitZero().log.last);
    NoticeKeeps(t.EmitZero(), EstopRaised);
  }

  lemma RecoverKeeps(s: Loop)
    requires Inv(s) && s.active.Some?
    ensures Inv(Recover(s))
  {
    var r := RestoreLastKnownGoodActive(s.lifecycle);
    if s.rollback.Some? && r.result.Ok? {
      var t := Taken(s);
      assert Inv(t);
      NoticeKeeps(t, t.EmitZero().log.last);
    } else {
      var t := s.(active := None, rollback := None, candidate := SetRunning(s.candidate, false), estop := true);
      assert Inv(t);
      NoticeKeeps(t, RestoreFailed);
      var u := t.Emit(RestoreFailed);
      NoticeKeeps(u, EstopRaised);
      var v := u.Emit(EstopRaised);
      NoticeKeeps(v, v.EmitZero().log.last);
    }
  }

  /** The state right after a successful restore, before the zero frame. */
  function Taken(s: Loop): Loop
    requires s.active.Some? && s.rollback.Some? && RestoreLastKnownGoodActive(s.lifecycle).result.Ok?
  {
    var r := RestoreLastKnownGoodActive(s.lifecycle);
    s.(active := SetRunning(s.rollback, true), rollback := None, lifecycle := r.next,
       goodId := r.result.value.restored, stage := None, requested := false,
       shadowTicks := 0, canaryTicks := 0, boundedTicks := 0, estop := false)
     .Emit(Restored(s.active.value.artifact, s.rollback.value.artifact, s.lifecycle.lastKnownGood.value))
  }

  lemma TickActiveKeeps(s: Loop, outcome: TickOutcome)
    requires Inv(s)
    ensures Inv(TickActive(s, outcome).next)
  {
    hide TickController, Recover;
    if IsRunning(s.active) {
      var t := TickController(s.active.value, outcome, s.sensors);
      TickControllerFacts(s.active.value, outcome, s.sensors);
      var next := s.(active := Some(t.controller.(running := !t.result.halted)));
      assert Inv(next);
      RecoverKeeps(next);
    }
  }

  lemma RejectKeeps(s: Loop, restoreActive: bool)
    requires Inv(s) && s.candidate.Some?
    ensures Inv(Reject(s, restoreActive))
  {
    var t := Reject(s, restoreActive).(log := s.log);
    assert Inv(t);
    NoticeKeeps(t, CandidateRejected);
  }

  lemma FailCandidateKeeps(s: Loop, fallback: bool)
    requires Inv(s) && s.candidate.Some?
    ensures Inv(FailCandidate(s, fallback))
  {
    hide Reject;
    if fallback {
      RejectKeeps(s, true);
    } else {
      var t := s.(estop := true);
      assert Inv(t);
      NoticeKeeps(t, EstopRaised);
      var u := t.Emit(EstopRaised);
      RejectKeeps(u, false);
      var v := Reject(u, false);
      NoticeKeeps(v, v.EmitZero().log.last);
    }
  }

  lemma ActuateKeeps(s: Loop, command: Option<Frame>)
    requires Inv(s)
    ensures Inv(Actuate(s, command))
  {
    if command.Some? {
      var t := s.(lastWidth := |command.value|);
      assert Inv(t);
      NoticeKeeps(t, Sent(command.value));
    }
  }

  lemma TryPromoteKeeps(s: Loop, mode: ExecutionMode, target: DeploymentState)
    requires Inv(s) && s.candidate.Some? && mode in {Verify, ShadowRun, CanaryRun} && target in {Shadow, Canary, Active}
    ensures Inv(TryPromote(s, mode, target))
  {
    hide Finalize, JudgeEvidence, Reject;
    var r := SubmitStageEvidenceAndPromote(s, mode, target);
    if !r.accepted {
      assert Inv(r.next);
      RejectKeeps(r.next, s.active.Some?);
    } else {
      AcceptedKeeps(s, mode, target);
    }
  }

  lemma AcceptedKeeps(s: Loop, mode: ExecutionMode, target: DeploymentState)
    requires Inv(s) && s.candidate.Some? && mode in {Verify, ShadowRun, CanaryRun} && target in {Shadow, Canary, Active}
    requires SubmitStageEvidenceAndPromote(s, mode, target).accepted
    ensures Inv(EnterStage(SubmitStageEvidenceAndPromote(s, mode, target).next, target))
  {
    hide Finalize, JudgeEvidence;
    var c := s.candidate.value;
    var bundle := StageBundle(c, mode);
    StageBundleMode(c, mode);
    var submitted := SubmitEvidence(s.lifecycle, bundle).next;
    GateIsConjunction(submitted, c.artifact.key, target);
    assert ModeFor(s.lifecycle.Stage()) == mode;
    assert s.lifecycle.current == Some(c.artifact);
    var t := SubmitStageEvidenceAndPromote(s, mode, target).next;
    assert t.lifecycle.stage == Some(target) && t.lifecycle.current == s.lifecycle.current
        && t.lifecycle.lastKnownGood == s.lifecycle.lastKnownGood;
    if target == Active {
      PromoteKeeps(s, t);
    }
  }

  lemma StageBundleMode(c: LoadedController, mode: ExecutionMode)
    ensures StageBundle(c, mode).mode == mode
  {
  }

  lemma PromoteKeeps(s: Loop, t: Loop)
    requires Inv(s) && s.candidate.Some? && t.candidate.Some? && t.active == s.active && t.rollback == s.rollback
    requires t.candidate.value.artifact == s.candidate.value.artifact && s.lifecycle.stage != Some(Active)
    requires t.log.Snoc? && t.log.before == s.log && t.log.last.StageAccepted?
    requires t.lifecycle.stage == Some(Active) && t.lifecycle.current == Some(s.candidate.value.artifact)
    requires t.lifecycle.lastKnownGood == s.lifecycle.lastKnownGood
    ensures Inv(PromoteCandidateToActive(t))
  {
    assert Restores(t.log) == Restores(s.log) && Displacements(t.log) == Displacements(s.log);
    assert Explained(t.log) && (Clean(t.log) <==> Clean(s.log));
    assert ReportsKept(t.log) && Kept(t.log) == Kept(s.log);
  }

  lemma AdvanceKeeps(p: Policy, s: Loop, counts: bool)
    requires Inv(s) && s.candidate.Some?
    ensures Inv(AdvanceCandidateStage(p, s, counts))
  {
    hide TryPromote, Restores, Displacements, LoadedSincePromotion, Clean, Explained, Belief, Kept, ReportsKept;
    if s.requested && s.stage.Some? && p.NextTarget(s.stage.value).Some? {
      var target := p.NextTarget(s.stage.value).value;
      TryPromoteKeeps(s, Verify, target);
      var t := s.(shadowTicks := s.shadowTicks + 1);
      assert Inv(t);
      TryPromoteKeeps(t, ShadowRun, target);
      var u := s.(canaryTicks := s.canaryTicks + 1);
      assert Inv(u);
      TryPromoteKeeps(u, CanaryRun, target);
    }
  }

  lemma CanaryTickKeeps(p: Policy, s: Loop, active: Option<Frame>, command: Frame, record: TickRecord)
    requires Inv(s) && s.candidate.Some?
    ensures Inv(CanaryTick(p, s, active, command, record))
  {
    hide BlendCommand, FailCandidate, AdvanceCandidateStage, Grounded, Tracks, Tallies, Agrees, Explained;
    var b := BlendCommand(p, active, command, s.candidate.value.profile.spans);
    var r := s.(boundedTicks := s.boundedTicks + if b.bounded then 1 else 0);
    CounterKeeps(s, r);
    var e := CandidateTick(s.stage, record, IsRunning(s.active), active, Some(command), b.bounded);
    NoticeKeeps(r, e);
    var t := r.Emit(e);
    if b.bounded && t.boundedTicks > p.maxBoundedTicks {
      FailCandidateKeeps(t, IsRunning(s.active));
      ActuateKeeps(FailCandidate(t, IsRunning(s.active)), active);
    } else {
      ActuateKeeps(t, Some(b.frame));
      AdvanceKeeps(p, Actuate(t, Some(b.frame)), !b.bounded);
    }
  }

  lemma CounterKeeps(s: Loop, t: Loop)
    requires Inv(s) && t == s.(boundedTicks := t.boundedTicks)
    ensures Inv(t)
  {
  }

  lemma TickCandidateKeeps(p: Policy, s: Loop, active: Option<Frame>, outcome: TickOutcome)
    requires Inv(s)
    ensures Inv(TickCandidate(p, s, active, outcome))
  {
    hide TickController, RecordOf, CanaryTick, FailCandidate, AdvanceCandidateStage, CandidateFails;
    hide Restores, Displacements, LoadedSincePromotion, Clean, Explained, Belief, Kept, ReportsKept;
    if !IsRunning(s.candidate) {
      ActuateKeeps(s, active);
      return;
    }
    var t := TickController(s.candidate.value, outcome, s.sensors);
    TickControllerFacts(s.candidate.value, outcome, s.sensors);
    var u := s.(candidate := Some(t.controller.(running := !t.result.halted)));
    assert Inv(u);
    if CandidateFails(p, s, active, t) {
      FailCandidateKeeps(u, IsRunning(s.active));
      ActuateKeeps(FailCandidate(u, IsRunning(s.active)), active);
    } else {
      NotFailing(p, s, active, t);
      var record := RecordOf(s.candidate.value, outcome.values, outcome.micros, s.sensors);
      if s.stage == Some(Canary) {
        CanaryTickKeeps(p, u, active, t.result.command.value, record);
      } else {
        var e := CandidateTick(s.stage, record, IsRunning(s.active), active, t.result.command, false);
        NoticeKeeps(u, e);
        ActuateKeeps(u.Emit(e), active);
        AdvanceKeeps(p, Actuate(u.Emit(e), active), true);
      }
    }
  }

  lemma RunTickKeeps(p: Policy, s: Loop, input: TickInput)
    requires Inv(s)
    ensures Inv(RunTick(p, s, input))
  {
    hide Drain, FireWatchdog, TickActive, TickCandidate, Restores, Displacements;
    hide LoadedSincePromotion, Clean, Explained, Belief, Kept, ReportsKept;
    DrainKeeps(p, s, input.emergency + input.commands);
    var t := ReadSensors(Drain(p, s, input.emergency + input.commands), input.sensor);
    assert Inv(t);
    if input.watchdogExpired && AnyRunning(t) {
      WatchdogKeeps(t);
    } else {
      TickActiveKeeps(t, input.activeOutcome);
      var a := TickActive(t, input.activeOutcome);
      TickCandidateKeeps(p, a.next, a.command, input.candidateOutcome);
    }
  }

  lemma {:induction false} RunKeeps(p: Policy, inputs: seq<TickInput>)
    ensures Inv(Run(p, INITIAL, inputs))
  {
    if inputs != [] {
      var n := |inputs| - 1;
      RunKeeps(p, inputs[..n]);
      hide RunTick, Inv;
      RunTickKeeps(p, Run(p, INITIAL, inputs[..n]), inputs[n]);
    }
  }

  // ------------------------------------------------------------------
  // What follows
  // ------------------------------------------------------------------

  /** Over any run, successful rollbacks never exceed the promotions that displaced an active controller. */
  lemma RollbacksAreEarned(p: Policy, inputs: seq<TickInput>)
    ensures Restores(Run(p, INITIAL, inputs).log) <= Displacements(Run(p, INITIAL, inputs).log)
  {
    RunKeeps(p, inputs);
  }

  lemma {:induction false} ExplainedPrefix(log: Log, prefix: Log)
    requires Explained(log) && ReportsKept(log) && Extends(log, prefix)
    ensures Explained(prefix) && ReportsKept(prefix)
  {
    if log != prefix {
      ExplainedPrefix(log.before, prefix);
    }
  }

  /** Which controller the lifecycle puts back, exactly, at every rollback of every run: the
      artifact it took to be active when something was last loaded. The rollback slot holds the
      controller last displaced. So the two agree if and only if these are the same, which
      the history before the rollback decides. */
  lemma SlotAndLifecycleAgree(p: Policy, inputs: seq<TickInput>, h: Log, failed: Artifact, slot: Artifact, reported: Artifact)
    requires Extends(Run(p, INITIAL, inputs).log, Snoc(h, Restored(failed, slot, reported)))
    ensures Kept(h) == Some(reported)
    ensures reported == slot <==> Kept(h) == RolloutPromotion.ArtifactOf(RolloutPromotion.RollbackOf(h))
  {
    RunKeeps(p, inputs);
    ExplainedPrefix(Run(p, INITIAL, inputs).log, Snoc(h, Restored(failed, slot, reported)));
    RolloutPromotion.ActiveOnlyByCertifiedRollout(p, inputs);
  }

  /** The special case without earlier trouble. If all earlier rollbacks happened with nothing
      loaded since the failed controller's promotion, the two agree on this one if and only if
      again nothing was loaded since, or the two controllers carry the same artifact; after a
      load the lifecycle reinstates the controller that has just failed. */
  lemma CleanRollbackAgrees(p: Policy, inputs: seq<TickInput>, h: Log, failed: Artifact, slot: Artifact, reported: Artifact)
    requires Extends(Run(p, INITIAL, inputs).log, Snoc(h, Restored(failed, slot, reported))) && Clean(h)
    ensures reported == (if LoadedSincePromotion(h) then failed else slot)
    ensures reported == slot <==> !LoadedSincePromotion(h) || failed == slot
  {
    RunKeeps(p, inputs);
    ExplainedPrefix(Run(p, INITIAL, inputs).log, Snoc(h, Restored(failed, slot, reported)));
  }

  /** The active controller fails hard on this tick. */
  predicate ActiveFails(t: Loop, input: TickInput) {
    !WatchdogFires(t, input) && ActiveResult(t, input).halted
  }

  /** The lifecycle is Active on its last-known-good artifact. */
  predicate OnGood(l: State, good: Option<Artifact>) {
    good.Some? && l == State(good, Some(Active), None, good)
  }

  /** After a restore the candidate, if any, has no stage: whatever it does, the slots and the
      lifecycle stay as they are. */
  lemma CandidateQuietAfterRestore(p: Policy, s: Loop, outcome: TickOutcome)
    requires s.stage.None? && !s.requested && IsRunning(s.active) && OnGood(s.lifecycle, s.lifecycle.lastKnownGood)
    requires s.goodId == Some(s.lifecycle.lastKnownGood.value.controllerId)
    ensures var t := TickCandidate(p, s, None, outcome);
      && t.active == s.active && t.rollback == s.rollback && t.lifecycle == s.lifecycle && t.goodId == s.goodId
      && t.stage.None? && !t.requested
  {
    hide TickController, RecordOf;
    if IsRunning(s.candidate) {
      TickControllerFacts(s.candidate.value, outcome, s.sensors);
    }
  }

  /** Rollback, from any reachable state: when the active controller fails hard with the
      rollback slot full and the lifecycle not terminal, the tick ends with that earlier
      controller running as active and the rollback slot empty, with the lifecycle Active on
      the artifact it kept and that artifact's id reported; the only frame sent is zero and no
      e-stop is raised or left standing. */
  lemma {:induction false} RollbackRestoresEarlierActive(p: Policy, history: seq<TickInput>, input: TickInput)
    requires var t := Opening(p, Run(p, INITIAL, history), input);
      ActiveFails(t, input) && t.rollback.Some? && !IsTerminal(t.lifecycle.Stage())
    ensures var t := Opening(p, Run(p, INITIAL, history), input);
      var u := RunTick(p, Run(p, INITIAL, history), input);
      && u.active == Some(t.rollback.value.(running := true))
      && u.rollback.None? && !u.estop && u.stage.None? && !u.requested
      && OnGood(u.lifecycle, Kept(t.log)) && u.goodId == Some(Kept(t.log).value.controllerId)
      && Does(t, u, [StopFrame(t.lastWidth)], 0)
  {
    var s := Run(p, INITIAL, history);
    RunKeeps(p, history);
    DrainKeeps(p, s, input.emergency + input.commands);
    DrainSends(p, s, input.emergency + input.commands);
    TickSends(p, s, input);
    hide Run, Drain, TickController, TickCandidate, FrameList, Estops, Passes, Contributes, StopFrame;
    hide Restores, Displacements, LoadedSincePromotion, Clean, Explained, Belief, Kept, ReportsKept, Agrees;
    var t := Opening(p, s, input);
    TickControllerFacts(t.active.value, input.activeOutcome, t.sensors);
    var ticked := TickController(t.active.value, input.activeOutcome, t.sensors);
    RestoredState(t.(active := Some(ticked.controller.(running := false))));
    hide Recover;
    CandidateQuietAfterRestore(p, Recover(t.(active := Some(ticked.controller.(running := false)))), input.candidateOutcome);
  }

  lemma RestoredState(s: Loop)
    requires s.active.Some? && CanRestore(s)
    ensures var t := Recover(s);
      && t.active == SetRunning(s.rollback, true) && t.rollback.None? && t.stage.None? && !t.requested
      && OnGood(t.lifecycle, s.lifecycle.lastKnownGood) && t.goodId == Some(s.lifecycle.lastKnownGood.value.controllerId)
  {
  }

  /** The converse: when the active controller fails hard and either condition is missing,
      both controllers are gone, the e-stop is raised, the candidate is halted and the lifecycle
      is left alone. A full rollback slot is lost if a candidate's failure had left the
      lifecycle terminal. */
  lemma {:induction false} FailedRollbackStops(p: Policy, history: seq<TickInput>, input: TickInput)
    requires var t := Opening(p, Run(p, INITIAL, history), input);
      ActiveFails(t, input) && (t.rollback.None? || IsTerminal(t.lifecycle.Stage()))
    ensures var t := Opening(p, Run(p, INITIAL, history), input);
      var u := RunTick(p, Run(p, INITIAL, history), input);
      && u.active.None? && u.rollback.None? && u.estop && !AnyRunning(u)
      && Occupant(u.candidate) == Occupant(t.candidate) && u.lifecycle == t.lifecycle && u.goodId == t.goodId
      && Does(t, u, [StopFrame(t.lastWidth)], 1)
  {
    var s := Run(p, INITIAL, history);
    DrainSends(p, s, input.emergency + input.commands);
    TickSends(p, s, input);
    hide Run, Drain, TickController, TickCandidate, FrameList, Estops, Passes, Contributes, StopFrame;
    var t := Opening(p, s, input);
    TickControllerFacts(t.active.value, input.activeOutcome, t.sensors);
    var ticked := TickController(t.active.value, input.activeOutcome, t.sensors);
    var next := t.(active := Some(ticked.controller.(running := false)));
    RestoreSucceeds(next);
    NoCandidateTick(p, Recover(next), input.candidateOutcome);
  }

  lemma NoCandidateTick(p: Policy, s: Loop, outcome: TickOutcome)
    requires !IsRunning(s.candidate)
    ensures TickCandidate(p, s, None, outcome) == s
  {
  }

  // ------------------------------------------------------------------
  // A candidate that is dropped
  // ------------------------------------------------------------------

  function Promotions(log: Log): nat {
    match log
    case Empty => 0
    case Snoc(before, Promoted(_, _)) => Promotions(before) + 1
    case Snoc(before, _) => Promotions(before)
  }

  /** The lifecycle goes back to the artifact it kept, as Active; or it stays on the dropped one, as
      Rejected if that never actuated and as RolledBack if it did. */
  predicate Settled(before: State, after: State, restores: bool) {
    if restores then OnGood(after, before.lastKnownGood)
    else
      var terminal := if before.stage in {Some(VerifiedOnly), Some(Shadow)} then Rejected else RolledBack;
      after == before.(stage := Some(terminal), evidence := None)
  }

  /** From `s` to `t` the candidate was dropped without being promoted. */
  predicate Dropped(s: Loop, t: Loop) {
    s.candidate.Some? && t.candidate.None? && Promotions(t.log) == Promotions(s.log)
  }

  predicate Droppable(s: Loop) {
    && s.candidate.Some? && s.lifecycle.current.Some?
    && s.lifecycle.stage in {Some(VerifiedOnly), Some(Shadow), Some(Canary), Some(Active)}
    && (s.active.Some? ==> s.lifecycle.lastKnownGood.Some?)
  }

  predicate Settles(s: Loop, t: Loop, restores: bool) {
    && Dropped(s, t) && t.stage.None? && !t.requested && t.active == s.active && t.rollback == s.rollback
    && Settled(s.lifecycle, t.lifecycle, restores)
  }

  lemma RejectSettles(s: Loop, restoreActive: bool)
    requires Droppable(s) && (restoreActive ==> s.active.Some?)
    ensures Settles(s, Reject(s, restoreActive), restoreActive)
  {
  }

  lemma FailSettles(s: Loop, fallback: bool, command: Option<Frame>)
    requires Droppable(s) && (fallback ==> s.active.Some?)
    ensures Settles(s, Actuate(FailCandidate(s, fallback), command), fallback)
  {
    hide Reject;
    RejectSettles(s, fallback);
    RejectSettles(s.(estop := true).Emit(EstopRaised), fallback);
    var t := FailCandidate(s, fallback);
    assert Promotions(t.log) == Promotions(s.log);
  }

  lemma TryPromoteSettles(s: Loop, mode: ExecutionMode, target: DeploymentState)
    requires Droppable(s)
    ensures var t := TryPromote(s, mode, target); Dropped(s, t) ==> Settles(s, t, s.active.Some?)
  {
    SubmitKeepsSlots(s, mode, target);
    hide SubmitStageEvidenceAndPromote, Reject;
    var r := SubmitStageEvidenceAndPromote(s, mode, target);
    if !r.accepted {
      RejectSettles(r.next, s.active.Some?);
    }
  }

  lemma SubmitKeepsSlots(s: Loop, mode: ExecutionMode, target: DeploymentState)
    requires s.candidate.Some?
    ensures var r := SubmitStageEvidenceAndPromote(s, mode, target);
      && r.next == s.(candidate := r.next.candidate, lifecycle := r.next.lifecycle, log := r.next.log)
      && r.next.candidate.Some? && Promotions(r.next.log) == Promotions(s.log)
      && (!r.accepted ==> r.next.lifecycle == s.lifecycle.(evidence := r.next.lifecycle.evidence))
  {
    hide Finalize, JudgeEvidence, GateError;
  }

  lemma AdvanceSettles(p: Policy, s: Loop, counts: bool)
    requires Droppable(s)
    ensures var t := AdvanceCandidateStage(p, s, counts); Dropped(s, t) ==> Settles(s, t, s.active.Some?)
  {
    hide TryPromote;
    if s.requested && s.stage.Some? && p.NextTarget(s.stage.value).Some? {
      var target := p.NextTarget(s.stage.value).value;
      TryPromoteSettles(s, Verify, target);
      TryPromoteSettles(s.(shadowTicks := s.shadowTicks + 1), ShadowRun, target);
      TryPromoteSettles(s.(canaryTicks := s.canaryTicks + 1), CanaryRun, target);
    }
  }

  lemma CanarySettles(p: Policy, s: Loop, active: Option<Frame>, command: Frame, record: TickRecord)
    requires Droppable(s) && (active.Some? ==> IsRunning(s.active))
    ensures var t := CanaryTick(p, s, active, command, record); Dropped(s, t) ==> Settles(s, t, s.active.Some?)
  {
    hide FailCandidate, AdvanceCandidateStage, BlendCommand;
    var b := BlendCommand(p, active, command, s.candidate.value.profile.spans);
    if active.None? {
      OwnCommandWithoutActive(p, command, s.candidate.value.profile.spans);
    }
    var t := s.(boundedTicks := s.boundedTicks + if b.bounded then 1 else 0)
              .Emit(CandidateTick(s.stage, record, IsRunning(s.active), active, Some(command), b.bounded));
    assert Promotions(t.log) == Promotions(s.log);
    if b.bounded && t.boundedTicks > p.maxBoundedTicks {
      FailSettles(t, IsRunning(s.active), active);
    } else {
      var u := Actuate(t, Some(b.frame));
      assert Promotions(u.log) == Promotions(s.log);
      AdvanceSettles(p, u, !b.bounded);
    }
  }

  lemma PassingSettles(p: Policy, t: Loop, s: Loop, input: TickInput)
    requires Droppable(s) && Beside(t, s) && Passes(p, t, input)
    ensures var u := TickCandidate(p, s, ActiveResult(t, input).command, input.candidateOutcome);
      Dropped(s, u) ==> Settles(s, u, s.active.Some?)
  {
    PassingTick(p, t, s, input);
    SilentUnlessRunning(t, input);
    var active := ActiveResult(t, input).command;
    hide TickController, TickCandidate, CanaryTick, AdvanceCandidateStage, ActiveResult, RecordAt, Close;
    var v := Ticking(t, s, input);
    if t.stage == Some(Canary) {
      CanarySettles(p, v, active, CandidateResult(t, input).command.value, RecordAt(t, input));
    } else {
      var e := CandidateTick(t.stage, RecordAt(t, input), IsRunning(t.active), active, CandidateResult(t, input).command, false);
      assert Promotions(v.Emit(e).log) == Promotions(s.log);
      var w := Actuate(v.Emit(e), active);
      assert Promotions(w.log) == Promotions(s.log);
      AdvanceSettles(p, w, true);
    }
  }

  lemma FailingSettles(p: Policy, t: Loop, s: Loop, input: TickInput)
    requires Droppable(s) && Beside(t, s) && IsRunning(t.candidate) && !Passes(p, t, input)
    ensures Settles(s, TickCandidate(p, s, ActiveResult(t, input).command, input.candidateOutcome), IsRunning(t.active))
  {
    var active := ActiveResult(t, input).command;
    var c := TickController(t.candidate.value, input.candidateOutcome, t.sensors);
    PassesUnlessFails(p, t, input);
    SameChecks(p, t, s, active, c);
    hide TickController, FailCandidate, CandidateFails, Passes, Actuate, ActiveResult;
    FailSettles(s.(candidate := Some(c.controller.(running := !c.result.halted))), IsRunning(s.active), active);
  }

  /** What a dropped candidate leaves behind, on any tick of any run on which nothing stops the
      robot. With an active controller running, or one in the slot while the evidence was
      refused, the lifecycle is Active again on the artifact it kept. Otherwise it stays on the
      dropped artifact: Rejected from VerifiedOnly or Shadow, RolledBack from Canary or
      Active. Either way no evidence is pending, and the slots stay as they were. */
  lemma {:induction false} DroppedCandidateSettles(p: Policy, history: seq<TickInput>, input: TickInput)
    requires var s := Run(p, INITIAL, history);
      !Stops(Opening(p, s, input), input) && Dropped(Opening(p, s, input), RunTick(p, s, input))
    ensures var s := Run(p, INITIAL, history);
      var t, u := Opening(p, s, input), RunTick(p, s, input);
      && u.stage.None? && !u.requested
      && Occupant(u.active) == Occupant(t.active) && Occupant(u.rollback) == Occupant(t.rollback)
      && (if IsRunning(t.active) || (t.active.Some? && Passes(p, t, input))
          then OnGood(u.lifecycle, Kept(t.log)) && u.goodId == Some(Kept(t.log).value.controllerId)
          else Settled(t.lifecycle, u.lifecycle, false) && u.goodId == t.goodId)
  {
    var s := Run(p, INITIAL, history);
    RunKeeps(p, history);
    DrainKeeps(p, s, input.emergency + input.commands);
    var t := Opening(p, s, input);
    ActiveGoesOn(t, input);
    var a := TickActive(t, input.activeOutcome);
    var u := RunTick(p, s, input);
    RunTickKeeps(p, s, input);
    hide Run, Drain, TickController, TickCandidate, TickActive, Passes, ActiveResult;
    hide Restores, Displacements, LoadedSincePromotion, Clean, Explained, Belief, Kept, ReportsKept, Agrees;
    assert u == TickCandidate(p, a.next, a.command, input.candidateOutcome);
    if !IsRunning(t.candidate) {
      IdleCandidateStays(p, a.next, a.command, input.candidateOutcome);
    } else if Passes(p, t, input) {
      PassingSettles(p, t, a.next, input);
    } else {
      FailingSettles(p, t, a.next, input);
    }
  }

  lemma IdleCandidateStays(p: Policy, s: Loop, active: Option<Frame>, outcome: TickOutcome)
    requires !IsRunning(s.candidate)
    ensures TickCandidate(p, s, active, outcome).candidate == s.candidate
  {
  }
}
