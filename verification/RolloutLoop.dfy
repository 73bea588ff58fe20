/** The controller loop as it runs: fields updated in place, statement by statement in
    the order of crates/roz-copper/src/controller.rs, and proved to do on every tick
    what the state machine in `Rollout` says. */
module RolloutLoop {
  import opened Floats
  import opened Deployment
  import opened Artifacts
  import opened Evidence
  import opened Lifecycle
  import opened Canary
  import opened Controller
  import opened Rollout

  lemma RestorableHasGood(l: State)
    ensures RestoreLastKnownGoodActive(l).result.Ok? ==> l.lastKnownGood.Some?
  {
  }

  class ControllerLoop {
    const policy: Policy
    const lifecycle: ControllerLifecycle
    var active: Option<LoadedController>
    var candidate: Option<LoadedController>
    var rollback: Option<LoadedController>
    var stage: Option<DeploymentState>
    var requested: bool
    var shadowTicks: nat
    var canaryTicks: nat
    var boundedTicks: nat
    var goodId: Option<string>
    var estop: bool
    var lastWidth: nat
    var sensors: Sensors
    var log: Log

    constructor (policy: Policy)
      ensures this.policy == policy && View() == INITIAL && fresh(lifecycle)
    {
      this.policy := policy;
      lifecycle := new ControllerLifecycle();
      active, candidate, rollback := None, None, None;
      stage, requested := None, false;
      shadowTicks, canaryTicks, boundedTicks := 0, 0, 0;
      goodId, estop, lastWidth := None, false, 0;
      sensors, log := Sensors([], [], None), Empty;
    }

    function View(): Loop
      reads this, lifecycle
    {
      Loop(active, candidate, rollback, lifecycle.View(), stage, requested, shadowTicks, canaryTicks, boundedTicks,
           goodId, estop, lastWidth, sensors, log)
    }

    method Note(e: Event)
      modifies this`log
      ensures log == Snoc(old(log), e)
    {
      log := Snoc(log, e);
    }

    method SendZero()
      modifies this`log
      ensures log == old(View()).EmitZero().log
    {
      Note(Sent(ZeroFrame(if lastWidth < 6 then 6 else lastWidth)));
    }

    // ----------------------------------------------------------------
    // Commands and the watchdog
    // ----------------------------------------------------------------

    method ProcessCommand(cmd: Command)
      modifies this, lifecycle
      ensures View() == Process(policy, old(View()), cmd)
    {
      match cmd {
        case LoadPrepared(load) =>
          lifecycle.Load(load.artifact);
          candidate := Some(FromPrepared(load));
          stage := if lifecycle.currentState.Some? then lifecycle.currentState else Some(VerifiedOnly);
          goodId := IdOf(lifecycle.lastKnownGood);
          requested := false;
          Note(Loaded(load));
        case PromoteActive =>
          if policy.AllowsRollout() && candidate.Some? && candidate.value.artifact.PromotionEligible() {
            requested := true;
            stage := Some(VerifiedOnly);
          }
        case Halt =>
          SetRunningEverywhere(false);
        case Resume =>
          SetRunningEverywhere(true);
        case UpdateParams =>
      }
    }

    method SetRunningEverywhere(running: bool)
      modifies this`active, this`candidate, this`rollback
      ensures View() == SetAllRunning(old(View()), running)
    {
      if active.Some? {
        active := Some(active.value.(running := running));
      }
      if candidate.Some? {
        candidate := Some(candidate.value.(running := running));
      }
      if rollback.Some? {
        rollback := Some(rollback.value.(running := running));
      }
    }

    method DrainCommands(emergency: seq<Command>, commands: seq<Command>)
      modifies this, lifecycle
      ensures View() == Drain(policy, old(View()), emergency + commands)
    {
      DrainQueue(emergency);
      DrainQueue(commands);
      DrainConcat(policy, old(View()), emergency, commands);
    }

    method DrainQueue(queue: seq<Command>)
      modifies this, lifecycle
      ensures View() == Drain(policy, old(View()), queue)
    {
      hide Process;
      for i := 0 to |queue|
        invariant View() == Drain(policy, old(View()), queue[..i])
      {
        assert queue[..i + 1][..i] == queue[..i];
        ProcessCommand(queue[i]);
      }
      assert queue[..|queue|] == queue;
    }

    /** Halt whatever runs, send zero and raise the e-stop; quiet when nothing runs. */
    method CheckWatchdog(expired: bool) returns (fired: bool)
      modifies this
      ensures fired == (expired && AnyRunning(old(View())))
      ensures View() == if fired then FireWatchdog(old(View())) else old(View())
    {
      if !expired {
        return false;
      }
      var haltedAny := false;
      if active.Some? && active.value.running {
        active := Some(active.value.(running := false));
        haltedAny := true;
      }
      if candidate.Some? && candidate.value.running {
        candidate := Some(candidate.value.(running := false));
        haltedAny := true;
      }
      if !haltedAny {
        return false;
      }
      SendZero();
      Note(EstopRaised);
      estop := true;
      return true;
    }

    // ----------------------------------------------------------------
    // The active controller
    // ----------------------------------------------------------------

    /** Drop the active controller and put the rollback one in its place; on an error both are gone. */
    method RestoreLastKnownGood() returns (r: Result<Retirement>)
      requires active.Some?
      modifies this, lifecycle
      ensures rollback.None?
      ensures r.Ok? == (old(rollback).Some? && RestoreLastKnownGoodActive(old(lifecycle.View())).result.Ok?)
      ensures r.Ok? ==>
        && r == RestoreLastKnownGoodActive(old(lifecycle.View())).result
        && View() == old(View()).(active := SetRunning(old(rollback), true), rollback := None, goodId := r.value.restored,
                                  lifecycle := RestoreLastKnownGoodActive(old(lifecycle.View())).next)
      ensures r.Err? ==> View() == old(View()).(active := None, rollback := None)
    {
      active := None;
      if rollback.None? {
        return Err(NoLastKnownGood);
      }
      var restored := rollback.value;
      rollback := None;
      restored := restored.(running := true);
      r := lifecycle.RestoreActive();
      if r.Err? {
        return;
      }
      goodId := r.value.restored;
      active := Some(restored);
    }

    method TickActiveController(outcome: TickOutcome) returns (command: Option<Frame>)
      modifies this, lifecycle
      ensures ActiveTick(View(), command) == TickActive(old(View()), outcome)
    {
      command := None;
      if active.Some? && active.value.running {
        var t := TickController(active.value, outcome, sensors);
        active := Some(t.controller);
        command := t.result.command;
        if t.result.halted {
          active := Some(t.controller.(running := false));
          RecoverActive();
        } else {
          TickControllerFacts(old(active).value, outcome, sensors);
        }
      }
    }

    method RecoverActive()
      requires active.Some?
      modifies this, lifecycle
      ensures View() == Recover(old(View()))
    {
      var failed := active.value.artifact;
      var slot := rollback;
      var good := lifecycle.lastKnownGood;
      RestorableHasGood(lifecycle.View());
      hide RestoreLastKnownGoodActive, SetRunning;
      var outcome := RestoreLastKnownGood();
      if outcome.Ok? {
        NoteRestored(failed, slot.value.artifact, good.value);
      } else {
        GiveUp();
      }
    }

    method NoteRestored(failed: Artifact, slot: Artifact, good: Artifact)
      modifies this
      ensures View() == old(View()).(stage := None, requested := false, shadowTicks := 0, canaryTicks := 0, boundedTicks := 0,
                                     estop := false).Emit(Restored(failed, slot, good)).EmitZero()
    {
      ClearRollout();
      estop := false;
      Note(Restored(failed, slot, good));
      SendZero();
    }

    method GiveUp()
      modifies this
      ensures View() == old(View()).(candidate := SetRunning(old(candidate), false), estop := true)
                                   .Emit(RestoreFailed).Emit(EstopRaised).EmitZero()
    {
      Note(RestoreFailed);
      Note(EstopRaised);
      estop := true;
      SendZero();
      if candidate.Some? {
        candidate := Some(candidate.value.(running := false));
      }
    }

    // ----------------------------------------------------------------
    // The candidate
    // ----------------------------------------------------------------

    method RejectCandidate(restoreActive: bool)
      modifies this, lifecycle
      ensures View() == Reject(old(View()), restoreActive)
    {
      candidate, stage, requested := None, None, false;
      var retirement: Result<Retirement>;
      if restoreActive {
        retirement := lifecycle.RestoreActive();
      } else {
        retirement := lifecycle.Retire();
      }
      if retirement.Ok? && retirement.value.restored.Some? {
        goodId := retirement.value.restored;
      }
      Note(CandidateRejected);
    }

    method DropFailedCandidate(fallback: bool)
      modifies this, lifecycle
      ensures View() == FailCandidate(old(View()), fallback)
      ensures candidate.None? && stage.None? && !requested
    {
      if fallback {
        RejectCandidate(true);
      } else {
        Note(EstopRaised);
        estop := true;
        RejectCandidate(false);
        SendZero();
      }
    }

    /** Rotate, judge and submit the stage's evidence, then ask for the target stage. */
    method SubmitAndPromote(mode: ExecutionMode, target: DeploymentState) returns (accepted: bool)
      requires candidate.Some?
      modifies this, lifecycle
      ensures Promotion(View(), accepted) == SubmitStageEvidenceAndPromote(old(View()), mode, target)
    {
      var c := candidate.value;
      var evidence := Finalize(c.collector, c.artifact.key.digests, mode);
      candidate := Some(c.(collector := NewCollector(c.artifact.controllerId, c.profile.channels)));
      if evidence.HasSafetyIssues() {
        evidence := evidence.(status := Failed);
      } else if evidence.HasUntouchedChannels() {
        evidence := evidence.(status := Failed);
      } else {
        evidence := evidence.(status := Complete);
      }
      var submitted := lifecycle.Submit(evidence);
      if submitted.Err? {
        return false;
      }
      var transition := lifecycle.PromoteToTarget(c.artifact.key, target);
      if transition.Err? {
        return false;
      }
      Note(StageAccepted(evidence, transition.value.from, transition.value.to));
      return true;
    }

    /** No rollout in progress. */
    method ClearRollout()
      modifies this`stage, this`requested, this`shadowTicks, this`canaryTicks, this`boundedTicks
      ensures stage.None? && !requested && shadowTicks == 0 && canaryTicks == 0 && boundedTicks == 0
    {
      stage, requested := None, false;
      shadowTicks, canaryTicks, boundedTicks := 0, 0, 0;
    }

    /** Keep the displaced controller, halted, as the rollback one; an older one is dropped. */
    method StashLastKnownGood(controller: LoadedController)
      modifies this`rollback, this`goodId
      ensures rollback == Some(controller.(running := false)) && goodId == Some(controller.artifact.controllerId)
    {
      goodId := Some(controller.artifact.controllerId);
      rollback := Some(controller.(running := false));
    }

    method PromoteToActive()
      requires candidate.Some?
      modifies this
      ensures View() == PromoteCandidateToActive(old(View()))
    {
      hide IdOf;
      var promoted := candidate.value;
      candidate := None;
      var displaced := DisplaceActive();
      active := Some(promoted);
      ClearRollout();
      goodId := IdOf(lifecycle.lastKnownGood);
      Note(Promoted(promoted.artifact, displaced));
    }

    method DisplaceActive() returns (displaced: Option<Artifact>)
      modifies this`rollback, this`goodId
      ensures rollback == if active.Some? then SetRunning(active, false) else old(rollback)
      ensures displaced == if active.Some? then Some(active.value.artifact) else None
    {
      displaced := None;
      if active.Some? {
        displaced := Some(active.value.artifact);
        StashLastKnownGood(active.value);
      }
    }

    method LeaveStage(mode: ExecutionMode, target: DeploymentState)
      requires candidate.Some?
      modifies this, lifecycle
      ensures View() == TryPromote(old(View()), mode, target)
    {
      var accepted := SubmitAndPromote(mode, target);
      if !accepted {
        RejectCandidate(active.Some?);
        return;
      }
      stage := Some(target);
      match target {
        case Shadow =>
          shadowTicks := 0;
        case Canary =>
          canaryTicks, boundedTicks := 0, 0;
        case Active =>
          PromoteToActive();
        case _ =>
      }
    }

    /** What `AdvanceStage` does: nothing unless the candidate ticked and is still there. */
    function Advanced(s: Loop, ticked: bool, counts: bool): Loop {
      if ticked && s.candidate.Some? then AdvanceCandidateStage(policy, s, counts)
      else if ticked && s.requested && s.stage.Some? then s.(requested := false)
      else s
    }

    method AdvanceStage(ticked: bool, counts: bool)
      modifies this, lifecycle
      ensures View() == Advanced(old(View()), ticked, counts)
    {
      hide TryPromote;
      if !requested || !ticked || stage.None? {
        return;
      }
      if candidate.None? || policy.NextTarget(stage.value).None? {
        requested := false;
        return;
      }
      var target := policy.NextTarget(stage.value).value;
      match stage.value {
        case VerifiedOnly =>
          LeaveStage(Verify, target);
        case Shadow =>
          shadowTicks := shadowTicks + 1;
          if shadowTicks >= policy.ShadowTicksRequired() {
            LeaveStage(ShadowRun, target);
          }
        case Canary =>
          if !counts {
            canaryTicks := 0;
            return;
          }
          canaryTicks := canaryTicks + 1;
          if canaryTicks >= policy.CanaryTicksRequired() {
            LeaveStage(CanaryRun, target);
          }
        case _ =>
      }
    }

    /** Run the candidate and compare it with the active controller. */
    method RunCandidate(activeCommand: Option<Frame>, outcome: TickOutcome)
      returns (command: Option<Frame>, ticked: bool, failed: bool)
      modifies this`candidate
      ensures var s := old(View());
        if !IsRunning(s.candidate) then View() == s && command.None? && !ticked && !failed
        else
          var t := TickController(s.candidate.value, outcome, s.sensors);
          && View() == s.(candidate := Some(t.controller.(running := !t.result.halted)))
          && command == t.result.command
          && failed == CandidateFails(policy, s, activeCommand, t)
          && ticked == !t.result.halted
      ensures IsRunning(old(candidate)) ==> ticked || failed
      ensures ticked ==> IsRunning(old(candidate)) && IsRunning(candidate) && outcome.Returned?
      ensures ticked && !failed && stage == Some(Canary) ==> command.Some?
    {
      command, ticked, failed := None, false, false;
      var fallback := active.Some? && active.value.running;
      if candidate.Some? && candidate.value.running {
        var t := TickController(candidate.value, outcome, sensors);
        TickControllerFacts(candidate.value, outcome, sensors);
        candidate := Some(t.controller);
        command := t.result.command;
        if t.result.halted {
          candidate := Some(t.controller.(running := false));
          failed := true;
        } else {
          ticked := true;
          var inStage := stage == Some(Shadow) || stage == Some(Canary);
          if inStage && command.None? {
            failed := true;
          } else if fallback && inStage {
            var comparison := CompareStageCommands(activeCommand, command, t.controller.profile.spans);
            match comparison {
              case Compared(_, normalized) =>
                if Above(normalized, policy.MaxStageDelta()) {
                  failed := true;
                }
              case NothingToCompare =>
              case Incomparable =>
                failed := true;
            }
          }
        }
      }
    }

    method SendCommand(command: Option<Frame>)
      modifies this`lastWidth, this`log
      ensures View() == Actuate(old(View()), command)
    {
      if command.Some? {
        lastWidth := |command.value|;
        Note(Sent(command.value));
      }
    }

    method TickCandidateController(activeCommand: Option<Frame>, outcome: TickOutcome)
      modifies this, lifecycle
      ensures View() == TickCandidate(policy, old(View()), activeCommand, outcome)
    {
      var fallback := active.Some? && active.value.running;
      var before := candidate;
      hide TickController, RecordOf, CandidateFails, AdvanceCandidateStage, FailCandidate, CanaryTick;
      var command, ticked, failed := RunCandidate(activeCommand, outcome);
      if failed {
        DropFailedCandidate(fallback);
      }

      var record := if ticked && !failed then Some(RecordOf(before.value, outcome.values, outcome.micros, sensors)) else None;
      Conclude(record, activeCommand, command, fallback, ticked);
    }

    /** The rest of the tick: blend a canary command, note the candidate's tick, actuate and advance. */
    method Conclude(record: Option<TickRecord>, activeCommand: Option<Frame>, command: Option<Frame>, fallback: bool, ticked: bool)
      requires record.None? ==> !(stage == Some(Canary) && IsRunning(candidate))
      requires record.Some? ==> IsRunning(candidate) && ticked && (stage == Some(Canary) ==> command.Some?)
      requires fallback == IsRunning(active)
      modifies this, lifecycle
      ensures var s := old(View());
        View() ==
          if record.None? then Advanced(Actuate(s, activeCommand), ticked, true)
          else if s.stage == Some(Canary) then CanaryTick(policy, s, activeCommand, command.value, record.value)
          else
            var noted := s.Emit(CandidateTick(s.stage, record.value, fallback, activeCommand, command, false));
            AdvanceCandidateStage(policy, Actuate(noted, activeCommand), true)
    {
      hide AdvanceCandidateStage, FailCandidate, BlendCommand;
      var canary := stage == Some(Canary) && candidate.Some? && candidate.value.running;
      var b := Blend([], false);
      if canary {
        b := BlendCommand(policy, activeCommand, command.value, candidate.value.profile.spans);
      }
      if record.Some? {
        Note(CandidateTick(stage, record.value, fallback, activeCommand, command, b.bounded));
      }
      FinishTick(activeCommand, canary, b, fallback, ticked);
    }

    /** Charge the bounded-tick budget, actuate and advance. */
    method FinishTick(activeCommand: Option<Frame>, wasCanary: bool, b: Blend, fallback: bool, ticked: bool)
      requires wasCanary ==> stage == Some(Canary) && IsRunning(candidate) && ticked
      requires !wasCanary ==> !b.bounded
      requires stage == Some(Canary) && IsRunning(candidate) ==> wasCanary
      modifies this, lifecycle
      ensures var s := old(View());
        var t := s.(boundedTicks := s.boundedTicks + if b.bounded then 1 else 0);
        View() ==
          if !wasCanary then Advanced(Actuate(s, activeCommand), ticked, true)
          else if b.bounded && t.boundedTicks > policy.maxBoundedTicks then Actuate(FailCandidate(t, fallback), activeCommand)
          else AdvanceCandidateStage(policy, Actuate(t, Some(b.frame)), !b.bounded)
    {
      hide AdvanceCandidateStage, FailCandidate;
      var blended := if wasCanary then Some(b.frame) else None;
      if wasCanary && b.bounded {
        boundedTicks := boundedTicks + 1;
        if boundedTicks > policy.maxBoundedTicks {
          DropFailedCandidate(fallback);
          blended := None;
        }
      }
      var canary := stage == Some(Canary) && candidate.Some? && candidate.value.running;
      SendCommand(if canary && blended.Some? then blended else activeCommand);
      AdvanceStage(ticked, !b.bounded);
    }

    // ----------------------------------------------------------------
    // One iteration
    // ----------------------------------------------------------------

    /** One iteration of the loop. */
    method Tick(input: TickInput)
      modifies this, lifecycle
      ensures View() == RunTick(policy, old(View()), input)
    {
      DrainCommands(input.emergency, input.commands);
      if input.sensor.Some? {
        sensors := input.sensor.value;
      }
      var fired := CheckWatchdog(input.watchdogExpired);
      if fired {
        return;
      }
      var command := TickActiveController(input.activeOutcome);
      TickCandidateController(command, input.candidateOutcome);
    }

    /** The loop over any number of iterations. */
    method RunLoop(inputs: seq<TickInput>)
      modifies this, lifecycle
      ensures View() == Run(policy, old(View()), inputs)
    {
      for i := 0 to |inputs|
        invariant View() == Run(policy, old(View()), inputs[..i])
      {
        assert inputs[..i + 1][..i] == inputs[..i];
        Tick(inputs[i]);
      }
      assert inputs[..|inputs|] == inputs;
    }
  }
}
