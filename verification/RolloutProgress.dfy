/** The rollout terminates: an armed candidate that keeps running is promoted or
    rejected within a bound fixed by the policy. */
module RolloutProgress {
  import opened Floats
  import opened Deployment
  import opened Evidence
  import opened Lifecycle
  import opened Canary
  import opened Controller
  import opened Rollout

  /** The candidate is armed and somewhere on its way through the stages. */
  predicate Staged(s: Loop) {
    s.candidate.Some? && s.requested && s.stage in {Some(VerifiedOnly), Some(Shadow), Some(Canary)}
  }

  /** The rollout of this candidate is over: it was promoted or rejected, or the active controller was rolled back. */
  predicate Left(s: Loop) {
    s.stage.None? && !s.requested
  }

  /** The counters are where the stage allows them to be. */
  predicate InBudget(p: Policy, s: Loop) {
    && (s.requested ==> p.AllowsRollout())
    && (s.stage == Some(Shadow) ==> s.requested && s.candidate.Some? && s.shadowTicks < p.ShadowTicksRequired())
    && (s.stage == Some(Canary) ==>
          s.requested && s.candidate.Some? && s.canaryTicks < p.CanaryTicksRequired() && s.boundedTicks <= p.maxBoundedTicks)
  }

  /** The most canary ticks a candidate can spend: M bounded ones, each resetting the count. */
  function CanaryBound(p: Policy): nat {
    (p.maxBoundedTicks + 1) * if p.canaryTicks == 0 then 1 else p.canaryTicks
  }

  function RolloutBound(p: Policy): nat {
    1 + (if p.shadowTicks == 0 then 1 else p.shadowTicks) + CanaryBound(p)
  }

  /** Candidate ticks still possible before it leaves the rollout. */
  function Remaining(p: Policy, s: Loop): int {
    match s.stage
    case Some(Shadow) => p.ShadowTicksRequired() - s.shadowTicks + CanaryBound(p)
    case Some(Canary) => (p.maxBoundedTicks - s.boundedTicks) * p.CanaryTicksRequired() + p.CanaryTicksRequired() - s.canaryTicks
    case _ => RolloutBound(p)
  }

  lemma RemainingBounds(p: Policy, s: Loop)
    requires InBudget(p, s)
    ensures 1 <= Remaining(p, s) <= RolloutBound(p)
    ensures s.stage == Some(Canary) ==> Remaining(p, s) <= CanaryBound(p)
  {
    var n := p.CanaryTicksRequired();
    if s.stage == Some(Canary) {
      var left := p.maxBoundedTicks - s.boundedTicks;
      assert left * n >= 0;
      assert left * n <= p.maxBoundedTicks * n;
    }
    assert CanaryBound(p) == p.maxBoundedTicks * n + n;
  }

  /** The candidate has left the rollout, or is closer to its end by at least `used` ticks. */
  predicate Progressed(p: Policy, s: Loop, t: Loop, used: nat) {
    && InBudget(p, t)
    && (Staged(t) ==> Staged(s) && Remaining(p, t) + used <= Remaining(p, s))
    && (Staged(s) || Left(s) ==> Staged(t) || Left(t))
  }

  // ------------------------------------------------------------------
  // One tick
  // ------------------------------------------------------------------

  lemma ProcessInBudget(p: Policy, s: Loop, cmd: Command)
    requires InBudget(p, s)
    ensures InBudget(p, Process(p, s, cmd))
  {
  }

  lemma {:induction false} DrainInBudget(p: Policy, s: Loop, commands: seq<Command>)
    requires InBudget(p, s)
    ensures InBudget(p, Drain(p, s, commands))
  {
    hide InBudget, Process;
    if commands != [] {
      DrainInBudget(p, s, commands[..|commands| - 1]);
      ProcessInBudget(p, Drain(p, s, commands[..|commands| - 1]), commands[|commands| - 1]);
    }
  }

  lemma TickActiveProgress(p: Policy, s: Loop, outcome: TickOutcome)
    requires InBudget(p, s)
    ensures Progressed(p, s, TickActive(s, outcome).next, 0)
  {
    hide TickController, RestoreLastKnownGoodActive, CanaryBound, RolloutBound;
  }

  lemma FailedLeaves(s: Loop, fallback: bool, command: Option<Frame>)
    ensures var t := Actuate(FailCandidate(s, fallback), command); t.stage.None? && !t.requested && t.candidate.None?
  {
  }

  lemma TryPromoteProgress(p: Policy, s: Loop, mode: ExecutionMode, target: DeploymentState)
    requires p.AllowsRollout() && s.candidate.Some? && s.requested
    ensures var t := TryPromote(s, mode, target);
      || (t.stage.None? && !t.requested)
      || (t.stage == Some(target) && target != Active && t.requested && t.candidate.Some?
          && (target == Shadow ==> t.shadowTicks == 0)
          && (target == Canary ==> t.canaryTicks == 0 && t.boundedTicks == 0))
  {
    hide Finalize, JudgeEvidence, SubmitEvidence, PromoteTo, RestoreLastKnownGoodActive, RetireCurrent;
  }

  lemma AdvanceProgress(p: Policy, s: Loop, counts: bool)
    requires InBudget(p, s) && s.candidate.Some? && (s.stage == Some(Canary) ==> counts)
    ensures Progressed(p, s, AdvanceCandidateStage(p, s, counts), 1)
  {
    hide TryPromote;
    if s.requested && s.stage.Some? && p.NextTarget(s.stage.value).Some? {
      var target := p.NextTarget(s.stage.value).value;
      assert CanaryBound(p) == p.maxBoundedTicks * p.CanaryTicksRequired() + p.CanaryTicksRequired();
      match s.stage.value {
        case VerifiedOnly => TryPromoteProgress(p, s, Verify, target);
        case Shadow => TryPromoteProgress(p, s.(shadowTicks := s.shadowTicks + 1), ShadowRun, target);
        case Canary => TryPromoteProgress(p, s.(canaryTicks := s.canaryTicks + 1), CanaryRun, target);
        case _ =>
      }
    }
  }

  /** A bounded canary tick spends one of the allowed M and throws the count away. */
  lemma BoundedTickProgress(p: Policy, s: Loop, t: Loop)
    requires InBudget(p, s) && s.stage == Some(Canary) && s.boundedTicks + 1 <= p.maxBoundedTicks
    requires t.stage == s.stage && t.candidate.Some? && s.candidate.Some? && t.requested == s.requested
    requires t.boundedTicks == s.boundedTicks + 1 && t.canaryTicks == 0
    ensures Progressed(p, s, t, 1)
  {
    var n := p.CanaryTicksRequired();
    var left := p.maxBoundedTicks - s.boundedTicks;
    assert (left - 1) * n == left * n - n;
  }

  lemma CanaryTickProgress(p: Policy, s: Loop, active: Option<Frame>, command: Frame, record: TickRecord)
    requires InBudget(p, s) && s.candidate.Some? && s.stage == Some(Canary)
    ensures Progressed(p, s, CanaryTick(p, s, active, command, record), 1)
  {
    hide BlendCommand, AdvanceCandidateStage, FailCandidate, Remaining;
    var b := BlendCommand(p, active, command, s.candidate.value.profile.spans);
    var t := s.(boundedTicks := s.boundedTicks + if b.bounded then 1 else 0)
              .Emit(CandidateTick(s.stage, record, IsRunning(s.active), active, Some(command), b.bounded));
    if b.bounded && t.boundedTicks > p.maxBoundedTicks {
      FailedLeaves(t, IsRunning(s.active), active);
    } else {
      var u := Actuate(t, Some(b.frame));
      if b.bounded {
        UncountedTick(p, u);
        BoundedTickProgress(p, s, AdvanceCandidateStage(p, u, false));
      } else {
        SameRemaining(p, s, u);
        AdvanceProgress(p, u, true);
      }
    }
  }

  lemma UncountedTick(p: Policy, u: Loop)
    requires u.candidate.Some? && u.requested && u.stage == Some(Canary) && p.AllowsRollout()
    ensures AdvanceCandidateStage(p, u, false) == u.(canaryTicks := 0)
  {
  }

  lemma SameRemaining(p: Policy, s: Loop, t: Loop)
    requires s.stage == t.stage && s.shadowTicks == t.shadowTicks && s.canaryTicks == t.canaryTicks && s.boundedTicks == t.boundedTicks
    ensures Remaining(p, s) == Remaining(p, t)
  {
  }

  lemma TickCandidateProgress(p: Policy, s: Loop, active: Option<Frame>, outcome: TickOutcome)
    requires InBudget(p, s)
    ensures Progressed(p, s, TickCandidate(p, s, active, outcome), if IsRunning(s.candidate) then 1 else 0)
  {
    hide TickController, RecordOf, CanaryTick, AdvanceCandidateStage, FailCandidate, CandidateFails, Remaining;
    if !IsRunning(s.candidate) {
      SameRemaining(p, s, Actuate(s, active));
      return;
    }
    var t := TickController(s.candidate.value, outcome, s.sensors);
    TickControllerFacts(s.candidate.value, outcome, s.sensors);
    var u := s.(candidate := Some(t.controller.(running := !t.result.halted)));
    if CandidateFails(p, s, active, t) {
      FailedLeaves(u, IsRunning(s.active), active);
    } else {
      NotFailing(p, s, active, t);
      var record := RecordOf(s.candidate.value, outcome.values, outcome.micros, s.sensors);
      SameRemaining(p, s, u);
      if s.stage == Some(Canary) {
        CanaryTickProgress(p, u, active, t.result.command.value, record);
      } else {
        var v := Actuate(u.Emit(CandidateTick(s.stage, record, IsRunning(s.active), active, t.result.command, false)), active);
        SameRemaining(p, s, v);
        AdvanceProgress(p, v, true);
      }
    }
  }

  // ------------------------------------------------------------------
  // Runs without further commands
  // ------------------------------------------------------------------

  predicate NoCommands(input: TickInput) {
    input.emergency == [] && input.commands == []
  }

  /** The candidate gets to run on this tick. */
  predicate CandidateRuns(s: Loop, input: TickInput) {
    var t := ReadSensors(s, input.sensor);
    !(input.watchdogExpired && AnyRunning(t)) && IsRunning(TickActive(t, input.activeOutcome).next.candidate)
  }

  lemma RunTickProgress(p: Policy, s: Loop, input: TickInput)
    requires InBudget(p, s)
    ensures InBudget(p, RunTick(p, s, input))
    ensures NoCommands(input) ==> Progressed(p, s, RunTick(p, s, input), if CandidateRuns(s, input) then 1 else 0)
  {
    hide Drain, TickActive, TickCandidate, Remaining;
    DrainInBudget(p, s, input.emergency + input.commands);
    var d := Drain(p, s, input.emergency + input.commands);
    var t := ReadSensors(d, input.sensor);
    if NoCommands(input) {
      assert input.emergency + input.commands == [];
      DrainNothing(p, s);
      SameRemaining(p, s, t);
    }
    if input.watchdogExpired && AnyRunning(t) {
      SameRemaining(p, t, FireWatchdog(t));
    } else {
      TickActiveProgress(p, t, input.activeOutcome);
      var a := TickActive(t, input.activeOutcome);
      TickCandidateProgress(p, a.next, a.command, input.candidateOutcome);
    }
  }

  lemma DrainNothing(p: Policy, s: Loop)
    ensures Drain(p, s, []) == s
  {
  }

  /** The candidate's ticks in a run. */
  function CandidateTicks(p: Policy, s: Loop, inputs: seq<TickInput>): nat {
    if inputs == [] then 0
    else
      var n := |inputs| - 1;
      CandidateTicks(p, s, inputs[..n]) + if CandidateRuns(Run(p, s, inputs[..n]), inputs[n]) then 1 else 0
  }

  lemma {:induction false} RunProgress(p: Policy, s: Loop, inputs: seq<TickInput>)
    requires InBudget(p, s) && forall i :: 0 <= i < |inputs| ==> NoCommands(inputs[i])
    ensures Progressed(p, s, Run(p, s, inputs), CandidateTicks(p, s, inputs))
  {
    hide InBudget, Staged, Left, Remaining, RunTick, CandidateRuns, NoCommands;
    if inputs != [] {
      var n := |inputs| - 1;
      RunProgress(p, s, inputs[..n]);
      RunTickProgress(p, Run(p, s, inputs[..n]), inputs[n]);
      assert NoCommands(inputs[n]);
    }
  }

  lemma {:induction false} ReachableInBudget(p: Policy, history: seq<TickInput>)
    ensures InBudget(p, Run(p, INITIAL, history))
  {
    hide RunTick;
    if history != [] {
      ReachableInBudget(p, history[..|history| - 1]);
      RunTickProgress(p, Run(p, INITIAL, history[..|history| - 1]), history[|history| - 1]);
    }
  }

  /** From any reachable state, with no further commands: by the time the candidate has run
      1 + S + (M + 1) * N times it has left the staged rollout, and if it was in canary
      (M + 1) * N times are enough. */
  lemma RolloutTerminates(p: Policy, history: seq<TickInput>, inputs: seq<TickInput>)
    requires forall i :: 0 <= i < |inputs| ==> NoCommands(inputs[i])
    requires Staged(Run(p, INITIAL, history))
    ensures var s := Run(p, INITIAL, history);
      && (CandidateTicks(p, s, inputs) >= RolloutBound(p) ==> Left(Run(p, s, inputs)))
      && (s.stage == Some(Canary) && CandidateTicks(p, s, inputs) >= CanaryBound(p) ==> Left(Run(p, s, inputs)))
  {
    hide InBudget, Staged, Left, Remaining, Run, CandidateTicks;
    var s := Run(p, INITIAL, history);
    ReachableInBudget(p, history);
    RunProgress(p, s, inputs);
    RemainingBounds(p, s);
    RemainingBounds(p, Run(p, s, inputs));
  }
}
