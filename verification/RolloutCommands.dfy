/** What the commands of a tick amount to, whatever their number and order, and that no
    candidate advances unless somebody asked for it since it was loaded. */
module RolloutCommands {
  import opened Floats
  import opened Deployment
  import opened Artifacts
  import opened Evidence
  import opened Lifecycle
  import opened Canary
  import opened Controller
  import opened Rollout

  // ------------------------------------------------------------------
  // Reading a list of commands
  // ------------------------------------------------------------------

  /** From `from` on, the last command that switches controllers on or off leaves them on, or there is none and they were on. */
  ghost predicate OnAfter(commands: seq<Command>, from: nat, before: bool) {
    && (before || exists j :: from <= j < |commands| && commands[j] == Resume)
    && forall i :: from <= i < |commands| && commands[i] == Halt ==> exists j :: i < j < |commands| && commands[j] == Resume
  }

  /** From `from` on somebody asks for promotion. */
  ghost predicate AskedAfter(commands: seq<Command>, from: nat) {
    exists i :: from <= i < |commands| && commands[i] == PromoteActive
  }

  /** Loading command `k` is the last one of its kind. */
  predicate LastLoad(commands: seq<Command>, k: nat) {
    && k < |commands| && commands[k].LoadPrepared?
    && forall i :: k < i < |commands| ==> !commands[i].LoadPrepared?
  }

  predicate NoLoad(commands: seq<Command>) {
    forall i :: 0 <= i < |commands| ==> !commands[i].LoadPrepared?
  }

  /** The policy has authority, and the verifier passed the artifact or had only warnings. */
  predicate Eligible(p: Policy, a: Artifact) {
    && p.source in {RuntimeBlueprint, ExplicitOverride}
    && a.verdict.Some?
    && (a.verdict.value.Pass? || (a.verdict.value.Fail? && Critical !in a.verdict.value.failures))
  }

  lemma EligibleIsEligible(p: Policy, a: Artifact)
    ensures Eligible(p, a) <==> p.AllowsRollout() && a.PromotionEligible()
  {
    if a.verdict.Some? && a.verdict.value.Fail? {
      var f := a.verdict.value.failures;
      assert Critical in f <==> exists i :: 0 <= i < |f| && f[i] == Critical;
    }
  }

  lemma OnAfterOne(commands: seq<Command>, cmd: Command, from: nat, before: bool)
    requires from <= |commands|
    ensures OnAfter(commands + [cmd], from, before) <==>
      cmd == Resume || (cmd != Halt && OnAfter(commands, from, before))
  {
    var all := commands + [cmd];
    var n := |commands|;
    assert all[n] == cmd && forall i :: 0 <= i < n ==> all[i] == commands[i];
    if cmd != Resume && cmd != Halt && OnAfter(commands, from, before) {
      forall i | from <= i < |all| && all[i] == Halt
        ensures exists j :: i < j < |all| && all[j] == Resume
      {
        var j :| i < j < n && commands[j] == Resume;
        assert all[j] == Resume;
      }
      if !before {
        var j :| from <= j < n && commands[j] == Resume;
        assert all[j] == Resume;
      }
    }
    if cmd != Resume && cmd != Halt && OnAfter(all, from, before) {
      forall i | from <= i < n && commands[i] == Halt
        ensures exists j :: i < j < n && commands[j] == Resume
      {
        assert all[i] == Halt;
        var j :| i < j < |all| && all[j] == Resume;
        assert commands[j] == Resume;
      }
      if !before {
        var j :| from <= j < |all| && all[j] == Resume;
        assert commands[j] == Resume;
      }
    }
  }

  lemma AskedAfterOne(commands: seq<Command>, cmd: Command, from: nat)
    requires from <= |commands|
    ensures AskedAfter(commands + [cmd], from) <==> cmd == PromoteActive || AskedAfter(commands, from)
  {
    var all := commands + [cmd];
    assert all[|commands|] == cmd && forall i :: 0 <= i < |commands| ==> all[i] == commands[i];
    if AskedAfter(commands, from) {
      var i :| from <= i < |commands| && commands[i] == PromoteActive;
      assert all[i] == PromoteActive;
    }
  }

  // ------------------------------------------------------------------
  // Draining
  // ------------------------------------------------------------------

  /** The controller is the same up to whether it runs. */
  ghost predicate Switched(before: Option<LoadedController>, after: Option<LoadedController>, commands: seq<Command>) {
    && before.Some? == after.Some?
    && (after.Some? ==>
          && after.value.running == OnAfter(commands, 0, before.value.running)
          && after.value.(running := before.value.running) == before.value)
  }

  /** Commands touch the active and the rollback slot only by switching them. */
  lemma {:induction false} DrainSwitches(p: Policy, s: Loop, commands: seq<Command>)
    ensures var t := Drain(p, s, commands);
      && Switched(s.active, t.active, commands) && Switched(s.rollback, t.rollback, commands)
      && t == s.(active := t.active, candidate := t.candidate, rollback := t.rollback, lifecycle := t.lifecycle,
                 stage := t.stage, requested := t.requested, goodId := t.goodId, log := t.log)
  {
    hide OnAfter;
    if commands == [] {
      assert OnAfter([], 0, true) && !OnAfter([], 0, false) by {
        NothingSwitches();
      }
    } else {
      var n := |commands| - 1;
      DrainSwitches(p, s, commands[..n]);
      assert commands == commands[..n] + [commands[n]];
      hide Process, Switched;
      ProcessSwitches(p, s, Drain(p, s, commands[..n]), commands[..n], commands[n]);
    }
  }

  lemma ProcessSwitches(p: Policy, s: Loop, t: Loop, commands: seq<Command>, cmd: Command)
    requires Switched(s.active, t.active, commands) && Switched(s.rollback, t.rollback, commands)
    ensures var u := Process(p, t, cmd);
      && Switched(s.active, u.active, commands + [cmd]) && Switched(s.rollback, u.rollback, commands + [cmd])
      && u == t.(active := u.active, candidate := u.candidate, rollback := u.rollback, lifecycle := u.lifecycle,
                 stage := u.stage, requested := u.requested, goodId := u.goodId, log := u.log)
  {
    hide OnAfter, LoadArtifact, FromPrepared;
    OnAfterOne(commands, cmd, 0, true);
    OnAfterOne(commands, cmd, 0, false);
  }

  lemma NothingSwitches()
    ensures OnAfter([], 0, true) && !OnAfter([], 0, false)
  {
  }

  /** Commands that load nothing keep the candidate, the lifecycle and the log; they arm an
      eligible candidate if and only if they ask for it, and its rollout then starts over. */
  lemma {:induction false} DrainWithoutLoad(p: Policy, s: Loop, commands: seq<Command>)
    requires NoLoad(commands)
    ensures var t := Drain(p, s, commands);
      var armed := s.candidate.Some? && Eligible(p, s.candidate.value.artifact) && AskedAfter(commands, 0);
      && Switched(s.candidate, t.candidate, commands)
      && t.lifecycle == s.lifecycle && t.log == s.log && t.goodId == s.goodId
      && (t.requested <==> s.requested || armed)
      && t.stage == (if armed then Some(VerifiedOnly) else s.stage)
  {
    hide OnAfter, AskedAfter, Eligible;
    if commands == [] {
      NothingSwitches();
      assert !AskedAfter([], 0) by {
        NothingAsked([]);
      }
    } else {
      var n := |commands| - 1;
      DrainWithoutLoad(p, s, commands[..n]);
      assert commands == commands[..n] + [commands[n]];
      OnAfterOne(commands[..n], commands[n], 0, true);
      OnAfterOne(commands[..n], commands[n], 0, false);
      AskedAfterOne(commands[..n], commands[n], 0);
      if s.candidate.Some? {
        EligibleIsEligible(p, s.candidate.value.artifact);
      }
    }
  }

  lemma NothingAsked(commands: seq<Command>)
    ensures !AskedAfter(commands, |commands|)
  {
  }

  /** Otherwise the last load decides, from any state and whatever came before it: the candidate is
      that controller, fresh; the lifecycle is on its artifact in VerifiedOnly, and keeps what
      was Active, if something was; and it is armed if and only if it is eligible and
      somebody asked after the load. */
  lemma {:induction false} LastLoadDecides(p: Policy, s: Loop, commands: seq<Command>, k: nat)
    requires LastLoad(commands, k)
    ensures var t := Drain(p, s, commands);
      var c := commands[k].p;
      var kept := if s.lifecycle.stage == Some(Active) then s.lifecycle.current else s.lifecycle.lastKnownGood;
      && t.candidate == Some(LoadedController(c.artifact, OnAfter(commands, k + 1, true), c.profile, [],
                                              NewCollector(c.artifact.controllerId, c.profile.channels)))
      && t.lifecycle == State(Some(c.artifact), Some(VerifiedOnly), None, kept)
      && t.goodId == (if kept.Some? then Some(kept.value.controllerId) else None)
      && t.stage == Some(VerifiedOnly)
      && (t.requested <==> Eligible(p, c.artifact) && AskedAfter(commands, k + 1))
  {
    hide OnAfter, AskedAfter, Eligible, NewCollector;
    var n := |commands| - 1;
    assert commands == commands[..n] + [commands[n]];
    EligibleIsEligible(p, commands[k].p.artifact);
    if k == n {
      DrainKept(p, s, commands[..n]);
      AllOn(commands);
      NothingAsked(commands);
    } else {
      LastLoadDecides(p, s, commands[..n], k);
      OnAfterOne(commands[..n], commands[n], k + 1, true);
      AskedAfterOne(commands[..n], commands[n], k + 1);
    }
  }

  lemma AllOn(commands: seq<Command>)
    ensures OnAfter(commands, |commands|, true)
  {
  }

  /** Further loads do not change what is kept. */
  lemma {:induction false} DrainKept(p: Policy, s: Loop, commands: seq<Command>)
    ensures var t := Drain(p, s, commands).lifecycle;
      (if t.stage == Some(Active) then t.current else t.lastKnownGood)
      == if s.lifecycle.stage == Some(Active) then s.lifecycle.current else s.lifecycle.lastKnownGood
  {
    if commands != [] {
      DrainKept(p, s, commands[..|commands| - 1]);
    }
  }

  // ------------------------------------------------------------------
  // Nobody advances unasked
  // ------------------------------------------------------------------

  /** All commands of a run, in the order in which they are processed. */
  function AllCommands(inputs: seq<TickInput>): seq<Command> {
    if inputs == [] then []
    else AllCommands(inputs[..|inputs| - 1]) + (inputs[|inputs| - 1].emergency + inputs[|inputs| - 1].commands)
  }

  /** Somebody asked for promotion, and nothing was loaded since. */
  ghost predicate AskedSinceLoad(commands: seq<Command>) {
    exists i :: 0 <= i < |commands| && commands[i] == PromoteActive && NoLoad(commands[i + 1..])
  }

  /** Stages entered and promotions made. */
  function Advances(log: Log): nat {
    match log
    case Empty => 0
    case Snoc(before, e) => Advances(before) + if e.StageAccepted? || e.Promoted? then 1 else 0
  }

  lemma AskedSinceLoadOne(commands: seq<Command>, cmd: Command)
    requires cmd == PromoteActive || (!cmd.LoadPrepared? && AskedSinceLoad(commands))
    ensures AskedSinceLoad(commands + [cmd])
  {
    var all := commands + [cmd];
    if cmd == PromoteActive {
      assert all[|commands|] == PromoteActive && all[|commands| + 1..] == [];
    } else {
      var i :| 0 <= i < |commands| && commands[i] == PromoteActive && NoLoad(commands[i + 1..]);
      assert all[i] == PromoteActive && all[i + 1..] == commands[i + 1..] + [cmd];
    }
  }

  lemma {:induction false} DrainAsked(p: Policy, s: Loop, past: seq<Command>, commands: seq<Command>)
    requires s.requested ==> AskedSinceLoad(past)
    ensures Drain(p, s, commands).requested ==> AskedSinceLoad(past + commands)
    ensures Advances(Drain(p, s, commands).log) == Advances(s.log)
  {
    hide AskedSinceLoad;
    if commands == [] {
      assert past + commands == past;
    } else {
      var n := |commands| - 1;
      DrainAsked(p, s, past, commands[..n]);
      assert past + commands == past + commands[..n] + [commands[n]];
      if Drain(p, s, commands).requested {
        AskedSinceLoadOne(past + commands[..n], commands[n]);
      }
    }
  }

  /** An unarmed candidate neither advances nor gets armed by running. */
  lemma UnarmedStays(p: Policy, s: Loop, input: TickInput)
    requires !s.requested
    ensures Unarmed(s, TickControllers(p, s, input))
  {
    hide TickController, TickCandidate, RestoreLastKnownGoodActive;
    var a := TickActive(s, input.activeOutcome);
    RecoverUnarmed(s, input.activeOutcome);
    CandidateUnarmed(p, a.next, a.command, input.candidateOutcome);
  }

  lemma RecoverUnarmed(s: Loop, outcome: TickOutcome)
    requires !s.requested
    ensures Unarmed(s, TickActive(s, outcome).next)
  {
    hide TickController, Recover;
    if IsRunning(s.active) {
      var t := TickController(s.active.value, outcome, s.sensors);
      TickControllerFacts(s.active.value, outcome, s.sensors);
      RecoverAdvancesNothing(s.(active := Some(t.controller.(running := !t.result.halted))));
    }
  }

  lemma RecoverAdvancesNothing(s: Loop)
    requires s.active.Some? && !s.requested
    ensures Unarmed(s, Recover(s))
  {
    assert Advances(Snoc(s.log, RestoreFailed)) == Advances(s.log);
    assert Advances(Snoc(Snoc(s.log, RestoreFailed), EstopRaised)) == Advances(s.log);
    if s.rollback.Some? && s.lifecycle.lastKnownGood.Some? {
      var e := Restored(s.active.value.artifact, s.rollback.value.artifact, s.lifecycle.lastKnownGood.value);
      assert Advances(Snoc(s.log, e)) == Advances(s.log);
    }
  }

  predicate Unarmed(s: Loop, t: Loop) {
    !t.requested && Advances(t.log) == Advances(s.log)
  }

  lemma FailUnarmed(s: Loop, fallback: bool, command: Option<Frame>)
    ensures Unarmed(s, Actuate(FailCandidate(s, fallback), command))
  {
    hide RestoreLastKnownGoodActive, RetireCurrent;
    assert Advances(Snoc(s.log, EstopRaised)) == Advances(s.log);
    assert Advances(Snoc(Snoc(s.log, EstopRaised), CandidateRejected)) == Advances(s.log);
    assert Advances(FailCandidate(s, fallback).log) == Advances(s.log);
  }

  lemma AdvanceUnarmed(p: Policy, s: Loop, counts: bool)
    requires s.candidate.Some? && !s.requested
    ensures AdvanceCandidateStage(p, s, counts) == s
  {
  }

  lemma CandidateUnarmed(p: Policy, s: Loop, active: Option<Frame>, outcome: TickOutcome)
    requires !s.requested
    ensures Unarmed(s, TickCandidate(p, s, active, outcome))
  {
    hide TickController, RecordOf, FailCandidate, CandidateFails, BlendCommand, AdvanceCandidateStage;
    if IsRunning(s.candidate) {
      var t := TickController(s.candidate.value, outcome, s.sensors);
      TickControllerFacts(s.candidate.value, outcome, s.sensors);
      var u := s.(candidate := Some(t.controller.(running := !t.result.halted)));
      if CandidateFails(p, s, active, t) {
        FailUnarmed(u, IsRunning(s.active), active);
      } else {
        NotFailing(p, s, active, t);
        var record := RecordOf(s.candidate.value, outcome.values, outcome.micros, s.sensors);
        if s.stage == Some(Canary) {
          CanaryUnarmed(p, u, active, t.result.command.value, record);
        } else {
          var v := u.Emit(CandidateTick(s.stage, record, IsRunning(s.active), active, t.result.command, false));
          assert Advances(v.log) == Advances(s.log);
          AdvanceUnarmed(p, Actuate(v, active), true);
        }
      }
    }
  }

  lemma CanaryUnarmed(p: Policy, s: Loop, active: Option<Frame>, command: Frame, record: TickRecord)
    requires s.candidate.Some? && !s.requested
    ensures Unarmed(s, CanaryTick(p, s, active, command, record))
  {
    hide FailCandidate, BlendCommand, AdvanceCandidateStage;
    var b := BlendCommand(p, active, command, s.candidate.value.profile.spans);
    var t := s.(boundedTicks := s.boundedTicks + if b.bounded then 1 else 0)
              .Emit(CandidateTick(s.stage, record, IsRunning(s.active), active, Some(command), b.bounded));
    assert Advances(t.log) == Advances(s.log);
    FailUnarmed(t, IsRunning(s.active), active);
    AdvanceUnarmed(p, Actuate(t, Some(b.frame)), !b.bounded);
  }

  /** Over every run: a candidate is armed, enters a stage or becomes active only if somebody asked
      for promotion after the last load. So a load never inherits its predecessor's arming. */
  lemma {:induction false} NobodyAdvancesUnasked(p: Policy, inputs: seq<TickInput>)
    ensures var s := Run(p, INITIAL, inputs);
      && (s.requested ==> AskedSinceLoad(AllCommands(inputs)))
      && (inputs != [] && Advances(s.log) > Advances(Run(p, INITIAL, inputs[..|inputs| - 1]).log) ==>
            AskedSinceLoad(AllCommands(inputs)))
  {
    if inputs != [] {
      var n := |inputs| - 1;
      var input := inputs[n];
      NobodyAdvancesUnasked(p, inputs[..n]);
      hide Drain, TickControllers, AskedSinceLoad, Advances;
      var s := Run(p, INITIAL, inputs[..n]);
      DrainAsked(p, s, AllCommands(inputs[..n]), input.emergency + input.commands);
      var t := ReadSensors(Drain(p, s, input.emergency + input.commands), input.sensor);
      WatchdogAdvancesNothing(t);
      if !t.requested {
        UnarmedStays(p, t, input);
      }
    }
  }

  lemma WatchdogAdvancesNothing(s: Loop)
    ensures Advances(FireWatchdog(s).log) == Advances(s.log)
  {
    assert Advances(s.EmitZero().log) == Advances(s.log);
  }
}
