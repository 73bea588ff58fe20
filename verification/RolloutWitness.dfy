/** Concrete runs: promotions are reachable, the slots and the lifecycle can part and stay
    apart, a full rollback slot can be lost, and a halt can leave a joint moving. */
module RolloutWitness {
  import opened Floats
  import opened Deployment
  import opened Artifacts
  import opened SafetyFilter
  import opened Evidence
  import opened Lifecycle
  import opened Canary
  import opened Controller
  import opened Rollout
  import opened RolloutFrames
  import opened RolloutPlant

  /** Canary only, one tick, a quarter of the span. */
  const POLICY := Policy(ExplicitOverride, false, true, 1, 1, 2500, 2500, 0)

  const PROFILE: ControlProfile :=
    Profile(["j"], [2.0], Config([JointLimits("j", 1.0, Unlimited, -10.0, 10.0)], None, 0.01))

  const KEY := VerificationKey(Digests("c", "w", "m", "k", "f", "x"), Verify, None)

  const FRAME: Frame := [0.5]

  /** Every controller returns the same half-speed command. */
  const HALF_SPEED := Returned([Finite(0.5)], 0)

  const RECORD := TickRecord(0, [Finite(0.5)], [])

  const NO_SENSORS := Sensors([], [], None)

  const AT_ZERO := Sensors([Finite(0.0)], [], None)

  /** Nothing is reported, or the joint in the middle of its range. */
  predicate Calm(x: Sensors) {
    x == NO_SENSORS || x == AT_ZERO
  }

  function Art(id: string): Artifact {
    Artifact(id, KEY, Some(Pass))
  }

  function Candidate(id: string, previous: seq<real>, collector: Collector): LoadedController {
    LoadedController(Art(id), true, PROFILE, previous, collector)
  }

  predicate Sound(c: LoadedController) {
    c.profile == PROFILE && c.running && (c.previous == [] || c.previous == FRAME)
  }

  lemma SoundFilter(prev: seq<real>, positions: Option<seq<F64>>)
    requires (prev == [] || prev == FRAME) && (positions == None || positions == Some([Finite(0.0)]))
    ensures FilterTick(PROFILE.filter, prev, [Finite(0.5)], positions, None) == FilterResult(FRAME, [], false)
  {
    var cfg := PROFILE.filter;
    var l := cfg.limits[0];
    assert ValidLimits(l);
    assert VelocityStage(l, 0.5) == Staged(0.5, []);
    assert AccelerationStage(l, 0.5, At(prev, 0), cfg.period) == Staged(0.5, []);
    assert FilterChannel(cfg, prev, Finite(0.5), 0, positions) == Staged(0.5, []);
    assert ChannelAudits(cfg, prev, [Finite(0.5)], positions, 0) == [];
    assert ChannelAudits(cfg, prev, [Finite(0.5)], positions, 1) == [];
    assert FilterTick(cfg, prev, [Finite(0.5)], positions, None).commands == FRAME;
  }

  lemma SoundTick(c: LoadedController, sensors: Sensors)
    requires Sound(c) && Calm(sensors)
    ensures var t := TickController(c, HALF_SPEED, sensors);
      && t.result == TickResult(Some(FRAME), false)
      && t.controller == c.(previous := FRAME, collector := AfterTick(c.collector, RECORD))
    ensures RecordOf(c, [Finite(0.5)], 0, sensors) == RECORD
  {
    assert AT_ZERO.positions + AT_ZERO.velocities == [Finite(0.0)];
    SoundFilter(c.previous, sensors.StateValues());
    hide FilterTick, AfterTick;
    assert RawCommands(1, [Finite(0.5)]) == [Finite(0.5)];
    assert Kinds([]) == [];
    var r := FilterResult(FRAME, [], false);
    assert Filtered(c, [Finite(0.5)], sensors) == r;
    assert RawCommands(1, [Finite(0.5)])[0] == Finite(0.5);
    assert !AllDefault(RawCommands(1, [Finite(0.5)]));
  }

  lemma FreshEvidencePasses(id: string, mode: ExecutionMode)
    ensures var b := JudgeEvidence(Finalize(AfterTick(NewCollector(id, ["j"]), RECORD), KEY.digests, mode));
      && b.status == Complete && b.controllerId == id && b.mode == mode && b.digests == KEY.digests
      && !b.HasSafetyIssues() && !b.HasUntouchedChannels()
  {
    var c := AfterTick(NewCollector(id, ["j"]), RECORD);
    assert "j" in Covered(["j"], 1) by {
      assert ["j"][0] in Covered(["j"], 1);
    }
    var channels := ["j"];
    assert channels[..0] == [];
    assert Select(channels, c.touched, false) == [];
    assert c.unexpected == [];
  }

  lemma FreshPromotion(s: Loop, id: string, mode: ExecutionMode, target: DeploymentState)
    requires s.candidate == Some(Candidate(id, FRAME, AfterTick(NewCollector(id, ["j"]), RECORD)))
    requires s.lifecycle.current == Some(Art(id)) && s.lifecycle.stage.Some?
    requires mode == ModeFor(s.lifecycle.stage.value) && CanTransition(s.lifecycle.stage.value, target)
    ensures var r := SubmitStageEvidenceAndPromote(s, mode, target);
      && r.accepted
      && r.next == s.(candidate := Some(Candidate(id, FRAME, NewCollector(id, ["j"]))),
                      lifecycle := s.lifecycle.(stage := Some(target), evidence := None),
                      log := r.next.log)
  {
    FreshEvidencePasses(id, mode);
    hide Finalize, JudgeEvidence, AfterTick;
    var bundle := StageBundle(s.candidate.value, mode);
    GateIsConjunction(SubmitEvidence(s.lifecycle, bundle).next, KEY, target);
  }

  const IDLE := TickInput([], [], None, false, HALF_SPEED, HALF_SPEED)

  function LoadAndArm(id: string): TickInput {
    IDLE.(commands := [LoadPrepared(Prepared(Art(id), PROFILE)), PromoteActive])
  }

  predicate Ready(s: Loop) {
    && Calm(s.sensors)
    && (s.active.Some? ==> Sound(s.active.value))
    && (s.rollback.Some? ==> Sound(s.rollback.value.(running := true)))
  }

  /** The active controller's tick, when nothing goes wrong. */
  lemma ActiveTicks(s: Loop)
    requires Ready(s)
    ensures var a := TickActive(s, HALF_SPEED);
      && Ready(a.next) && a.next == s.(active := a.next.active)
      && a.next.active.Some? == s.active.Some?
      && (s.active.Some? ==> a.next.active.value.artifact == s.active.value.artifact && a.command == Some(FRAME))
      && (s.active.None? ==> a.command.None?)
  {
    hide TickController, AfterTick;
    if s.active.Some? {
      SoundTick(s.active.value, s.sensors);
    }
  }

  lemma DrainTwo(p: Policy, s: Loop, a: Command, b: Command)
    ensures Drain(p, s, [a, b]) == Process(p, Process(p, s, a), b)
  {
    hide Process;
    var commands := [a, b];
    assert commands[..1] == [a] && [a][..0] == [];
    assert Drain(p, s, [a]) == Process(p, Drain(p, s, []), a);
  }

  /** Loading and arming: after one tick the candidate is in canary. */
  lemma FirstTick(s: Loop, id: string)
    requires Ready(s)
    ensures var t := RunTick(POLICY, s, LoadAndArm(id));
      && Ready(t) && t.sensors == s.sensors && t.candidate == Some(Candidate(id, FRAME, NewCollector(id, ["j"])))
      && t.stage == Some(Canary) && t.requested && t.canaryTicks == 0 && t.boundedTicks == 0 && t.rollback == s.rollback
      && t.lifecycle == State(Some(Art(id)), Some(Canary), None, LoadArtifact(s.lifecycle, Art(id)).lastKnownGood)
      && t.active.Some? == s.active.Some? && (s.active.Some? ==> t.active.value.artifact == s.active.value.artifact)
  {
    var commands := LoadAndArm(id).commands;
    assert [] + commands == commands;
    DrainTwo(POLICY, s, commands[0], commands[1]);
    var d := Drain(POLICY, s, commands);
    var c := Candidate(id, [], NewCollector(id, ["j"]));
    assert d.candidate == Some(c);
    ActiveTicks(d);
    hide TickActive, Drain, TickCandidate;
    var a := TickActive(d, HALF_SPEED);
    FreshCandidateTick(a.next, id, a.command);
  }

  /** A freshly loaded, armed candidate: one tick takes it to canary. */
  lemma FreshCandidateTick(s: Loop, id: string, active: Option<Frame>)
    requires Ready(s) && s.candidate == Some(Candidate(id, [], NewCollector(id, ["j"])))
    requires s.stage == Some(VerifiedOnly) && s.requested
    requires s.lifecycle.current == Some(Art(id)) && s.lifecycle.stage == Some(VerifiedOnly)
    ensures var t := TickCandidate(POLICY, s, active, HALF_SPEED);
      t == s.(candidate := Some(Candidate(id, FRAME, NewCollector(id, ["j"]))), stage := Some(Canary),
              canaryTicks := 0, boundedTicks := 0,
              lifecycle := s.lifecycle.(stage := Some(Canary), evidence := None),
              lastWidth := t.lastWidth, log := t.log)
  {
    var c := s.candidate.value;
    var u := s.(candidate := Some(c.(previous := FRAME, collector := AfterTick(c.collector, RECORD))));
    var v := Actuate(u.Emit(CandidateTick(Some(VerifiedOnly), RECORD, IsRunning(s.active), active, Some(FRAME), false)), active);
    FreshTickAdvances(s, id, active, v);
    hide TickCandidate, AfterTick, AdvanceCandidateStage;
    FreshAdvance(v, id);
  }

  lemma FreshAdvance(s: Loop, id: string)
    requires s.candidate == Some(Candidate(id, FRAME, AfterTick(NewCollector(id, ["j"]), RECORD)))
    requires s.stage == Some(VerifiedOnly) && s.requested
    requires s.lifecycle.current == Some(Art(id)) && s.lifecycle.stage == Some(VerifiedOnly)
    ensures var t := AdvanceCandidateStage(POLICY, s, true);
      t == s.(candidate := Some(Candidate(id, FRAME, NewCollector(id, ["j"]))), stage := Some(Canary),
              canaryTicks := 0, boundedTicks := 0,
              lifecycle := s.lifecycle.(stage := Some(Canary), evidence := None), log := t.log)
  {
    hide AfterTick, SubmitStageEvidenceAndPromote, Reject;
    FreshPromotion(s, id, Verify, Canary);
  }

  lemma FreshTickAdvances(s: Loop, id: string, active: Option<Frame>, v: Loop)
    requires Ready(s) && s.candidate == Some(Candidate(id, [], NewCollector(id, ["j"])))
    requires s.stage == Some(VerifiedOnly)
    requires var c := s.candidate.value;
      v == Actuate(
        s.(candidate := Some(c.(previous := FRAME, collector := AfterTick(c.collector, RECORD))))
         .Emit(CandidateTick(Some(VerifiedOnly), RECORD, IsRunning(s.active), active, Some(FRAME), false)), active)
    ensures TickCandidate(POLICY, s, active, HALF_SPEED) == AdvanceCandidateStage(POLICY, v, true)
  {
    SoundTick(s.candidate.value, s.sensors);
    hide TickController, AfterTick, RecordOf, Actuate, AdvanceCandidateStage;
  }

  lemma EqualCommandsCompare()
    ensures CompareSpec(Some(FRAME), Some(FRAME), [2.0]) == Compared(0.0, Finite(0.0))
    ensures !Above(Finite(0.0), POLICY.MaxStageDelta())
  {
    assert Delta(FRAME, FRAME, 0) == 0.0;
    assert MaxAbsDelta(FRAME, FRAME, 0) == 0.0 && MaxAbsDelta(FRAME, FRAME, 1) == 0.0;
    assert Divide(0.0, 2.0) == Finite(0.0);
    assert MaxNormalizedDelta(FRAME, FRAME, [2.0], 0) == Finite(0.0);
    assert MaxNormalizedDelta(FRAME, FRAME, [2.0], 1) == Finite(0.0);
  }

  lemma EqualCommandsBlend(active: Option<Frame>)
    requires active.None? || active == Some(FRAME)
    ensures BlendCommand(POLICY, active, FRAME, [2.0]) == Blend(FRAME, false)
  {
    var d := POLICY.CanaryMaxDelta();
    BoundChannelEnvelope(0.5, 0.5, 2.0, d);
    hide AllowedDelta, BoundChannel;
    assert AllowedDelta(2.0, d) >= 0.0;
    if active.Some? {
      var b := BoundCanaryCommand(active, FRAME, [2.0], d).value;
      assert b[0] == BoundChannel(0.5, 0.5, 2.0, d) == 0.5;
      assert b == FRAME;
    }
  }

  lemma EqualCommandsPass(s: Loop, active: Option<Frame>, t: Ticked)
    requires active.None? || active == Some(FRAME)
    requires IsRunning(s.active) <==> active.Some?
    requires t.result == TickResult(Some(FRAME), false) && t.controller.profile == PROFILE
    ensures !CandidateFails(POLICY, s, active, t)
  {
    EqualCommandsCompare();
    hide CompareSpec, Above;
  }

  predicate InCanary(s: Loop, id: string, collector: Collector) {
    && Ready(s) && s.candidate == Some(Candidate(id, FRAME, collector))
    && s.stage == Some(Canary) && s.requested && s.canaryTicks == 0 && s.boundedTicks == 0
    && s.lifecycle.current == Some(Art(id)) && s.lifecycle.stage == Some(Canary)
  }

  predicate TookOver(s: Loop, t: Loop, id: string) {
    && Ready(t) && t.candidate.None? && t.active.Some? && t.active.value.artifact == Art(id)
    && t.lifecycle == s.lifecycle.(stage := Some(Active), evidence := None)
    && t.rollback.Some? == (s.active.Some? || s.rollback.Some?)
    && (s.active.Some? ==> t.rollback.value.artifact == s.active.value.artifact)
  }

  lemma CanaryTakesOver(u: Loop, id: string, active: Option<Frame>)
    requires InCanary(u, id, AfterTick(NewCollector(id, ["j"]), RECORD)) && (active.None? || active == Some(FRAME))
    ensures TookOver(u, CanaryTick(POLICY, u, active, FRAME, RECORD), id)
  {
    EqualCommandsBlend(active);
    hide AfterTick, SubmitStageEvidenceAndPromote, BlendCommand;
    var e := CandidateTick(Some(Canary), RECORD, IsRunning(u.active), active, Some(FRAME), false);
    var v := Actuate(u.Emit(e), Some(FRAME));
    FreshPromotion(v.(canaryTicks := 1), id, CanaryRun, Active);
    assert CanaryTick(POLICY, u, active, FRAME, RECORD) == AdvanceCandidateStage(POLICY, v, true);
  }

  lemma CandidateTakesOver(s: Loop, id: string, active: Option<Frame>)
    requires InCanary(s, id, NewCollector(id, ["j"]))
    requires (active.None? || active == Some(FRAME)) && (IsRunning(s.active) <==> active.Some?)
    ensures TookOver(s, TickCandidate(POLICY, s, active, HALF_SPEED), id)
  {
    var c := s.candidate.value;
    SoundTick(c, s.sensors);
    var t := TickController(c, HALF_SPEED, s.sensors);
    EqualCommandsPass(s, active, t);
    hide TickController, AfterTick, RecordOf, CanaryTick, CandidateFails;
    var u := s.(candidate := Some(c.(previous := FRAME, collector := AfterTick(c.collector, RECORD))));
    CanaryTakesOver(u, id, active);
    assert TickCandidate(POLICY, s, active, HALF_SPEED) == CanaryTick(POLICY, u, active, FRAME, RECORD);
  }

  /** The canary tick: the candidate becomes active and displaces the active controller. */
  lemma SecondTick(s: Loop, id: string)
    requires InCanary(s, id, NewCollector(id, ["j"]))
    ensures TookOver(s, RunTick(POLICY, s, IDLE), id)
  {
    assert Drain(POLICY, s, [] + []) == s;
    ActiveTicks(s);
    hide TickActive, Drain, TickCandidate;
    var a := TickActive(s, HALF_SPEED);
    CandidateTakesOver(a.next, id, a.command);
  }

  // ------------------------------------------------------------------
  // Putting ticks together
  // ------------------------------------------------------------------

  lemma {:induction false} RunConcat(p: Policy, s: Loop, a: seq<TickInput>, b: seq<TickInput>)
    ensures Run(p, s, a + b) == Run(p, Run(p, s, a), b)
  {
    hide RunTick;
    if b == [] {
      assert a + b == a;
    } else {
      assert (a + b)[..|a + b| - 1] == a + b[..|b| - 1];
      RunConcat(p, s, a, b[..|b| - 1]);
    }
  }

  lemma RunOne(p: Policy, s: Loop, i: TickInput)
    ensures Run(p, s, [i]) == RunTick(p, s, i)
  {
    hide RunTick;
    assert [i][..0] == [];
  }

  function Rollout2(id: string): seq<TickInput> {
    [LoadAndArm(id)] + [IDLE]
  }

  /** `id` is active; the lifecycle agrees and keeps what it took to be active before. */
  predicate RolledOut(s: Loop, t: Loop, id: string) {
    && Ready(t) && t.candidate.None? && t.active.Some? && t.active.value.artifact == Art(id)
    && t.lifecycle == State(Some(Art(id)), Some(Active), None, LoadArtifact(s.lifecycle, Art(id)).lastKnownGood)
    && t.rollback.Some? == (s.active.Some? || s.rollback.Some?)
    && (s.active.Some? ==> t.rollback.value.artifact == s.active.value.artifact)
  }

  /** Two ticks roll a controller out. */
  lemma RollsOut(s: Loop, id: string)
    requires Ready(s)
    ensures RolledOut(s, Run(POLICY, s, Rollout2(id)), id)
  {
    RunConcat(POLICY, s, [LoadAndArm(id)], [IDLE]);
    RunOne(POLICY, s, LoadAndArm(id));
    var t := RunTick(POLICY, s, LoadAndArm(id));
    RunOne(POLICY, t, IDLE);
    hide RunTick, Run;
    FirstTick(s, id);
    SecondTick(t, id);
  }

  /** After rolling out "a" and then "b". */
  const TWO_ROLLOUTS := Rollout2("a") + Rollout2("b")

  predicate AfterTwo(s: Loop) {
    && Ready(s) && s.candidate.None? && s.active.Some? && s.active.value.artifact == Art("b")
    && s.rollback.Some? && s.rollback.value.artifact == Art("a")
    && s.lifecycle == State(Some(Art("b")), Some(Active), None, Some(Art("a")))
  }

  lemma TwoRollouts()
    ensures AfterTwo(Run(POLICY, INITIAL, TWO_ROLLOUTS))
  {
    RunConcat(POLICY, INITIAL, Rollout2("a"), Rollout2("b"));
    RollsOut(INITIAL, "a");
    var s := Run(POLICY, INITIAL, Rollout2("a"));
    RollsOut(s, "b");
    hide Run;
  }

  /** Slot and lifecycle name different controllers. */
  predicate Parted(s: Loop, slot: string, reported: string) {
    && s.active.Some? && s.active.value.artifact == Art(slot)
    && s.lifecycle.current == Some(Art(reported)) && s.lifecycle.stage == Some(Active)
    && s.lifecycle.lastKnownGood == Some(Art(reported)) && s.goodId == Some(reported)
  }

  /** The active controller fails; the rollback one takes over without further ado. */
  lemma FailureRestores(d: Loop)
    requires Ready(d) && d.active.Some? && d.rollback.Some? && !IsTerminal(d.lifecycle.Stage())
    requires d.lifecycle.current.Some? && d.lifecycle.lastKnownGood.Some?
    requires d.candidate.Some? ==> Sound(d.candidate.value)
    ensures var t := TickControllers(POLICY, d, IDLE.(activeOutcome := Trapped));
      && Ready(t) && t.rollback.None?
      && t.active == SetRunning(d.rollback, true)
      && t.lifecycle == State(d.lifecycle.lastKnownGood, Some(Active), None, d.lifecycle.lastKnownGood)
      && t.goodId == IdOf(d.lifecycle.lastKnownGood)
  {
    hide TickController, AfterTick, RecordOf;
    TickControllerFacts(d.active.value, Trapped, d.sensors);
    var a := TickActive(d, Trapped);
    assert a.command.None? && a.next.stage.None? && !a.next.requested && IsRunning(a.next.active);
    if d.candidate.Some? {
      var c := a.next.candidate.value;
      SoundTick(c, a.next.sensors);
      assert !CandidateFails(POLICY, a.next, None, TickController(c, HALF_SPEED, a.next.sensors));
    }
  }

  const LOAD_C := LoadPrepared(Prepared(Art("c"), PROFILE))

  /** "b" fails after "c" was loaded. */
  const FAIL_AFTER_LOAD := IDLE.(commands := [LOAD_C], activeOutcome := Trapped)

  lemma FailAfterLoad(s: Loop)
    requires AfterTwo(s)
    ensures var t := RunTick(POLICY, s, FAIL_AFTER_LOAD); Ready(t) && t.rollback.None? && Parted(t, "a", "b")
  {
    assert [] + [LOAD_C] == [LOAD_C] && [LOAD_C][..0] == [];
    assert Drain(POLICY, s, [LOAD_C]) == Process(POLICY, Drain(POLICY, s, []), LOAD_C);
    FailureRestores(Process(POLICY, s, LOAD_C));
    hide Drain, TickActive, TickCandidate;
  }

  /** The active controller fails, and nothing was loaded. */
  const FAIL := IDLE.(activeOutcome := Trapped)

  lemma FailPlain(s: Loop)
    requires Ready(s) && s.candidate.None? && s.active.Some? && s.rollback.Some?
    requires s.lifecycle.stage == Some(Active) && s.lifecycle.current.Some? && s.lifecycle.lastKnownGood.Some?
    ensures var t := RunTick(POLICY, s, FAIL);
      && t.active == SetRunning(s.rollback, true)
      && t.lifecycle == State(s.lifecycle.lastKnownGood, Some(Active), None, s.lifecycle.lastKnownGood)
      && t.goodId == IdOf(s.lifecycle.lastKnownGood)
  {
    assert Drain(POLICY, s, [] + []) == s;
    FailureRestores(s);
    hide Drain, TickActive, TickCandidate;
  }

  /** Two rollouts, a load, and a failure of the second controller: five ticks. */
  const RUN := TWO_ROLLOUTS + [FAIL_AFTER_LOAD]

  lemma AfterRun()
    ensures var s := Run(POLICY, INITIAL, RUN); Ready(s) && s.rollback.None? && Parted(s, "a", "b")
  {
    TwoRollouts();
    RunConcat(POLICY, INITIAL, TWO_ROLLOUTS, [FAIL_AFTER_LOAD]);
    var s := Run(POLICY, INITIAL, TWO_ROLLOUTS);
    RunOne(POLICY, s, FAIL_AFTER_LOAD);
    FailAfterLoad(s);
    hide Run, RunTick;
  }

  /** In this run of five ticks the slot gets the older controller "a" back, while the
      lifecycle reinstates, and the loop reports, the controller "b" that has just failed. */
  lemma SlotAndLifecycleCanPart()
    ensures |RUN| == 5 && Parted(Run(POLICY, INITIAL, RUN), "a", "b")
  {
    AfterRun();
  }

  /** Three ticks later they are still apart, although nothing was loaded between the promotion
      of "d" and its failure. */
  const LONGER_RUN := RUN + (Rollout2("d") + [FAIL])

  lemma SlotAndLifecycleStayApart()
    ensures |LONGER_RUN| == 8 && Parted(Run(POLICY, INITIAL, LONGER_RUN), "a", "b")
  {
    AfterRun();
    var s := Run(POLICY, INITIAL, RUN);
    RunConcat(POLICY, INITIAL, RUN, Rollout2("d") + [FAIL]);
    RunConcat(POLICY, s, Rollout2("d"), [FAIL]);
    RollsOut(s, "d");
    var t := Run(POLICY, s, Rollout2("d"));
    RunOne(POLICY, t, FAIL);
    FailPlain(t);
    hide Run, RunTick;
  }

  // ------------------------------------------------------------------
  // Losing the rollback slot
  // ------------------------------------------------------------------

  /** "c" is loaded over the halted "b" and fails on its own. */
  const FAIL_ALONE := IDLE.(commands := [Halt, LOAD_C], candidateOutcome := Trapped)

  /** "b" is resumed and fails. */
  const RESUME_AND_FAIL := IDLE.(commands := [Resume], activeOutcome := Trapped)

  /** The active controller is halted with the rollback slot full and the lifecycle terminal. */
  predicate Stranded(s: Loop) {
    && s.active.Some? && s.rollback.Some? && s.candidate.None?
    && s.lifecycle.stage == Some(Rejected)
  }

  lemma FailAlone(s: Loop)
    requires AfterTwo(s)
    ensures Stranded(RunTick(POLICY, s, FAIL_ALONE))
  {
    assert [] + [Halt, LOAD_C] == [Halt, LOAD_C];
    DrainTwo(POLICY, s, Halt, LOAD_C);
    hide Drain, TickController, AfterTick, RecordOf;
    var d := Process(POLICY, Process(POLICY, s, Halt), LOAD_C);
    TickControllerFacts(d.candidate.value, Trapped, d.sensors);
  }

  lemma ResumeAndFail(s: Loop)
    requires Stranded(s)
    ensures var t := RunTick(POLICY, s, RESUME_AND_FAIL); t.active.None? && t.rollback.None? && t.estop
  {
    assert [] + [Resume] == [Resume] && [Resume][..0] == [];
    assert Drain(POLICY, s, [Resume]) == Process(POLICY, Drain(POLICY, s, []), Resume);
    hide Drain, TickController;
    var d := Process(POLICY, s, Resume);
    TickControllerFacts(d.active.value, Trapped, d.sensors);
  }

  const LOSING_RUN := TWO_ROLLOUTS + ([FAIL_ALONE] + [RESUME_AND_FAIL])

  /** In this run of six ticks "a" waits in the rollback slot when "b" fails, yet both are gone
      afterwards and the e-stop is raised, because the failure of "c" left the lifecycle terminal. */
  lemma RollbackSlotCanBeLost()
    ensures |LOSING_RUN| == 6
    ensures Stranded(Run(POLICY, INITIAL, TWO_ROLLOUTS + [FAIL_ALONE]))
    ensures var s := Run(POLICY, INITIAL, LOSING_RUN); s.active.None? && s.rollback.None? && s.estop
  {
    TwoRollouts();
    var s := Run(POLICY, INITIAL, TWO_ROLLOUTS);
    RunConcat(POLICY, INITIAL, TWO_ROLLOUTS, [FAIL_ALONE]);
    RunConcat(POLICY, INITIAL, TWO_ROLLOUTS, [FAIL_ALONE] + [RESUME_AND_FAIL]);
    RunConcat(POLICY, s, [FAIL_ALONE], [RESUME_AND_FAIL]);
    RunOne(POLICY, s, FAIL_ALONE);
    FailAlone(s);
    var t := RunTick(POLICY, s, FAIL_ALONE);
    RunOne(POLICY, t, RESUME_AND_FAIL);
    ResumeAndFail(t);
    hide Run, RunTick;
  }

  // ------------------------------------------------------------------
  // A halt that does not stop the joint
  // ------------------------------------------------------------------

  const JOINT := Joint.Joint(0, PROFILE.filter.limits[0], 0.01)

  const MOVING := [LoadAndArm("a").(sensor := Some(AT_ZERO)), IDLE.(sensor := Some(AT_ZERO))]

  const HALT := IDLE.(commands := [Halt], sensor := Some(AT_ZERO))

  lemma {:induction false} DrainWithSensors(p: Policy, s: Loop, x: Sensors, commands: seq<Command>)
    ensures Drain(p, s.(sensors := x), commands) == Drain(p, s, commands).(sensors := x)
  {
    hide Process;
    if commands != [] {
      var n := |commands| - 1;
      DrainWithSensors(p, s, x, commands[..n]);
      ProcessWithSensors(p, Drain(p, s, commands[..n]), x, commands[n]);
    }
  }

  lemma ProcessWithSensors(p: Policy, s: Loop, x: Sensors, cmd: Command)
    ensures Process(p, s.(sensors := x), cmd) == Process(p, s, cmd).(sensors := x)
  {
    hide LoadArtifact, IdOf, FromPrepared, SetRunning;
  }

  lemma TickWithSensors(p: Policy, s: Loop, x: Sensors, input: TickInput)
    requires input.sensor.None?
    ensures RunTick(p, s, input.(sensor := Some(x))) == RunTick(p, s.(sensors := x), input)
  {
    hide Drain, FireWatchdog, TickActive, TickCandidate;
    DrainWithSensors(p, s, x, input.emergency + input.commands);
  }

  lemma ReportsZero(input: TickInput)
    requires input.sensor == Some(AT_ZERO)
    ensures JOINT.SeenBy(input) && JOINT.Report(input, 0.0) == input
  {
    assert AT_ZERO.positions[0 := Finite(0.0)] == AT_ZERO.positions;
  }

  /** The first tick loads, arms and moves nothing. */
  lemma LoadingMovesNothing()
    ensures JOINT.SeenBy(MOVING[0])
    ensures var w := HeldTick(JOINT, POLICY, AtRest(0.0), MOVING[0]);
      && InCanary(w.loop, "a", NewCollector("a", ["j"])) && w.loop.active.None? && w.loop.sensors == AT_ZERO
      && w.position == 0.0 && w.velocity == 0.0
  {
    var s := INITIAL.(sensors := AT_ZERO);
    ReportsZero(MOVING[0]);
    TickWithSensors(POLICY, INITIAL, AT_ZERO, LoadAndArm("a"));
    FirstTick(s, "a");
    LoadingOpens();
    ShadowReachesNoHardware(POLICY, INITIAL, MOVING[0]);
    hide RunTick, Opening;
    var t := RunTick(POLICY, INITIAL, MOVING[0]);
    var f := LastFrame(t.log, INITIAL.log);
    assert f.Some? ==> IsStop(f.value);
  }

  lemma LoadingOpens()
    ensures var t := Opening(POLICY, INITIAL, MOVING[0]); t.stage == Some(VerifiedOnly) && t.active.None?
  {
    var commands := LoadAndArm("a").commands;
    assert [] + commands == commands;
    DrainTwo(POLICY, INITIAL, commands[0], commands[1]);
    hide Drain;
  }

  /** The second one is a canary tick at half speed. */
  lemma CanaryMoves(s: Loop)
    requires InCanary(s, "a", NewCollector("a", ["j"])) && s.active.None? && s.sensors == AT_ZERO
    ensures LastFrame(RunTick(POLICY, s, MOVING[1]).log, s.log) == Some(FRAME)
  {
    var input := MOVING[1];
    assert Drain(POLICY, s, [] + []) == s;
    assert Opening(POLICY, s, input) == s;
    SoundTick(s.candidate.value, AT_ZERO);
    EqualCommandsPass(s, None, TickController(s.candidate.value, HALF_SPEED, AT_ZERO));
    EqualCommandsBlend(None);
    hide TickController, CandidateFails, BlendCommand, RunTick, Opening, FrameList;
    TickSends(POLICY, s, input);
    assert Outgoing(POLICY, s, input) == [FRAME];
  }

  lemma CanaryMovesJoint(w: Held)
    requires InCanary(w.loop, "a", NewCollector("a", ["j"])) && w.loop.active.None? && w.loop.sensors == AT_ZERO
    requires w.position == 0.0
    ensures JOINT.SeenBy(MOVING[1])
    ensures var v := HeldTick(JOINT, POLICY, w, MOVING[1]); v.velocity == 0.5 && v.position == 0.005
  {
    ReportsZero(MOVING[1]);
    CanaryMoves(w.loop);
    hide RunTick, LastFrame, InCanary;
  }

  lemma RunOfTwo(m: Joint, p: Policy, w: Held, a: TickInput, b: TickInput)
    requires m.SeenBy(a) && m.SeenBy(b)
    ensures AllSeen(m, [a, b]) && HeldRun(m, p, w, [a, b]) == HeldTick(m, p, HeldTick(m, p, w, a), b)
  {
    hide HeldTick;
    assert [a, b][..1] == [a] && [a][..0] == [];
    assert HeldRun(m, p, w, [a]) == HeldTick(m, p, w, a);
  }

  lemma AfterMoving()
    ensures AllSeen(JOINT, MOVING)
    ensures var w := HeldRun(JOINT, POLICY, AtRest(0.0), MOVING); w.velocity == 0.5 && w.position == 0.005
  {
    LoadingMovesNothing();
    CanaryMovesJoint(HeldTick(JOINT, POLICY, AtRest(0.0), MOVING[0]));
    RunOfTwo(JOINT, POLICY, AtRest(0.0), MOVING[0], MOVING[1]);
    hide HeldTick, HeldRun, InCanary;
    assert MOVING == [MOVING[0], MOVING[1]];
  }

  /** The loaded profile suits the joint and the joint is in range, but it moves when the loop is
      halted, and a long enough halt takes it out of range. */
  lemma HaltCanLoseTheJoint()
    ensures AllSeen(JOINT, MOVING) && AllSuit(JOINT, MOVING) && JOINT.SeenBy(HALT)
    ensures var w := HeldRun(JOINT, POLICY, AtRest(0.0), MOVING);
      w.velocity == 0.5 && SafetyFilterProofs.InRange(JOINT.l, w.position) && !SafelyHalted(JOINT, POLICY, w, HALT)
  {
    ProfileSuits();
    ReportsZero(HALT);
    AfterMoving();
    assert (HALT.emergency + HALT.commands)[0] == Halt;
    hide RunTick, HeldTick, HeldRun, SafelyHalted;
    HaltKeepsRangeIffStill(JOINT, POLICY, HeldRun(JOINT, POLICY, AtRest(0.0), MOVING), HALT, 0);
  }

  lemma ProfileSuits()
    ensures AllSuit(JOINT, MOVING)
  {
    assert MOVING[0].emergency + MOVING[0].commands == LoadAndArm("a").commands;
    assert MOVING[1].emergency + MOVING[1].commands == [];
    assert JOINT.Suits(PROFILE);
  }
}
