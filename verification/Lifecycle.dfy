/** The controller lifecycle (crates/roz-copper/src/controller_lifecycle.rs): the
    promotion gate, retirement and the last-known-good artifact. */
module Lifecycle {
  import opened Floats
  import opened Deployment
  import opened Artifacts
  import opened Evidence

  datatype LifecycleError =
    | NoArtifact
    | NoEvidence
    | InvalidTransition(from: DeploymentState, to: DeploymentState)
    | DigestMismatch(field: string)
    | SafetyIssues
    | EvidenceStatus(status: VerifierStatus)
    | ModeMismatch(expected: ExecutionMode, actual: ExecutionMode)
    | EvidenceDigestMismatch(field: string)
    | UntouchedChannels(channels: seq<string>)
    | NoLastKnownGood
    | EvidenceMismatch(expectedId: string, actualId: string)

  datatype Result<+T> = Ok(value: T) | Err(error: LifecycleError)

  datatype Transition = Transition(controllerId: string, from: DeploymentState, to: DeploymentState)

  datatype Retirement = Retirement(
    controllerId: string,
    terminal: DeploymentState,
    restored: Option<string>,
    restoredState: Option<DeploymentState>)

  /** The lifecycle's four fields as a value. */
  datatype State = State(
    current: Option<Artifact>,
    stage: Option<DeploymentState>,
    evidence: Option<Bundle>,
    lastKnownGood: Option<Artifact>)
  {
    function Stage(): DeploymentState {
      if stage.Some? then stage.value else VerifiedOnly
    }
  }

  const EMPTY := State(None, None, None, None)

  /** A state after an operation, with what the operation returned. */
  datatype Step<T> = Step(next: State, result: Result<T>)

  function ModeFor(s: DeploymentState): ExecutionMode {
    match s
    case VerifiedOnly => Verify
    case Shadow => ShadowRun
    case Canary => CanaryRun
    case _ => Live
  }

  function RetirementStage(s: DeploymentState): Option<DeploymentState> {
    match s
    case VerifiedOnly => Some(Rejected)
    case Shadow => Some(Rejected)
    case Canary => Some(RolledBack)
    case Active => Some(RolledBack)
    case _ => None
  }

  function NextPromotion(s: DeploymentState): DeploymentState {
    match s
    case VerifiedOnly => Shadow
    case Shadow => Canary
    case _ => Active
  }

  /** The first field, in the order the code compares them, on which two digest sets differ. */
  function FirstMismatch(a: Digests, b: Digests): Option<string> {
    if a.controller != b.controller then Some("controller_digest")
    else if a.witWorld != b.witWorld then Some("wit_world_version")
    else if a.model != b.model then Some("model_digest")
    else if a.calibration != b.calibration then Some("calibration_digest")
    else if a.manifest != b.manifest then Some("manifest_digest")
    else if a.compiler != b.compiler then Some("compiler_version")
    else None
  }

  /** The first promotion gate that refuses, if any. */
  function GateError(s: State, runtime: VerificationKey, target: DeploymentState): Option<LifecycleError> {
    if s.current.None? then Some(NoArtifact)
    else if s.evidence.None? then Some(NoEvidence)
    else
      var e := s.evidence.value;
      var key := s.current.value.key;
      if e.status != Complete then Some(EvidenceStatus(e.status))
      else if e.mode != ModeFor(s.Stage()) then Some(ModeMismatch(ModeFor(s.Stage()), e.mode))
      else if e.HasSafetyIssues() then Some(SafetyIssues)
      else if e.HasUntouchedChannels() then Some(UntouchedChannels(e.untouched))
      else if FirstMismatch(key.digests, e.digests).Some? then
        Some(EvidenceDigestMismatch(FirstMismatch(key.digests, e.digests).value))
      else if FirstMismatch(key.digests, runtime.digests).Some? then
        Some(DigestMismatch(FirstMismatch(key.digests, runtime.digests).value))
      else if key.mode != runtime.mode then Some(DigestMismatch("execution_mode"))
      else if key.family != runtime.family then Some(DigestMismatch("embodiment_family"))
      else if !CanTransition(s.Stage(), target) then Some(InvalidTransition(s.Stage(), target))
      else None
  }

  /** From this stage evidence of this mode may lead to that stage. */
  predicate LegalStep(from: DeploymentState, mode: ExecutionMode, to: DeploymentState) {
    (from, mode, to) in {
      (VerifiedOnly, Verify, Shadow), (VerifiedOnly, Verify, Canary), (VerifiedOnly, Verify, Rejected),
      (Shadow, ShadowRun, Canary), (Shadow, ShadowRun, Active), (Shadow, ShadowRun, Rejected),
      (Canary, CanaryRun, Active), (Canary, CanaryRun, RolledBack),
      (Active, Live, RolledBack)}
  }

  /** Everything a promotion demands, order aside. */
  predicate Promotable(s: State, runtime: VerificationKey, target: DeploymentState) {
    && s.current.Some? && s.evidence.Some?
    && var e := s.evidence.value;
       && e.status == Complete
       && e.traps == 0 && e.epochInterrupts == 0 && !e.oscillation && e.unexpected == [] && e.untouched == []
       && e.digests == s.current.value.key.digests
       && runtime == s.current.value.key
       && LegalStep(s.Stage(), e.mode, target)
  }

  lemma GateIsConjunction(s: State, runtime: VerificationKey, target: DeploymentState)
    ensures GateError(s, runtime, target).None? <==> Promotable(s, runtime, target)
  {
  }

  function LoadArtifact(s: State, a: Artifact): State {
    State(Some(a), Some(VerifiedOnly), None,
          if s.stage == Some(Active) then s.current else s.lastKnownGood)
  }

  function SubmitEvidence(s: State, e: Bundle): Step<()> {
    if s.current.None? then Step(s, Err(NoArtifact))
    else if e.controllerId != s.current.value.controllerId then
      Step(s, Err(EvidenceMismatch(s.current.value.controllerId, e.controllerId)))
    else Step(s.(evidence := Some(e)), Ok(()))
  }

  function PromoteTo(s: State, runtime: VerificationKey, target: DeploymentState): Step<Transition> {
    if GateError(s, runtime, target).Some? then Step(s, Err(GateError(s, runtime, target).value))
    else
      assert s.current.Some?;
      Step(s.(evidence := None, stage := Some(target)), Ok(Transition(s.current.value.controllerId, s.Stage(), target)))
  }

  function RetireCurrent(s: State): Step<Retirement> {
    if s.current.None? then Step(s, Err(NoArtifact))
    else if RetirementStage(s.Stage()).None? then Step(s, Err(InvalidTransition(s.Stage(), s.Stage())))
    else
      var terminal := RetirementStage(s.Stage()).value;
      Step(s.(stage := Some(terminal), evidence := None), Ok(Retirement(s.current.value.controllerId, terminal, None, None)))
  }

  /** Retire the current artifact and put the last-known-good one back in the given stage. */
  function Reinstate(s: State, stage: DeploymentState, keep: bool): Step<Retirement> {
    if s.lastKnownGood.None? then Step(s, Err(NoLastKnownGood))
    else
      var retired := RetireCurrent(s);
      if retired.result.Err? then Step(s, retired.result)
      else
        var lkg := s.lastKnownGood.value;
        Step(State(Some(lkg), Some(stage), None, if keep then Some(lkg) else None),
             Ok(retired.result.value.(restored := Some(lkg.controllerId), restoredState := Some(stage))))
  }

  function Rollback(s: State): Step<Retirement> {
    Reinstate(s, VerifiedOnly, false)
  }

  function RestoreLastKnownGoodActive(s: State): Step<Retirement> {
    Reinstate(s, Active, true)
  }

  /** The lifecycle object. Every method is tied to the functions above. */
  class ControllerLifecycle {
    var currentArtifact: Option<Artifact>
    var currentState: Option<DeploymentState>
    var evidence: Option<Bundle>
    var lastKnownGood: Option<Artifact>

    constructor ()
      ensures View() == EMPTY
    {
      currentArtifact, currentState, evidence, lastKnownGood := None, None, None, None;
    }

    function View(): State
      reads this
    {
      State(currentArtifact, currentState, evidence, lastKnownGood)
    }

    method Load(a: Artifact)
      modifies this
      ensures View() == LoadArtifact(old(View()), a)
    {
      if currentState == Some(Active) {
        lastKnownGood := currentArtifact;
      }
      currentArtifact := Some(a);
      currentState := Some(VerifiedOnly);
      evidence := None;
    }

    method Submit(e: Bundle) returns (r: Result<()>)
      modifies this
      ensures Step(View(), r) == SubmitEvidence(old(View()), e)
    {
      if currentArtifact.None? {
        return Err(NoArtifact);
      }
      if e.controllerId != currentArtifact.value.controllerId {
        return Err(EvidenceMismatch(currentArtifact.value.controllerId, e.controllerId));
      }
      evidence := Some(e);
      return Ok(());
    }

    /** Compare two digest sets field by field, in a loop over the six pairs. */
    static method CompareDigests(expected: Digests, actual: Digests) returns (mismatch: Option<string>)
      ensures mismatch == FirstMismatch(expected, actual)
    {
      var checks := [
        ("controller_digest", expected.controller, actual.controller),
        ("wit_world_version", expected.witWorld, actual.witWorld),
        ("model_digest", expected.model, actual.model),
        ("calibration_digest", expected.calibration, actual.calibration),
        ("manifest_digest", expected.manifest, actual.manifest),
        ("compiler_version", expected.compiler, actual.compiler)];
      for i := 0 to |checks|
        invariant i > 0 ==> expected.controller == actual.controller
        invariant i > 1 ==> expected.witWorld == actual.witWorld
        invariant i > 2 ==> expected.model == actual.model
        invariant i > 3 ==> expected.calibration == actual.calibration
        invariant i > 4 ==> expected.manifest == actual.manifest
        invariant i > 5 ==> expected.compiler == actual.compiler
      {
        if checks[i].1 != checks[i].2 {
          return Some(checks[i].0);
        }
      }
      return None;
    }

    method Promote(runtime: VerificationKey) returns (r: Result<Transition>)
      modifies this
      ensures Step(View(), r) == PromoteTo(old(View()), runtime, NextPromotion(old(View()).Stage()))
    {
      r := PromoteToTarget(runtime, NextPromotion(View().Stage()));
    }

    method PromoteToTarget(runtime: VerificationKey, target: DeploymentState) returns (r: Result<Transition>)
      modifies this
      ensures Step(View(), r) == PromoteTo(old(View()), runtime, target)
    {
      var current := if currentState.Some? then currentState.value else VerifiedOnly;
      if currentArtifact.None? {
        return Err(NoArtifact);
      }
      var artifact := currentArtifact.value;
      if evidence.None? {
        return Err(NoEvidence);
      }
      var e := evidence.value;
      if e.status != Complete {
        return Err(EvidenceStatus(e.status));
      }
      if e.mode != ModeFor(current) {
        return Err(ModeMismatch(ModeFor(current), e.mode));
      }
      if e.HasSafetyIssues() {
        return Err(SafetyIssues);
      }
      if e.HasUntouchedChannels() {
        return Err(UntouchedChannels(e.untouched));
      }
      var mismatch := CompareDigests(artifact.key.digests, e.digests);
      if mismatch.Some? {
        return Err(EvidenceDigestMismatch(mismatch.value));
      }
      mismatch := CompareDigests(artifact.key.digests, runtime.digests);
      if mismatch.Some? {
        return Err(DigestMismatch(mismatch.value));
      }
      if artifact.key.mode != runtime.mode {
        return Err(DigestMismatch("execution_mode"));
      }
      if artifact.key.family != runtime.family {
        return Err(DigestMismatch("embodiment_family"));
      }
      if !CanTransition(current, target) {
        return Err(InvalidTransition(current, target));
      }
      evidence := None;
      currentState := Some(target);
      return Ok(Transition(artifact.controllerId, current, target));
    }

    method Retire() returns (r: Result<Retirement>)
      modifies this
      ensures Step(View(), r) == RetireCurrent(old(View()))
    {
      var current := if currentState.Some? then currentState.value else VerifiedOnly;
      if currentArtifact.None? {
        return Err(NoArtifact);
      }
      var terminal := RetirementStage(current);
      if terminal.None? {
        return Err(InvalidTransition(current, current));
      }
      currentState := terminal;
      evidence := None;
      return Ok(Retirement(currentArtifact.value.controllerId, terminal.value, None, None));
    }

    method RollBack() returns (r: Result<Retirement>)
      modifies this
      ensures Step(View(), r) == Rollback(old(View()))
    {
      if lastKnownGood.None? {
        return Err(NoLastKnownGood);
      }
      var lkg := lastKnownGood.value;
      r := Retire();
      if r.Err? {
        return;
      }
      lastKnownGood := None;
      currentArtifact := Some(lkg);
      currentState := Some(VerifiedOnly);
      evidence := None;
      r := Ok(r.value.(restored := Some(lkg.controllerId), restoredState := Some(VerifiedOnly)));
    }

    method RestoreActive() returns (r: Result<Retirement>)
      modifies this
      ensures Step(View(), r) == RestoreLastKnownGoodActive(old(View()))
    {
      if lastKnownGood.None? {
        return Err(NoLastKnownGood);
      }
      var lkg := lastKnownGood.value;
      r := Retire();
      if r.Err? {
        return;
      }
      currentArtifact := Some(lkg);
      currentState := Some(Active);
      evidence := None;
      r := Ok(r.value.(restored := Some(lkg.controllerId), restoredState := Some(Active)));
    }
  }
}
