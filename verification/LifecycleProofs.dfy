/** What holds of the lifecycle after any sequence of operations. */
module LifecycleProofs {
  import opened Floats
  import opened Deployment
  import opened Artifacts
  import opened Evidence
  import opened Lifecycle

  datatype Op =
    | Load(a: Artifact)
    | Submit(e: Bundle)
    | Promote(runtime: VerificationKey, target: DeploymentState)
    | Retire
    | RollBack
    | RestoreActive

  function Apply(s: State, op: Op): State {
    match op
    case Load(a) => LoadArtifact(s, a)
    case Submit(e) => SubmitEvidence(s, e).next
    case Promote(runtime, target) => PromoteTo(s, runtime, target).next
    case Retire => RetireCurrent(s).next
    case RollBack => Rollback(s).next
    case RestoreActive => RestoreLastKnownGoodActive(s).next
  }

  predicate Succeeds(s: State, op: Op) {
    match op
    case Load(_) => true
    case Submit(e) => SubmitEvidence(s, e).result.Ok?
    case Promote(runtime, target) => PromoteTo(s, runtime, target).result.Ok?
    case Retire => RetireCurrent(s).result.Ok?
    case RollBack => Rollback(s).result.Ok?
    case RestoreActive => RestoreLastKnownGoodActive(s).result.Ok?
  }

  /** The state after a sequence of operations on a new lifecycle. */
  function After(ops: seq<Op>): State {
    if ops == [] then EMPTY else Apply(After(ops[..|ops| - 1]), ops[|ops| - 1])
  }

  lemma FailureChangesNothing(s: State, op: Op)
    requires !Succeeds(s, op)
    ensures Apply(s, op) == s
  {
  }

  /** Artifact `a` was the current, Active one after the first `k` operations. */
  predicate ActiveAfter(ops: seq<Op>, k: nat, a: Artifact)
    requires k <= |ops|
  {
    After(ops[..k]).stage == Some(Active) && After(ops[..k]).current == Some(a)
  }

  /** A stage belongs to a loaded artifact, and pending evidence to that artifact. */
  lemma {:induction false} StageHasArtifact(ops: seq<Op>)
    ensures var s := After(ops);
      && (s.stage.Some? <==> s.current.Some?)
      && (s.evidence.Some? ==> s.current.Some? && s.evidence.value.controllerId == s.current.value.controllerId)
  {
    if ops != [] {
      StageHasArtifact(ops[..|ops| - 1]);
    }
  }

  /** The last-known-good artifact was Active earlier in the run. */
  lemma {:induction false} LastKnownGoodWasActive(ops: seq<Op>)
    requires After(ops).lastKnownGood.Some?
    ensures exists k :: 0 <= k <= |ops| && ActiveAfter(ops, k, After(ops).lastKnownGood.value)
  {
    if ops != [] {
      var n := |ops| - 1;
      var before := After(ops[..n]);
      StageHasArtifact(ops[..n]);
      if ops[n].Load? && before.stage == Some(Active) {
        assert ActiveAfter(ops, n, After(ops).lastKnownGood.value);
      } else {
        LastKnownGoodWasActive(ops[..n]);
        var k :| 0 <= k <= n && ActiveAfter(ops[..n], k, before.lastKnownGood.value);
        assert ops[..n][..k] == ops[..k];
        assert ActiveAfter(ops, k, After(ops).lastKnownGood.value);
      }
    }
  }

  /** Operation `j` submitted bundle `e`, and nothing succeeded between it and operation `k`. */
  predicate LastSuccessIsSubmit(ops: seq<Op>, j: nat, k: nat, e: Bundle)
    requires j < k <= |ops|
  {
    && ops[j] == Submit(e)
    && Succeeds(After(ops[..j]), ops[j])
    && forall i :: j < i < k ==> !Succeeds(After(ops[..i]), ops[i])
  }

  lemma {:induction false} PendingEvidenceWasSubmitted(ops: seq<Op>)
    requires After(ops).evidence.Some?
    ensures exists j :: 0 <= j < |ops| && LastSuccessIsSubmit(ops, j, |ops|, After(ops).evidence.value)
  {
    var n := |ops| - 1;
    var before := After(ops[..n]);
    var e := After(ops).evidence.value;
    if ops[n] == Submit(e) && Succeeds(before, ops[n]) {
      assert LastSuccessIsSubmit(ops, n, |ops|, e);
    } else {
      assert !Succeeds(before, ops[n]);
      FailureChangesNothing(before, ops[n]);
      PendingEvidenceWasSubmitted(ops[..n]);
      var j :| 0 <= j < n && LastSuccessIsSubmit(ops[..n], j, n, e);
      assert forall i :: 0 <= i <= n ==> ops[..n][..i] == ops[..i];
      assert LastSuccessIsSubmit(ops, j, |ops|, e);
    }
  }

  /** Each successful promotion consumes one bundle: the operation that succeeded just
      before it is the submission of a bundle for the current artifact, that bundle
      passes every gate for the stage being left, and afterwards none is pending.
      So no bundle serves two promotions, and none survives a load. */
  lemma PromotionConsumesOneBundle(ops: seq<Op>, k: nat)
    requires k < |ops| && ops[k].Promote? && Succeeds(After(ops[..k]), ops[k])
    ensures var s := After(ops[..k]);
      && Promotable(s, ops[k].runtime, ops[k].target)
      && s.evidence.value.controllerId == s.current.value.controllerId
      && (exists j :: 0 <= j < k && LastSuccessIsSubmit(ops, j, k, s.evidence.value))
      && After(ops[..k + 1]).evidence.None?
  {
    var s := After(ops[..k]);
    GateIsConjunction(s, ops[k].runtime, ops[k].target);
    StageHasArtifact(ops[..k]);
    PendingEvidenceWasSubmitted(ops[..k]);
    var j :| 0 <= j < k && LastSuccessIsSubmit(ops[..k], j, k, s.evidence.value);
    assert forall i :: 0 <= i <= k ==> ops[..k][..i] == ops[..i];
    assert LastSuccessIsSubmit(ops, j, k, s.evidence.value);
    assert ops[..k + 1][..k] == ops[..k];
  }

  /** Reaching Active saves nothing: a promotion leaves last-known-good as it was, so
      afterwards it is the current artifact if and only if it already was before. */
  lemma PromotionSavesNothing(s: State, runtime: VerificationKey, target: DeploymentState)
    requires PromoteTo(s, runtime, target).result.Ok?
    ensures var t := PromoteTo(s, runtime, target).next;
      && t.stage == Some(target) && t.current == s.current
      && (t.lastKnownGood == t.current <==> s.lastKnownGood == s.current)
  {
  }

  function Clean(a: Artifact, mode: ExecutionMode): Bundle {
    Bundle(a.controllerId, 1, Counts(0, 0, 0, 0), 0, 0, [], [], [], false, false, false, Complete, a.key.digests, mode)
  }

  /** Load, verify, canary. */
  function StraightToActive(a: Artifact): seq<Op> {
    [Load(a), Submit(Clean(a, Verify)), Promote(a.key, Canary), Submit(Clean(a, CanaryRun)), Promote(a.key, Active)]
  }

  /** Five operations that make any artifact Active with no last-known-good artifact at all. */
  lemma ActiveWithoutLastKnownGood(a: Artifact)
    ensures After(StraightToActive(a)) == State(Some(a), Some(Active), None, None)
  {
    var ops := StraightToActive(a);
    assert ops[..5] == ops && ops[..5][..4] == ops[..4] && ops[..4][..3] == ops[..3];
    assert ops[..3][..2] == ops[..2] && ops[..2][..1] == ops[..1] && ops[..1][..0] == [];
    assert After(ops[..1]) == State(Some(a), Some(VerifiedOnly), None, None);
    assert After(ops[..2]) == State(Some(a), Some(VerifiedOnly), Some(Clean(a, Verify)), None);
    assert After(ops[..3]) == State(Some(a), Some(Canary), None, None);
    assert After(ops[..4]) == State(Some(a), Some(Canary), Some(Clean(a, CanaryRun)), None);
  }

  // ------------------------------------------------------------------
  // What each operation leaves behind
  // ------------------------------------------------------------------

  /** Retiring succeeds exactly when there is an artifact that is not yet terminal, and ends it as Rejected
      if it never actuated and as RolledBack if it did. Rolling back and restoring also need a
      last-known-good artifact, which becomes current: rolled back to VerifiedOnly and no
      longer kept, or restored to Active and still kept. None leaves evidence pending. */
  lemma EndsExactly(s: State)
    ensures var live := s.current.Some? && s.stage !in {Some(Rejected), Some(RolledBack)};
      && (Succeeds(s, Retire) <==> live)
      && (Succeeds(s, RollBack) <==> live && s.lastKnownGood.Some?)
      && (Succeeds(s, RestoreActive) <==> live && s.lastKnownGood.Some?)
    ensures Succeeds(s, Retire) ==>
      var terminal := if s.stage in {Some(Canary), Some(Active)} then RolledBack else Rejected;
      Apply(s, Retire) == State(s.current, Some(terminal), None, s.lastKnownGood)
    ensures Succeeds(s, RollBack) ==> Apply(s, RollBack) == State(s.lastKnownGood, Some(VerifiedOnly), None, None)
    ensures Succeeds(s, RestoreActive) ==> Apply(s, RestoreActive) == State(s.lastKnownGood, Some(Active), None, s.lastKnownGood)
  {
  }

  /** Promoting step by step takes an artifact through Shadow and Canary to Active, skipping neither. */
  lemma CanonicalSteps(s: State, runtime: VerificationKey)
    ensures var r := PromoteTo(s, runtime, NextPromotion(s.Stage()));
      r.result.Ok? ==>
        (s.Stage(), r.next.Stage()) in {(VerifiedOnly, Shadow), (Shadow, Canary), (Canary, Active)}
    ensures s.Stage() in {VerifiedOnly, Shadow, Canary} ==>
      (PromoteTo(s, runtime, NextPromotion(s.Stage())).result.Ok? <==> exists target :: Promotable(s, runtime, target))
  {
    GateIsConjunction(s, runtime, NextPromotion(s.Stage()));
    hide GateError;
  }

  // ------------------------------------------------------------------
  // Which refusal is reported
  // ------------------------------------------------------------------

  /** The gates in the order in which they are tried. */
  predicate GatePasses(s: State, runtime: VerificationKey, target: DeploymentState, k: nat)
    requires k < 11
  {
    if k == 0 then s.current.Some?
    else if s.current.None? then false
    else if k == 1 then s.evidence.Some?
    else if s.evidence.None? then false
    else
      var e, key := s.evidence.value, s.current.value.key;
      match k
      case 2 => e.status == Complete
      case 3 => e.mode == ModeFor(s.Stage())
      case 4 => e.traps == 0 && e.epochInterrupts == 0 && !e.oscillation && e.unexpected == []
      case 5 => e.untouched == []
      case 6 => e.digests == key.digests
      case 7 => runtime.digests == key.digests
      case 8 => runtime.mode == key.mode
      case 9 => runtime.family == key.family
      case _ => CanTransition(s.Stage(), target)
  }

  /** Gate `k` does not pass, and all before it do. */
  predicate FirstRefusal(s: State, runtime: VerificationKey, target: DeploymentState, k: nat)
    requires k < 11
  {
    !GatePasses(s, runtime, target, k) && forall j: nat :: j < k ==> GatePasses(s, runtime, target, j)
  }

  /** What gate `k` reports. */
  predicate Reports(error: LifecycleError, k: nat) {
    match k
    case 0 => error == NoArtifact
    case 1 => error == NoEvidence
    case 2 => error.EvidenceStatus?
    case 3 => error.ModeMismatch?
    case 4 => error == SafetyIssues
    case 5 => error.UntouchedChannels?
    case 6 => error.EvidenceDigestMismatch?
    case 7 => error.DigestMismatch? && error.field !in {"execution_mode", "embodiment_family"}
    case 8 => error == DigestMismatch("execution_mode")
    case 9 => error == DigestMismatch("embodiment_family")
    case _ => error.InvalidTransition?
  }

  /** The six digests by the names under which they are compared, in order. */
  function Named(d: Digests): seq<(string, string)> {
    [("controller_digest", d.controller), ("wit_world_version", d.witWorld), ("model_digest", d.model),
     ("calibration_digest", d.calibration), ("manifest_digest", d.manifest), ("compiler_version", d.compiler)]
  }

  /** A mismatch names the first digest that differs, and there is one unless all are equal. */
  lemma MismatchNamesFirst(a: Digests, b: Digests)
    ensures FirstMismatch(a, b).None? <==> a == b
    ensures FirstMismatch(a, b).Some? ==>
      exists k :: 0 <= k < 6 && FirstMismatch(a, b).value == Named(a)[k].0
               && Named(a)[k] != Named(b)[k] && Named(a)[..k] == Named(b)[..k]
  {
    var r, x, y := FirstMismatch(a, b), Named(a), Named(b);
    if r.Some? {
      var k := if a.controller != b.controller then 0 else if a.witWorld != b.witWorld then 1 else if a.model != b.model then 2
               else if a.calibration != b.calibration then 3 else if a.manifest != b.manifest then 4 else 5;
      assert r.value == x[k].0 && x[k] != y[k] && x[..k] == y[..k];
    }
  }

  /** A refused promotion reports the first gate that does not pass. */
  lemma FirstRefusalIsReported(s: State, runtime: VerificationKey, target: DeploymentState)
    requires PromoteTo(s, runtime, target).result.Err?
    ensures exists k: nat :: k < 11 && FirstRefusal(s, runtime, target, k) && Reports(PromoteTo(s, runtime, target).result.error, k)
  {
    var error := PromoteTo(s, runtime, target).result.error;
    var k: nat := match error
      case NoArtifact => 0 case NoEvidence => 1 case EvidenceStatus(_) => 2 case ModeMismatch(_, _) => 3
      case SafetyIssues => 4 case UntouchedChannels(_) => 5 case EvidenceDigestMismatch(_) => 6
      case DigestMismatch(field) => if field == "execution_mode" then 8 else if field == "embodiment_family" then 9 else 7
      case _ => 10;
    assert FirstRefusal(s, runtime, target, k) && Reports(error, k);
  }
}
