/** Deployment stages (crates/roz-core/src/controller/deployment.rs) and the
    staged rollout policy (crates/roz-copper/src/deployment_manager.rs). */
module Deployment {
  import opened Floats

  datatype DeploymentState = VerifiedOnly | Shadow | Canary | Active | RolledBack | Rejected

  datatype ExecutionMode = Verify | ShadowRun | CanaryRun | Live | Replay

  predicate CanTransition(from: DeploymentState, to: DeploymentState) {
    match from
    case VerifiedOnly => to in {Shadow, Canary, Rejected}
    case Shadow => to in {Canary, Rejected, Active}
    case Canary => to in {Active, RolledBack}
    case Active => to == RolledBack
    case _ => false
  }

  predicate IsTerminal(s: DeploymentState) {
    s.RolledBack? || s.Rejected?
  }

  datatype PolicySource = RuntimeBlueprint | ExplicitOverride | ExecutionOnly | CompatibilityFallback

  /** The rollout policy. Tick counts are unsigned; the deltas are in basis points. */
  datatype Policy = Policy(
    source: PolicySource,
    requireShadow: bool,
    requireCanary: bool,
    shadowTicks: nat,
    canaryTicks: nat,
    maxStageDeltaBps: nat,
    canaryDeltaBps: nat,
    maxBoundedTicks: nat)
  {
    predicate AllowsRollout() {
      !(source.CompatibilityFallback? || source.ExecutionOnly?)
    }

    function NextTarget(current: DeploymentState): Option<DeploymentState> {
      if !AllowsRollout() then None
      else match current
        case VerifiedOnly => if requireShadow then Some(Shadow) else Some(Canary)
        case Shadow => if requireCanary then Some(Canary) else Some(Active)
        case Canary => Some(Active)
        case _ => None
    }

    function ShadowTicksRequired(): (n: nat)
      ensures n >= 1
    {
      if shadowTicks == 0 then 1 else shadowTicks
    }

    function CanaryTicksRequired(): (n: nat)
      ensures n >= 1
    {
      if canaryTicks == 0 then 1 else canaryTicks
    }

    function MaxStageDelta(): real {
      maxStageDeltaBps as real / 10000.0
    }

    function CanaryMaxDelta(): real {
      canaryDeltaBps as real / 10000.0
    }
  }

  /** Every policy step is a legal transition, so the stage machine can only refuse a
      promotion for its evidence. The steps lead through the stages the policy demands, in
      order, and there is one exactly for a policy with rollout authority in the three
      rollout stages; no policy jumps straight to Active. */
  lemma PolicyStepsAreLegal(p: Policy, s: DeploymentState)
    ensures p.NextTarget(s).Some? ==> CanTransition(s, p.NextTarget(s).value)
    ensures p.NextTarget(s).Some? <==>
      p.source in {RuntimeBlueprint, ExplicitOverride} && s in {VerifiedOnly, Shadow, Canary}
    ensures p.NextTarget(s) == Some(Shadow) ==> s == VerifiedOnly && p.requireShadow
    ensures p.NextTarget(s) == Some(Canary) ==> (s == VerifiedOnly && !p.requireShadow) || (s == Shadow && p.requireCanary)
    ensures p.NextTarget(s) == Some(Active) ==> s == Canary || (s == Shadow && !p.requireCanary)
  {
  }
}
