/** Controller artifacts and verifier verdicts
    (crates/roz-core/src/controller/artifact.rs and verification.rs). Digests are
    opaque strings. */
module Artifacts {
  import opened Floats
  import opened Deployment

  /** The six digests an evidence bundle repeats from the verification key. */
  datatype Digests = Digests(
    controller: string,
    witWorld: string,
    model: string,
    calibration: string,
    manifest: string,
    compiler: string)

  datatype VerificationKey = VerificationKey(digests: Digests, mode: ExecutionMode, family: Option<string>)

  datatype VerifierStatus = Pending | Running | Complete | Failed | Unavailable

  datatype Severity = Critical | Warning

  datatype Verdict = Pass | Fail(failures: seq<Severity>) | Partial | NoVerdict
  {
    predicate AllowsPromotion() {
      Pass? || (Fail? && forall i :: 0 <= i < |failures| ==> failures[i].Warning?)
    }
  }

  datatype Artifact = Artifact(controllerId: string, key: VerificationKey, verdict: Option<Verdict>)
  {
    predicate PromotionEligible() {
      verdict.Some? && verdict.value.AllowsPromotion()
    }
  }
}
