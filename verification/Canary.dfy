/** Comparing and blending the active and the candidate command
    (crates/roz-copper/src/controller.rs, `compare_stage_commands` and
    `bound_canary_command`). */
module Canary {
  import opened Floats

  type Frame = seq<real>

  datatype Comparison =
    | NothingToCompare
    | Compared(maxAbsDelta: real, maxNormalizedDelta: F64)
    | Incomparable

  /** The candidate's distance from the active command on channel `i`. */
  function Delta(active: Frame, candidate: Frame, i: nat): real
    requires i < |active| && i < |candidate|
  {
    Abs(active[i] - candidate[i])
  }

  predicate Comparable(active: Option<Frame>, candidate: Option<Frame>, spans: seq<real>) {
    active.Some? && candidate.Some? && |active.value| == |candidate.value| <= |spans|
  }

  /** Two silent controllers, or two empty commands, leave nothing to compare; a
      command on one side only, or a width mismatch, is an error; otherwise the
      result holds the two running maxima. */
  method CompareStageCommands(active: Option<Frame>, candidate: Option<Frame>, spans: seq<real>) returns (r: Comparison)
    ensures r == CompareSpec(active, candidate, spans)
  {
    match (active, candidate) {
      case (None, None) => return NothingToCompare;
      case (Some(_), None) => return Incomparable;
      case (None, Some(_)) => return Incomparable;
      case (Some(a), Some(c)) =>
        if |a| != |c| || |spans| < |a| {
          return Incomparable;
        }
        if a == [] {
          return NothingToCompare;
        }
        var maxAbsDelta := 0.0;
        var maxNormalizedDelta := Finite(0.0);
        for i := 0 to |a|
          invariant maxAbsDelta == MaxAbsDelta(a, c, i)
          invariant maxNormalizedDelta == MaxNormalizedDelta(a, c, spans, i)
        {
          var absDelta := Abs(a[i] - c[i]);
          maxAbsDelta := Max(maxAbsDelta, absDelta);
          maxNormalizedDelta := MaxF(maxNormalizedDelta, Divide(absDelta, spans[i]));
        }
        return Compared(maxAbsDelta, maxNormalizedDelta);
    }
  }

  function MaxAbsDelta(a: Frame, c: Frame, n: nat): real
    requires n <= |a| == |c|
  {
    if n == 0 then 0.0 else Max(MaxAbsDelta(a, c, n - 1), Delta(a, c, n - 1))
  }

  function MaxNormalizedDelta(a: Frame, c: Frame, spans: seq<real>, n: nat): F64
    requires n <= |a| == |c| <= |spans|
  {
    if n == 0 then Finite(0.0)
    else MaxF(MaxNormalizedDelta(a, c, spans, n - 1), Divide(Delta(a, c, n - 1), spans[n - 1]))
  }

  function CompareSpec(active: Option<Frame>, candidate: Option<Frame>, spans: seq<real>): Comparison {
    if active.None? && candidate.None? then NothingToCompare
    else if !Comparable(active, candidate, spans) then Incomparable
    else if active.value == [] then NothingToCompare
    else Compared(
      MaxAbsDelta(active.value, candidate.value, |active.value|),
      MaxNormalizedDelta(active.value, candidate.value, spans, |active.value|))
  }

  /** Staying under the divergence limit means exactly that every channel stays
      under its own share of the span. A zero span admits no difference at all,
      and a negative span never objects. */
  predicate ChannelWithin(delta: real, span: real, limit: real) {
    if span > 0.0 then delta <= limit * span else span < 0.0 || delta == 0.0
  }

  lemma {:induction false} DivergenceIsPerChannel(a: Frame, c: Frame, spans: seq<real>, n: nat, limit: real)
    requires n <= |a| == |c| <= |spans| && limit >= 0.0
    ensures !MaxNormalizedDelta(a, c, spans, n).NaN? && !MaxNormalizedDelta(a, c, spans, n).NegInf?
    ensures !Above(MaxNormalizedDelta(a, c, spans, n), limit)
       <==> forall i :: 0 <= i < n ==> ChannelWithin(Delta(a, c, i), spans[i], limit)
  {
    if n > 0 {
      DivergenceIsPerChannel(a, c, spans, n - 1, limit);
      RatioWithin(Delta(a, c, n - 1), spans[n - 1], limit);
    }
  }

  lemma RatioWithin(delta: real, span: real, limit: real)
    requires delta >= 0.0 && limit >= 0.0
    ensures !Above(Divide(delta, span), limit) <==> ChannelWithin(delta, span, limit)
    ensures !Divide(delta, span).NegInf?
  {
    if span > 0.0 {
      var q := delta / span;
      assert q * span == delta;
      assert q <= limit ==> q * span <= limit * span;
      assert q > limit ==> q * span > limit * span;
    } else if span < 0.0 {
      var q := delta / span;
      assert q * span == delta;
      assert q > 0.0 ==> q * span < 0.0;
    }
  }

  /** The reported absolute difference is the largest over the channels. */
  lemma {:induction false} MaxAbsIsLargest(a: Frame, c: Frame, n: nat)
    requires n <= |a| == |c|
    ensures MaxAbsDelta(a, c, n) >= 0.0
    ensures forall i :: 0 <= i < n ==> Abs(a[i] - c[i]) <= MaxAbsDelta(a, c, n)
    ensures n > 0 ==> exists i :: 0 <= i < n && Abs(a[i] - c[i]) == MaxAbsDelta(a, c, n)
  {
    if n > 0 {
      MaxAbsIsLargest(a, c, n - 1);
      assert Abs(a[n - 1] - c[n - 1]) == Delta(a, c, n - 1);
    }
  }

  // ------------------------------------------------------------------
  // Blending
  // ------------------------------------------------------------------

  function AllowedDelta(span: real, maxDelta: real): (d: real)
    ensures d >= 0.0
  {
    Abs(span * Max(maxDelta, 0.0))
  }

  function BoundChannel(active: real, candidate: real, span: real, maxDelta: real): real {
    var d := AllowedDelta(span, maxDelta);
    active + Clamp(candidate - active, -d, d)
  }

  /** The candidate's command pulled into the envelope around the active one; with
      no active command it passes through, and a width mismatch is an error. */
  function BoundCanaryCommand(active: Option<Frame>, candidate: Frame, spans: seq<real>, maxDelta: real): (r: Option<Frame>)
    ensures r.Some? <==> active.None? || Comparable(active, Some(candidate), spans)
    ensures r.Some? ==> |r.value| == |candidate|
  {
    if active.None? then Some(candidate)
    else if !Comparable(active, Some(candidate), spans) then None
    else Some(seq(|candidate|, i requires 0 <= i < |candidate| =>
      BoundChannel(active.value[i], candidate[i], spans[i], maxDelta)))
  }

  /** Within the envelope, between the two controllers, and equal to the candidate
      exactly when the candidate is already inside. */
  lemma BoundChannelEnvelope(active: real, candidate: real, span: real, maxDelta: real)
    ensures var b := BoundChannel(active, candidate, span, maxDelta);
      && Abs(b - active) <= AllowedDelta(span, maxDelta)
      && Between(active, b, candidate)
      && (b == candidate <==> Abs(candidate - active) <= AllowedDelta(span, maxDelta))
  {
    hide AllowedDelta;
  }

  /** Blending adds no speed: between any two ticks the blended value moves by at
      most the larger of the two controllers' own moves. */
  lemma BoundChannelNonExpansive(a1: real, c1: real, a2: real, c2: real, span: real, maxDelta: real)
    ensures Abs(BoundChannel(a2, c2, span, maxDelta) - BoundChannel(a1, c1, span, maxDelta))
         <= Max(Abs(a2 - a1), Abs(c2 - c1))
  {
    hide AllowedDelta;
  }
}
