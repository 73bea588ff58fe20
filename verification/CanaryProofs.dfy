/** Comparing and blending in the policy's own terms: basis points of each channel's span. */
module CanaryProofs {
  import opened Floats
  import opened Deployment
  import opened Canary
  import opened Rollout

  // ------------------------------------------------------------------
  // Divergence
  // ------------------------------------------------------------------

  /** Two values differ by at most `bps` ten-thousandths of the span. A zero span admits no
      difference at all, and a negative span never objects. */
  predicate WithinBps(bps: nat, x: real, y: real, span: real) {
    if span > 0.0 then 10000.0 * Abs(x - y) <= bps as real * span else span < 0.0 || x == y
  }

  /** Same width, covered by the spans, and close on every channel. */
  predicate Close(bps: nat, active: Frame, command: Frame, spans: seq<real>) {
    && |active| == |command| <= |spans|
    && forall i :: 0 <= i < |command| ==> WithinBps(bps, active[i], command[i], spans[i])
  }

  /** What the loop asks of the comparison. */
  predicate ComparesWell(p: Policy, active: Option<Frame>, command: Option<Frame>, spans: seq<real>) {
    match CompareSpec(active, command, spans)
    case Compared(_, normalized) => !Above(normalized, p.MaxStageDelta())
    case NothingToCompare => true
    case Incomparable => false
  }

  lemma BpsOfSpan(bps: nat, x: real, y: real, span: real)
    ensures ChannelWithin(Abs(x - y), span, bps as real / 10000.0) <==> WithinBps(bps, x, y, span)
  {
    var limit := bps as real / 10000.0;
    assert 10000.0 * limit == bps as real;
    assert 10000.0 * (limit * span) == bps as real * span;
  }

  /** A candidate's command compares well with the active one if and only if there is an active
      one and the two are close, in basis points. */
  lemma ComparisonIsCloseness(p: Policy, active: Option<Frame>, command: Frame, spans: seq<real>)
    ensures ComparesWell(p, active, Some(command), spans) <==>
      active.Some? && Close(p.maxStageDeltaBps, active.value, command, spans)
  {
    if active.Some? && |active.value| == |command| <= |spans| {
      var a := active.value;
      DivergenceIsPerChannel(a, command, spans, |command|, p.MaxStageDelta());
      forall i | 0 <= i < |command|
        ensures ChannelWithin(Delta(a, command, i), spans[i], p.MaxStageDelta())
           <==> WithinBps(p.maxStageDeltaBps, a[i], command[i], spans[i])
      {
        BpsOfSpan(p.maxStageDeltaBps, a[i], command[i], spans[i]);
      }
      hide MaxNormalizedDelta, MaxAbsDelta, ChannelWithin, WithinBps;
    }
  }

  // ------------------------------------------------------------------
  // Blending
  // ------------------------------------------------------------------

  /** The candidate asks for more than the canary may add to the active value. */
  predicate TooFar(bps: nat, active: real, command: real, span: real) {
    10000.0 * Abs(command - active) > bps as real * Abs(span)
  }

  /** A candidate inside the envelope is sent as it is; one outside is pulled back to its edge. */
  predicate OnEnvelope(bps: nat, active: real, command: real, actuated: real, span: real) {
    if TooFar(bps, active, command, span)
    then 10000.0 * Abs(actuated - active) == bps as real * Abs(span) && Between(active, actuated, command)
    else actuated == command
  }

  lemma BoundOnEnvelope(bps: nat, active: real, command: real, span: real)
    ensures OnEnvelope(bps, active, command, BoundChannel(active, command, span, bps as real / 10000.0), span)
  {
    var limit := bps as real / 10000.0;
    assert 10000.0 * limit == bps as real;
    AllowedInBps(bps, span);
    var d := AllowedDelta(span, limit);
    hide AllowedDelta;
  }

  lemma AllowedInBps(bps: nat, span: real)
    ensures 10000.0 * AllowedDelta(span, bps as real / 10000.0) == bps as real * Abs(span)
  {
    var limit := bps as real / 10000.0;
    assert limit >= 0.0 && 10000.0 * limit == bps as real;
    assert Abs(span * limit) == Abs(span) * limit by {
      AbsTimes(span, limit);
    }
    assert 10000.0 * (Abs(span) * limit) == bps as real * Abs(span);
  }

  lemma AbsTimes(x: real, y: real)
    requires y >= 0.0
    ensures Abs(x * y) == Abs(x) * y
  {
    if x < 0.0 {
      assert -x * y >= 0.0;
    } else {
      assert x * y >= 0.0;
    }
  }

  /** The frame is the candidate's command pulled into the envelope around the active one. */
  predicate FrameOnEnvelope(bps: nat, active: Frame, command: Frame, actuated: Frame, spans: seq<real>) {
    && |actuated| == |active| == |command| <= |spans|
    && forall i :: 0 <= i < |actuated| ==> OnEnvelope(bps, active[i], command[i], actuated[i], spans[i])
  }

  /** The active controller has a command, and the candidate's is too far from it on some channel. */
  predicate Clamped(bps: nat, active: Option<Frame>, command: Frame, spans: seq<real>) {
    active.Some? && exists i :: 0 <= i < |command| && i < |active.value| && i < |spans|
                             && TooFar(bps, active.value[i], command[i], spans[i])
  }

  /** The blend of two commands of the same width, and when it counts as clamped. */
  lemma BlendOnEnvelope(p: Policy, active: Frame, command: Frame, spans: seq<real>)
    requires |active| == |command| <= |spans|
    ensures var b := BlendCommand(p, Some(active), command, spans);
      && FrameOnEnvelope(p.canaryDeltaBps, active, command, b.frame, spans)
      && (b.bounded <==> Clamped(p.canaryDeltaBps, Some(active), command, spans))
  {
    var b := BlendCommand(p, Some(active), command, spans);
    forall i | 0 <= i < |command|
      ensures b.frame[i] == BoundChannel(active[i], command[i], spans[i], p.CanaryMaxDelta())
      ensures OnEnvelope(p.canaryDeltaBps, active[i], command[i], b.frame[i], spans[i])
      ensures b.frame[i] != command[i] <==> TooFar(p.canaryDeltaBps, active[i], command[i], spans[i])
    {
      BoundOnEnvelope(p.canaryDeltaBps, active[i], command[i], spans[i]);
      hide BoundChannel;
    }
    hide BoundChannel, OnEnvelope, TooFar;
    if b.frame != command {
      var i :| 0 <= i < |command| && b.frame[i] != command[i];
    }
  }

  /** Without an active command the candidate's own is sent. */
  lemma OwnCommandWithoutActive(p: Policy, command: Frame, spans: seq<real>)
    ensures BlendCommand(p, None, command, spans) == Blend(command, false)
  {
  }
}
