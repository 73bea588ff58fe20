/** Evidence collection (crates/roz-copper/src/evidence_collector.rs): what the
    promotion gate consumes. Counters are unbounded. */
module Evidence {
  import opened Floats
  import opened Deployment
  import opened Artifacts
  import opened SafetyFilter

  const STEADY_STATE_THRESHOLD: nat := 50
  const STEADY_STATE_EPSILON: real := 0.005
  const OSCILLATION_DELTA_THRESHOLD: real := 0.05
  const MAX_TICK_LATENCY_SAMPLES: nat := 2048
  const U64_MAX: nat := 0xFFFF_FFFF_FFFF_FFFF

  // ------------------------------------------------------------------
  // Latency statistics
  // ------------------------------------------------------------------

  datatype Latency = Latency(recent: seq<nat>, count: nat, mean: real, m2: real)

  const NO_SAMPLES := Latency([], 0, 0.0, 0.0)

  function Saturate(micros: nat): nat {
    if micros > U64_MAX then U64_MAX else micros
  }

  function RecordLatency(l: Latency, micros: nat): Latency {
    var x := Saturate(micros);
    var kept := if |l.recent| == MAX_TICK_LATENCY_SAMPLES then l.recent[1..] else l.recent;
    var count := l.count + 1;
    var delta := x as real - l.mean;
    var mean := l.mean + delta / count as real;
    Latency(kept + [x], count, mean, l.m2 + delta * (x as real - mean))
  }

  class TickLatencyStats {
    var recentSamples: seq<nat>
    var sampleCount: nat
    var meanUs: real
    var m2Us: real

    constructor ()
      ensures View() == NO_SAMPLES
    {
      recentSamples, sampleCount, meanUs, m2Us := [], 0, 0.0, 0.0;
    }

    function View(): Latency
      reads this
    {
      Latency(recentSamples, sampleCount, meanUs, m2Us)
    }

    method Record(micros: nat)
      modifies this
      ensures View() == RecordLatency(old(View()), micros)
    {
      var us := Saturate(micros);
      if |recentSamples| == MAX_TICK_LATENCY_SAMPLES {
        recentSamples := recentSamples[1..];
      }
      recentSamples := recentSamples + [us];
      sampleCount := sampleCount + 1;
      var delta := us as real - meanUs;
      meanUs := meanUs + delta / sampleCount as real;
      var delta2 := us as real - meanUs;
      m2Us := m2Us + delta * delta2;
    }
  }

  // ------------------------------------------------------------------
  // Stability tests on two consecutive outputs
  // ------------------------------------------------------------------

  predicate IsPositive(x: F64) {
    x.PosInf? || (x.Finite? && x.v > 0.0)
  }

  /** `prev.signum() != curr.signum()` with both non-zero; the signum of NaN is NaN,
      which differs from everything. */
  predicate SignChange(prev: F64, curr: F64) {
    && prev != Finite(0.0)
    && curr != Finite(0.0)
    && (prev.NaN? || curr.NaN? || IsPositive(prev) != IsPositive(curr))
  }

  function Move(prev: F64, curr: F64): F64 {
    AbsF(Minus(curr, prev))
  }

  function SignChanges(prev: seq<F64>, curr: seq<F64>, n: nat): nat
    requires n <= |prev| == |curr|
  {
    if n == 0 then 0
    else SignChanges(prev, curr, n - 1) + if SignChange(prev[n - 1], curr[n - 1]) then 1 else 0
  }

  /** Some channel moved by more than `limit`. */
  predicate MovesMore(prev: seq<F64>, curr: seq<F64>, limit: real)
    requires |prev| == |curr|
  {
    exists i :: 0 <= i < |prev| && Above(Move(prev[i], curr[i]), limit)
  }

  /** The same for the first `n` channels, one channel at a time. */
  predicate MovesMoreUpTo(prev: seq<F64>, curr: seq<F64>, n: nat, limit: real)
    requires n <= |prev| == |curr|
  {
    n > 0 && (MovesMoreUpTo(prev, curr, n - 1, limit) || Above(Move(prev[n - 1], curr[n - 1]), limit))
  }

  lemma {:induction false} MovesMoreUpToAll(prev: seq<F64>, curr: seq<F64>, n: nat, limit: real)
    requires n <= |prev| == |curr|
    ensures MovesMoreUpTo(prev, curr, n, limit) <==> exists i :: 0 <= i < n && Above(Move(prev[i], curr[i]), limit)
  {
    hide Above, Move;
    if n > 0 {
      MovesMoreUpToAll(prev, curr, n - 1, limit);
    }
  }

  /** The oscillation test: a majority of signs flipped, or a large jump. */
  predicate Oscillates(prev: seq<F64>, curr: seq<F64>)
    requires |prev| == |curr|
  {
    || SignChanges(prev, curr, |prev|) > (if |curr| == 0 then 1 else |curr|) / 2
    || MovesMore(prev, curr, OSCILLATION_DELTA_THRESHOLD)
  }

  // ------------------------------------------------------------------
  // The collector
  // ------------------------------------------------------------------

  /** What one tick contributes: its latency, the raw controller output and the
      kinds of the filter's interventions. */
  datatype TickRecord = TickRecord(micros: nat, values: seq<F64>, kinds: seq<Kind>)

  datatype Counts = Counts(rejections: nat, limitClamps: nat, rateClamps: nat, positionStops: nat)

  datatype Collector = Collector(
    controllerId: string,
    channels: seq<string>,
    ticks: nat,
    counts: Counts,
    epochInterrupts: nat,
    traps: nat,
    touched: set<string>,
    unexpected: seq<nat>,
    latency: Latency,
    oscillation: bool,
    previous: seq<F64>,
    steadyTicks: nat)

  function NewCollector(controllerId: string, channels: seq<string>): Collector {
    Collector(controllerId, channels, 0, Counts(0, 0, 0, 0), 0, 0, {}, [], NO_SAMPLES, false, [], 0)
  }

  function CountKind(c: Counts, kind: Kind): Counts {
    match kind
    case AccelerationLimit => c.(rateClamps := c.rateClamps + 1)
    case PositionLimit => c.(positionStops := c.positionStops + 1)
    case NanReject => c.(rejections := c.rejections + 1)
    case _ => c.(limitClamps := c.limitClamps + 1)
  }

  function CountKinds(c: Counts, kinds: seq<Kind>): Counts {
    if kinds == [] then c else CountKind(CountKinds(c, kinds[..|kinds| - 1]), kinds[|kinds| - 1])
  }

  /** Manifest channels covered by an output of width `n`. */
  function Covered(channels: seq<string>, n: nat): set<string> {
    set i | 0 <= i < n && i < |channels| :: channels[i]
  }

  /** Output positions `from..n` beyond the manifest, each noted once. */
  function NoteUnexpected(unexpected: seq<nat>, channels: seq<string>, n: nat): seq<nat> {
    if n <= |channels| then unexpected
    else
      var before := NoteUnexpected(unexpected, channels, n - 1);
      if n - 1 in before then before else before + [n - 1]
  }

  function NextSteady(c: Collector, values: seq<F64>): nat {
    if c.previous == [] then 1
    else if |c.previous| != |values| || Oscillates(c.previous, values) || MovesMore(c.previous, values, STEADY_STATE_EPSILON) then 0
    else c.steadyTicks + 1
  }

  function AfterTick(c: Collector, r: TickRecord): Collector {
    c.(ticks := c.ticks + 1,
       latency := RecordLatency(c.latency, r.micros),
       touched := c.touched + Covered(c.channels, |r.values|),
       unexpected := NoteUnexpected(c.unexpected, c.channels, |r.values|),
       counts := CountKinds(c.counts, r.kinds),
       oscillation := c.oscillation
         || (c.previous != [] && |c.previous| == |r.values| && Oscillates(c.previous, r.values)),
       steadyTicks := NextSteady(c, r.values),
       previous := r.values)
  }

  function AfterTrap(c: Collector): Collector {
    c.(traps := c.traps + 1)
  }

  class EvidenceCollector {
    const controllerId: string
    const channels: seq<string>
    const latency: TickLatencyStats
    var ticks: nat
    var counts: Counts
    var epochInterrupts: nat
    var traps: nat
    var touched: set<string>
    var unexpected: seq<nat>
    var oscillation: bool
    var previous: seq<F64>
    var steadyTicks: nat

    constructor (controllerId: string, channels: seq<string>)
      ensures View() == NewCollector(controllerId, channels)
      ensures fresh(latency)
    {
      this.controllerId := controllerId;
      this.channels := channels;
      latency := new TickLatencyStats();
      ticks, counts, epochInterrupts, traps := 0, Counts(0, 0, 0, 0), 0, 0;
      touched, unexpected, oscillation, previous, steadyTicks := {}, [], false, [], 0;
    }

    function View(): Collector
      reads this, latency
    {
      Collector(controllerId, channels, ticks, counts, epochInterrupts, traps, touched, unexpected,
                latency.View(), oscillation, previous, steadyTicks)
    }

    method RecordTrap()
      modifies this
      ensures View() == AfterTrap(old(View()))
    {
      traps := traps + 1;
    }

    method RecordTick(r: TickRecord)
      modifies this, latency
      ensures View() == AfterTick(old(View()), r)
    {
      ticks := ticks + 1;
      latency.Record(r.micros);
      TouchChannels(|r.values|);
      CountInterventions(r.kinds);
      UpdateStability(r.values);
      previous := r.values;
    }

    method TouchChannels(width: nat)
      modifies this`touched, this`unexpected
      ensures touched == old(touched) + Covered(channels, width)
      ensures unexpected == NoteUnexpected(old(unexpected), channels, width)
    {
      for i := 0 to width
        invariant touched == old(touched) + Covered(channels, i)
        invariant unexpected == NoteUnexpected(old(unexpected), channels, i)
      {
        if i < |channels| {
          assert Covered(channels, i + 1) == Covered(channels, i) + {channels[i]};
          touched := touched + {channels[i]};
        } else {
          assert Covered(channels, i + 1) == Covered(channels, i);
          if i !in unexpected {
            unexpected := unexpected + [i];
          }
        }
      }
    }

    method CountInterventions(kinds: seq<Kind>)
      modifies this`counts
      ensures counts == CountKinds(old(counts), kinds)
    {
      for i := 0 to |kinds|
        invariant counts == CountKinds(old(counts), kinds[..i])
      {
        assert kinds[..i + 1][..i] == kinds[..i];
        match kinds[i] {
          case AccelerationLimit => counts := counts.(rateClamps := counts.rateClamps + 1);
          case PositionLimit => counts := counts.(positionStops := counts.positionStops + 1);
          case NanReject => counts := counts.(rejections := counts.rejections + 1);
          case _ => counts := counts.(limitClamps := counts.limitClamps + 1);
        }
      }
      assert kinds[..|kinds|] == kinds;
    }

    method UpdateStability(values: seq<F64>)
      modifies this`oscillation, this`steadyTicks
      ensures steadyTicks == NextSteady(old(View()), values)
      ensures oscillation == (old(oscillation)
        || (previous != [] && |previous| == |values| && Oscillates(previous, values)))
    {
      if previous == [] {
        steadyTicks := 1;
      } else if |previous| != |values| {
        steadyTicks := 0;
      } else {
        hide Above, Move, SignChange;
        var signChanges, idle, exceeded := 0, true, false;
        for i := 0 to |values|
          invariant signChanges == SignChanges(previous, values, i)
          invariant idle == !MovesMoreUpTo(previous, values, i, STEADY_STATE_EPSILON)
          invariant exceeded == MovesMoreUpTo(previous, values, i, OSCILLATION_DELTA_THRESHOLD)
        {
          if SignChange(previous[i], values[i]) {
            signChanges := signChanges + 1;
          }
          var delta := Move(previous[i], values[i]);
          if Above(delta, STEADY_STATE_EPSILON) {
            idle := false;
          }
          if Above(delta, OSCILLATION_DELTA_THRESHOLD) {
            exceeded := true;
          }
        }
        MovesMoreUpToAll(previous, values, |values|, STEADY_STATE_EPSILON);
        MovesMoreUpToAll(previous, values, |values|, OSCILLATION_DELTA_THRESHOLD);
        var majority := (if |values| == 0 then 1 else |values|) / 2;
        if signChanges > majority || exceeded {
          oscillation := true;
          steadyTicks := 0;
        } else if idle {
          steadyTicks := steadyTicks + 1;
        } else {
          steadyTicks := 0;
        }
      }
    }
  }

  // ------------------------------------------------------------------
  // The bundle
  // ------------------------------------------------------------------

  datatype Label = Manifest(name: string) | UnexpectedOutput(i: nat)

  datatype Bundle = Bundle(
    controllerId: string,
    ticksRun: nat,
    counts: Counts,
    epochInterrupts: nat,
    traps: nat,
    touched: seq<Label>,
    untouched: seq<string>,
    unexpected: seq<nat>,
    oscillation: bool,
    steadyReached: bool,
    idleOutputStable: bool,
    status: VerifierStatus,
    digests: Digests,
    mode: ExecutionMode)
  {
    predicate HasSafetyIssues() {
      traps > 0 || epochInterrupts > 0 || oscillation || unexpected != []
    }

    predicate HasUntouchedChannels() {
      untouched != []
    }
  }

  /** The channels in (or out of) the touched set, in manifest order. */
  function Select(channels: seq<string>, touched: set<string>, wanted: bool): seq<string> {
    if channels == [] then []
    else
      var rest := Select(channels[..|channels| - 1], touched, wanted);
      var last := channels[|channels| - 1];
      if (last in touched) == wanted then rest + [last] else rest
  }

  function Finalize(c: Collector, digests: Digests, mode: ExecutionMode): Bundle {
    var reached := c.steadyTicks >= STEADY_STATE_THRESHOLD;
    var selected := Select(c.channels, c.touched, true);
    Bundle(c.controllerId, c.ticks, c.counts, c.epochInterrupts, c.traps,
           seq(|selected|, i requires 0 <= i < |selected| => Manifest(selected[i]))
             + seq(|c.unexpected|, i requires 0 <= i < |c.unexpected| => UnexpectedOutput(c.unexpected[i])),
           Select(c.channels, c.touched, false),
           c.unexpected, c.oscillation, reached, !c.oscillation && reached,
           Pending, digests, mode)
  }
}
