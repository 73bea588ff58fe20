/** What the collected evidence means, over every run of the collector. */
module EvidenceProofs {
  import opened Floats
  import opened Deployment
  import opened Artifacts
  import opened SafetyFilter
  import opened Evidence

  // ------------------------------------------------------------------
  // The online statistics are the batch statistics
  // ------------------------------------------------------------------

  function LatencyAfter(samples: seq<nat>): Latency {
    if samples == [] then NO_SAMPLES
    else RecordLatency(LatencyAfter(samples[..|samples| - 1]), samples[|samples| - 1])
  }

  /** A sample as a 64-bit count can hold it. */
  function Clipped(micros: nat): nat {
    if micros <= 0xFFFF_FFFF_FFFF_FFFF then micros else 0xFFFF_FFFF_FFFF_FFFF
  }

  function Total(samples: seq<nat>): real {
    if samples == [] then 0.0
    else Total(samples[..|samples| - 1]) + Clipped(samples[|samples| - 1]) as real
  }

  function Sq(x: real): real {
    x * x
  }

  /** Sum of squared distances of the samples from `c`. */
  function Spread(samples: seq<nat>, c: real): real {
    if samples == [] then 0.0
    else Spread(samples[..|samples| - 1], c) + Sq(Clipped(samples[|samples| - 1]) as real - c)
  }

  function LastSamples(samples: seq<nat>): seq<nat> {
    var n := if |samples| < 2048 then |samples| else 2048;
    seq<nat>(n, i requires 0 <= i < n => Clipped(samples[|samples| - n + i]))
  }

  /** The spread about `c`, from the spread `v` about `d`, the count and the total. */
  function Recentred(v: real, c: real, d: real, n: real, total: real): real {
    v + 2.0 * (d - c) * (total - n * d) + n * Sq(d - c)
  }

  lemma RecentredStep(x: real, v: real, c: real, d: real, n: real, total: real)
    ensures Recentred(v, c, d, n, total) + Sq(x - c) == Recentred(v + Sq(x - d), c, d, n + 1.0, total + x)
  {
    var e := d - c;
    assert Sq(x - c) == Sq(x - d) + 2.0 * e * (x - d) + Sq(e);
    assert 2.0 * e * (total + x - (n + 1.0) * d) == 2.0 * e * (total - n * d) + 2.0 * e * (x - d);
    assert (n + 1.0) * Sq(e) == n * Sq(e) + Sq(e);
  }

  lemma SpreadOfNone(c: real, d: real)
    ensures Spread([], c) == Recentred(Spread([], d), c, d, 0.0, Total([]))
  {
  }

  lemma {:induction false} SpreadAbout(samples: seq<nat>, c: real, d: real)
    ensures Spread(samples, c) == Recentred(Spread(samples, d), c, d, |samples| as real, Total(samples))
  {
    hide *;
    if samples == [] {
      SpreadOfNone(c, d);
    } else {
      var t := samples[..|samples| - 1];
      SpreadAbout(t, c, d);
      var x := Saturate(samples[|samples| - 1]) as real;
      RecentredStep(x, Spread(t, d), c, d, |t| as real, Total(t));
      SpreadAdd(samples, c);
      SpreadAdd(samples, d);
      assert |samples| as real == |t| as real + 1.0;
    }
  }

  /** About the mean itself the cross term vanishes. */
  lemma RecentredFromMean(v: real, c: real, mean: real, n: real, total: real)
    requires mean * n == total
    ensures Recentred(v, c, mean, n, total) == v + n * Sq(mean - c)
  {
    assert total - n * mean == 0.0;
  }

  /** With `mean` the mean of `n` samples, adding `x` keeps the running spread exact. */
  lemma WelfordStep(n: real, x: real, mean: real, next: real)
    requires n >= 0.0 && next == mean + (x - mean) / (n + 1.0)
    ensures n * Sq(mean - next) + Sq(x - next) == (x - mean) * (x - next)
    ensures next * (n + 1.0) == mean * n + x
  {
    var e := (x - mean) / (n + 1.0);
    assert e * (n + 1.0) == x - mean;
    assert x - next == n * e;
    assert mean - next == -e;
    assert n * Sq(mean - next) == n * e * e;
    assert Sq(x - next) == n * e * (n * e);
    assert (x - mean) * (x - next) == e * (n + 1.0) * (n * e);
    assert e * (n + 1.0) * (n * e) == n * e * e + n * e * (n * e);
    assert next * (n + 1.0) == mean * (n + 1.0) + e * (n + 1.0);
  }

  lemma SpreadAdd(samples: seq<nat>, c: real)
    requires samples != []
    ensures var t := samples[..|samples| - 1];
      var x := Saturate(samples[|samples| - 1]) as real;
      Spread(samples, c) == Spread(t, c) + Sq(x - c) && Total(samples) == Total(t) + x
  {
  }

  /** For every sample sequence: the running mean is the mean, the running second
      moment is the sum of squared deviations from it, and the ring holds exactly
      the last 2048 samples in order. */
  lemma {:induction false} LatencyIsBatch(samples: seq<nat>)
    ensures var l := LatencyAfter(samples);
      && l.count == |samples|
      && l.mean * |samples| as real == Total(samples)
      && l.m2 == Spread(samples, l.mean)
      && l.recent == LastSamples(samples)
  {
    hide Spread, Total, RecordLatency, LastSamples;
    if samples == [] {
      SpreadOfNone(0.0, 0.0);
      RecentOfNone();
    } else {
      var t := samples[..|samples| - 1];
      LatencyIsBatch(t);
      LatencyStep(samples, LatencyAfter(t));
    }
  }

  lemma RecentOfNone()
    ensures Total([]) == 0.0 && Spread([], 0.0) == 0.0 && LastSamples([]) == []
  {
  }

  lemma LatencyStep(samples: seq<nat>, l: Latency)
    requires samples != []
    requires var t := samples[..|samples| - 1];
      && l.count == |t| && l.mean * |t| as real == Total(t) && l.m2 == Spread(t, l.mean) && l.recent == LastSamples(t)
    ensures var l' := RecordLatency(l, samples[|samples| - 1]);
      && l'.count == |samples| && l'.mean * |samples| as real == Total(samples)
      && l'.m2 == Spread(samples, l'.mean) && l'.recent == LastSamples(samples)
  {
    hide *;
    var t := samples[..|samples| - 1];
    var l' := RecordLatency(l, samples[|samples| - 1]);
    var x := Saturate(samples[|samples| - 1]) as real;
    var n := |t| as real;
    RecentStep(samples);
    RecordLatencyFields(l, samples[|samples| - 1]);
    assert |samples| as real == n + 1.0;
    WelfordStep(n, x, l.mean, l'.mean);
    SpreadAbout(t, l'.mean, l.mean);
    RecentredFromMean(l.m2, l'.mean, l.mean, n, Total(t));
    SpreadAdd(samples, l'.mean);
  }

  lemma RecordLatencyFields(l: Latency, micros: nat)
    ensures var l' := RecordLatency(l, micros);
      var x := Saturate(micros) as real;
      && l'.count == l.count + 1
      && l'.mean == l.mean + (x - l.mean) / (l.count as real + 1.0)
      && l'.m2 == l.m2 + (x - l.mean) * (x - l'.mean)
      && l'.recent == (if |l.recent| == MAX_TICK_LATENCY_SAMPLES then l.recent[1..] else l.recent) + [Clipped(micros)]
  {
    assert (l.count + 1) as real == l.count as real + 1.0;
  }

  lemma RecentStep(samples: seq<nat>)
    requires samples != []
    ensures var t := LastSamples(samples[..|samples| - 1]);
      (if |t| == MAX_TICK_LATENCY_SAMPLES then t[1..] else t) + [Clipped(samples[|samples| - 1])] == LastSamples(samples)
  {
  }

  // ------------------------------------------------------------------
  // Collector runs
  // ------------------------------------------------------------------

  /** The collector of a run of ticks. */
  function After(id: string, channels: seq<string>, ticks: seq<TickRecord>): Collector {
    if ticks == [] then NewCollector(id, channels)
    else AfterTick(After(id, channels, ticks[..|ticks| - 1]), ticks[|ticks| - 1])
  }

  // ------------------------------------------------------------------
  // Steady state means bounded drift
  // ------------------------------------------------------------------

  /** Ticks `t - 1` and `t` have equal, non-zero width and no channel moved by more than the idle epsilon. */
  predicate IdleStep(ticks: seq<TickRecord>, t: nat)
    requires 0 < t < |ticks|
  {
    && |ticks[t - 1].values| == |ticks[t].values| > 0
    && !MovesMore(ticks[t - 1].values, ticks[t].values, 0.005)
  }

  /** Ticks `t - 1` and `t` met the oscillation test. */
  predicate OscillatesAt(ticks: seq<TickRecord>, t: nat)
    requires 0 < t < |ticks|
  {
    && |ticks[t - 1].values| == |ticks[t].values| > 0
    && Oscillates(ticks[t - 1].values, ticks[t].values)
  }

  lemma AfterTickStability(c: Collector, r: TickRecord)
    ensures var c' := AfterTick(c, r);
      && c'.previous == r.values
      && c'.steadyTicks == NextSteady(c, r.values)
      && (c'.oscillation <==> c.oscillation || (c.previous != [] && |c.previous| == |r.values| && Oscillates(c.previous, r.values)))
  {
  }

  lemma PreviousIsLast(id: string, channels: seq<string>, ticks: seq<TickRecord>)
    ensures After(id, channels, ticks).previous == if ticks == [] then [] else ticks[|ticks| - 1].values
  {
    hide AfterTick;
    if ticks != [] {
      AfterTickStability(After(id, channels, ticks[..|ticks| - 1]), ticks[|ticks| - 1]);
    }
  }

  predicate NoOscillation(ticks: seq<TickRecord>) {
    forall t :: 0 < t < |ticks| ==> !OscillatesAt(ticks, t)
  }

  lemma OneMoreTick(ticks: seq<TickRecord>)
    requires ticks != []
    ensures var last := |ticks| - 1;
      NoOscillation(ticks) <==> NoOscillation(ticks[..last]) && (last > 0 ==> !OscillatesAt(ticks, last))
  {
    var before := ticks[..|ticks| - 1];
    assert forall t :: 0 < t < |before| ==> (OscillatesAt(before, t) <==> OscillatesAt(ticks, t));
    hide OscillatesAt;
  }

  /** The oscillation flag is set exactly when some tick of the run met the oscillation test. */
  lemma {:induction false} OscillationFlag(id: string, channels: seq<string>, ticks: seq<TickRecord>)
    ensures !After(id, channels, ticks).oscillation <==> NoOscillation(ticks)
  {
    if ticks != [] {
      var before := ticks[..|ticks| - 1];
      OscillationFlag(id, channels, before);
      PreviousIsLast(id, channels, before);
      AfterTickStability(After(id, channels, before), ticks[|ticks| - 1]);
      OneMoreTick(ticks);
      hide AfterTick, Oscillates, NoOscillation;
    }
  }

  /** The output at `t` is as wide as the one before, moves no channel by more than 0.005 and does not oscillate. */
  predicate SteadyStep(ticks: seq<TickRecord>, t: nat)
    requires 0 < t < |ticks|
  {
    IdleStep(ticks, t) && !OscillatesAt(ticks, t)
  }

  /** The last `n` outputs form the steady stretch at the end: since the first output, since an
      output after an empty one, or since the last step that was not steady. */
  predicate SteadyStretch(ticks: seq<TickRecord>, n: nat) {
    && n <= |ticks|
    && (forall t :: |ticks| - n < t < |ticks| ==> SteadyStep(ticks, t))
    && (n < |ticks| ==>
          var b := |ticks| - n;
          || (n > 0 && ticks[b - 1].values == [])
          || (b > 1 && ticks[b - 2].values != [] && !SteadyStep(ticks, b - 1) && (n > 0 ==> SteadyStep(ticks, b))))
  }

  lemma StretchGrows(ticks: seq<TickRecord>, m: nat, n: nat)
    requires ticks != [] && SteadyStretch(ticks[..|ticks| - 1], m)
    requires var last := |ticks| - 1;
      n == if last == 0 || ticks[last - 1].values == [] then 1 else if SteadyStep(ticks, last) then m + 1 else 0
    ensures SteadyStretch(ticks, n)
  {
    var last := |ticks| - 1;
    var before := ticks[..last];
    assert forall t :: 0 <= t < last ==> before[t] == ticks[t];
    assert forall t :: 0 < t < last ==> (SteadyStep(before, t) <==> SteadyStep(ticks, t));
    hide SteadyStep;
  }

  lemma SteadyNext(ticks: seq<TickRecord>, c: Collector)
    requires ticks != [] && c.previous == (if |ticks| == 1 then [] else ticks[|ticks| - 2].values)
    ensures var last := |ticks| - 1;
      AfterTick(c, ticks[last]).steadyTicks
      == if last == 0 || ticks[last - 1].values == [] then 1 else if SteadyStep(ticks, last) then c.steadyTicks + 1 else 0
  {
    AfterTickStability(c, ticks[|ticks| - 1]);
    hide AfterTick, Oscillates, MovesMore;
  }

  /** The steady counter is exactly the length of that stretch. */
  lemma {:induction false} SteadyCountIsExact(id: string, channels: seq<string>, ticks: seq<TickRecord>)
    ensures SteadyStretch(ticks, After(id, channels, ticks).steadyTicks)
  {
    if ticks != [] {
      var before := ticks[..|ticks| - 1];
      SteadyCountIsExact(id, channels, before);
      PreviousIsLast(id, channels, before);
      var c := After(id, channels, before);
      SteadyNext(ticks, c);
      hide AfterTick, IdleStep, OscillatesAt, SteadyStretch;
      StretchGrows(ticks, c.steadyTicks, After(id, channels, ticks).steadyTicks);
    }
  }

  /** Stability over any run: the steady counter spans only idle steps of equal width, and exactly the
      steady stretch at the end; the oscillation flag is set exactly when some tick met the test. */
  lemma SteadyWindow(id: string, channels: seq<string>, ticks: seq<TickRecord>)
    ensures var c := After(id, channels, ticks);
      && c.previous == (if ticks == [] then [] else ticks[|ticks| - 1].values)
      && SteadyStretch(ticks, c.steadyTicks)
      && (forall t :: |ticks| - c.steadyTicks < t < |ticks| ==> IdleStep(ticks, t))
      && (c.oscillation <==> exists t :: 0 < t < |ticks| && OscillatesAt(ticks, t))
  {
    PreviousIsLast(id, channels, ticks);
    SteadyCountIsExact(id, channels, ticks);
    OscillationFlag(id, channels, ticks);
    var n := After(id, channels, ticks).steadyTicks;
    hide After, IdleStep, OscillatesAt;
    forall t | |ticks| - n < t < |ticks|
      ensures IdleStep(ticks, t)
    {
      assert SteadyStep(ticks, t);
    }
  }

  /** The last `n` outputs. */
  function Window(ticks: seq<TickRecord>, n: nat): seq<TickRecord>
    requires n <= |ticks|
  {
    ticks[|ticks| - n..]
  }

  predicate AllFinite(window: seq<TickRecord>) {
    forall i, k :: 0 <= i < |window| && 0 <= k < |window[i].values| ==> window[i].values[k].Finite?
  }

  predicate EqualWidths(window: seq<TickRecord>) {
    forall i, j :: 0 <= i < j < |window| ==> |window[i].values| == |window[j].values|
  }

  /** Any two outputs of the window differ by at most `bound` on every channel. */
  predicate DriftAtMost(window: seq<TickRecord>, bound: real)
    requires EqualWidths(window)
  {
    forall i, j, k :: 0 <= i <= j < |window| && 0 <= k < |window[i].values| ==>
      AtMost(Move(window[i].values[k], window[j].values[k]), bound)
  }

  lemma {:induction false} IdleStepsAdd(ticks: seq<TickRecord>, i: nat, j: nat, k: nat)
    requires i <= j < |ticks| && k < |ticks[i].values|
    requires forall t :: i < t <= j ==> IdleStep(ticks, t)
    requires forall t :: i <= t <= j && k < |ticks[t].values| ==> ticks[t].values[k].Finite?
    ensures |ticks[i].values| == |ticks[j].values|
    ensures Abs(ticks[j].values[k].v - ticks[i].values[k].v) <= (j - i) as real * 0.005
    decreases j - i
  {
    if i < j {
      assert IdleStep(ticks, j);
      IdleStepsAdd(ticks, i, j - 1, k);
      assert !Above(Move(ticks[j - 1].values[k], ticks[j].values[k]), 0.005);
      assert (j - i) as real == (j - 1 - i) as real + 1.0;
    }
  }

  lemma {:induction false} IdleStepsKeepWidth(ticks: seq<TickRecord>, i: nat, j: nat)
    requires i <= j < |ticks|
    requires forall t :: i < t <= j ==> IdleStep(ticks, t)
    ensures |ticks[i].values| == |ticks[j].values|
    decreases j - i
  {
    if i < j {
      assert IdleStep(ticks, j);
      IdleStepsKeepWidth(ticks, i, j - 1);
    }
  }

  /** Steady state, with its exact condition. Whenever the counter is at least `n`,
      the last `n` outputs have equal width, and any two of them differ per channel by
      at most `n - 1` times the idle epsilon if and only if they are all finite: the
      test `delta > epsilon` is false for NaN, so non-finite outputs count as idle. */
  lemma SteadyMeansBoundedDrift(id: string, channels: seq<string>, ticks: seq<TickRecord>, n: nat)
    requires 1 <= n <= After(id, channels, ticks).steadyTicks
    ensures n <= |ticks| && EqualWidths(Window(ticks, n))
    ensures DriftAtMost(Window(ticks, n), (n - 1) as real * 0.005) <==> AllFinite(Window(ticks, n))
  {
    SteadyWindow(id, channels, ticks);
    hide After, Move, IdleStep;
    var base := |ticks| - n;
    var w := Window(ticks, n);
    forall i, j | 0 <= i <= j < n
      ensures |w[i].values| == |w[j].values|
    {
      IdleStepsKeepWidth(ticks, base + i, base + j);
    }
    var bound := (n - 1) as real * 0.005;
    if AllFinite(w) {
      forall i, j, k | 0 <= i <= j < n && 0 <= k < |w[i].values|
        ensures AtMost(Move(w[i].values[k], w[j].values[k]), bound)
      {
        FiniteColumn(ticks, base, n, k);
        IdleStepsAdd(ticks, base + i, base + j, k);
        FiniteMove(w[i].values[k], w[j].values[k], (j - i) as real * 0.005, bound);
      }
    }
    if DriftAtMost(w, bound) {
      forall i, k | 0 <= i < n && 0 <= k < |w[i].values|
        ensures w[i].values[k].Finite?
      {
        assert AtMost(Move(w[i].values[k], w[i].values[k]), bound);
        OwnMove(w[i].values[k], bound);
      }
    }
  }

  lemma FiniteColumn(ticks: seq<TickRecord>, base: nat, n: nat, k: nat)
    requires base + n == |ticks| && AllFinite(Window(ticks, n))
    ensures forall t :: base <= t < |ticks| && k < |ticks[t].values| ==> ticks[t].values[k].Finite?
  {
    forall t | base <= t < |ticks| && k < |ticks[t].values|
      ensures ticks[t].values[k].Finite?
    {
      assert ticks[t] == Window(ticks, n)[t - base];
    }
  }

  lemma FiniteMove(x: F64, y: F64, step: real, bound: real)
    requires x.Finite? && y.Finite? && Abs(y.v - x.v) <= step <= bound
    ensures AtMost(Move(x, y), bound)
  {
  }

  lemma OwnMove(x: F64, bound: real)
    ensures AtMost(Move(x, x), bound) ==> x.Finite?
  {
  }

  /** Two channels, one of them NaN in between: three outputs count as steady although the first channel moved by 100. */
  lemma NaNCountsAsSteady()
    ensures var ticks := [TickRecord(0, [Finite(0.0), Finite(0.0)], []),
                          TickRecord(0, [NaN, Finite(0.0)], []),
                          TickRecord(0, [Finite(100.0), Finite(0.0)], [])];
      After("c", ["a", "b"], ticks).steadyTicks == 3
  {
    var a, b, c := [Finite(0.0), Finite(0.0)], [NaN, Finite(0.0)], [Finite(100.0), Finite(0.0)];
    var r1, r2, r3 := TickRecord(0, a, []), TickRecord(0, b, []), TickRecord(0, c, []);
    assert SignChanges(a, b, 2) == SignChanges(a, b, 1) == 0;
    assert SignChanges(b, c, 2) == SignChanges(b, c, 1) == 1;
    var ticks := [r1, r2, r3];
    assert ticks[..2] == [r1, r2] && [r1, r2][..1] == [r1] && [r1][..0] == [];
    hide RecordLatency, Covered, NoteUnexpected, CountKinds;
    var c0 := NewCollector("c", ["a", "b"]);
    var c1 := AfterTick(c0, r1);
    assert After("c", ["a", "b"], [r1]) == c1 && c1.steadyTicks == 1;
    var c2 := AfterTick(c1, r2);
    assert After("c", ["a", "b"], [r1, r2]) == c2 && c2.steadyTicks == 2;
    assert After("c", ["a", "b"], ticks) == AfterTick(c2, r3);
  }

  /** A bundle that claims stable idle output saw at least 50 steady ticks and no
      tick of the whole run met the oscillation test; and it claims nothing less. */
  lemma IdleStableMeansNoOscillation(id: string, channels: seq<string>, ticks: seq<TickRecord>, digests: Digests, mode: ExecutionMode)
    ensures var b := Finalize(After(id, channels, ticks), digests, mode);
      b.idleOutputStable <==>
        After(id, channels, ticks).steadyTicks >= 50
        && forall t :: 0 < t < |ticks| ==> !OscillatesAt(ticks, t)
  {
    SteadyWindow(id, channels, ticks);
  }

  // ------------------------------------------------------------------
  // Channel coverage
  // ------------------------------------------------------------------

  /** The widest output of the run. */
  function Widest(ticks: seq<TickRecord>): nat {
    if ticks == [] then 0
    else
      var before := Widest(ticks[..|ticks| - 1]);
      if |ticks[|ticks| - 1].values| > before then |ticks[|ticks| - 1].values| else before
  }

  predicate Distinct(channels: seq<string>) {
    forall i, j :: 0 <= i < j < |channels| ==> channels[i] != channels[j]
  }

  /** The numbers `from`, ..., `to - 1`; empty when `to <= from`. */
  function Range(from: nat, to: nat): seq<nat> {
    if to <= from then [] else Range(from, to - 1) + [to - 1]
  }

  lemma {:induction false} InRange(from: nat, to: nat, x: nat)
    ensures x in Range(from, to) <==> from <= x < to
  {
    if from < to {
      InRange(from, to - 1, x);
    }
  }

  /** Noting an output of width `n` extends the noted positions up to `n`. */
  lemma {:induction false} NoteUnexpectedRange(channels: seq<string>, w: nat, n: nat)
    ensures NoteUnexpected(Range(|channels|, w), channels, n) == Range(|channels|, if n > w then n else w)
  {
    if n > |channels| {
      NoteUnexpectedRange(channels, w, n - 1);
      InRange(|channels|, if n - 1 > w then n - 1 else w, n - 1);
    }
  }

  /** After any run of ticks, what was touched is the manifest up to the widest output, and
      the unexpected outputs are exactly the positions beyond the manifest up to it. */
  lemma {:induction false} CoverageIsWidth(id: string, channels: seq<string>, ticks: seq<TickRecord>)
    ensures var c := After(id, channels, ticks);
      && c.controllerId == id && c.channels == channels && c.ticks == |ticks| && c.traps == 0 && c.epochInterrupts == 0
      && c.touched == Covered(channels, Widest(ticks))
      && c.unexpected == Range(|channels|, Widest(ticks))
  {
    if ticks != [] {
      var before := ticks[..|ticks| - 1];
      CoverageIsWidth(id, channels, before);
      var n := |ticks[|ticks| - 1].values|;
      NoteUnexpectedRange(channels, Widest(before), n);
      hide NextSteady, RecordLatency, CountKinds, Oscillates, NoteUnexpected;
    }
  }

  function Durations(ticks: seq<TickRecord>): seq<nat> {
    if ticks == [] then [] else Durations(ticks[..|ticks| - 1]) + [ticks[|ticks| - 1].micros]
  }

  /** The collector's latency figures are the statistics of its ticks. */
  lemma {:induction false} CollectorLatency(id: string, channels: seq<string>, ticks: seq<TickRecord>)
    ensures After(id, channels, ticks).latency == LatencyAfter(Durations(ticks))
  {
    hide RecordLatency, NextSteady, Covered, NoteUnexpected, CountKinds, Oscillates;
    if ticks != [] {
      var before := Durations(ticks[..|ticks| - 1]);
      CollectorLatency(id, channels, ticks[..|ticks| - 1]);
      assert Durations(ticks)[..|before|] == before;
    }
  }

  lemma {:induction false} SelectSplits(channels: seq<string>, n: nat, all: seq<string>)
    requires channels <= all && Distinct(all)
    ensures var m := if n < |channels| then n else |channels|;
      && Select(channels, Covered(all, n), true) == channels[..m]
      && Select(channels, Covered(all, n), false) == channels[m..]
  {
    if channels != [] {
      var k := |channels| - 1;
      SelectSplits(channels[..k], n, all);
      assert channels[k] == all[k];
      assert channels[k] in Covered(all, n) <==> k < n by {
        if k < n {
          assert all[k] in Covered(all, n);
        }
      }
      assert channels == channels[..k] + [channels[k]];
      hide Covered;
    }
  }

  /** With distinct channel names the manifest is split, in order, at the widest
      output: what was covered is reported touched and the rest untouched; positions
      beyond the manifest are reported as unexpected. The gate's two coverage tests
      pass exactly when the widest output has the manifest's width. */
  lemma CoverageGate(id: string, channels: seq<string>, ticks: seq<TickRecord>, digests: Digests, mode: ExecutionMode)
    requires Distinct(channels)
    ensures var c := After(id, channels, ticks);
      var b := Finalize(c, digests, mode);
      var m := if Widest(ticks) < |channels| then Widest(ticks) else |channels|;
      && |b.touched| == m + |b.unexpected|
      && (forall i :: 0 <= i < m ==> b.touched[i] == Manifest(channels[i]))
      && b.untouched == channels[m..]
      && b.unexpected == Range(|channels|, Widest(ticks))
      && (b.unexpected == [] && !b.HasUntouchedChannels() <==> Widest(ticks) == |channels|)
  {
    CoverageIsWidth(id, channels, ticks);
    SelectSplits(channels, Widest(ticks), channels);
    hide After, Covered;
  }

  // ------------------------------------------------------------------
  // What the tests and counters mean
  // ------------------------------------------------------------------

  predicate Negative(x: F64) {
    x.NegInf? || (x.Finite? && x.v < 0.0)
  }

  predicate Positive(x: F64) {
    x.PosInf? || (x.Finite? && x.v > 0.0)
  }

  /** Two outputs point in opposite directions, or one is not a number while the other is not zero. */
  predicate Flips(x: F64, y: F64) {
    || (Negative(x) && Positive(y)) || (Positive(x) && Negative(y))
    || (x.NaN? && y != Finite(0.0)) || (y.NaN? && x != Finite(0.0))
  }

  /** Two numbers more than 0.05 apart, the infinities included. */
  predicate Jumps(x: F64, y: F64) {
    !x.NaN? && !y.NaN? && if x.Finite? && y.Finite? then Abs(y.v - x.v) > 0.05 else x != y
  }

  /** The channels among the first `n` that flip. */
  function Flipping(prev: seq<F64>, curr: seq<F64>, n: nat): set<nat>
    requires n <= |prev| == |curr|
  {
    set i: nat | i < n && Flips(prev[i], curr[i])
  }

  lemma {:induction false} SignChangesAreFlips(prev: seq<F64>, curr: seq<F64>, n: nat)
    requires n <= |prev| == |curr|
    ensures SignChanges(prev, curr, n) == |Flipping(prev, curr, n)|
  {
    if n > 0 {
      SignChangesAreFlips(prev, curr, n - 1);
      assert Flipping(prev, curr, n) == Flipping(prev, curr, n - 1) + if Flips(prev[n - 1], curr[n - 1]) then {n - 1} else {};
      assert n - 1 !in Flipping(prev, curr, n - 1);
      assert SignChange(prev[n - 1], curr[n - 1]) <==> Flips(prev[n - 1], curr[n - 1]);
      hide SignChange, Flips, Flipping;
    }
  }

  lemma JumpsExceed(x: F64, y: F64)
    ensures Above(Move(x, y), 0.05) <==> Jumps(x, y)
  {
  }

  /** Two outputs oscillate if and only if more than half of the channels flip or some channel jumps. */
  lemma OscillationMeans(prev: seq<F64>, curr: seq<F64>)
    requires |prev| == |curr|
    ensures Oscillates(prev, curr) <==>
      || 2 * |Flipping(prev, curr, |prev|)| > |prev|
      || exists i :: 0 <= i < |prev| && Jumps(prev[i], curr[i])
  {
    SignChangesAreFlips(prev, curr, |prev|);
    forall i | 0 <= i < |prev|
      ensures Above(Move(prev[i], curr[i]), 0.05) <==> Jumps(prev[i], curr[i])
    {
      JumpsExceed(prev[i], curr[i]);
    }
    hide SignChanges, Flipping, Above, Move, Jumps;
  }

  /** How often a kind occurs in the records of a run. */
  function Occurrences(ticks: seq<TickRecord>, kind: Kind): nat {
    if ticks == [] then 0
    else Occurrences(ticks[..|ticks| - 1], kind) + multiset(ticks[|ticks| - 1].kinds)[kind]
  }

  lemma CountKindsLast(c: Counts, kinds: seq<Kind>)
    requires kinds != []
    ensures CountKinds(c, kinds) == CountKind(CountKinds(c, kinds[..|kinds| - 1]), kinds[|kinds| - 1])
  {
  }

  lemma {:induction false} CountKindsAdds(c: Counts, kinds: seq<Kind>)
    ensures var d := CountKinds(c, kinds);
      var m := multiset(kinds);
      && d.rejections == c.rejections + m[NanReject]
      && d.rateClamps == c.rateClamps + m[AccelerationLimit]
      && d.positionStops == c.positionStops + m[PositionLimit]
      && d.limitClamps == c.limitClamps + m[VelocityClamp] + m[UnconfiguredJoint] + m[ForceLimit] + m[TorqueLimit]
  {
    if kinds != [] {
      var n := |kinds| - 1;
      CountKindsAdds(c, kinds[..n]);
      assert kinds == kinds[..n] + [kinds[n]];
      assert multiset(kinds) == multiset(kinds[..n]) + multiset{kinds[n]};
      hide CountKinds;
      assert CountKinds(c, kinds) == CountKind(CountKinds(c, kinds[..n]), kinds[n]) by {
        CountKindsLast(c, kinds);
      }
    }
  }

  /** The bundle of a run reports its ticks and each kind of intervention as often as it happened. */
  lemma {:induction false} CountsAreTallies(
    id: string, channels: seq<string>, ticks: seq<TickRecord>, digests: Digests, mode: ExecutionMode)
    ensures var b := Finalize(After(id, channels, ticks), digests, mode);
      && b.controllerId == id && b.digests == digests && b.mode == mode && b.status == Pending
      && b.ticksRun == |ticks| && b.traps == 0 && b.epochInterrupts == 0
      && (b.steadyReached <==> After(id, channels, ticks).steadyTicks >= 50)
      && b.counts.rejections == Occurrences(ticks, NanReject)
      && b.counts.rateClamps == Occurrences(ticks, AccelerationLimit)
      && b.counts.positionStops == Occurrences(ticks, PositionLimit)
      && b.counts.limitClamps == Occurrences(ticks, VelocityClamp) + Occurrences(ticks, UnconfiguredJoint)
                                 + Occurrences(ticks, ForceLimit) + Occurrences(ticks, TorqueLimit)
  {
    CoverageIsWidth(id, channels, ticks);
    if ticks != [] {
      var n := |ticks| - 1;
      CountsAreTallies(id, channels, ticks[..n], digests, mode);
      CountKindsAdds(After(id, channels, ticks[..n]).counts, ticks[n].kinds);
      hide CountKinds, RecordLatency, NextSteady, Covered, NoteUnexpected, Oscillates, Select;
    }
  }

  // ------------------------------------------------------------------
  // When a run passes
  // ------------------------------------------------------------------

  /** No output is wider than the manifest, every channel name is covered by some output, and no tick oscillates. */
  predicate CleanTicks(channels: seq<string>, ticks: seq<TickRecord>) {
    Widest(ticks) <= |channels| && NamesCovered(channels, Widest(ticks)) && NoOscillation(ticks)
  }

  predicate NamesCovered(channels: seq<string>, n: nat)
    requires n <= |channels|
  {
    forall k :: 0 <= k < |channels| ==> exists i :: 0 <= i < n && channels[i] == channels[k]
  }

  lemma {:induction false} NoneLeft(channels: seq<string>, touched: set<string>)
    ensures Select(channels, touched, false) == [] <==> forall k :: 0 <= k < |channels| ==> channels[k] in touched
  {
    if channels != [] {
      var n := |channels| - 1;
      NoneLeft(channels[..n], touched);
      assert forall k :: 0 <= k < n ==> channels[..n][k] == channels[k];
    }
  }

  lemma RangeEmpty(from: nat, to: nat)
    ensures Range(from, to) == [] <==> to <= from
  {
    InRange(from, to, from);
  }

  lemma NoneUntouched(channels: seq<string>, n: nat)
    requires n <= |channels|
    ensures Select(channels, Covered(channels, n), false) == [] <==> NamesCovered(channels, n)
  {
    var touched := Covered(channels, n);
    NoneLeft(channels, touched);
    forall k | 0 <= k < |channels|
      ensures channels[k] in touched <==> exists i :: 0 <= i < n && channels[i] == channels[k]
    {
    }
    hide Covered, Select;
  }

  /** The evidence of a run has no safety issue and no untouched channel if and only if the run is clean. */
  lemma EvidencePassesIffClean(id: string, channels: seq<string>, ticks: seq<TickRecord>, digests: Digests, mode: ExecutionMode)
    ensures var b := Finalize(After(id, channels, ticks), digests, mode);
      !b.HasSafetyIssues() && !b.HasUntouchedChannels() <==> CleanTicks(channels, ticks)
  {
    CoverageIsWidth(id, channels, ticks);
    OscillationFlag(id, channels, ticks);
    RangeEmpty(|channels|, Widest(ticks));
    if Widest(ticks) <= |channels| {
      NoneUntouched(channels, Widest(ticks));
    }
    hide After, Covered, Select, Widest, Range, NamesCovered, NoOscillation;
  }
}
