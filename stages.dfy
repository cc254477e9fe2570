/**
 * The per-sample stages of the batch enhancement chain and the chunk merge
 * that precedes them (`SimpleTTS.prototype._apply*`, `_normalizeAudio`,
 * `_mergeAudioChunks`). None of them reads or writes the speaker object, so
 * each is a module-level method here: it fills a fresh array in an index
 * loop, exactly as the source fills a fresh `Float32Array`, and is proved
 * equal to a specification function on sequences. The lemmas state what
 * the stages promise about those functions.
 */
module Stages {
  import opened Samples

  // ---------------------------------------------------------------------
  // Chunk merge

  /** `_mergeAudioChunks`: sum the lengths, then copy each chunk in at its offset. */
  method MergeAudioChunks(chunks: seq<seq<real>>) returns (result: seq<real>)
    ensures result == Flatten(chunks)
    ensures |result| == TotalLength(chunks)
  {
    var totalLength := 0;
    for c := 0 to |chunks|
      invariant totalLength == TotalLength(chunks[..c])
    {
      FlattenSnoc(chunks, c);
      totalLength := totalLength + |chunks[c]|;
    }
    assert chunks[..|chunks|] == chunks;
    var out := new real[totalLength];
    var offset := 0;
    assert chunks[..0] == [];
    for c := 0 to |chunks|
      invariant offset == TotalLength(chunks[..c]) == |Flatten(chunks[..c])| <= totalLength
      invariant forall k :: 0 <= k < offset ==> out[k] == Flatten(chunks[..c])[k]
    {
      var chunk := chunks[c];
      FlattenSnoc(chunks, c);
      FlattenPrefix(chunks, c + 1);
      FlattenLength(chunks[..c + 1]);
      forall k | 0 <= k < |chunk| {
        out[offset + k] := chunk[k];
      }
      offset := offset + |chunk|;
    }
    result := out[..];
    FlattenLength(chunks);
    assert forall k :: 0 <= k < |result| ==> result[k] == Flatten(chunks)[k];
  }

  // ---------------------------------------------------------------------
  // Pre-emphasis

  const Alpha: real := 0.95
  const PreEmphasisPeak: real := 0.8

  /** First-order high-pass `y[0] = x[0]`, `y[i] = x[i] - 0.95 x[i-1]`, before any rescaling. */
  function Emphasized(x: seq<real>): (e: seq<real>)
    ensures |e| == |x|
  {
    seq(|x|, i requires 0 <= i < |x| => if i == 0 then x[0] else x[i] - Alpha * x[i - 1])
  }

  /** The emphasized signal, rescaled to an absolute peak of 0.8 unless it is silent. */
  function PreEmphasis(x: seq<real>): seq<real> {
    var e := Emphasized(x);
    var m := Peak(e);
    if m > 0.0 then Scale(e, PreEmphasisPeak / m) else e
  }

  lemma MulMonotone(a: real, b: real, g: real)
    requires 0.0 <= g && a <= b
    ensures a * g <= b * g
  {
  }

  /** Rescaling by `t / m` maps a sample bounded by the peak `m` into `[-t, t]`, and the peak onto `t`. */
  lemma RescaledBound(a: real, m: real, t: real)
    requires m > 0.0 && 0.0 <= t && Abs(a) <= m
    ensures Abs(a * (t / m)) <= t
    ensures Abs(a) == m ==> Abs(a * (t / m)) == t
  {
    var g := t / m;
    assert m * g == t;
    AbsScaled(a, g);
    MulMonotone(Abs(a), m, g);
  }

  /** Rescaling a buffer by `t / m`, where `m` is its attained absolute peak, gives absolute peak `t`. */
  lemma RescaledPeak(e: seq<real>, m: real, t: real, k: nat)
    requires m > 0.0 && 0.0 <= t
    requires k < |e| && Abs(e[k]) == m
    requires forall j :: 0 <= j < |e| ==> Abs(e[j]) <= m
    ensures Peak(Scale(e, t / m)) == t
  {
    var y := Scale(e, t / m);
    forall j | 0 <= j < |y|
      ensures Abs(y[j]) <= t
    {
      RescaledBound(e[j], m, t);
    }
    RescaledBound(e[k], m, t);
    PeakIs(y, t, k);
  }

  /**
   * Pre-emphasis keeps the length; a non-silent buffer ends with absolute
   * peak exactly 0.8, a silent one is left unscaled.
   */
  lemma PreEmphasisNormalizesPeak(x: seq<real>)
    ensures |PreEmphasis(x)| == |x|
    ensures Peak(Emphasized(x)) > 0.0 ==> Peak(PreEmphasis(x)) == PreEmphasisPeak
    ensures Peak(Emphasized(x)) <= 0.0 ==> PreEmphasis(x) == Emphasized(x)
  {
    var e := Emphasized(x);
    var m := Peak(e);
    if m > 0.0 {
      RangePeakBounds(e, 0, |e|);
      var k :| 0 <= k < |e| && m == Abs(e[k]);
      RescaledPeak(e, m, PreEmphasisPeak, k);
    }
  }

  /** The rescaling loop of `_applyPreEmphasis`: every sample multiplied by the scale, in place. */
  method ScaleInPlace(a: array<real>, c: real)
    modifies a
    ensures a[..] == Scale(old(a[..]), c)
  {
    ghost var was := a[..];
    for j := 0 to a.Length
      invariant forall k :: 0 <= k < j ==> a[k] == was[k] * c
      invariant forall k :: j <= k < a.Length ==> a[k] == was[k]
    {
      a[j] := a[j] * c;
    }
    assert forall k :: 0 <= k < a.Length ==> a[..][k] == Scale(was, c)[k];
  }

  /** `_applyPreEmphasis`: filter, find the peak, rescale in place. */
  method ApplyPreEmphasis(input: seq<real>) returns (output: seq<real>)
    ensures output == PreEmphasis(input)
  {
    var n := |input|;
    var out := new real[n];
    ghost var e := Emphasized(input);
    if n > 0 {
      out[0] := input[0];
    }
    var i := 1;
    while i < n
      invariant 1 <= i
      invariant forall k :: 0 <= k < i && k < n ==> out[k] == e[k]
    {
      out[i] := input[i] - Alpha * input[i - 1];
      i := i + 1;
    }
    assert out[..] == e;

    var max := 0.0;
    for j := 0 to n
      invariant out[..] == e
      invariant max == RangePeak(e, 0, j)
    {
      max := Max(max, Abs(out[j]));
    }

    if max > 0.0 {
      ScaleInPlace(out, PreEmphasisPeak / max);
    }
    output := out[..];
  }

  // ---------------------------------------------------------------------
  // Noise gate

  const GateThreshold: real := 0.02
  const GateLookAhead: nat := 64
  const GateHold: nat := 32
  const GateRelease: nat := 128

  /** The gate's state between samples: `gateOpen`, `holdCounter`, `releaseCounter`. */
  datatype GateState = GateState(open: bool, hold: int, release: int)

  const GateClosed := GateState(false, 0, 0)

  /** Whether the look-ahead peak at sample `i`, over `[i, min(i + 64, n))`, exceeds 0.02. */
  predicate Triggered(x: seq<real>, i: nat)
    requires i < |x|
  {
    RangePeak(x, i, Min(i + GateLookAhead, |x|)) > GateThreshold
  }

  /** The state change of one iteration of the gate loop. */
  function GateNext(g: GateState, triggered: bool): GateState {
    if triggered then GateState(true, GateHold, GateRelease)
    else if g.hold > 0 then g.(hold := g.hold - 1)
    else if g.release > 0 then g.(release := g.release - 1)
    else g.(open := false)
  }

  /** The output sample of one iteration, from the state before it. */
  function GateOutput(g: GateState, triggered: bool, x: real): real {
    if triggered then x
    else if g.hold > 0 then (if g.open then x else 0.0)
    else if g.release > 0 then Fade(x, g.release - 1)
    else 0.0
  }

  /** The release-phase output: the sample scaled by `counter / 128`. */
  function Fade(x: real, counter: int): real {
    x * (counter as real / GateRelease as real)
  }

  /** The look-ahead decision of every sample. */
  function Triggers(x: seq<real>): (t: seq<bool>)
    ensures |t| == |x|
  {
    seq(|x|, i requires 0 <= i < |x| => Triggered(x, i))
  }

  /** The gate's state after the first `k` decisions of `t`. */
  function GateAfter(t: seq<bool>, k: nat): GateState
    requires k <= |t|
  {
    if k == 0 then GateClosed else GateNext(GateAfter(t, k - 1), t[k - 1])
  }

  /** Output sample `i` of the gate driven by the decisions `t`. */
  function GatedAt(x: seq<real>, t: seq<bool>, i: nat): real
    requires |t| == |x| && i < |x|
  {
    GateOutput(GateAfter(t, i), t[i], x[i])
  }

  /** The gate driven by the decisions `t`. */
  function Gated(x: seq<real>, t: seq<bool>): (y: seq<real>)
    requires |t| == |x|
    ensures |y| == |x|
  {
    seq(|x|, i requires 0 <= i < |x| => GatedAt(x, t, i))
  }

  function NoiseGate(x: seq<real>): (y: seq<real>)
    ensures |y| == |x|
  {
    Gated(x, Triggers(x))
  }

  /** The counters stay in `[0, 32]` and `[0, 128]`, and a running hold means an open gate. */
  lemma {:induction false} GateStateBounds(t: seq<bool>, k: nat)
    requires k <= |t|
    ensures var g := GateAfter(t, k);
      0 <= g.hold <= GateHold as int && 0 <= g.release <= GateRelease as int && (g.hold > 0 ==> g.open)
  {
    if k > 0 {
      GateStateBounds(t, k - 1);
    }
  }

  /** A fade factor `c / 128` with `0 <= c < 128` never amplifies. */
  lemma FadeBound(x: real, c: int)
    requires 0 <= c < GateRelease as int
    ensures Abs(Fade(x, c)) <= Abs(x)
  {
    assert GateRelease as real == 128.0;
    var f := c as real / 128.0;
    assert 0.0 <= f <= 1.0;
    assert Fade(x, c) == x * f;
    AbsScaled(x, f);
    MulMonotone(f, 1.0, Abs(x));
    assert Abs(Fade(x, c)) == Abs(x) * f == f * Abs(x) <= 1.0 * Abs(x) == Abs(x);
  }

  /** One iteration of the gate, case by case, from the state before it. */
  lemma GateStepCases(g: GateState, t: bool, x: real)
    requires 0 <= g.hold && 0 <= g.release <= GateRelease as int && (g.hold > 0 ==> g.open)
    ensures var y := GateOutput(g, t, x); var g' := GateNext(g, t);
      && (t ==> y == x && g' == GateState(true, GateHold, GateRelease))
      && (!t && g.hold > 0 ==> y == x)
      && (!t && g.hold == 0 && g.release > 0 ==> y == Fade(x, g'.release))
      && (!t && g.hold == 0 && g.release == 0 ==> y == 0.0)
      && Abs(y) <= Abs(x)
  {
    if !t && g.hold == 0 && g.release > 0 {
      FadeBound(x, g.release - 1);
    }
  }

  /**
   * What the gate does to sample `i` under decisions `t`: a trigger passes
   * it (and re-arms both counters), a running hold passes it, a running
   * release fades it by the already decremented counter over 128, and an
   * exhausted gate silences it. The gate never amplifies.
   */
  lemma GatedSample(x: seq<real>, t: seq<bool>, i: nat)
    requires |t| == |x| && i < |x|
    ensures var g := GateAfter(t, i); var y := Gated(x, t)[i];
      && (t[i] ==> y == x[i] && GateAfter(t, i + 1) == GateState(true, GateHold, GateRelease))
      && (!t[i] && g.hold > 0 ==> y == x[i])
      && (!t[i] && g.hold == 0 && g.release > 0 ==> y == Fade(x[i], GateAfter(t, i + 1).release))
      && (!t[i] && g.hold == 0 && g.release == 0 ==> y == 0.0)
      && Abs(y) <= Abs(x[i])
  {
    GateStateBounds(t, i);
    var g := GateAfter(t, i);
    assert GateAfter(t, i + 1) == GateNext(g, t[i]);
    assert Gated(x, t)[i] == GateOutput(g, t[i], x[i]);
    GateStepCases(g, t[i], x[i]);
  }

  /**
   * What the noise gate does to sample `i`, decided by the peak of the
   * look-ahead window `[i, min(i + 64, n))`: a peak above 0.02 passes the
   * sample and re-arms both counters to 32 and 128; otherwise a running
   * hold passes it, a running release fades it by the already decremented
   * counter over 128, and an exhausted gate outputs 0. The output never
   * exceeds the input in magnitude.
   */
  lemma NoiseGateSample(x: seq<real>, i: nat)
    requires i < |x|
    ensures var loud := RangePeak(x, i, Min(i + GateLookAhead, |x|)) > GateThreshold;
      var g := GateAfter(Triggers(x), i);
      && (loud ==> NoiseGate(x)[i] == x[i] && GateAfter(Triggers(x), i + 1) == GateState(true, GateHold, GateRelease))
      && (!loud && g.hold > 0 ==> NoiseGate(x)[i] == x[i])
      && (!loud && g.hold == 0 && g.release > 0 ==>
            NoiseGate(x)[i] == Fade(x[i], GateAfter(Triggers(x), i + 1).release))
      && (!loud && g.hold == 0 && g.release == 0 ==> NoiseGate(x)[i] == 0.0)
      && Abs(NoiseGate(x)[i]) <= Abs(x[i])
  {
    GatedSample(x, Triggers(x), i);
  }

  /** Decisions that never trigger leave the gate closed. */
  lemma {:induction false} GateStaysClosed(t: seq<bool>, k: nat)
    requires k <= |t|
    requires forall j :: 0 <= j < |t| ==> !t[j]
    ensures GateAfter(t, k) == GateClosed
  {
    if k > 0 {
      GateStaysClosed(t, k - 1);
    }
  }

  /** A buffer whose every sample is at most 0.02 in absolute value is silenced entirely. */
  lemma NoiseGateQuiet(x: seq<real>)
    requires forall j :: 0 <= j < |x| ==> Abs(x[j]) <= GateThreshold
    ensures forall j :: 0 <= j < |x| ==> NoiseGate(x)[j] == 0.0
  {
    var t := Triggers(x);
    forall j | 0 <= j < |x|
      ensures !t[j]
    {
      var hi := Min(j + GateLookAhead, |x|);
      RangePeakBounds(x, j, hi);
    }
    forall j | 0 <= j < |x|
      ensures NoiseGate(x)[j] == 0.0
    {
      GateStaysClosed(t, j);
    }
  }

  /** The largest absolute value of `x[lo..hi]`, by a scan from `lo` (0 for an empty window). */
  method WindowPeak(x: seq<real>, lo: nat, hi: nat) returns (m: real)
    requires lo <= hi <= |x|
    ensures m == RangePeak(x, lo, hi)
  {
    m := 0.0;
    for j := lo to hi
      invariant m == RangePeak(x, lo, j)
    {
      m := Max(m, Abs(x[j]));
    }
  }

  /** `_applyNoiseGate`: a look-ahead scan, then one step of the gate, per sample. */
  method ApplyNoiseGate(input: seq<real>) returns (output: seq<real>)
    ensures output == NoiseGate(input)
  {
    var n := |input|;
    var out := new real[n];
    ghost var t := Triggers(input);
    var gateOpen, holdCounter, releaseCounter := false, 0, 0;
    for i := 0 to n
      invariant GateState(gateOpen, holdCounter, releaseCounter) == GateAfter(t, i)
      invariant forall k :: 0 <= k < i ==> out[k] == GatedAt(input, t, k)
    {
      var futureMax := WindowPeak(input, i, Min(i + GateLookAhead, n));
      ghost var g := GateState(gateOpen, holdCounter, releaseCounter);
      assert t[i] == (futureMax > GateThreshold);
      assert GateAfter(t, i + 1) == GateNext(g, t[i]);
      ghost var y := GateOutput(g, t[i], input[i]);
      if futureMax > GateThreshold {
        gateOpen := true;
        holdCounter := GateHold;
        releaseCounter := GateRelease;
      } else if holdCounter > 0 {
        holdCounter := holdCounter - 1;
      } else if releaseCounter > 0 {
        releaseCounter := releaseCounter - 1;
        assert y == Fade(input[i], releaseCounter);
        // The release fade uses the counter already decremented.
        out[i] := Fade(input[i], releaseCounter);
        continue;
      } else {
        gateOpen := false;
      }
      out[i] := if gateOpen then input[i] else 0.0;
      assert out[i] == y;
    }
    output := out[..];
    assert forall k :: 0 <= k < n ==> output[k] == Gated(input, t)[k];
  }

  // ---------------------------------------------------------------------
  // Spectral enhancement (comb filter)

  const CombDelay: nat := 15
  const CombFeedback: real := 0.2
  const CombMix: real := 0.3

  /** The mix of a sample with the comb's own output `delayed` samples back. */
  function CombMixOf(v: real, delayed: real): real {
    v * (1.0 - CombMix) + (v + delayed * CombFeedback) * CombMix
  }

  /** Output sample `i` of the comb: the first 15 pass, later ones read the output 15 back. */
  function CombAt(x: seq<real>, i: nat): real
    requires i < |x|
  {
    if i < CombDelay then x[i] else CombMixOf(x[i], CombAt(x, i - CombDelay))
  }

  function Comb(x: seq<real>): (y: seq<real>)
    ensures |y| == |x|
  {
    seq(|x|, i requires 0 <= i < |x| => CombAt(x, i))
  }

  /**
   * The comb is the feedback recurrence `y[i] = x[i]` for `i < 15` and
   * `y[i] = x[i] + 0.06 y[i - 15]` after: the dry and wet copies of the
   * sample add back up to the whole sample, and 0.3 of 0.2 of the delayed
   * output is fed back.
   */
  lemma CombRecurrence(x: seq<real>, i: nat)
    requires i < |x|
    ensures i < CombDelay ==> Comb(x)[i] == x[i]
    ensures i >= CombDelay ==> Comb(x)[i] == x[i] + 0.06 * Comb(x)[i - CombDelay]
  {
  }

  lemma CombMixScaled(v: real, d: real, c: real)
    ensures CombMixOf(v * c, d * c) == CombMixOf(v, d) * c
  {
  }

  lemma {:induction false} CombAtScaled(x: seq<real>, c: real, i: nat)
    requires i < |x|
    ensures CombAt(Scale(x, c), i) == CombAt(x, i) * c
    decreases i
  {
    if i >= CombDelay {
      CombAtScaled(x, c, i - CombDelay);
      CombMixScaled(x[i], CombAt(x, i - CombDelay), c);
    }
  }

  /** The comb is linear: scaling the input by `c` scales the output by `c`. */
  lemma CombLinear(x: seq<real>, c: real)
    ensures Comb(Scale(x, c)) == Scale(Comb(x), c)
  {
    forall i | 0 <= i < |x|
      ensures Comb(Scale(x, c))[i] == Scale(Comb(x), c)[i]
    {
      CombAtScaled(x, c, i);
    }
  }

  /** Output sample `i` depends only on the input up to `i`. */
  lemma {:induction false} CombCausal(x: seq<real>, z: seq<real>, i: nat)
    requires i < |x| && i < |z|
    requires forall j :: 0 <= j <= i ==> x[j] == z[j]
    ensures CombAt(x, i) == CombAt(z, i)
    decreases i
  {
    if i >= CombDelay {
      CombCausal(x, z, i - CombDelay);
    }
  }

  /** A silent buffer stays silent. */
  lemma CombSilent(x: seq<real>)
    requires forall j :: 0 <= j < |x| ==> x[j] == 0.0
    ensures forall j :: 0 <= j < |x| ==> Comb(x)[j] == 0.0
  {
    assert x == Scale(x, 0.0);
    CombLinear(x, 0.0);
  }

  /** `_applySpectralEnhancement`: one pass in ascending order, reading back its own output. */
  method ApplySpectralEnhancement(input: seq<real>) returns (output: seq<real>)
    ensures output == Comb(input)
  {
    var n := |input|;
    var out := new real[n];
    for i := 0 to n
      invariant forall k :: 0 <= k < i ==> out[k] == CombAt(input, k)
    {
      if i < CombDelay {
        out[i] := input[i];
      } else {
        var delayed := out[i - CombDelay];
        out[i] := CombMixOf(input[i], delayed);
      }
    }
    output := out[..];
    assert forall k :: 0 <= k < n ==> output[k] == Comb(input)[k];
  }

  // ---------------------------------------------------------------------
  // De-esser

  const DeEssThreshold: real := 0.3
  const DeEssReduction: real := 0.5

  /** The de-esser's `prevSample` at sample `i`: the raw previous input, 0 before the first. */
  function Previous(x: seq<real>, i: nat): real
    requires i < |x|
  {
    if i == 0 then 0.0 else x[i - 1]
  }

  /** Output sample `i` of the de-esser. */
  function DeEssAt(x: seq<real>, i: nat): real
    requires i < |x|
  {
    var prev := Previous(x, i);
    if Abs(x[i] - prev) > DeEssThreshold then x[i] * DeEssReduction + prev * (1.0 - DeEssReduction) else x[i]
  }

  function DeEss(x: seq<real>): (y: seq<real>)
    ensures |y| == |x|
  {
    seq(|x|, i requires 0 <= i < |x| => DeEssAt(x, i))
  }

  /**
   * Each output sample is the input sample itself or its average with the
   * raw previous input; the average is taken exactly when the step from the
   * previous input exceeds 0.3, and it halves that step. Either way the
   * output lies between the previous input and the current one.
   */
  lemma DeEssSample(x: seq<real>, i: nat)
    requires i < |x|
    ensures var y := DeEss(x)[i]; var prev := Previous(x, i);
      && (y == x[i] || y == (x[i] + prev) / 2.0)
      && (Abs(x[i] - prev) > DeEssThreshold ==> y == (x[i] + prev) / 2.0 && Abs(y - prev) == Abs(x[i] - prev) / 2.0)
      && (Abs(x[i] - prev) <= DeEssThreshold ==> y == x[i])
      && (prev <= x[i] ==> prev <= y <= x[i])
      && (x[i] <= prev ==> x[i] <= y <= prev)
  {
  }

  /** A buffer with no step above 0.3 (counting the step up from 0) passes unchanged. */
  lemma DeEssSmooth(x: seq<real>)
    requires forall i :: 0 <= i < |x| ==> Abs(x[i] - Previous(x, i)) <= DeEssThreshold
    ensures DeEss(x) == x
  {
    assert forall i :: 0 <= i < |x| ==> DeEss(x)[i] == x[i];
  }

  /** `_applyDeEsser` (without its unused `sampleRate` parameter). */
  method ApplyDeEsser(input: seq<real>) returns (output: seq<real>)
    ensures output == DeEss(input)
  {
    var n := |input|;
    var out := new real[n];
    var prevSample := 0.0;
    for i := 0 to n
      invariant prevSample == (if i == 0 then 0.0 else input[i - 1])
      invariant forall k :: 0 <= k < i ==> out[k] == DeEssAt(input, k)
    {
      var highFreqEnergy := Abs(input[i] - prevSample);
      if highFreqEnergy > DeEssThreshold {
        out[i] := input[i] * DeEssReduction + prevSample * (1.0 - DeEssReduction);
      } else {
        out[i] := input[i];
      }
      prevSample := input[i];
    }
    output := out[..];
    assert forall k :: 0 <= k < n ==> output[k] == DeEss(input)[k];
  }

  // ---------------------------------------------------------------------
  // Compression

  const CompThreshold: real := 0.5
  const CompRatio: real := 2.5
  const CompAttack: real := 0.002
  const CompRelease: real := 0.05
  const MakeupGain: real := 1.2

  /** One envelope update: a step of 0.002 of the way towards a louder level, 0.05 towards a quieter one. */
  function EnvStep(env: real, level: real): real {
    var rate := if level > env then CompAttack else CompRelease;
    env + (level - env) * rate
  }

  /** The envelope after the first `k` samples. */
  function EnvAfter(x: seq<real>, k: nat): real
    requires k <= |x|
  {
    if k == 0 then 0.0 else EnvStep(EnvAfter(x, k - 1), Abs(x[k - 1]))
  }

  /** The gain for an envelope: above 0.5 the excess is divided by the ratio 2.5. */
  function CompGain(env: real): real {
    if env > CompThreshold then (CompThreshold + (env - CompThreshold) / CompRatio) / env else 1.0
  }

  /** A sample times its gain, times the make-up gain 1.2. */
  function Makeup(v: real, gain: real): real {
    v * gain * MakeupGain
  }

  /** Output sample `i` uses the envelope already updated with sample `i`. */
  function CompressAt(x: seq<real>, i: nat): real
    requires i < |x|
  {
    Makeup(x[i], CompGain(EnvAfter(x, i + 1)))
  }

  function Compress(x: seq<real>): (y: seq<real>)
    ensures |y| == |x|
  {
    seq(|x|, i requires 0 <= i < |x| => CompressAt(x, i))
  }

  /** An envelope step moves part of the way towards the level and never past it. */
  lemma EnvStepBetween(env: real, level: real)
    ensures env <= level ==> env <= EnvStep(env, level) <= level
    ensures level <= env ==> level <= EnvStep(env, level) <= env
  {
  }

  /** The envelope is never negative, and stays at or below any bound on the absolute samples seen. */
  lemma {:induction false} EnvBounds(x: seq<real>, k: nat, b: real)
    requires k <= |x| && 0.0 <= b
    requires forall j :: 0 <= j < k ==> Abs(x[j]) <= b
    ensures 0.0 <= EnvAfter(x, k) <= b
  {
    if k > 0 {
      EnvBounds(x, k - 1, b);
      EnvStepBetween(EnvAfter(x, k - 1), Abs(x[k - 1]));
    }
  }

  /**
   * For a non-negative envelope the gain is in `(0, 1]`; above the
   * threshold the compressed envelope `gain * env` is `0.5 + (env - 0.5) / 2.5`.
   */
  lemma CompGainRange(env: real)
    requires 0.0 <= env
    ensures 0.0 < CompGain(env) <= 1.0
    ensures env > CompThreshold ==> CompGain(env) * env == CompThreshold + (env - CompThreshold) / CompRatio
  {
    if env > CompThreshold {
      var c := CompThreshold + (env - CompThreshold) / CompRatio;
      assert 0.0 < c <= env;
      QuotientAtMostOne(c, env);
    }
  }

  lemma QuotientAtMostOne(c: real, e: real)
    requires 0.0 < c <= e
    ensures 0.0 < c / e <= 1.0 && c / e * e == c
  {
    var q := c / e;
    assert q * e == c;
    if q > 1.0 {
      MulMonotone(1.0, q, e);
    }
  }

  lemma MakeupBound(v: real, gain: real)
    requires 0.0 < gain <= 1.0
    ensures Abs(Makeup(v, gain)) <= MakeupGain * Abs(v)
    ensures (v < 0.0 <==> Makeup(v, gain) < 0.0) && (v == 0.0 <==> Makeup(v, gain) == 0.0)
  {
    var f := gain * MakeupGain;
    assert Makeup(v, gain) == v * f;
    AbsScaled(v, f);
    assert f <= MakeupGain;
    MulMonotone(f, MakeupGain, Abs(v));
    assert Abs(v) * f == f * Abs(v);
  }

  /** The compressor keeps the sign of every sample and amplifies it by at most the make-up gain 1.2. */
  lemma CompressSample(x: seq<real>, i: nat)
    requires i < |x|
    ensures var y := Compress(x)[i];
      && Abs(y) <= MakeupGain * Abs(x[i])
      && (x[i] < 0.0 <==> y < 0.0) && (x[i] == 0.0 <==> y == 0.0)
  {
    EnvNonNegative(x, i + 1);
    CompGainRange(EnvAfter(x, i + 1));
    MakeupBound(x[i], CompGain(EnvAfter(x, i + 1)));
  }

  lemma {:induction false} EnvNonNegative(x: seq<real>, k: nat)
    requires k <= |x|
    ensures 0.0 <= EnvAfter(x, k)
  {
    if k > 0 {
      EnvNonNegative(x, k - 1);
      EnvStepBetween(EnvAfter(x, k - 1), Abs(x[k - 1]));
    }
  }

  /** While the envelope has never passed the threshold, the compressor is the plain make-up gain. */
  lemma CompressQuiet(x: seq<real>)
    requires forall j :: 0 <= j < |x| ==> Abs(x[j]) <= CompThreshold
    ensures Compress(x) == Scale(x, MakeupGain)
  {
    forall i | 0 <= i < |x|
      ensures Compress(x)[i] == Scale(x, MakeupGain)[i]
    {
      EnvBounds(x, i + 1, CompThreshold);
    }
  }

  /** An all-zero buffer compresses to an all-zero buffer of the same length. */
  lemma CompressSilent(x: seq<real>)
    requires forall j :: 0 <= j < |x| ==> x[j] == 0.0
    ensures |Compress(x)| == |x|
    ensures forall j :: 0 <= j < |x| ==> Compress(x)[j] == 0.0
  {
    forall j | 0 <= j < |x|
      ensures Compress(x)[j] == 0.0
    {
      CompressSample(x, j);
    }
  }

  /** `_applyCompression`: an envelope follower and a gain per sample. */
  method ApplyCompression(input: seq<real>) returns (output: seq<real>)
    ensures output == Compress(input)
  {
    var n := |input|;
    var out := new real[n];
    var envelope := 0.0;
    var gain := 1.0;
    for i := 0 to n
      invariant envelope == EnvAfter(input, i)
      invariant forall k :: 0 <= k < i ==> out[k] == CompressAt(input, k)
    {
      var inputLevel := Abs(input[i]);
      var rate := if inputLevel > envelope then CompAttack else CompRelease;
      envelope := envelope + (inputLevel - envelope) * rate;
      if envelope > CompThreshold {
        var excess := envelope - CompThreshold;
        var compressedExcess := excess / CompRatio;
        gain := (CompThreshold + compressedExcess) / envelope;
      } else {
        gain := 1.0;
      }
      out[i] := Makeup(input[i], gain);
    }
    output := out[..];
    assert forall k :: 0 <= k < n ==> output[k] == Compress(input)[k];
  }

  // ---------------------------------------------------------------------
  // Normalization

  const BlockSize: nat := 512
  const SilenceFloor: real := 0.01
  const NormLevel: real := 0.75

  /** The number of 512-sample blocks the scan visits, the last one possibly short. */
  function Blocks(n: nat): nat {
    (n + BlockSize - 1) / BlockSize
  }

  /** The absolute peak of block `b`, samples `[512 b, min(512 b + 512, n))`. */
  function BlockPeak(x: seq<real>, b: nat): real
    requires b * BlockSize < |x|
  {
    RangePeak(x, b * BlockSize, Min(b * BlockSize + BlockSize, |x|))
  }

  /** The peaks above 0.01 of the first `b` blocks, in block order, as the scan pushes them. */
  function LoudPeaks(x: seq<real>, b: nat): seq<real>
    requires b <= Blocks(|x|)
  {
    if b == 0 then []
    else LoudPeaks(x, b - 1) + (if BlockPeak(x, b - 1) > SilenceFloor then [BlockPeak(x, b - 1)] else [])
  }

  /** The loud block peaks of the whole buffer. */
  function AllLoudPeaks(x: seq<real>): seq<real> {
    LoudPeaks(x, Blocks(|x|))
  }

  /** Insertion into an ascending sequence, before the first element not smaller. */
  function Insert(v: real, s: seq<real>): (r: seq<real>)
    ensures |r| == |s| + 1
  {
    if s == [] || v <= s[0] then [v] + s else [s[0]] + Insert(v, s[1..])
  }

  /** The numeric ascending sort `_normalizeAudio` applies to the peaks. */
  function SortAscending(s: seq<real>): (r: seq<real>)
    ensures |r| == |s|
  {
    if s == [] then [] else Insert(s[0], SortAscending(s[1..]))
  }

  predicate Ascending(s: seq<real>) {
    forall i, j :: 0 <= i < j < |s| ==> s[i] <= s[j]
  }

  lemma {:induction false} InsertPermutes(v: real, s: seq<real>)
    ensures multiset(Insert(v, s)) == multiset(s) + multiset{v}
  {
    if s != [] && v > s[0] {
      InsertPermutes(v, s[1..]);
      assert s == [s[0]] + s[1..];
    }
  }

  lemma {:induction false} InsertAscending(v: real, s: seq<real>)
    requires Ascending(s)
    ensures Ascending(Insert(v, s))
  {
    if s != [] && v > s[0] {
      var r := Insert(v, s[1..]);
      InsertAscending(v, s[1..]);
      InsertPermutes(v, s[1..]);
      forall k | 0 <= k < |r|
        ensures s[0] <= r[k]
      {
        assert r[k] in multiset(r);
        assert r[k] == v || r[k] in multiset(s[1..]);
      }
    }
  }

  lemma InsertCorrect(v: real, s: seq<real>)
    requires Ascending(s)
    ensures Ascending(Insert(v, s)) && multiset(Insert(v, s)) == multiset(s) + multiset{v}
  {
    InsertAscending(v, s);
    InsertPermutes(v, s);
  }

  /** Sorting gives an ascending permutation of the peaks. */
  lemma {:induction false} SortAscendingCorrect(s: seq<real>)
    ensures Ascending(SortAscending(s)) && multiset(SortAscending(s)) == multiset(s)
  {
    if s != [] {
      SortAscendingCorrect(s[1..]);
      InsertCorrect(s[0], SortAscending(s[1..]));
      assert s == [s[0]] + s[1..];
    }
  }

  /** The index of the 90th-percentile peak: nine tenths of the count, rounded down. */
  function PercentileIndex(count: nat): (r: nat)
    ensures count > 0 ==> r < count
  {
    (count * 9) / 10
  }

  /** The 90th-percentile peak: index `floor(0.9 count)` of the ascending peaks. */
  function TargetPeak(peaks: seq<real>): real
    requires peaks != []
  {
    SortAscending(peaks)[PercentileIndex(|peaks|)]
  }

  /** `(0.75 / targetPeak) * volume`. */
  function NormGain(target: real, volume: real): real
    requires target != 0.0
  {
    (NormLevel / target) * volume
  }

  function Normalize(x: seq<real>, volume: real): (y: seq<real>)
    ensures |y| == |x|
  {
    var peaks := AllLoudPeaks(x);
    if peaks == [] then x
    else
      LoudPeaksAbove(x, Blocks(|x|));
      TargetIsPeak(peaks);
      Scale(x, NormGain(TargetPeak(peaks), volume))
  }

  /** Every pushed peak is above 0.01 and is the peak of one of the blocks. */
  lemma {:induction false} LoudPeaksAbove(x: seq<real>, b: nat)
    requires b <= Blocks(|x|)
    ensures forall p :: p in LoudPeaks(x, b) ==> p > SilenceFloor
    ensures forall p :: p in LoudPeaks(x, b) ==> exists c :: 0 <= c < b && c * BlockSize < |x| && p == BlockPeak(x, c)
  {
    if b > 0 {
      LoudPeaksAbove(x, b - 1);
    }
  }

  /** The target peak is one of the peaks, and its index is in range. */
  lemma TargetIsPeak(peaks: seq<real>)
    requires peaks != []
    ensures PercentileIndex(|peaks|) < |peaks|
    ensures TargetPeak(peaks) in peaks
  {
    SortAscendingCorrect(peaks);
    var sorted := SortAscending(peaks);
    assert sorted[PercentileIndex(|peaks|)] in multiset(sorted);
  }

  /** No loud peak was pushed exactly when every block of the first `b` has peak at most 0.01. */
  lemma {:induction false} LoudPeaksEmpty(x: seq<real>, b: nat)
    requires b <= Blocks(|x|)
    ensures LoudPeaks(x, b) == [] <==> forall c :: 0 <= c < b ==> BlockPeak(x, c) <= SilenceFloor
  {
    if b > 0 {
      LoudPeaksEmpty(x, b - 1);
    }
  }

  /** Sample `i` lies in block `i / 512`, whose peak bounds it. */
  lemma SampleInBlock(x: seq<real>, i: nat)
    requires i < |x|
    ensures var c := i / BlockSize; c < Blocks(|x|) && c * BlockSize <= i && Abs(x[i]) <= BlockPeak(x, c)
  {
    var c := i / BlockSize;
    RangePeakBounds(x, c * BlockSize, Min(c * BlockSize + BlockSize, |x|));
  }

  /** Every block peak is at most 0.01 exactly when every sample is. */
  lemma QuietBlocks(x: seq<real>)
    ensures (forall c :: 0 <= c < Blocks(|x|) ==> BlockPeak(x, c) <= SilenceFloor)
        <==> (forall i :: 0 <= i < |x| ==> Abs(x[i]) <= SilenceFloor)
  {
    if forall c :: 0 <= c < Blocks(|x|) ==> BlockPeak(x, c) <= SilenceFloor {
      forall i | 0 <= i < |x|
        ensures Abs(x[i]) <= SilenceFloor
      {
        SampleInBlock(x, i);
      }
    }
    if forall i :: 0 <= i < |x| ==> Abs(x[i]) <= SilenceFloor {
      forall c | 0 <= c < Blocks(|x|)
        ensures BlockPeak(x, c) <= SilenceFloor
      {
        var lo := c * BlockSize;
        var hi := Min(lo + BlockSize, |x|);
        RangePeakBounds(x, lo, hi);
      }
    }
  }

  /**
   * A buffer with no sample above 0.01 in absolute value has no loud block
   * and is returned unchanged; any louder buffer has a loud block.
   */
  lemma NormalizeSilent(x: seq<real>, volume: real)
    ensures AllLoudPeaks(x) == [] <==> forall i :: 0 <= i < |x| ==> Abs(x[i]) <= SilenceFloor
    ensures AllLoudPeaks(x) == [] ==> Normalize(x, volume) == x
  {
    LoudPeaksEmpty(x, Blocks(|x|));
    QuietBlocks(x);
  }

  /**
   * With some loud block, the percentile index is in range, the target is
   * the element at that index of the ascending peaks, and it is a block
   * peak above 0.01.
   */
  lemma NormalizeLoud(x: seq<real>)
    requires AllLoudPeaks(x) != []
    ensures PercentileIndex(|AllLoudPeaks(x)|) < |AllLoudPeaks(x)|
    ensures Ascending(SortAscending(AllLoudPeaks(x)))
    ensures multiset(SortAscending(AllLoudPeaks(x))) == multiset(AllLoudPeaks(x))
    ensures TargetPeak(AllLoudPeaks(x)) == SortAscending(AllLoudPeaks(x))[PercentileIndex(|AllLoudPeaks(x)|)]
    ensures TargetPeak(AllLoudPeaks(x)) > SilenceFloor
    ensures exists c :: 0 <= c < Blocks(|x|) && c * BlockSize < |x| && TargetPeak(AllLoudPeaks(x)) == BlockPeak(x, c)
  {
    var peaks := AllLoudPeaks(x);
    LoudPeaksAbove(x, Blocks(|x|));
    TargetIsPeak(peaks);
    SortAscendingCorrect(peaks);
  }

  /** With some loud block, every sample is multiplied by `(0.75 / target) * volume`, a non-zero target. */
  lemma NormalizeIsScale(x: seq<real>, volume: real)
    requires AllLoudPeaks(x) != []
    ensures TargetPeak(AllLoudPeaks(x)) > SilenceFloor
    ensures Normalize(x, volume) == Scale(x, NormGain(TargetPeak(AllLoudPeaks(x)), volume))
  {
    LoudPeaksAbove(x, Blocks(|x|));
    TargetIsPeak(AllLoudPeaks(x));
  }

  lemma GainLinear(v: real, g: real, volume: real)
    ensures v * (g * volume) == (v * (g * 1.0)) * volume
  {
  }

  /** With some loud block, the output is linear in the volume. */
  lemma NormalizeVolume(x: seq<real>, volume: real)
    requires AllLoudPeaks(x) != []
    ensures Normalize(x, volume) == Scale(Normalize(x, 1.0), volume)
  {
    var peaks := AllLoudPeaks(x);
    NormalizeIsScale(x, volume);
    NormalizeIsScale(x, 1.0);
    var g := NormLevel / TargetPeak(peaks);
    assert NormGain(TargetPeak(peaks), volume) == g * volume;
    assert NormGain(TargetPeak(peaks), 1.0) == g * 1.0;
    ScaleGainLinear(x, g, volume);
  }

  /** Scaling by `g * volume` is scaling by `g`, then by `volume`. */
  lemma ScaleGainLinear(x: seq<real>, g: real, volume: real)
    ensures Scale(x, g * volume) == Scale(Scale(x, g * 1.0), volume)
  {
    var direct := Scale(x, g * volume);
    var twice := Scale(Scale(x, g * 1.0), volume);
    forall i | 0 <= i < |x|
      ensures direct[i] == twice[i]
    {
      GainLinear(x[i], g, volume);
    }
  }

  /** The final loop of `_normalizeAudio`: a fresh buffer of the samples times the gain. */
  method ApplyGain(input: seq<real>, gain: real) returns (output: seq<real>)
    ensures output == Scale(input, gain)
  {
    var out := new real[|input|];
    for k := 0 to |input|
      invariant forall j :: 0 <= j < k ==> out[j] == input[j] * gain
    {
      out[k] := input[k] * gain;
    }
    output := out[..];
    assert forall j :: 0 <= j < |input| ==> output[j] == Scale(input, gain)[j];
  }

  /** `_normalizeAudio`: block peaks, percentile target, then a gain loop. */
  method NormalizeAudio(input: seq<real>, volume: real) returns (output: seq<real>)
    ensures output == Normalize(input, volume)
  {
    var n := |input|;
    var peaks: seq<real> := [];
    var i := 0;
    ghost var b := 0;
    while i < n
      invariant i == b * BlockSize && b <= Blocks(n)
      invariant peaks == LoudPeaks(input, b)
      decreases n - i
    {
      var chunkPeak := WindowPeak(input, i, Min(i + BlockSize, n));
      if chunkPeak > SilenceFloor {
        peaks := peaks + [chunkPeak];
      }
      i := i + BlockSize;
      b := b + 1;
    }
    assert b == Blocks(n);
    assert peaks == AllLoudPeaks(input);
    if |peaks| == 0 {
      return input;
    }
    NormalizeIsScale(input, volume);
    var sorted := SortAscending(peaks);
    var targetPeak := sorted[PercentileIndex(|peaks|)];
    var gain := (NormLevel / targetPeak) * volume;
    assert gain == NormGain(TargetPeak(peaks), volume);
    output := ApplyGain(input, gain);
  }

  // ---------------------------------------------------------------------
  // Limiting

  const LimitThreshold: real := 0.95
  const LimitLookAhead: nat := 32
  const ClipLevel: real := 0.99

  /** The look-ahead peak at sample `i`: `|x[i]|` and the samples after it, up to `min(i + 32, n)`. */
  function LimitWindow(x: seq<real>, i: nat): real
    requires i < |x|
  {
    RangePeak(x, i, Min(i + LimitLookAhead, |x|))
  }

  /** The soft-clip step: clamp into `[-0.99, 0.99]`. */
  function Clip(v: real): real {
    if v > ClipLevel then ClipLevel else if v < -ClipLevel then -ClipLevel else v
  }

  /** A sample `v` under look-ahead peak `f`: scaled by `0.95 / f` when `f` exceeds 0.95, then clipped. */
  function Limited(v: real, f: real): real {
    Clip(if f > LimitThreshold then v * (LimitThreshold / f) else v)
  }

  /** Output sample `i` of the limiter. */
  function LimitAt(x: seq<real>, i: nat): real
    requires i < |x|
  {
    Limited(x[i], LimitWindow(x, i))
  }

  function Limit(x: seq<real>): (y: seq<real>)
    ensures |y| == |x|
  {
    seq(|x|, i requires 0 <= i < |x| => LimitAt(x, i))
  }

  /**
   * Every limited sample is within `[-0.95, 0.95]`, hence within the clip
   * range `[-0.99, 0.99]`, and is never louder than the input: it is the
   * limiter's step under a look-ahead peak that bounds the sample.
   */
  lemma LimitSample(x: seq<real>, i: nat)
    requires i < |x|
    ensures -ClipLevel <= Limit(x)[i] <= ClipLevel
    ensures Abs(Limit(x)[i]) <= LimitThreshold
    ensures Abs(Limit(x)[i]) <= Abs(x[i])
    ensures Limit(x)[i] == Limited(x[i], LimitWindow(x, i)) && Abs(x[i]) <= LimitWindow(x, i)
  {
    RangePeakBounds(x, i, Min(i + LimitLookAhead, |x|));
    assert Limit(x)[i] == Limited(x[i], LimitWindow(x, i));
    LimitedValue(x[i], LimitWindow(x, i));
  }

  /**
   * The limiter's step for a sample `v` under a look-ahead peak `f` that
   * bounds it: a loud window scales the sample by `0.95 / f`, a quiet one
   * passes it unchanged, and the clip never changes the result.
   */
  lemma LimitedValue(v: real, f: real)
    requires Abs(v) <= f
    ensures Abs(Limited(v, f)) <= LimitThreshold
    ensures Abs(Limited(v, f)) <= Abs(v)
    ensures f > LimitThreshold ==> Limited(v, f) == v * (LimitThreshold / f)
    ensures f <= LimitThreshold ==> Limited(v, f) == v
  {
    if f > LimitThreshold {
      AttenuateBound(v, f);
    }
  }

  /** Scaling by `0.95 / f` a sample bounded by `f > 0.95` lands in `[-0.95, 0.95]` and never amplifies. */
  lemma AttenuateBound(v: real, f: real)
    requires Abs(v) <= f && f > LimitThreshold
    ensures Abs(v * (LimitThreshold / f)) <= LimitThreshold
    ensures Abs(v * (LimitThreshold / f)) <= Abs(v)
  {
    var g := LimitThreshold / f;
    RescaledBound(v, f, LimitThreshold);
    assert 0.0 < g < 1.0;
    AbsScaled(v, g);
    MulMonotone(g, 1.0, Abs(v));
  }

  /** A buffer already within `[-0.95, 0.95]` passes the limiter unchanged. */
  lemma LimitQuiet(x: seq<real>)
    requires forall j :: 0 <= j < |x| ==> Abs(x[j]) <= LimitThreshold
    ensures Limit(x) == x
  {
    forall i | 0 <= i < |x|
      ensures Limit(x)[i] == x[i]
    {
      RangePeakBounds(x, i, Min(i + LimitLookAhead, |x|));
      LimitSample(x, i);
    }
  }

  /** Limiting twice is limiting once. */
  lemma LimitIdempotent(x: seq<real>)
    ensures Limit(Limit(x)) == Limit(x)
  {
    forall j | 0 <= j < |x|
      ensures Abs(Limit(x)[j]) <= LimitThreshold
    {
      LimitSample(x, j);
    }
    LimitQuiet(Limit(x));
  }

  /** The limiter's scan: `|x[i]|`, then the running maximum over `x[i + 1..hi]`. */
  method LookAheadPeak(x: seq<real>, i: nat, hi: nat) returns (m: real)
    requires i < hi <= |x|
    ensures m == RangePeak(x, i, hi)
  {
    m := Abs(x[i]);
    assert m == RangePeak(x, i, i + 1);
    for j := i + 1 to hi
      invariant m == RangePeak(x, i, j)
    {
      m := Max(m, Abs(x[j]));
    }
  }

  /** `_applyLimiting`: a look-ahead scan from `|input[i]|`, a gain, then the clip. */
  method ApplyLimiting(input: seq<real>) returns (output: seq<real>)
    ensures output == Limit(input)
  {
    var n := |input|;
    var out := new real[n];
    for i := 0 to n
      invariant forall k :: 0 <= k < i ==> out[k] == LimitAt(input, k)
    {
      var futureMax := LookAheadPeak(input, i, Min(i + LimitLookAhead, n));
      if futureMax > LimitThreshold {
        var gain := LimitThreshold / futureMax;
        out[i] := input[i] * gain;
      } else {
        out[i] := input[i];
      }
      if out[i] > ClipLevel {
        out[i] := ClipLevel;
      } else if out[i] < -ClipLevel {
        out[i] := -ClipLevel;
      }
    }
    output := out[..];
    assert forall k :: 0 <= k < n ==> output[k] == Limit(input)[k];
  }
}
