/**
 * The colour-noise part of the batch renderer in `sound_generator.py`: the
 * intensity table, the sample count, the pink and brown loops that fill a
 * preallocated buffer, and the peak normaliser every generator ends with.
 */
module BatchNoise {
  import opened Wrappers
  import opened Pcm
  import opened Rand
  import opened Streams
  import opened Colours
  import opened NoiseGenerators

  /** The `ValueError`s numpy raises inside a generator. */
  datatype BatchError =
    | NegativeDimensions   // `np.zeros(n)` or `normal(0, 1, n)` with `n < 0`
    | EmptyReduction       // `np.max` of an empty buffer
    | EmptyRange           // `randint(low, high)` with `low >= high`

  /** `table.get(key, fallback)` */
  function Lookup<V>(table: map<string, V>, key: string, fallback: V): (v: V)
    ensures key in table ==> v == table[key]
    ensures key !in table ==> v == fallback
  {
    if key in table then table[key] else fallback
  }

  const INTENSITY_SCALE: map<string, real> := map["low" := 0.3, "medium" := 0.6, "high" := 0.9]

  /** `intensity_scale.get(intensity, 0.6)` */
  function IntensityScale(intensity: string): real {
    Lookup(INTENSITY_SCALE, intensity, 0.6)
  }

  /**
   * The three labels scale by 0.3, 0.6 and 0.9; any other label is treated
   * as "medium"; every scale is positive, so scaling keeps a signal's shape.
   */
  lemma IntensityScaleTable(intensity: string)
    ensures IntensityScale("low") == 0.3 && IntensityScale("medium") == 0.6 && IntensityScale("high") == 0.9
    ensures intensity !in {"low", "medium", "high"} ==> IntensityScale(intensity) == IntensityScale("medium")
    ensures 0.0 < IntensityScale(intensity) < 1.0
  {
  }

  /** `int(duration * sample_rate)`: truncated toward zero. */
  function SampleCount(duration: real, sampleRate: int): int {
    Trunc(duration * sampleRate as real)
  }

  /** `buffer *= k` */
  function Scaled(xs: seq<real>, k: real): (ys: seq<real>)
    ensures |ys| == |xs|
  {
    seq(|xs|, i requires 0 <= i < |xs| => xs[i] * k)
  }

  // ---------------------------------------------------------------------------
  // The pink loop
  // ---------------------------------------------------------------------------

  /** The pink loop's state: the seven filter values and the draws taken. */
  datatype PinkLoopState = PinkLoopState(taps: Taps, pos: nat)

  /**
   * One iteration of the pink loop: the filter update of the streaming pink
   * stepper, but the stored value is the raw sum, neither scaled by 0.11 nor
   * clamped.
   */
  function PinkLoopStep(draws: Draws, s: PinkLoopState): (r: (real, PinkLoopState))
    ensures r.1.pos == s.pos + 1
  {
    var white := UniformOf(-1.0, 1.0, draws(s.pos));
    (PinkSum(s.taps, white), PinkLoopState(PinkStep(s.taps, white).1, s.pos + 1))
  }

  function PinkLoopStepper(draws: Draws): PinkLoopState -> (real, PinkLoopState) {
    (s: PinkLoopState) => PinkLoopStep(draws, s)
  }

  /** What one iteration of the loop computes is one step of the stepper. */
  lemma PinkLoopAdvance(draws: Draws, s: PinkLoopState, white: real, x: real, taps: Taps)
    requires white == UniformOf(-1.0, 1.0, draws(s.pos))
    requires x == PinkSum(s.taps, white) && taps == PinkStep(s.taps, white).1
    ensures PinkLoopStepper(draws)(s) == (x, PinkLoopState(taps, s.pos + 1))
  {
  }

  /**
   * The written-out body of the pink loop on the filter array: taps 0 to 5
   * updated, the value summed with the old tap 6, then tap 6 overwritten.
   */
  method PinkLoopBody(state: array<real>, white: real) returns (x: real)
    requires state.Length == 7
    modifies state
    ensures x == PinkSum(old(state[..]), white)
    ensures state[..] == PinkStep(old(state[..]), white).1
  {
    PinkStepSpec(state[..], white);
    ghost var s := state[..];
    state[0] := 0.99886 * state[0] + white * 0.0555179;
    state[1] := 0.99332 * state[1] + white * 0.0750759;
    state[2] := 0.96900 * state[2] + white * 0.1538520;
    state[3] := 0.86650 * state[3] + white * 0.3104856;
    state[4] := 0.55000 * state[4] + white * 0.5329522;
    state[5] := -0.7616 * state[5] - white * 0.0168980;
    x := state[0] + state[1] + state[2] + state[3] + state[4] + state[5] + state[6] + white * 0.5362;
    state[6] := white * 0.115926;
    assert state[..] == PinkStep(s, white).1 by {
      assert forall k :: 0 <= k < 7 ==> state[..][k] == PinkStep(s, white).1[k];
    }
  }

  /** One iteration of the pink loop: a uniform draw, then the written-out body. */
  method PinkIteration(state: array<real>, rng: Rng) returns (x: real)
    requires state.Length == 7
    modifies state, rng
    ensures (x, PinkLoopState(state[..], rng.pos)) == PinkLoopStepper(rng.draws)(PinkLoopState(old(state[..]), old(rng.pos)))
  {
    ghost var before := PinkLoopState(state[..], rng.pos);
    var white := rng.Uniform(-1.0, 1.0);
    x := PinkLoopBody(state, white);
    PinkLoopAdvance(rng.draws, before, white, x, state[..]);
  }

  /** Writing index `i` extends the prefix before it by the written value and leaves the rest. */
  lemma PrefixWrite(s: seq<real>, i: nat, x: real)
    requires i < |s|
    ensures s[i := x][..i + 1] == s[..i] + [x]
    ensures forall j :: i < j < |s| ==> s[i := x][j] == s[j]
  {
  }

  /**
   * `pink = np.zeros(samples)`, `state = np.zeros(7)` and the `for` loop:
   * index `i` holds the `i`-th raw pink value, every index is written once,
   * and one uniform draw is taken per sample.
   */
  method PinkLoop(samples: nat, rng: Rng) returns (pink: array<real>)
    modifies rng
    ensures fresh(pink) && pink.Length == samples
    ensures pink[..] == Run(PinkLoopStepper(rng.draws), PinkLoopState(ZERO_TAPS, old(rng.pos)), samples).0
    ensures rng.pos == old(rng.pos) + samples
  {
    pink := new real[samples](_ => 0.0);
    var state := new real[7](_ => 0.0);
    ghost var step := PinkLoopStepper(rng.draws);
    ghost var start := PinkLoopState(ZERO_TAPS, rng.pos);
    assert state[..] == ZERO_TAPS;
    for i := 0 to samples
      invariant pink[..i] == Run(step, start, i).0
      invariant forall j :: i <= j < samples ==> pink[j] == 0.0
      invariant PinkLoopState(state[..], rng.pos) == Run(step, start, i).1
      invariant rng.pos == old(rng.pos) + i
    {
      var x := PinkIteration(state, rng);
      RunExtend(step, start, i, x, PinkLoopState(state[..], rng.pos));
      ghost var written := pink[..];
      pink[i] := x;
      PrefixWrite(written, i, x);
    }
    assert pink[..] == pink[..samples];
  }

  /**
   * The batch pink loop and the streaming pink generator run the same
   * filter on the same draws: each streaming sample is the batch value scaled
   * by 0.11 and clamped to [-1, 1].
   */
  lemma PinkLoopMatchesStream(draws: Draws, pos: nat, n: nat)
    ensures forall i :: 0 <= i < n ==>
      PinkOutput(Run(PinkLoopStepper(draws), PinkLoopState(ZERO_TAPS, pos), n).0[i])
        == Run(NoiseStepper(Pink, draws), NoiseState(ZERO_TAPS, 0.0, pos), n).0[i]
  {
    var batch, stream := PinkLoopStepper(draws), NoiseStepper(Pink, draws);
    var related, output := PinkRelated, PinkOutput;
    PinkLoopSimulates(draws);
    assert forall a, b :: related(a, b) ==> output(batch(a).0) == stream(b).0 && related(batch(a).1, stream(b).1);
    RunSimulation(batch, stream, related, output, PinkLoopState(ZERO_TAPS, pos), NoiseState(ZERO_TAPS, 0.0, pos), n);
  }

  /** The streaming pink sample made from a raw batch value: scaled by 0.11, clamped to [-1, 1]. */
  function PinkOutput(x: real): real {
    Clamp(x * PINK_NOISE_SCALE, -1.0, 1.0)
  }

  /** A batch pink state and a streaming state with the same taps and position. */
  predicate PinkRelated(a: PinkLoopState, b: NoiseState) {
    a.taps == b.taps && a.pos == b.pos
  }

  lemma PinkLoopSimulates(draws: Draws)
    ensures forall a, b :: PinkRelated(a, b) ==>
      PinkOutput(PinkLoopStepper(draws)(a).0) == NoiseStepper(Pink, draws)(b).0 &&
      PinkRelated(PinkLoopStepper(draws)(a).1, NoiseStepper(Pink, draws)(b).1)
  {
    forall a, b | PinkRelated(a, b)
      ensures PinkOutput(PinkLoopStepper(draws)(a).0) == NoiseStepper(Pink, draws)(b).0
      ensures PinkRelated(PinkLoopStepper(draws)(a).1, NoiseStepper(Pink, draws)(b).1)
    {
      PinkLoopStepMatches(draws, a, b);
    }
  }

  /** One batch pink step and one streaming pink step from the same taps and position. */
  lemma PinkLoopStepMatches(draws: Draws, a: PinkLoopState, b: NoiseState)
    requires a.taps == b.taps && a.pos == b.pos
    ensures Clamp(PinkLoopStep(draws, a).0 * PINK_NOISE_SCALE, -1.0, 1.0) == NoiseStep(Pink, b, draws).0
    ensures PinkLoopStep(draws, a).1.taps == NoiseStep(Pink, b, draws).1.taps
    ensures PinkLoopStep(draws, a).1.pos == NoiseStep(Pink, b, draws).1.pos
  {
    var white := UniformOf(-1.0, 1.0, draws(a.pos));
    assert NoiseStep(Pink, b, draws) == (PinkStep(b.taps, white).0, b.(taps := PinkStep(b.taps, white).1, pos := b.pos + 1));
  }

  // ---------------------------------------------------------------------------
  // The brown loop
  // ---------------------------------------------------------------------------

  /** `np.clip(x, lo, hi)`: the minimum of the maximum. */
  function Clip(x: real, lo: real, hi: real): (r: real)
    ensures lo <= hi ==> r == Clamp(x, lo, hi)
  {
    var m := if x < lo then lo else x;
    if m < hi then m else hi
  }

  datatype BrownLoopState = BrownLoopState(value: real, pos: nat)

  /** One iteration of the brown loop: the streaming brown step on the same walk value. */
  function BrownLoopStep(draws: Draws, s: BrownLoopState): (r: (real, BrownLoopState))
    ensures r.1.pos == s.pos + 1 && r.1.value == r.0
    ensures -BROWN_NOISE_DAMPING <= r.0 <= BROWN_NOISE_DAMPING
  {
    var v := BrownStep(s.value, UniformOf(-1.0, 1.0, draws(s.pos)));
    (v, BrownLoopState(v, s.pos + 1))
  }

  function BrownLoopStepper(draws: Draws): BrownLoopState -> (real, BrownLoopState) {
    (s: BrownLoopState) => BrownLoopStep(draws, s)
  }

  /**
   * `brown = np.zeros(samples)`, `value = 0.0` and the `for` loop: index `i`
   * holds the walk after `i + 1` steps, every index is written once, and
   * `value` stays within [-0.98, 0.98].
   */
  method BrownLoop(samples: nat, rng: Rng) returns (brown: array<real>)
    modifies rng
    ensures fresh(brown) && brown.Length == samples
    ensures brown[..] == Run(BrownLoopStepper(rng.draws), BrownLoopState(0.0, old(rng.pos)), samples).0
    ensures forall i :: 0 <= i < samples ==> -BROWN_NOISE_DAMPING <= brown[i] <= BROWN_NOISE_DAMPING
    ensures rng.pos == old(rng.pos) + samples
  {
    brown := new real[samples](_ => 0.0);
    var value := 0.0;
    ghost var step := BrownLoopStepper(rng.draws);
    ghost var start := BrownLoopState(0.0, rng.pos);
    for i := 0 to samples
      invariant brown[..i] == Run(step, start, i).0
      invariant forall j :: i <= j < samples ==> brown[j] == 0.0
      invariant forall j :: 0 <= j < i ==> -BROWN_NOISE_DAMPING <= brown[j] <= BROWN_NOISE_DAMPING
      invariant BrownLoopState(value, rng.pos) == Run(step, start, i).1
      invariant rng.pos == old(rng.pos) + i
    {
      var white := rng.Uniform(-1.0, 1.0);
      value := value + white * 0.02;
      value := Clip(value, -1.0, 1.0) * 0.98;
      RunExtend(step, start, i, value, BrownLoopState(value, rng.pos));
      ghost var written := brown[..];
      brown[i] := value;
      PrefixWrite(written, i, value);
    }
    assert brown[..] == brown[..samples];
  }

  /** The batch brown loop and the streaming brown generator produce the same walk from the same draws. */
  lemma BrownLoopMatchesStream(draws: Draws, pos: nat, n: nat)
    ensures Run(BrownLoopStepper(draws), BrownLoopState(0.0, pos), n).0
         == Run(NoiseStepper(Brown, draws), NoiseState(ZERO_TAPS, 0.0, pos), n).0
  {
    var related := (a: BrownLoopState, b: NoiseState) => a.value == b.brown && a.pos == b.pos;
    var f := (x: real) => x;
    forall a: BrownLoopState, b: NoiseState | related(a, b)
      ensures f(BrownLoopStepper(draws)(a).0) == NoiseStepper(Brown, draws)(b).0
      ensures related(BrownLoopStepper(draws)(a).1, NoiseStepper(Brown, draws)(b).1)
    {
    }
    RunSimulation(BrownLoopStepper(draws), NoiseStepper(Brown, draws), related, f,
                  BrownLoopState(0.0, pos), NoiseState(ZERO_TAPS, 0.0, pos), n);
  }

  // ---------------------------------------------------------------------------
  // `_normalize_audio`
  // ---------------------------------------------------------------------------

  /** `np.max(np.abs(audio))` of a non-empty buffer. */
  function PeakOf(xs: seq<real>): (m: real)
    requires |xs| > 0
    ensures forall i :: 0 <= i < |xs| ==> Abs(xs[i]) <= m
    ensures exists i :: 0 <= i < |xs| && Abs(xs[i]) == m
    decreases |xs|
  {
    if |xs| == 1 then Abs(xs[0])
    else
      var m := PeakOf(xs[..|xs| - 1]);
      assert forall i :: 0 <= i < |xs| - 1 ==> xs[..|xs| - 1][i] == xs[i];
      if Abs(xs[|xs| - 1]) > m then Abs(xs[|xs| - 1]) else m
  }

  const HEADROOM_PEAK: real := 0.95

  /**
   * `_normalize_audio`: divide by the peak magnitude and scale to 0.95 when
   * the peak is positive, keep a silent buffer as it is; `np.max` of an empty
   * buffer raises.
   */
  function NormalizeAudio(audio: seq<real>): (r: Result<seq<real>, BatchError>)
    ensures r.Failure? <==> audio == []
    ensures r.Failure? ==> r.error == EmptyReduction
    ensures r.Success? ==> |r.value| == |audio|
  {
    if audio == [] then Failure(EmptyReduction)
    else
      var maxVal := PeakOf(audio);
      if maxVal > 0.0 then Success(seq(|audio|, i requires 0 <= i < |audio| => audio[i] / maxVal * HEADROOM_PEAK))
      else Success(audio)
  }

  /** Dividing by the peak and scaling by `k` leaves each value within [-k, k]. */
  lemma PeakScaleBound(x: real, m: real, k: real)
    requires Abs(x) <= m && 0.0 < m && 0.0 <= k
    ensures -k <= x / m * k <= k
    ensures Abs(x) == m ==> Abs(x / m * k) == k
  {
    var q := x / m;
    assert q * m == x;
    if q > 1.0 {
      assert (q - 1.0) * m > 0.0;
    }
    if q < -1.0 {
      assert (-1.0 - q) * m > 0.0;
    }
    assert 0.0 <= (1.0 - q) * k && 0.0 <= (1.0 + q) * k;
    if x == m {
      assert q == 1.0;
    } else if x == -m {
      assert (q + 1.0) * m == 0.0;
    }
  }

  /**
   * A buffer with a non-zero sample comes out proportional to the input,
   * with every sample in [-0.95, 0.95] and a peak magnitude of exactly 0.95.
   */
  lemma NormalizeAudioPeak(audio: seq<real>)
    requires audio != [] && PeakOf(audio) > 0.0
    ensures var out := NormalizeAudio(audio).value;
      && (forall i :: 0 <= i < |out| ==> -HEADROOM_PEAK <= out[i] <= HEADROOM_PEAK)
      && (forall i :: 0 <= i < |out| ==> out[i] == audio[i] / PeakOf(audio) * HEADROOM_PEAK)
      && PeakOf(out) == HEADROOM_PEAK
  {
    var m := PeakOf(audio);
    var out := NormalizeAudio(audio).value;
    forall i | 0 <= i < |out| ensures -HEADROOM_PEAK <= out[i] <= HEADROOM_PEAK {
      PeakScaleBound(audio[i], m, HEADROOM_PEAK);
    }
    var j :| 0 <= j < |audio| && Abs(audio[j]) == m;
    PeakScaleBound(audio[j], m, HEADROOM_PEAK);
    assert Abs(out[j]) == HEADROOM_PEAK;
    var p := PeakOf(out);
    var k :| 0 <= k < |out| && Abs(out[k]) == p;
    assert p <= HEADROOM_PEAK;
  }

  /** A silent buffer is returned unchanged. */
  lemma NormalizeAudioSilence(audio: seq<real>)
    requires audio != [] && PeakOf(audio) == 0.0
    ensures NormalizeAudio(audio) == Success(audio)
    ensures forall i :: 0 <= i < |audio| ==> audio[i] == 0.0
  {
  }

  /** Every normalised sample lies within [-0.95, 0.95]. */
  lemma NormalizeAudioBound(audio: seq<real>)
    requires audio != []
    ensures forall i :: 0 <= i < |audio| ==> -HEADROOM_PEAK <= NormalizeAudio(audio).value[i] <= HEADROOM_PEAK
  {
    if PeakOf(audio) > 0.0 {
      NormalizeAudioPeak(audio);
    } else {
      NormalizeAudioSilence(audio);
    }
  }

  /** Normalising an already normalised buffer changes nothing. */
  lemma NormalizeAudioIdempotent(audio: seq<real>)
    requires audio != []
    ensures NormalizeAudio(NormalizeAudio(audio).value) == NormalizeAudio(audio)
  {
    if PeakOf(audio) > 0.0 {
      NormalizeAudioPeak(audio);
      var out := NormalizeAudio(audio).value;
      assert NormalizeAudio(out).value == out;
    } else {
      NormalizeAudioSilence(audio);
    }
  }
}
