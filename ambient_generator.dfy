/**
 * `AmbientGenerator`: rain, wind or fan sounds, pulled chunk by chunk.  Rain
 * is quietened pink noise with occasional drops, wind is brown noise under a
 * slow sine modulation with rare gusts, and fan is pink noise under a 12 Hz
 * sine modulation.  The pink taps and the brown walk are the same filters the
 * noise generator uses.
 */
module AmbientGenerators {
  import opened Wrappers
  import opened Host
  import opened Const
  import opened Pcm
  import opened Rand
  import opened Streams
  import opened Colours

  datatype AmbientKind = Rain | Wind | Fan

  function AmbientName(kind: AmbientKind): string {
    match kind
    case Rain => "rain"
    case Wind => "wind"
    case Fan => "fan"
  }

  /** The constructor's subtype test: only "rain", "wind" and "fan" are accepted. */
  function ParseAmbientKind(name: string): (r: Option<AmbientKind>)
    ensures r.Some? <==> name in {"rain", "wind", "fan"}
    ensures r.Some? ==> AmbientName(r.value) == name
  {
    if name == "rain" then Some(Rain)
    else if name == "wind" then Some(Wind)
    else if name == "fan" then Some(Fan)
    else None
  }

  /** Rain: the pink base is scaled by 0.3; a drop happens when a draw falls below 0.01. */
  const RAIN_BASE_GAIN: real := 0.3
  const RAIN_DROP_CHANCE: real := 0.01
  const RAIN_DROP_MIN: real := 0.1
  const RAIN_DROP_MAX: real := 0.3

  /** Wind: the phase advances 0.1 cycles per second; depth 0.3; a gust (draw below 0.001) multiplies by 1.5. */
  const WIND_RATE: real := 0.1
  const WIND_DEPTH: real := 0.3
  const WIND_GUST_CHANCE: real := 0.001
  const WIND_GUST_GAIN: real := 1.5

  /** Fan: blade rotation at 12 Hz with depth 0.08. */
  const FAN_RATE: real := 12.0
  const FAN_DEPTH: real := 0.08

  /** The state `next_chunk` advances: taps, brown value, the two phases and the stream position. */
  datatype AmbientState = AmbientState(taps: Taps, brown: real, wind: real, fan: real, pos: nat)

  const INITIAL_AMBIENT: AmbientState := AmbientState(ZERO_TAPS, 0.0, 0.0, 0.0, 0)

  /** The wind modulation `1 + 0.3 sin(2 pi phase)`. */
  function WindModulation(phase: real): real {
    1.0 + WIND_DEPTH * SIN(2.0 * PI * phase)
  }

  /** The fan modulation `1 + 0.08 sin(2 pi phase)`. */
  function FanModulation(phase: real): real {
    1.0 + FAN_DEPTH * SIN(2.0 * PI * phase)
  }

  /** The wind modulation after the gust test on the draw `u`. */
  function WindGain(phase: real, u: real): real {
    if u < WIND_GUST_CHANCE then Scale(WindModulation(phase), WIND_GUST_GAIN) else WindModulation(phase)
  }

  /** A drop taken from the draws at `pos` and `pos + 1`: its intensity in [0.1, 0.3] times a sign in [-1, 1]. */
  function DropOf(draws: Draws, pos: nat): real {
    Scale(UniformOf(0.1, 0.3, draws(pos)), UniformOf(-1.0, 1.0, draws(pos + 1)))
  }

  /**
   * The drop test on the draw at `pos`: below 0.01, a drop built from the
   * next two draws is added to `base` and three draws are used in all;
   * otherwise `base` is kept and one draw is used.
   */
  function WithDrop(base: real, draws: Draws, pos: nat): (real, nat) {
    if draws(pos) < RAIN_DROP_CHANCE then (base + DropOf(draws, pos + 1), pos + 3)
    else (base, pos + 1)
  }

  /** The rain branch: the pink base at 0.3 gain (one draw), then the drop test. */
  function RainStep(s: AmbientState, draws: Draws): (real, AmbientState) {
    var white := UniformOf(-1.0, 1.0, draws(s.pos));
    var base := Scale(PinkStep(s.taps, white).0, RAIN_BASE_GAIN);
    var (x, pos) := WithDrop(base, draws, s.pos + 1);
    (x, s.(taps := PinkStep(s.taps, white).1, pos := pos))
  }

  /**
   * The wind branch: one draw for the brown walk, then the phase moves by
   * 0.1 / SAMPLE_RATE, then one `random()` for the gust test.
   */
  function WindStep(s: AmbientState, draws: Draws): (real, AmbientState) {
    var v := BrownStep(s.brown, UniformOf(-1.0, 1.0, draws(s.pos)));
    var phase := s.wind + WIND_RATE / SAMPLE_RATE as real;
    (Scale(v, WindGain(phase, draws(s.pos + 1))), s.(brown := v, wind := phase, pos := s.pos + 2))
  }

  /** The fan branch: one draw for the pink base, then the phase moves by 12 / SAMPLE_RATE. */
  function FanStep(s: AmbientState, draws: Draws): (real, AmbientState) {
    var white := UniformOf(-1.0, 1.0, draws(s.pos));
    var phase := s.fan + FAN_RATE / SAMPLE_RATE as real;
    (Scale(PinkStep(s.taps, white).0, FanModulation(phase)), s.(taps := PinkStep(s.taps, white).1, fan := phase, pos := s.pos + 1))
  }

  /** `_next_sample`: dispatch on the ambient kind. */
  function AmbientStep(kind: AmbientKind, s: AmbientState, draws: Draws): (real, AmbientState) {
    match kind
    case Rain => RainStep(s, draws)
    case Wind => WindStep(s, draws)
    case Fan => FanStep(s, draws)
  }

  function AmbientStepper(kind: AmbientKind, draws: Draws): AmbientState -> (real, AmbientState) {
    s => AmbientStep(kind, s, draws)
  }

  /** The largest magnitude a sample of each kind can take before the volume and `_normalize`. */
  function Peak(kind: AmbientKind): real {
    match kind
    case Rain => 0.6
    case Wind => 1.911
    case Fan => 1.08
  }

  /** Python's `*` between two computed values (a sample and a gain, a drop's intensity and sign). */
  function Scale(x: real, gain: real): real {
    x * gain
  }

  /** A factor in [0, hi] scales a value bounded by `a` to one bounded by `a * hi`. */
  lemma ScaleBound(x: real, a: real, m: real, hi: real)
    requires -a <= x <= a && 0.0 <= m <= hi
    ensures -(a * hi) <= x * m <= a * hi
  {
    if 0.0 <= x {
      assert x * m <= x * hi <= a * hi;
    } else {
      assert -x * m <= -x * hi <= a * hi;
    }
  }

  /** A rain sample stays within 0.6: 0.3 from the pink base plus at most 0.3 from a drop. */
  lemma RainBound(s: AmbientState, draws: Draws)
    ensures -0.6 <= RainStep(s, draws).0 <= 0.6
  {
    if draws(s.pos + 1) < RAIN_DROP_CHANCE {
      var intensity := UniformOf(0.1, 0.3, draws(s.pos + 2));
      var sign := UniformOf(-1.0, 1.0, draws(s.pos + 3));
      ScaleBound(sign, 1.0, intensity, RAIN_DROP_MAX);
      assert Scale(intensity, sign) == sign * intensity;
    }
  }

  /** A wind sample is a brown value within 0.98 times a gain within [0.7, 1.95]. */
  lemma WindBound(s: AmbientState, draws: Draws)
    requires SineBounded()
    ensures -1.911 <= WindStep(s, draws).0 <= 1.911
  {
    var phase := s.wind + WIND_RATE / SAMPLE_RATE as real;
    var m := WindGain(phase, draws(s.pos + 1));
    assert 0.7 <= WindModulation(phase) <= 1.3;
    assert 0.0 <= m <= 1.95;
    ScaleBound(BrownStep(s.brown, UniformOf(-1.0, 1.0, draws(s.pos))), BROWN_NOISE_DAMPING, m, 1.95);
  }

  /** A fan sample is a pink value within 1 times a modulation within [0.92, 1.08]. */
  lemma FanBound(s: AmbientState, draws: Draws)
    requires SineBounded()
    ensures -1.08 <= FanStep(s, draws).0 <= 1.08
  {
    var phase := s.fan + FAN_RATE / SAMPLE_RATE as real;
    assert 0.92 <= FanModulation(phase) <= 1.08;
    ScaleBound(PinkStep(s.taps, UniformOf(-1.0, 1.0, draws(s.pos))).0, 1.0, FanModulation(phase), 1.08);
  }

  /** One sample of each kind stays within its peak. */
  lemma AmbientStepBound(kind: AmbientKind, s: AmbientState, draws: Draws)
    requires SineBounded()
    ensures -Peak(kind) <= AmbientStep(kind, s, draws).0 <= Peak(kind)
  {
    match kind
    case Rain => RainBound(s, draws);
    case Wind => WindBound(s, draws);
    case Fan => FanBound(s, draws);
  }

  /** Over any number of samples, every sample lies within the kind's peak. */
  lemma AmbientRunBounds(kind: AmbientKind, s: AmbientState, draws: Draws, n: nat)
    requires SineBounded()
    ensures forall i :: 0 <= i < n ==> -Peak(kind) <= Run(AmbientStepper(kind, draws), s, n).0[i] <= Peak(kind)
  {
    var step := AmbientStepper(kind, draws);
    forall t ensures -Peak(kind) <= step(t).0 <= Peak(kind) {
      AmbientStepBound(kind, t, draws);
    }
    RunSampleBound(step, Peak(kind), s, n);
  }

  /** The phase increment per sample of each kind: 0.1 / SAMPLE_RATE for wind, 12 / SAMPLE_RATE for fan. */
  function WindIncrement(kind: AmbientKind): real {
    if kind == Wind then WIND_RATE / SAMPLE_RATE as real else 0.0
  }

  function FanIncrement(kind: AmbientKind): real {
    if kind == Fan then FAN_RATE / SAMPLE_RATE as real else 0.0
  }

  /** The number of random draws one sample takes: fan one, wind two, rain two or (with a drop) four. */
  function MinDraws(kind: AmbientKind): nat {
    if kind == Fan then 1 else 2
  }

  function MaxDraws(kind: AmbientKind): nat {
    match kind
    case Fan => 1
    case Wind => 2
    case Rain => 4
  }

  /** One sample moves the kind's own phase by its increment, leaves the other alone, and takes its draws. */
  lemma AmbientStepMoves(kind: AmbientKind, s: AmbientState, draws: Draws)
    ensures AmbientStep(kind, s, draws).1.wind == s.wind + WindIncrement(kind)
    ensures AmbientStep(kind, s, draws).1.fan == s.fan + FanIncrement(kind)
    ensures s.pos + MinDraws(kind) <= AmbientStep(kind, s, draws).1.pos <= s.pos + MaxDraws(kind)
  {
  }

  lemma AmbientStepperMoves(kind: AmbientKind, draws: Draws)
    ensures forall t :: AmbientStepper(kind, draws)(t).1.wind == t.wind + WindIncrement(kind)
    ensures forall t :: AmbientStepper(kind, draws)(t).1.fan == t.fan + FanIncrement(kind)
    ensures forall t: AmbientState :: t.pos + MinDraws(kind) <= AmbientStepper(kind, draws)(t).1.pos <= t.pos + MaxDraws(kind)
  {
    forall t {
      AmbientStepMoves(kind, t, draws);
    }
  }

  /** Over any number of samples, the wind phase advances by its increment per sample (zero unless wind). */
  lemma AmbientRunWindPhase(kind: AmbientKind, s: AmbientState, draws: Draws, n: nat)
    ensures Run(AmbientStepper(kind, draws), s, n).1.wind == s.wind + n as real * WindIncrement(kind)
  {
    AmbientStepperMoves(kind, draws);
    RunDrift(AmbientStepper(kind, draws), (t: AmbientState) => t.wind, WindIncrement(kind), s, n);
  }

  /** Over any number of samples, the fan phase advances by its increment per sample (zero unless fan). */
  lemma AmbientRunFanPhase(kind: AmbientKind, s: AmbientState, draws: Draws, n: nat)
    ensures Run(AmbientStepper(kind, draws), s, n).1.fan == s.fan + n as real * FanIncrement(kind)
  {
    AmbientStepperMoves(kind, draws);
    RunDrift(AmbientStepper(kind, draws), (t: AmbientState) => t.fan, FanIncrement(kind), s, n);
  }

  /**
   * Over any number of samples, the stream moves on by one draw per fan
   * sample, two per wind sample and between two and four per rain sample.
   */
  lemma AmbientRunDraws(kind: AmbientKind, s: AmbientState, draws: Draws, n: nat)
    ensures s.pos + n * MinDraws(kind) <= Run(AmbientStepper(kind, draws), s, n).1.pos <= s.pos + n * MaxDraws(kind)
  {
    AmbientStepperMoves(kind, draws);
    RunCounter(AmbientStepper(kind, draws), (t: AmbientState) => t.pos, MinDraws(kind), MaxDraws(kind), s, n);
  }

  class AmbientGenerator {
    const ambientType: AmbientKind
    const volume: real
    const rng: Rng
    const pinkState: array<real>
    /** `_position`, `_rain_base` and `_rain_drops` are set up but never read or updated. */
    var position: int
    var rainBase: seq<real>
    var rainDrops: seq<real>
    var brownValue: real
    var windPhase: real
    var fanPhase: real

    ghost predicate Valid()
      reads this
    {
      && pinkState.Length == 7
      && 0.0 <= volume <= 1.0
      && InWalkRange(brownValue)
    }

    ghost function State(): AmbientState
      reads this, pinkState, rng
      requires Valid()
    {
      AmbientState(pinkState[..], brownValue, windPhase, fanPhase, rng.pos)
    }

    /** The field set-up of `__init__` once the subtype is known to be valid. */
    constructor (kind: AmbientKind, volume: real, draws: Draws)
      ensures Valid() && ambientType == kind && this.volume == Clamp(volume, 0.0, 1.0)
      ensures fresh(rng) && fresh(pinkState) && rng.draws == draws
      ensures position == 0 && rainBase == [] && rainDrops == []
      ensures State() == INITIAL_AMBIENT
    {
      ambientType := kind;
      this.volume := Clamp(volume, 0.0, 1.0);
      rng := new Rng(draws);
      position := 0;
      pinkState := new real[7](_ => 0.0);
      brownValue := 0.0;
      rainBase := [];
      rainDrops := [];
      windPhase := 0.0;
      fanPhase := 0.0;
    }

    /**
     * `AmbientGenerator(ambient_subtype, volume, seed)`: raises
     * `UnknownNoiseTypeError` for a subtype other than "rain", "wind" or
     * "fan"; otherwise clamps the volume to [0, 1] and starts from zeroed
     * taps, brown value and phases at the start of the seed's stream.
     */
    static method Create(ambientSubtype: string, volume: real, draws: Draws) returns (r: Result<AmbientGenerator, UnknownNoiseTypeError>)
      ensures r.Failure? <==> ambientSubtype !in {"rain", "wind", "fan"}
      ensures r.Failure? ==> r.error == UnknownNoiseTypeError(ambientSubtype)
      ensures r.Success? ==>
        && fresh(r.value) && fresh(r.value.rng) && fresh(r.value.pinkState)
        && r.value.Valid() && AmbientName(r.value.ambientType) == ambientSubtype
        && r.value.volume == Clamp(volume, 0.0, 1.0) && r.value.rng.draws == draws
        && r.value.State() == INITIAL_AMBIENT
    {
      var kind := ParseAmbientKind(ambientSubtype);
      if kind.None? {
        return Failure(UnknownNoiseTypeError(ambientSubtype));
      }
      var g := new AmbientGenerator(kind.value, volume, draws);
      return Success(g);
    }

    /** `_generate_pink_sample`: one draw through the pink filter. */
    method GeneratePinkSample() returns (x: real)
      requires pinkState.Length == 7
      modifies pinkState, rng
      ensures rng.pos == old(rng.pos) + 1
      ensures (x, pinkState[..]) == PinkStep(old(pinkState[..]), UniformOf(-1.0, 1.0, rng.draws(old(rng.pos))))
    {
      var white := rng.Uniform(-1.0, 1.0);
      x := FilterPink(pinkState, white);
    }

    /** `_generate_brown_sample`: one draw through the damped, clamped walk. */
    method GenerateBrownSample() returns (x: real)
      modifies this`brownValue, rng
      ensures rng.pos == old(rng.pos) + 1
      ensures x == brownValue == BrownStep(old(brownValue), UniformOf(-1.0, 1.0, rng.draws(old(rng.pos))))
    {
      var u := rng.Uniform(-1.0, 1.0);
      brownValue := brownValue + u * BROWN_NOISE_STEP;
      brownValue := Clamp(brownValue, -1.0, 1.0) * BROWN_NOISE_DAMPING;
      x := brownValue;
    }

    /** `_next_sample`: dispatch on the ambient kind. */
    method NextSample() returns (x: real)
      requires Valid()
      modifies this`brownValue, this`windPhase, this`fanPhase, pinkState, rng
      ensures Valid()
      ensures (x, State()) == AmbientStep(ambientType, old(State()), rng.draws)
    {
      match ambientType
      case Rain =>
        x := NextRain();
      case Wind =>
        x := NextWind();
      case Fan =>
        x := NextFan();
    }

    /** The rain branch of `_next_sample`. */
    method NextRain() returns (x: real)
      requires Valid()
      modifies pinkState, rng
      ensures Valid()
      ensures (x, State()) == RainStep(old(State()), rng.draws)
    {
      ghost var s := State();
      var base := GeneratePinkSample();
      base := Scale(base, RAIN_BASE_GAIN);
      x := MaybeAddDrop(base);
      assert State() == s.(taps := pinkState[..], pos := rng.pos);
    }

    /**
     * The drop test of the rain branch: one `random()` draw; below 0.01 a
     * drop (an intensity drawn from [0.1, 0.3] times a draw from [-1, 1]) is
     * added to `base`.
     */
    method MaybeAddDrop(base: real) returns (x: real)
      modifies rng
      ensures (x, rng.pos) == WithDrop(base, rng.draws, old(rng.pos))
    {
      x := base;
      var u := rng.Random();
      if u < RAIN_DROP_CHANCE {
        var dropIntensity := rng.Uniform(0.1, 0.3);
        var sign := rng.Uniform(-1.0, 1.0);
        x := x + Scale(dropIntensity, sign);
      }
    }

    /** The wind branch of `_next_sample`. */
    method NextWind() returns (x: real)
      requires Valid()
      modifies this`brownValue, this`windPhase, rng
      ensures Valid()
      ensures (x, State()) == WindStep(old(State()), rng.draws)
    {
      var base := GenerateBrownSample();
      windPhase := windPhase + WIND_RATE / SAMPLE_RATE as real;
      var modulation := WindModulation(windPhase);
      var u := rng.Random();
      if u < WIND_GUST_CHANCE {
        modulation := Scale(modulation, WIND_GUST_GAIN);
      }
      x := Scale(base, modulation);
    }

    /** The fan branch of `_next_sample`. */
    method NextFan() returns (x: real)
      requires Valid()
      modifies this`fanPhase, pinkState, rng
      ensures Valid()
      ensures (x, State()) == FanStep(old(State()), rng.draws)
    {
      ghost var s := State();
      var base := GeneratePinkSample();
      fanPhase := fanPhase + FAN_RATE / SAMPLE_RATE as real;
      var modulation := FanModulation(fanPhase);
      x := Scale(base, modulation);
      assert State() == s.(taps := pinkState[..], fan := fanPhase, pos := rng.pos);
    }

    /**
     * `next_chunk(sample_count)`: two bytes per sample (none for a negative
     * count), each the little-endian 16-bit image of the clamped, truncated
     * sample times the volume; the state moves on by exactly that many samples.
     */
    method NextChunk(sampleCount: int) returns (frames: seq<byte>)
      requires Valid()
      modifies this`brownValue, this`windPhase, this`fanPhase, pinkState, rng
      ensures Valid()
      ensures (frames, State()) == Chunk(AmbientStepper(ambientType, rng.draws), old(State()), Count(sampleCount), volume)
    {
      ghost var start := State();
      frames := [];
      var i := 0;
      while i < sampleCount
        invariant Valid()
        invariant 0 <= i <= Count(sampleCount)
        invariant frames == Chunk(AmbientStepper(ambientType, rng.draws), start, i, volume).0
        invariant State() == Chunk(AmbientStepper(ambientType, rng.draws), start, i, volume).1
      {
        frames := AppendSample(start, i, frames);
        i := i + 1;
      }
      assert i == Count(sampleCount);
    }

    /** One iteration of `next_chunk`: the next sample's frame appended to `frames`. */
    method AppendSample(ghost start: AmbientState, i: nat, frames: seq<byte>) returns (frames': seq<byte>)
      requires Valid()
      requires frames == Chunk(AmbientStepper(ambientType, rng.draws), start, i, volume).0
      requires State() == Chunk(AmbientStepper(ambientType, rng.draws), start, i, volume).1
      modifies this`brownValue, this`windPhase, this`fanPhase, pinkState, rng
      ensures Valid()
      ensures frames' == Chunk(AmbientStepper(ambientType, rng.draws), start, i + 1, volume).0
      ensures State() == Chunk(AmbientStepper(ambientType, rng.draws), start, i + 1, volume).1
    {
      var sample := NextSample();
      ChunkExtend(AmbientStepper(ambientType, rng.draws), start, i, volume, sample, State());
      var frame := EncodeFrame(sample, volume);
      frames' := frames + frame;
    }
  }
}
