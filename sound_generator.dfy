/**
 * `AmbientSoundGenerator` in `sound_generator.py`: renders a whole clip of one
 * of six sounds into a buffer, peak-normalises it and hands it, as 16-bit
 * PCM, to a WAV writer.
 *
 * Each generator is a function of the sample rate, the duration, the
 * intensity label and the random stream (at a position), giving the clip and
 * the position after the draws it used, or the error numpy raises.  The
 * class's methods compute the same thing step by step on arrays, and each is
 * proved to agree with its function.
 */
module SoundGenerators {
  import opened Wrappers
  import opened Pcm
  import opened Rand
  import opened Streams
  import opened Colours
  import opened BatchNoise
  import opened BatchAmbient

  /** The default rate of the renderer: CD quality. */
  const DEFAULT_SAMPLE_RATE: int := 44100

  /** A rendered clip and the next draw position, or the error raised on the way. */
  type Outcome = Result<(seq<real>, nat), BatchError>

  /**
   * The last step of every generator: `_normalize_audio`, and the position
   * the stream has reached.  An empty buffer fails; anything else comes out
   * with the same length and within the 0.95 headroom.
   */
  function Finish(audio: seq<real>, pos: nat): (r: Outcome)
    ensures r.Success? <==> audio != []
    ensures r.Failure? ==> r.error == EmptyReduction
    ensures r.Success? ==> |r.value.0| == |audio| && r.value.1 == pos
    ensures r.Success? ==> forall i :: 0 <= i < |r.value.0| ==> -HEADROOM_PEAK <= r.value.0[i] <= HEADROOM_PEAK
  {
    match NormalizeAudio(audio)
    case Failure(e) => Failure(e)
    case Success(out) =>
      NormalizeAudioBound(audio);
      Success((out, pos))
  }

  /** A method's result and final draw position are the ones the outcome `r` names. */
  predicate Delivers(audio: Result<seq<real>, BatchError>, pos: nat, r: Outcome) {
    match r
    case Success((clip, p)) => audio == Success(clip) && pos == p
    case Failure(e) => audio == Failure(e)
  }

  /** What a successful generator call of `samples` samples promises. */
  predicate Rendered(r: Outcome, samples: int) {
    r.Success? ==>
      && |r.value.0| == samples
      && forall i :: 0 <= i < |r.value.0| ==> -HEADROOM_PEAK <= r.value.0[i] <= HEADROOM_PEAK
  }

  /**
   * The error a buffer of `samples` samples meets first: `np.zeros` or
   * `normal` refuses a negative size, and `np.max` an empty buffer.
   */
  function SizeError(samples: int): BatchError {
    if samples < 0 then NegativeDimensions else EmptyReduction
  }

  // ---------------------------------------------------------------------------
  // The six generators, as functions
  // ---------------------------------------------------------------------------

  /** `generate_white_noise`: standard normal deviates scaled by the intensity. */
  function WhiteNoise(sampleRate: int, duration: real, intensity: string, draws: Draws, pos: nat): (r: Outcome)
    ensures var n := SampleCount(duration, sampleRate);
      && (r.Success? <==> n > 0)
      && (r.Failure? ==> r.error == SizeError(n))
      && (r.Success? ==> r.value.1 == pos + n)
      && Rendered(r, n)
  {
    var samples := SampleCount(duration, sampleRate);
    if samples < 0 then Failure(NegativeDimensions)
    else Finish(Scaled(GaussOf(draws, pos, samples), IntensityScale(intensity)), pos + samples)
  }

  /** `generate_pink_noise`: the pink loop's raw sums, scaled by 0.11 and then by the intensity. */
  function PinkNoise(sampleRate: int, duration: real, intensity: string, draws: Draws, pos: nat): (r: Outcome)
    ensures var n := SampleCount(duration, sampleRate);
      && (r.Success? <==> n > 0)
      && (r.Failure? ==> r.error == SizeError(n))
      && (r.Success? ==> r.value.1 == pos + n)
      && Rendered(r, n)
  {
    var samples := SampleCount(duration, sampleRate);
    if samples < 0 then Failure(NegativeDimensions)
    else
      var raw := Run(PinkLoopStepper(draws), PinkLoopState(ZERO_TAPS, pos), samples).0;
      Finish(Scaled(Scaled(raw, PINK_NOISE_SCALE), IntensityScale(intensity)), pos + samples)
  }

  /** `generate_brown_noise`: the damped walk, scaled by the intensity. */
  function BrownNoise(sampleRate: int, duration: real, intensity: string, draws: Draws, pos: nat): (r: Outcome)
    ensures var n := SampleCount(duration, sampleRate);
      && (r.Success? <==> n > 0)
      && (r.Failure? ==> r.error == SizeError(n))
      && (r.Success? ==> r.value.1 == pos + n)
      && Rendered(r, n)
  {
    var samples := SampleCount(duration, sampleRate);
    if samples < 0 then Failure(NegativeDimensions)
    else
      var raw := Run(BrownLoopStepper(draws), BrownLoopState(0.0, pos), samples).0;
      Finish(Scaled(raw, IntensityScale(intensity)), pos + samples)
  }

  /** `int(duration * drop_rate * 100)`: how many drops a rain clip gets. */
  function DropCount(duration: real, intensity: string): int {
    Trunc(duration * RainParamsFor(intensity).dropRate * 100.0)
  }

  /**
   * `generate_rain`: pink noise with decaying drops added into it.  Besides
   * the size errors, a clip that gets at least one drop needs more than 1000
   * samples, or the first `randint` raises.
   */
  function Rain(sampleRate: int, duration: real, intensity: string, draws: Draws, pos: nat): (r: Outcome)
    ensures var n := SampleCount(duration, sampleRate);
      && (r.Success? <==> n > 0 && (DropCount(duration, intensity) < 1 || n > 1000))
      && (r.Failure? ==> r.error == (if n <= 0 then SizeError(n) else EmptyRange))
      && Rendered(r, n)
  {
    match PinkNoise(sampleRate, duration, intensity, draws, pos)
    case Failure(e) => Failure(e)
    case Success((base, p)) =>
      var params := RainParamsFor(intensity);
      var n := Count(DropCount(duration, intensity));
      RainDropsFailure(base, params, draws, p, n);
      DropsAndFinish(base, params, draws, p, n)
  }

  /** The drop loop on a rendered base, then the normaliser. */
  function DropsAndFinish(base: seq<real>, params: RainParams, draws: Draws, pos: nat, n: nat): Outcome {
    match RainDrops(base, params, draws, pos, n)
    case Failure(e) => Failure(e)
    case Success((buffer, q)) => Finish(buffer, q)
  }

  /** Once the pink base is rendered, the rain clip is its drop loop and the normaliser. */
  lemma RainFromBase(sampleRate: int, duration: real, intensity: string, draws: Draws, pos: nat, base: seq<real>, p: nat)
    requires PinkNoise(sampleRate, duration, intensity, draws, pos) == Success((base, p))
    ensures Rain(sampleRate, duration, intensity, draws, pos)
      == DropsAndFinish(base, RainParamsFor(intensity), draws, p, Count(DropCount(duration, intensity)))
  {
  }

  /** `1 + mod_depth * sin(2 pi mod_freq t)` over `np.linspace(0, duration, samples)`. */
  function WindEnvelope(duration: real, samples: nat, intensity: string): (m: seq<real>)
    ensures |m| == samples
  {
    var params := WindParamsFor(intensity);
    Modulation(Linspace(0.0, duration, samples), params.modFreq, params.modDepth)
  }

  /** The rotation envelope of a fan clip. */
  function FanEnvelope(duration: real, samples: nat, intensity: string): (m: seq<real>)
    ensures |m| == samples
  {
    var params := FanParamsFor(intensity);
    Modulation(Linspace(0.0, duration, samples), params.rotationFreq, params.modDepth)
  }

  /**
   * `generate_wind`: brown noise times a slow envelope into which
   * `int(duration / 5)` gusts have been added.  The gusts never fail on a
   * clip the brown noise has already rendered.
   */
  function Wind(sampleRate: int, duration: real, intensity: string, draws: Draws, pos: nat): (r: Outcome)
    requires sampleRate > 0
    ensures var n := SampleCount(duration, sampleRate);
      && (r.Success? <==> n > 0)
      && (r.Failure? ==> r.error == SizeError(n))
      && Rendered(r, n)
  {
    match BrownNoise(sampleRate, duration, intensity, draws, pos)
    case Failure(e) => Failure(e)
    case Success((wind, p)) =>
      var samples := SampleCount(duration, sampleRate);
      var envelope := WindEnvelope(duration, samples, intensity);
      var n := Count(Trunc(duration / 5.0));
      WindGustsFailure(envelope, sampleRate, draws, p, n);
      match WindGusts(envelope, sampleRate, draws, p, n)
      case Failure(e) => Failure(e)
      case Success((modulation, q)) => Finish(Product(wind, modulation), q)
  }

  /** `generate_fan`: pink noise times the blade-rotation envelope. */
  function Fan(sampleRate: int, duration: real, intensity: string, draws: Draws, pos: nat): (r: Outcome)
    ensures var n := SampleCount(duration, sampleRate);
      && (r.Success? <==> n > 0)
      && (r.Failure? ==> r.error == SizeError(n))
      && (r.Success? ==> r.value.1 == pos + n)
      && Rendered(r, n)
  {
    match PinkNoise(sampleRate, duration, intensity, draws, pos)
    case Failure(e) => Failure(e)
    case Success((fan, p)) =>
      var samples := SampleCount(duration, sampleRate);
      Finish(Product(fan, FanEnvelope(duration, samples, intensity)), p)
  }

  // ---------------------------------------------------------------------------
  // Dispatch and PCM conversion
  // ---------------------------------------------------------------------------

  /** The keys of the `generators` table in `generate_and_save`. */
  datatype SoundType = WhiteSound | PinkSound | BrownSound | RainSound | WindSound | FanSound

  function SoundName(kind: SoundType): string {
    match kind
    case WhiteSound => "white"
    case PinkSound => "pink"
    case BrownSound => "brown"
    case RainSound => "rain"
    case WindSound => "wind"
    case FanSound => "fan"
  }

  const SOUND_TYPES: set<string> := {"white", "pink", "brown", "rain", "wind", "fan"}

  /** `generators.get(sound_type)`: `None` for a name that is not a key. */
  function ParseSoundType(name: string): (r: Option<SoundType>)
    ensures r.Some? <==> name in SOUND_TYPES
    ensures r.Some? ==> SoundName(r.value) == name
  {
    match name
    case "white" => Some(WhiteSound)
    case "pink" => Some(PinkSound)
    case "brown" => Some(BrownSound)
    case "rain" => Some(RainSound)
    case "wind" => Some(WindSound)
    case "fan" => Some(FanSound)
    case _ => None
  }

  /** Every sound type is found under its own name. */
  lemma SoundNameRoundTrip(kind: SoundType)
    ensures SoundName(kind) in SOUND_TYPES && ParseSoundType(SoundName(kind)) == Some(kind)
  {
  }

  /** `generator(duration, intensity)` for the generator the table yields. */
  function Generate(kind: SoundType, sampleRate: int, duration: real, intensity: string, draws: Draws, pos: nat): (r: Outcome)
    requires sampleRate > 0
    ensures Rendered(r, SampleCount(duration, sampleRate))
    ensures r.Success? ==> SampleCount(duration, sampleRate) > 0
  {
    match kind
    case WhiteSound => WhiteNoise(sampleRate, duration, intensity, draws, pos)
    case PinkSound => PinkNoise(sampleRate, duration, intensity, draws, pos)
    case BrownSound => BrownNoise(sampleRate, duration, intensity, draws, pos)
    case RainSound => Rain(sampleRate, duration, intensity, draws, pos)
    case WindSound => Wind(sampleRate, duration, intensity, draws, pos)
    case FanSound => Fan(sampleRate, duration, intensity, draws, pos)
  }

  /** One sample of `np.int16(audio * 32767)`: the cast truncates toward zero. */
  function ToInt16(x: real): int {
    Trunc(x * PCM_SCALE as real)
  }

  function Int16Samples(audio: seq<real>): (pcm: seq<int>)
    ensures |pcm| == |audio|
  {
    seq(|audio|, i requires 0 <= i < |audio| => ToInt16(audio[i]))
  }

  /** The largest magnitude a sample within the 0.95 headroom converts to. */
  const PCM_PEAK: int := 31128

  /**
   * A sample within the headroom converts to at most 31128 in magnitude, well
   * inside the 16-bit range, so the cast never wraps.
   */
  lemma ToInt16Bound(x: real)
    requires -HEADROOM_PEAK <= x <= HEADROOM_PEAK
    ensures -PCM_PEAK <= ToInt16(x) <= PCM_PEAK
    ensures -0x8000 <= ToInt16(x) < 0x8000
  {
    var y := x * PCM_SCALE as real;
    assert -31128.65 <= y <= 31128.65;
  }

  /** Every rendered clip converts to 16-bit samples without wrapping. */
  lemma GeneratedPcmInRange(kind: SoundType, sampleRate: int, duration: real, intensity: string, draws: Draws, pos: nat)
    requires sampleRate > 0
    requires Generate(kind, sampleRate, duration, intensity, draws, pos).Success?
    ensures var pcm := Int16Samples(Generate(kind, sampleRate, duration, intensity, draws, pos).value.0);
      && |pcm| == SampleCount(duration, sampleRate)
      && forall i :: 0 <= i < |pcm| ==> -PCM_PEAK <= pcm[i] <= PCM_PEAK
  {
    var audio := Generate(kind, sampleRate, duration, intensity, draws, pos).value.0;
    forall i | 0 <= i < |audio|
      ensures -PCM_PEAK <= Int16Samples(audio)[i] <= PCM_PEAK
    {
      ToInt16Bound(audio[i]);
    }
  }

  // ---------------------------------------------------------------------------
  // The renderer
  // ---------------------------------------------------------------------------

  class AmbientSoundGenerator {
    const sampleRate: int

    /** The rate the renderer is built with is a positive number of samples per second. */
    predicate Valid() {
      sampleRate > 0
    }

    constructor(sampleRate: int)
      requires sampleRate > 0
      ensures Valid() && this.sampleRate == sampleRate
    {
      this.sampleRate := sampleRate;
    }

    method GenerateWhiteNoise(duration: real, intensity: string, rng: Rng) returns (audio: Result<seq<real>, BatchError>)
      modifies rng
      ensures Delivers(audio, rng.pos, WhiteNoise(sampleRate, duration, intensity, rng.draws, old(rng.pos)))
    {
      var samples := SampleCount(duration, sampleRate);
      if samples < 0 {
        return Failure(NegativeDimensions);
      }
      var noise := rng.Gauss(samples);
      noise := Scaled(noise, IntensityScale(intensity));
      audio := NormalizeAudio(noise);
    }

    method GeneratePinkNoise(duration: real, intensity: string, rng: Rng) returns (audio: Result<seq<real>, BatchError>)
      modifies rng
      ensures Delivers(audio, rng.pos, PinkNoise(sampleRate, duration, intensity, rng.draws, old(rng.pos)))
    {
      var samples := SampleCount(duration, sampleRate);
      if samples < 0 {
        return Failure(NegativeDimensions);
      }
      var pink := PinkLoop(samples, rng);
      var scaled := Scaled(pink[..], PINK_NOISE_SCALE);
      scaled := Scaled(scaled, IntensityScale(intensity));
      audio := NormalizeAudio(scaled);
    }

    method GenerateBrownNoise(duration: real, intensity: string, rng: Rng) returns (audio: Result<seq<real>, BatchError>)
      modifies rng
      ensures Delivers(audio, rng.pos, BrownNoise(sampleRate, duration, intensity, rng.draws, old(rng.pos)))
    {
      var samples := SampleCount(duration, sampleRate);
      if samples < 0 {
        return Failure(NegativeDimensions);
      }
      var brown := BrownLoop(samples, rng);
      var scaled := Scaled(brown[..], IntensityScale(intensity));
      audio := NormalizeAudio(scaled);
    }

    method GenerateRain(duration: real, intensity: string, rng: Rng) returns (audio: Result<seq<real>, BatchError>)
      modifies rng
      ensures Delivers(audio, rng.pos, Rain(sampleRate, duration, intensity, rng.draws, old(rng.pos)))
    {
      var base := GeneratePinkNoise(duration, intensity, rng);
      if base.Failure? {
        return Failure(base.error);
      }
      RainFromBase(sampleRate, duration, intensity, rng.draws, old(rng.pos), base.value, rng.pos);
      audio := AddDrops(base.value, duration, intensity, rng);
    }

    /** The drop loop of `generate_rain` on a copy of the rendered base, then `_normalize_audio`. */
    method AddDrops(clip: seq<real>, duration: real, intensity: string, rng: Rng) returns (audio: Result<seq<real>, BatchError>)
      modifies rng
      ensures Delivers(audio, rng.pos,
        DropsAndFinish(clip, RainParamsFor(intensity), rng.draws, old(rng.pos), Count(DropCount(duration, intensity))))
    {
      var params := RainParamsFor(intensity);
      var numDrops := DropCount(duration, intensity);
      var buffer := new real[|clip|](i requires 0 <= i < |clip| => clip[i]);
      assert buffer[..] == clip;
      var err := AddRainDrops(buffer, params, numDrops, rng);
      if err.Some? {
        return Failure(err.value);
      }
      audio := NormalizeAudio(buffer[..]);
    }

    method GenerateWind(duration: real, intensity: string, rng: Rng) returns (audio: Result<seq<real>, BatchError>)
      requires Valid()
      modifies rng
      ensures Delivers(audio, rng.pos, Wind(sampleRate, duration, intensity, rng.draws, old(rng.pos)))
    {
      var samples := SampleCount(duration, sampleRate);
      var wind := GenerateBrownNoise(duration, intensity, rng);
      if wind.Failure? {
        return Failure(wind.error);
      }
      var envelope := WindEnvelope(duration, samples, intensity);
      var modulation := new real[|envelope|](i requires 0 <= i < |envelope| => envelope[i]);
      assert modulation[..] == envelope;
      var err := AddWindGusts(modulation, sampleRate, Trunc(duration / 5.0), rng);
      if err.Some? {
        return Failure(err.value);
      }
      audio := NormalizeAudio(Product(wind.value, modulation[..]));
    }

    method GenerateFan(duration: real, intensity: string, rng: Rng) returns (audio: Result<seq<real>, BatchError>)
      modifies rng
      ensures Delivers(audio, rng.pos, Fan(sampleRate, duration, intensity, rng.draws, old(rng.pos)))
    {
      var samples := SampleCount(duration, sampleRate);
      var fan := GeneratePinkNoise(duration, intensity, rng);
      if fan.Failure? {
        return Failure(fan.error);
      }
      audio := NormalizeAudio(Product(fan.value, FanEnvelope(duration, samples, intensity)));
    }

    /**
     * `generate_and_save(sound_type, intensity, duration, output_path)`: an
     * unknown sound type returns False without drawing; otherwise the clip is
     * rendered and converted, and the call returns True exactly when nothing
     * raised and the writer accepted the samples.  `pcm` is what reaches the
     * writer, and `writeSucceeds` stands for the outcome of the file write.
     */
    method GenerateAndSave(soundType: string, intensity: string, duration: real, rng: Rng, writeSucceeds: bool)
      returns (saved: bool, pcm: Option<seq<int>>)
      requires Valid()
      modifies rng
      ensures ParseSoundType(soundType).None? ==> pcm.None? && rng.pos == old(rng.pos)
      ensures ParseSoundType(soundType).Some? ==>
        match Generate(ParseSoundType(soundType).value, sampleRate, duration, intensity, rng.draws, old(rng.pos))
        case Success((clip, p)) => pcm == Some(Int16Samples(clip)) && rng.pos == p
        case Failure(_) => pcm.None?
      ensures saved <==> pcm.Some? && writeSucceeds
    {
      var kind := ParseSoundType(soundType);
      if kind.None? {
        return false, None;
      }
      var audio: Result<seq<real>, BatchError>;
      match kind.value {
        case WhiteSound => audio := GenerateWhiteNoise(duration, intensity, rng);
        case PinkSound => audio := GeneratePinkNoise(duration, intensity, rng);
        case BrownSound => audio := GenerateBrownNoise(duration, intensity, rng);
        case RainSound => audio := GenerateRain(duration, intensity, rng);
        case WindSound => audio := GenerateWind(duration, intensity, rng);
        case FanSound => audio := GenerateFan(duration, intensity, rng);
      }
      if audio.Failure? {
        return false, None;
      }
      pcm := Some(Int16Samples(audio.value));
      saved := writeSucceeds;
    }
  }

  // ---------------------------------------------------------------------------
  // What the clips look like
  // ---------------------------------------------------------------------------

  /**
   * The standalone test script's calls: each of the six sounds at "medium"
   * for 2 seconds, and white noise at each intensity for 1 second, at the
   * default rate, all render a clip of `duration * 44100` samples.
   */
  lemma TestScriptRenders(draws: Draws, pos: nat, kind: SoundType, intensity: string)
    requires intensity in {"low", "medium", "high"}
    ensures Generate(kind, DEFAULT_SAMPLE_RATE, 2.0, "medium", draws, pos).Success?
    ensures |Generate(kind, DEFAULT_SAMPLE_RATE, 2.0, "medium", draws, pos).value.0| == 88200
    ensures Generate(WhiteSound, DEFAULT_SAMPLE_RATE, 1.0, intensity, draws, pos).Success?
    ensures |Generate(WhiteSound, DEFAULT_SAMPLE_RATE, 1.0, intensity, draws, pos).value.0| == 44100
  {
    assert SampleCount(2.0, DEFAULT_SAMPLE_RATE) == 88200;
    assert SampleCount(1.0, DEFAULT_SAMPLE_RATE) == 44100;
    assert DropCount(2.0, "medium") == 200;
  }

  /**
   * Rain shorter than 1000 samples but long enough for a drop raises inside
   * the drop loop: 20 ms at 44100 Hz is 882 samples and gets 2 drops, so
   * `generate_and_save` returns False for it.
   */
  lemma ShortRainFails(draws: Draws, pos: nat)
    ensures Rain(DEFAULT_SAMPLE_RATE, 0.02, "medium", draws, pos) == Failure(EmptyRange)
    ensures PinkNoise(DEFAULT_SAMPLE_RATE, 0.02, "medium", draws, pos).Success?
  {
    assert SampleCount(0.02, DEFAULT_SAMPLE_RATE) == 882;
    assert DropCount(0.02, "medium") == 2;
  }
}
