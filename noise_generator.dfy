/**
 * `NoiseGenerator`: white, pink or brown noise, pulled chunk by chunk.  The
 * generator owns its random stream, the seven pink taps (updated in place)
 * and the brown walk value.
 */
module NoiseGenerators {
  import opened Wrappers
  import opened Pcm
  import opened Rand
  import opened Streams
  import opened Colours

  datatype NoiseKind = White | Pink | Brown

  function NoiseName(kind: NoiseKind): string {
    match kind
    case White => "white"
    case Pink => "pink"
    case Brown => "brown"
  }

  /** The constructor's subtype test: only "white", "pink" and "brown" are accepted. */
  function ParseNoiseKind(name: string): (r: Option<NoiseKind>)
    ensures r.Some? <==> name in {"white", "pink", "brown"}
    ensures r.Some? ==> NoiseName(r.value) == name
  {
    if name == "white" then Some(White)
    else if name == "pink" then Some(Pink)
    else if name == "brown" then Some(Brown)
    else None
  }

  /** The generator state that `next_chunk` advances: the taps, the brown value and the stream position. */
  datatype NoiseState = NoiseState(taps: Taps, brown: real, pos: nat)

  /**
   * `_next_sample`: one white draw in [-1, 1], passed through unchanged (white),
   * through the brown walk, or through the pink filter.  Exactly one draw is
   * taken; the state a colour does not use is left alone.
   */
  function NoiseStep(kind: NoiseKind, s: NoiseState, draws: Draws): (r: (real, NoiseState))
    ensures r.1.pos == s.pos + 1
    ensures -1.0 <= r.0 <= 1.0
    ensures kind == Brown ==> r.0 == r.1.brown && -BROWN_NOISE_DAMPING <= r.0 <= BROWN_NOISE_DAMPING
    ensures kind != Brown ==> r.1.brown == s.brown
    ensures kind != Pink ==> r.1.taps == s.taps
  {
    var white := UniformOf(-1.0, 1.0, draws(s.pos));
    match kind
    case White => (white, s.(pos := s.pos + 1))
    case Brown =>
      var v := BrownStep(s.brown, white);
      (v, s.(brown := v, pos := s.pos + 1))
    case Pink =>
      var (x, t) := PinkStep(s.taps, white);
      (x, s.(taps := t, pos := s.pos + 1))
  }

  function NoiseStepper(kind: NoiseKind, draws: Draws): NoiseState -> (real, NoiseState) {
    s => NoiseStep(kind, s, draws)
  }

  /**
   * Over any number of samples: one draw per sample, every sample in [-1, 1],
   * and the brown value stays within [-0.98, 0.98] (so do the samples of brown noise).
   */
  lemma {:induction false} NoiseRunBounds(kind: NoiseKind, s: NoiseState, draws: Draws, n: nat)
    requires -BROWN_NOISE_DAMPING <= s.brown <= BROWN_NOISE_DAMPING
    ensures Run(NoiseStepper(kind, draws), s, n).1.pos == s.pos + n
    ensures -BROWN_NOISE_DAMPING <= Run(NoiseStepper(kind, draws), s, n).1.brown <= BROWN_NOISE_DAMPING
    ensures forall i :: 0 <= i < n ==> -1.0 <= Run(NoiseStepper(kind, draws), s, n).0[i] <= 1.0
    ensures kind == Brown ==> forall i :: 0 <= i < n ==>
              -BROWN_NOISE_DAMPING <= Run(NoiseStepper(kind, draws), s, n).0[i] <= BROWN_NOISE_DAMPING
    decreases n
  {
    if n > 0 {
      NoiseRunBounds(kind, s, draws, n - 1);
      var (xs, t) := Run(NoiseStepper(kind, draws), s, n - 1);
      assert Run(NoiseStepper(kind, draws), s, n).0 == xs + [NoiseStep(kind, t, draws).0];
    }
  }

  class NoiseGenerator {
    const noiseType: NoiseKind
    const volume: real
    const rng: Rng
    const pinkState: array<real>
    var brownValue: real

    ghost predicate Valid()
      reads this
    {
      && pinkState.Length == 7
      && 0.0 <= volume <= 1.0
      && -BROWN_NOISE_DAMPING <= brownValue <= BROWN_NOISE_DAMPING
    }

    ghost function State(): NoiseState
      reads this, pinkState, rng
      requires Valid()
    {
      NoiseState(pinkState[..], brownValue, rng.pos)
    }

    /** The field set-up of `__init__` once the subtype is known to be valid. */
    constructor (kind: NoiseKind, volume: real, draws: Draws)
      ensures Valid() && noiseType == kind && this.volume == Clamp(volume, 0.0, 1.0)
      ensures fresh(rng) && fresh(pinkState) && rng.draws == draws
      ensures State() == NoiseState(ZERO_TAPS, 0.0, 0)
    {
      noiseType := kind;
      this.volume := Clamp(volume, 0.0, 1.0);
      rng := new Rng(draws);
      pinkState := new real[7](_ => 0.0);
      brownValue := 0.0;
    }

    /**
     * `NoiseGenerator(noise_subtype, volume, seed)`: raises `UnknownNoiseTypeError`
     * for a subtype other than "white", "pink" or "brown"; otherwise stores the
     * volume clamped to [0, 1] and starts from zeroed taps, a zero brown value
     * and the start of the seed's stream.
     */
    static method Create(noiseSubtype: string, volume: real, draws: Draws) returns (r: Result<NoiseGenerator, UnknownNoiseTypeError>)
      ensures r.Failure? <==> noiseSubtype !in {"white", "pink", "brown"}
      ensures r.Failure? ==> r.error == UnknownNoiseTypeError(noiseSubtype)
      ensures r.Success? ==>
        && fresh(r.value) && fresh(r.value.rng) && fresh(r.value.pinkState)
        && r.value.Valid() && NoiseName(r.value.noiseType) == noiseSubtype
        && r.value.volume == Clamp(volume, 0.0, 1.0) && r.value.rng.draws == draws
        && r.value.State() == NoiseState(ZERO_TAPS, 0.0, 0)
    {
      var kind := ParseNoiseKind(noiseSubtype);
      if kind.None? {
        return Failure(UnknownNoiseTypeError(noiseSubtype));
      }
      var g := new NoiseGenerator(kind.value, volume, draws);
      return Success(g);
    }

    /** `_next_sample`: dispatch on the colour. */
    method NextSample() returns (x: real)
      requires Valid()
      modifies this, pinkState, rng
      ensures Valid()
      ensures (x, State()) == NoiseStep(noiseType, old(State()), rng.draws)
    {
      match noiseType
      case White =>
        x := rng.Uniform(-1.0, 1.0);
      case Brown =>
        x := NextBrown();
      case Pink =>
        x := NextPink();
    }

    /** The brown branch of `_next_sample`. */
    method NextBrown() returns (x: real)
      requires Valid()
      modifies this, rng
      ensures Valid()
      ensures (x, State()) == NoiseStep(Brown, old(State()), rng.draws)
    {
      var u := rng.Uniform(-1.0, 1.0);
      brownValue := brownValue + u * BROWN_NOISE_STEP;
      brownValue := Clamp(brownValue, -1.0, 1.0) * BROWN_NOISE_DAMPING;
      x := brownValue;
    }

    /** The pink branch of `_next_sample`. */
    method NextPink() returns (x: real)
      requires Valid()
      modifies pinkState, rng
      ensures Valid()
      ensures (x, State()) == NoiseStep(Pink, old(State()), rng.draws)
    {
      var white := rng.Uniform(-1.0, 1.0);
      x := FilterPink(pinkState, white);
    }

    /**
     * `next_chunk(sample_count)`: two bytes per sample (none for a negative
     * count), each the little-endian 16-bit image of the clamped, truncated
     * sample times the volume; the state moves on by exactly that many samples.
     */
    method NextChunk(sampleCount: int) returns (frames: seq<byte>)
      requires Valid()
      modifies this, pinkState, rng
      ensures Valid()
      ensures (frames, State()) == Chunk(NoiseStepper(noiseType, rng.draws), old(State()), Count(sampleCount), volume)
    {
      ghost var start := State();
      ghost var step := NoiseStepper(noiseType, rng.draws);
      frames := [];
      var i := 0;
      while i < sampleCount
        invariant Valid()
        invariant 0 <= i <= Count(sampleCount)
        invariant frames == Chunk(step, start, i, volume).0
        invariant State() == Chunk(step, start, i, volume).1
      {
        var sample := NextSample();
        ChunkExtend(step, start, i, volume, sample, State());
        var frame := EncodeFrame(sample, volume);
        frames := frames + frame;
        i := i + 1;
      }
    }
  }
}
