# Ambient sound synthesis, modelled in Dafny

This project models the synthesis core of the Home Assistant integration
"Ambient Sound Synthesizer" and proves properties of it.

- **Streaming generators** (`noise.py`).
  - `NoiseGenerator` produces white, pink or brown noise one sample at a time.
    Pink noise is a seven-tap filter with fixed coefficients. Brown noise is a
    clamped, damped random walk.
  - `AmbientGenerator` builds rain, wind and fan sounds on the same filters.
    Rain is quietened pink noise with occasional drops, wind is brown noise
    under a slow sine with rare gusts, and fan is pink noise under a 12 Hz sine.
  - `next_chunk(n)` turns the next `n` samples into 16-bit little-endian PCM.
  - `build_wav_header` writes the 44-byte header of a WAVE stream of unknown
    length.
  - `coerce_profile` normalises a stored profile record.
  - `create_generator` picks the generator class.
- **Batch renderer** (`AmbientSoundGenerator` in `sound_generator.py`).
  - It renders a whole clip of one of six sounds and peak-normalises it to
    0.95.
  - `generate_and_save` converts the clip to 16-bit samples for a WAV writer
    and reports success as a boolean.

## How the model is built

- **Files.**
  - `pcm.dfy`: sample arithmetic (`_clamp`, `_normalize`, `struct.pack("<h")`).
  - `colours.dfy`: the pink and brown filters.
  - `streams.dfy`: running a per-sample stepper.
  - `noise_generator.dfy` and `ambient_generator.dfy`: the streaming classes.
  - `wav.dfy`: the header.
  - `profile.dfy`: the profile normaliser.
  - `factory.dfy`: the factory.
  - `batch_noise.dfy`, `batch_ambient.dfy` and `sound_generator.dfy`: the batch renderer.
  - `host.dfy`: what the code takes from the Python runtime and from the
    unseen part of `const.py`.
  - `rng.dfy`: the random source.
- **The random source.** `random.Random` and numpy's global generator are
  modelled as a fixed stream of `random()` draws in [0, 1) and a position in
  it. `uniform(a, b)` is `a + (b - a) * u`, as both libraries compute it.
  `randint(low, high)` is `low + floor((high - low) * u)`.
- **Imperative parts are classes.** The generators keep their seven taps in an
  `array<real>` of length 7. Their walk value and phases are fields. Each
  `next_chunk` is a loop proved against a specification function:
  - one generic `Run` of a per-sample step function;
  - `Chunk` on top of it, which packs the samples.

  The batch pink and brown loops fill a fresh array. Their invariants say that
  the filled prefix is the same `Run`. The rain and wind overlays add into
  array slices in place.
- **Pure parts are functions.** Each batch generator is also a function of
  the rate, the duration, the intensity and the stream position. Its result is
  a `Result` of the clip and the next position, or the numpy error raised on
  the way:
  - `NegativeDimensions` for a negative size;
  - `EmptyReduction` for `np.max` of an empty buffer;
  - `EmptyRange` for `randint` with an empty range.

  Every method is proved to deliver what its function names.
- **Cross-checks.**
  - The batch pink and brown loops are proved to compute the same filters as
    the streaming generators: pink up to the final 0.11 scale and clamp, brown
    exactly.
  - `generate_and_save` returns False on any error, so its model returns no
    samples whenever the function fails.

### Behaviour worth knowing

- A rain clip that gets at least one drop needs more than 1000 samples.
  Otherwise `np.random.randint(0, samples - 1000)` raises, and
  `generate_and_save` returns False. An example is 20 ms at 44100 Hz
  (`SoundGenerators.ShortRainFails`).
- `coerce_profile` keeps a known profile type even when the subtype belongs to
  the other family. The factory then rejects the profile
  (`Factory.CrossFamilyProfileRejected`).
- `coerce_profile` never checks that the subtype belongs to the type's
  family. It silently replaces a subtype outside `ALL_SUBTYPES` by
  `DEFAULT_PROFILE_SUBTYPE` (noise.py:243-254, `Profiles.CoerceSubtype`).
- `coerce_profile` builds a new dictionary from a copy of the parameters.
  Records are values here, so the input cannot be changed.

## Model

| member | source | states |
|---|---|---|
| Pcm.Clamp | custom_components/ambient_sound_synthesizer/noise.py:47-53 | a value below the minimum gives the minimum; with ordered bounds the result lies between them; a value already inside is returned unchanged |
| Pcm.Trunc | custom_components/ambient_sound_synthesizer/noise.py:58 | `int()` truncates toward zero: for x >= 0, 0 <= n <= x < n + 1; for x < 0, n - 1 < x <= n <= 0 |
| Pcm.Normalize | custom_components/ambient_sound_synthesizer/noise.py:56-58 | the quantised sample lies in [-32767, 32767] (so -32768 never occurs), has the sign of the input, and is at most 32767 times the input in magnitude |
| Pcm.PackInt16LE | custom_components/ambient_sound_synthesizer/noise.py:110 | two bytes, low byte first, that `UnpackInt16LE` reads back as the packed value |
| Pcm.UnpackPack | custom_components/ambient_sound_synthesizer/noise.py:110 | packing the decoded value of any byte pair gives the pair back: the two's-complement encoding is a bijection |
| Pcm.EncodeFrame | custom_components/ambient_sound_synthesizer/noise.py:109-110 | one loop step: the bytes are the frame of sample times volume and decode to its quantised value |
| Pcm.Frames | custom_components/ambient_sound_synthesizer/noise.py:107-111 | the bytes of a run of samples are two per sample |
| Pcm.FramesAppend | custom_components/ambient_sound_synthesizer/noise.py:107-111 | the bytes of a concatenation are the concatenation of the bytes |
| Pcm.FramesAt | custom_components/ambient_sound_synthesizer/noise.py:108-110 | bytes 2k and 2k+1 are the frame of the k-th sample |
| Pcm.FramesDecode | custom_components/ambient_sound_synthesizer/noise.py:105-111 | decoding the k-th byte pair gives `Normalize` of the k-th sample times the volume, within [-32767, 32767] |
| Rand.UniformOf | custom_components/ambient_sound_synthesizer/noise.py:82 | `uniform(a, b)` from one draw lies in [a, b], strictly below b when a < b |
| Rand.RandIntOf | custom_components/ambient_sound_synthesizer/sound_generator.py:132-133 | `randint(low, high)` from one draw lies in [low, high) |
| Rand.GaussOf | custom_components/ambient_sound_synthesizer/sound_generator.py:134 | `randn(n)` yields n deviates |
| Rand.Rng.constructor | custom_components/ambient_sound_synthesizer/noise.py:75 | a fresh generator starts at the beginning of its seed's stream |
| Rand.Rng.Random | custom_components/ambient_sound_synthesizer/noise.py:170 | `random()` returns the next draw, in [0, 1), and moves on by one draw |
| Rand.Rng.Uniform | custom_components/ambient_sound_synthesizer/noise.py:82 | `uniform(a, b)` returns `UniformOf` of the next draw, in [a, b], and moves on by one draw |
| Rand.Rng.RandInt | custom_components/ambient_sound_synthesizer/sound_generator.py:132 | `randint(low, high)` returns `RandIntOf` of the next draw, in [low, high), and moves on by one draw |
| Rand.Rng.Gauss | custom_components/ambient_sound_synthesizer/sound_generator.py:134 | `randn(n)` returns the deviates of the next n draws and moves on by n draws |
| Colours.PinkStep | custom_components/ambient_sound_synthesizer/noise.py:89-101 | a pink sample always lies in [-1, 1] |
| Colours.BrownStep | custom_components/ambient_sound_synthesizer/noise.py:84-87 | whatever the old walk value, the new one lies in [-0.98, 0.98] |
| Colours.PinkStepSpec | custom_components/ambient_sound_synthesizer/noise.py:89-101 | the pink recurrence with the coefficients of lines 26-36: taps 0-5 decay and take in the white draw, the output sums all seven taps with tap 6 still old, plus 0.5362 white, times 0.11, clamped; tap 6 becomes 0.115926 white |
| Colours.UpdateTaps | custom_components/ambient_sound_synthesizer/noise.py:92-93 | the in-place coefficient loop leaves taps 0-5 updated by their (decay, scale) pair and tap 6 untouched |
| Colours.FilterPink | custom_components/ambient_sound_synthesizer/noise.py:90-101 | the in-place filter returns the pink sample and leaves the taps that `PinkStep` gives: tap 6 is overwritten only after the sum |
| Streams.Chunk | custom_components/ambient_sound_synthesizer/noise.py:105-111 | `next_chunk(n)` yields exactly 2n bytes |
| Streams.ChunkComposition | custom_components/ambient_sound_synthesizer/noise.py:105-111 | from the same state, `next_chunk(n)` then `next_chunk(m)` gives the bytes and final state of one `next_chunk(n + m)` |
| NoiseGenerators.ParseNoiseKind | custom_components/ambient_sound_synthesizer/noise.py:70-71 | exactly "white", "pink" and "brown" are accepted, each as the kind of that name |
| NoiseGenerators.NoiseStep | custom_components/ambient_sound_synthesizer/noise.py:79-103 | one draw per sample; every sample in [-1, 1]; a brown sample is the new walk value, within [-0.98, 0.98]; white and pink leave the walk alone, white and brown leave the taps alone |
| NoiseGenerators.NoiseRunBounds | custom_components/ambient_sound_synthesizer/noise.py:84-87 | over any number of samples: one draw each, the walk stays within [-0.98, 0.98], every sample lies in [-1, 1] |
| NoiseGenerators.NoiseGenerator.constructor | custom_components/ambient_sound_synthesizer/noise.py:73-77 | volume clamped to [0, 1], zeroed taps and walk, the stream at its start |
| NoiseGenerators.NoiseGenerator.Create | custom_components/ambient_sound_synthesizer/noise.py:64-77 | raises `UnknownNoiseTypeError(subtype)` exactly for a subtype other than white, pink and brown; otherwise a fresh generator of that kind with clamped volume and zeroed state |
| NoiseGenerators.NoiseGenerator.NextSample | custom_components/ambient_sound_synthesizer/noise.py:79-103 | the sample and the new taps, walk and stream position are those of `NoiseStep`; the walk bound is kept |
| NoiseGenerators.NoiseGenerator.NextBrown | custom_components/ambient_sound_synthesizer/noise.py:84-87 | the brown branch in place: the walk steps, clamps and damps as `NoiseStep` says |
| NoiseGenerators.NoiseGenerator.NextPink | custom_components/ambient_sound_synthesizer/noise.py:89-101 | the pink branch in place on the seven-tap array, as `NoiseStep` says |
| NoiseGenerators.NoiseGenerator.NextChunk | custom_components/ambient_sound_synthesizer/noise.py:105-111 | the bytes and the new state are `Chunk` of max(count, 0) samples: 2 bytes per sample, each the packed quantised sample times volume, and the state moves by exactly those samples |
| AmbientGenerators.ParseAmbientKind | custom_components/ambient_sound_synthesizer/noise.py:123-124 | exactly "rain", "wind" and "fan" are accepted, each as the kind of that name |
| AmbientGenerators.RainBound | custom_components/ambient_sound_synthesizer/noise.py:165-174 | a rain sample lies in [-0.6, 0.6]: at most 0.3 from the quietened pink base and 0.3 from a drop |
| AmbientGenerators.WindBound | custom_components/ambient_sound_synthesizer/noise.py:176-188 | with a sine bounded by 1, a wind sample lies in [-1.911, 1.911]: a walk value within 0.98 times a gain within [0.7, 1.95] |
| AmbientGenerators.FanBound | custom_components/ambient_sound_synthesizer/noise.py:190-198 | with a sine bounded by 1, a fan sample lies in [-1.08, 1.08] |
| AmbientGenerators.AmbientStepBound | custom_components/ambient_sound_synthesizer/noise.py:163-200 | one sample of each kind lies within the kind's peak |
| AmbientGenerators.AmbientRunBounds | custom_components/ambient_sound_synthesizer/noise.py:202-208 | every sample of any run lies within the kind's peak |
| AmbientGenerators.AmbientStepMoves | custom_components/ambient_sound_synthesizer/noise.py:163-200 | one sample moves the wind phase by 0.1 / SAMPLE_RATE only for wind and the fan phase by 12 / SAMPLE_RATE only for fan, and takes 1 (fan), 2 (wind) or 2 to 4 (rain) draws |
| AmbientGenerators.AmbientRunWindPhase | custom_components/ambient_sound_synthesizer/noise.py:181 | after n samples the wind phase has moved by exactly n times its increment (not at all for rain and fan) |
| AmbientGenerators.AmbientRunFanPhase | custom_components/ambient_sound_synthesizer/noise.py:195 | after n samples the fan phase has moved by exactly n times 12 / SAMPLE_RATE (not at all for rain and wind) |
| AmbientGenerators.AmbientRunDraws | custom_components/ambient_sound_synthesizer/noise.py:163-200 | n samples take between n and 4n draws, as the kind dictates |
| AmbientGenerators.AmbientGenerator.constructor | custom_components/ambient_sound_synthesizer/noise.py:126-141 | volume clamped, zeroed taps, walk and phases, position 0, empty rain lists, the stream at its start |
| AmbientGenerators.AmbientGenerator.Create | custom_components/ambient_sound_synthesizer/noise.py:117-141 | raises `UnknownNoiseTypeError(subtype)` exactly for a subtype other than rain, wind and fan; otherwise a fresh generator with clamped volume and the initial state |
| AmbientGenerators.AmbientGenerator.GeneratePinkSample | custom_components/ambient_sound_synthesizer/noise.py:143-155 | one draw through the pink filter, in place on the taps |
| AmbientGenerators.AmbientGenerator.GenerateBrownSample | custom_components/ambient_sound_synthesizer/noise.py:157-161 | one draw through the clamped, damped walk; the sample is the new walk value |
| AmbientGenerators.AmbientGenerator.NextSample | custom_components/ambient_sound_synthesizer/noise.py:163-200 | the sample and new state are those of `AmbientStep`; `_position` and the rain lists are outside its frame, so they never change |
| AmbientGenerators.AmbientGenerator.NextRain | custom_components/ambient_sound_synthesizer/noise.py:165-174 | the rain branch: the pink sample times 0.3, then the drop test, as `RainStep` says |
| AmbientGenerators.AmbientGenerator.MaybeAddDrop | custom_components/ambient_sound_synthesizer/noise.py:170-172 | one draw for the test; below 0.01 an intensity in [0.1, 0.3] times a draw in [-1, 1] is added, taking two more draws |
| AmbientGenerators.AmbientGenerator.NextWind | custom_components/ambient_sound_synthesizer/noise.py:176-188 | the wind branch: walk, phase step, modulation, gust test, as `WindStep` says |
| AmbientGenerators.AmbientGenerator.NextFan | custom_components/ambient_sound_synthesizer/noise.py:190-198 | the fan branch: pink sample, phase step, modulation, as `FanStep` says |
| AmbientGenerators.AmbientGenerator.NextChunk | custom_components/ambient_sound_synthesizer/noise.py:202-208 | the bytes and the new state are `Chunk` of max(count, 0) samples of `AmbientStep`; only the walk, phases, taps and stream change, and the walk stays within ±0.98 |
| Wav.PackUInt16LE | custom_components/ambient_sound_synthesizer/noise.py:217-218 | `struct.pack("<H")` gives two bytes that read back as the value |
| Wav.PackUInt32LE | custom_components/ambient_sound_synthesizer/noise.py:217-218 | `struct.pack("<I")` gives four bytes that read back as the value |
| Wav.SerializeHeader | custom_components/ambient_sound_synthesizer/noise.py:217-232 | the packed header is 44 bytes |
| Wav.BuildWavHeader | custom_components/ambient_sound_synthesizer/noise.py:211-232 | succeeds exactly when the rate is non-negative and twice the rate fits 32 bits (otherwise `struct.error`), and then yields 44 bytes |
| Wav.ParseWavHeader | custom_components/ambient_sound_synthesizer/noise.py:217-232 | a header is only read from at least 44 bytes that start with "RIFF" and have "data" at offset 36 |
| Wav.HeaderRoundTrip | custom_components/ambient_sound_synthesizer/noise.py:217-232 | reading a serialised header back, whatever data follows, gives its fields |
| Wav.StreamingHeaderFields | custom_components/ambient_sound_synthesizer/noise.py:211-232 | the header reads back as PCM (tag 1), mono, the given rate, byte rate 2 rate, block align 2, 16 bits, 0xFFFFFFFF in both size fields, consistent as the WAVE format requires |
| Wav.HeaderDeterminesRate | custom_components/ambient_sound_synthesizer/noise.py:211-232 | two rates give the same header only if they are equal |
| Profiles.DictOfPairs | custom_components/ambient_sound_synthesizer/noise.py:256 | `dict(pairs)` succeeds only when every element is a pair, and then holds every pair's key |
| Profiles.DictOfPairsKeys | custom_components/ambient_sound_synthesizer/noise.py:256 | `dict(pairs)` holds exactly the keys of the pairs |
| Profiles.DictOfPairsLastWins | custom_components/ambient_sound_synthesizer/noise.py:256 | a key maps to the value of its last pair |
| Profiles.CoerceParameters | custom_components/ambient_sound_synthesizer/noise.py:256-266 | fails exactly when `dict()` of the parameters or `float()` of the volume raises |
| Profiles.CoerceProfile | custom_components/ambient_sound_synthesizer/noise.py:235-272 | fails exactly when building the parameters fails |
| Profiles.CoerceShape | custom_components/ambient_sound_synthesizer/noise.py:235-272 | the result has exactly the type, subtype and parameters keys, a valid string subtype, a float volume in [0, 1] and no empty seed |
| Profiles.CoerceKeepsKnownType | custom_components/ambient_sound_synthesizer/noise.py:243-244 | a known type is kept, whatever family the subtype belongs to |
| Profiles.CoerceInfersType | custom_components/ambient_sound_synthesizer/noise.py:244-250 | any other type becomes "noise" or "ambient" by the family of `normalize_subtype` of a stored string subtype, or `DEFAULT_PROFILE_TYPE` when the subtype is missing, not a string, or normalises outside both families |
| Profiles.CoerceSubtype | custom_components/ambient_sound_synthesizer/noise.py:240-254 | a stored string subtype is passed through `normalize_subtype` and kept when the result is in `ALL_SUBTYPES`; a missing or non-string subtype, or one that normalises to an unknown name, becomes `DEFAULT_PROFILE_SUBTYPE` |
| Profiles.CoerceParameterEntries | custom_components/ambient_sound_synthesizer/noise.py:256-266 | volume replaced by its clamped float, the seed kept exactly when neither "" nor None, every other entry unchanged, no new keys |
| Profiles.CoerceFailures | custom_components/ambient_sound_synthesizer/noise.py:256-258 | missing parameters never fail; stored dict parameters fail exactly when `float()` rejects the stored volume; None parameters raise `TypeError` |
| Profiles.CoerceIdempotent | custom_components/ambient_sound_synthesizer/noise.py:235-272 | normalising a normalised record changes nothing (given stable names) |
| Profiles.BogusSubtypeExample | custom_components/ambient_sound_synthesizer/noise.py:252-260 | a bogus subtype becomes the default and a volume of 1.4 becomes 1.0 |
| Profiles.EmptySeedExample | custom_components/ambient_sound_synthesizer/noise.py:262-264 | an empty seed is removed from the parameters |
| Factory.Select | custom_components/ambient_sound_synthesizer/noise.py:275-287 | "noise" and "ambient" accept exactly their three subtypes; the error names the type when it is neither family and the subtype otherwise |
| Factory.CreateGenerator | custom_components/ambient_sound_synthesizer/noise.py:275-287 | fails exactly as `Select` says with its error; otherwise a fresh generator of the selected family and kind, volume clamped, zeroed state; `params` plays no part |
| Factory.CrossFamilyProfileRejected | custom_components/ambient_sound_synthesizer/noise.py:244-254 | the record {type "noise", subtype "rain"} passes the normaliser unchanged and the factory then rejects it, naming "rain" |
| Factory.InferredProfileSelectable | custom_components/ambient_sound_synthesizer/noise.py:244-250 | a record with an unknown type and a streaming subtype always reaches a generator |
| BatchNoise.IntensityScaleTable | custom_components/ambient_sound_synthesizer/sound_generator.py:33-34 | "low", "medium" and "high" scale by 0.3, 0.6 and 0.9, any other label as "medium", every scale in (0, 1) |
| BatchNoise.PinkLoopBody | custom_components/ambient_sound_synthesizer/sound_generator.py:55-66 | the written-out body stores the raw sum taken before tap 6 is overwritten and leaves the taps the streaming pink filter leaves |
| BatchNoise.PinkIteration | custom_components/ambient_sound_synthesizer/sound_generator.py:54-66 | one iteration is one step of the batch pink stepper: one draw, the raw value, the new taps |
| BatchNoise.PinkLoop | custom_components/ambient_sound_synthesizer/sound_generator.py:48-66 | a fresh buffer of `samples` values holding the raw pink run in order, one draw per sample |
| BatchNoise.PinkLoopMatchesStream | custom_components/ambient_sound_synthesizer/sound_generator.py:54-69 | each sample of the streaming pink generator is the batch loop's value at that index, scaled by 0.11 and clamped |
| BatchNoise.PinkLoopStepMatches | custom_components/ambient_sound_synthesizer/sound_generator.py:56-66 | one batch step and one streaming step from the same taps agree up to the 0.11 scale and clamp, and reach the same taps |
| BatchNoise.Clip | custom_components/ambient_sound_synthesizer/sound_generator.py:97 | `np.clip` equals `_clamp` for ordered bounds |
| BatchNoise.BrownLoopStep | custom_components/ambient_sound_synthesizer/sound_generator.py:94-98 | one iteration takes one draw and stores the new walk value, within [-0.98, 0.98] |
| BatchNoise.BrownLoop | custom_components/ambient_sound_synthesizer/sound_generator.py:87-98 | a fresh buffer holding the brown run in order, every value within [-0.98, 0.98], one draw per sample |
| BatchNoise.BrownLoopMatchesStream | custom_components/ambient_sound_synthesizer/sound_generator.py:93-98 | the batch brown loop and the streaming brown generator produce the same samples from the same draws |
| BatchNoise.PeakOf | custom_components/ambient_sound_synthesizer/sound_generator.py:226 | the peak bounds every magnitude and is attained |
| BatchNoise.NormalizeAudio | custom_components/ambient_sound_synthesizer/sound_generator.py:217-229 | fails with `EmptyReduction` exactly on an empty buffer, and keeps the length |
| BatchNoise.NormalizeAudioPeak | custom_components/ambient_sound_synthesizer/sound_generator.py:226-228 | with a positive peak every sample is the input over the peak times 0.95, within [-0.95, 0.95], and the new peak is exactly 0.95 |
| BatchNoise.NormalizeAudioSilence | custom_components/ambient_sound_synthesizer/sound_generator.py:227-229 | an all-zero buffer is returned unchanged |
| BatchNoise.NormalizeAudioBound | custom_components/ambient_sound_synthesizer/sound_generator.py:217-229 | every normalised sample lies in [-0.95, 0.95] |
| BatchNoise.NormalizeAudioIdempotent | custom_components/ambient_sound_synthesizer/sound_generator.py:217-229 | normalising twice is normalising once |
| BatchAmbient.ParameterTables | custom_components/ambient_sound_synthesizer/sound_generator.py:122-127 | an unknown label reads the "medium" row of the rain, wind and fan tables; each table grows from low to high; rates and depths are positive and depths below 1 |
| BatchAmbient.LinspaceEnds | custom_components/ambient_sound_synthesizer/sound_generator.py:137 | `linspace` starts at `start`, ends at `stop` and moves in equal steps |
| BatchAmbient.ModulationBounds | custom_components/ambient_sound_synthesizer/sound_generator.py:170-171 | with a sine bounded by 1, a modulation of depth d stays within [1 - d, 1 + d] |
| BatchAmbient.AddSliceFrame | custom_components/ambient_sound_synthesizer/sound_generator.py:141-142 | the slice receives the values and every index outside it keeps its value |
| BatchAmbient.AddSliceInPlace | custom_components/ambient_sound_synthesizer/sound_generator.py:142 | the in-place slice addition leaves the buffer `AddSlice` describes |
| BatchAmbient.RainDropWhole | custom_components/ambient_sound_synthesizer/sound_generator.py:132-142 | a drop starts before `samples - 1000` and is shorter than 500, so `min` never cuts it: the whole drop is added |
| BatchAmbient.RainDropsFailure | custom_components/ambient_sound_synthesizer/sound_generator.py:130-132 | the drop loop raises, with an empty `randint` range, exactly when it runs at least once on a buffer of at most 1000 samples |
| BatchAmbient.NextDrop | custom_components/ambient_sound_synthesizer/sound_generator.py:132-138 | the drop's start, length and deviates come from the next draws in that order |
| BatchAmbient.RainDropStep | custom_components/ambient_sound_synthesizer/sound_generator.py:132-142 | the drawn drop lies inside the buffer and is added whole |
| BatchAmbient.RainIteration | custom_components/ambient_sound_synthesizer/sound_generator.py:131-142 | one pass of the loop body leaves the buffer and stream position `RainDrop` describes |
| BatchAmbient.AddRainDrops | custom_components/ambient_sound_synthesizer/sound_generator.py:130-142 | the loop ends in the state `RainDrops` gives for max(num_drops, 0) drops, or reports the error it raises |
| BatchAmbient.GustWidth | custom_components/ambient_sound_synthesizer/sound_generator.py:176 | a gust is between one and three seconds of samples long |
| BatchAmbient.WindGustStep | custom_components/ambient_sound_synthesizer/sound_generator.py:175-181 | the drawn gust starts inside the envelope and is added cut at `min(start + width, samples)` |
| BatchAmbient.WindGustFrame | custom_components/ambient_sound_synthesizer/sound_generator.py:174-181 | a gust changes only the indices from its start up to `min(start + width, samples)`, adding the gust there |
| BatchAmbient.WindGustsFailure | custom_components/ambient_sound_synthesizer/sound_generator.py:174-175 | the gust loop raises exactly when it runs at least once on an empty envelope |
| BatchAmbient.GustIteration | custom_components/ambient_sound_synthesizer/sound_generator.py:175-181 | one pass of the loop body leaves the envelope and stream position `WindGust` describes |
| BatchAmbient.AddWindGusts | custom_components/ambient_sound_synthesizer/sound_generator.py:174-181 | the loop ends in the state `WindGusts` gives for max(count, 0) gusts, or reports the error it raises |
| SoundGenerators.Finish | custom_components/ambient_sound_synthesizer/sound_generator.py:217-229 | an empty buffer fails with `EmptyReduction`; anything else keeps its length and lies within [-0.95, 0.95] |
| SoundGenerators.WhiteNoise | custom_components/ambient_sound_synthesizer/sound_generator.py:29-36 | succeeds exactly for a positive `int(duration * rate)`, with that many samples within the headroom, taking that many draws; otherwise the size error |
| SoundGenerators.PinkNoise | custom_components/ambient_sound_synthesizer/sound_generator.py:48-75 | succeeds exactly for a positive sample count, with that many samples within the headroom, taking that many draws; otherwise the size error |
| SoundGenerators.BrownNoise | custom_components/ambient_sound_synthesizer/sound_generator.py:87-104 | succeeds exactly for a positive sample count, with that many samples within the headroom, taking that many draws; otherwise the size error |
| SoundGenerators.Rain | custom_components/ambient_sound_synthesizer/sound_generator.py:116-144 | succeeds exactly when there are samples and either no drop or more than 1000 samples; otherwise the size error or the empty `randint` range |
| SoundGenerators.Wind | custom_components/ambient_sound_synthesizer/sound_generator.py:156-185 | succeeds exactly for a positive sample count (the gusts never fail then), with that many samples within the headroom |
| SoundGenerators.Fan | custom_components/ambient_sound_synthesizer/sound_generator.py:197-215 | succeeds exactly for a positive sample count, with that many samples within the headroom |
| SoundGenerators.ParseSoundType | custom_components/ambient_sound_synthesizer/sound_generator.py:250-262 | exactly the six keys of the generator table are found, each under its own name |
| SoundGenerators.SoundNameRoundTrip | custom_components/ambient_sound_synthesizer/sound_generator.py:250-257 | every sound type is found under its name |
| SoundGenerators.Generate | custom_components/ambient_sound_synthesizer/sound_generator.py:259-264 | a clip has `int(duration * rate)` samples within the headroom, and only a positive count succeeds |
| SoundGenerators.ToInt16Bound | custom_components/ambient_sound_synthesizer/sound_generator.py:267 | a sample within the headroom converts to at most 31128 in magnitude, so the 16-bit cast never wraps |
| SoundGenerators.GeneratedPcmInRange | custom_components/ambient_sound_synthesizer/sound_generator.py:264-267 | every rendered clip converts to that many 16-bit samples within [-31128, 31128] |
| SoundGenerators.AmbientSoundGenerator.constructor | custom_components/ambient_sound_synthesizer/sound_generator.py:15-17 | stores the (positive) sample rate |
| SoundGenerators.AmbientSoundGenerator.GenerateWhiteNoise | custom_components/ambient_sound_synthesizer/sound_generator.py:19-36 | returns the clip and stream position `WhiteNoise` names, or its error |
| SoundGenerators.AmbientSoundGenerator.GeneratePinkNoise | custom_components/ambient_sound_synthesizer/sound_generator.py:38-75 | the array loop returns the clip and stream position `PinkNoise` names, or its error |
| SoundGenerators.AmbientSoundGenerator.GenerateBrownNoise | custom_components/ambient_sound_synthesizer/sound_generator.py:77-104 | the array loop returns the clip and stream position `BrownNoise` names, or its error |
| SoundGenerators.AmbientSoundGenerator.GenerateRain | custom_components/ambient_sound_synthesizer/sound_generator.py:106-144 | returns the clip and stream position `Rain` names, or its error |
| SoundGenerators.AmbientSoundGenerator.AddDrops | custom_components/ambient_sound_synthesizer/sound_generator.py:129-144 | the in-place drop loop and normaliser give the outcome of the drop loop on the clip |
| SoundGenerators.AmbientSoundGenerator.GenerateWind | custom_components/ambient_sound_synthesizer/sound_generator.py:146-185 | returns the clip and stream position `Wind` names, or its error |
| SoundGenerators.AmbientSoundGenerator.GenerateFan | custom_components/ambient_sound_synthesizer/sound_generator.py:187-215 | returns the clip and stream position `Fan` names, or its error |
| SoundGenerators.AmbientSoundGenerator.GenerateAndSave | custom_components/ambient_sound_synthesizer/sound_generator.py:231-277 | an unknown type gives False without drawing; a known one hands the int16 samples of the rendered clip to the writer; the result is True exactly when nothing raised and the write succeeded |
| SoundGenerators.TestScriptRenders | test_generator.py:30-71 | each of the six sounds at "medium" for 2 s, and white noise at each intensity for 1 s, renders 88200 or 44100 samples at 44100 Hz |
| SoundGenerators.ShortRainFails | custom_components/ambient_sound_synthesizer/sound_generator.py:130-132 | 20 ms of "medium" rain (882 samples, 2 drops) raises in the drop loop, although its pink base renders |

## Left out

- **Python runtime and `const.py`.**
  - `math.sin`, `np.sin`, `np.exp` and numpy's normal deviates are declared
    without a definition (`Host.SIN`, `Host.EXP`, `Host.GAUSS`).
  - The bounds on wind, fan and modulation samples assume `|sin| <= 1`
    (`Host.SineBounded`).
  - `float()` of a string is `Host.PARSE_FLOAT`.
  - The definitions of `SAMPLE_RATE`, `ALL_SUBTYPES`, `PROFILE_TYPES`, the
    defaults, `normalize_subtype` and the `CONF_*` keys are not part of this
    model. They are declared without values; `SAMPLE_RATE > 0` is part of its
    type. `Const.Consistent` states what the normaliser needs of them:
    distinct keys, and a valid default subtype.
- **Random generators.**
  - Mersenne Twister, seeding, and numpy's own algorithms for `randint` and
    normal deviates are not reproduced. A seed is represented by the stream
    of draws it yields.
  - Every method of the batch renderer takes the numpy generator as an `Rng`
    argument.
- **Floating point.** Samples and durations are `real`, so the model has no
  rounding, NaN, infinity or overflow. The sample rate is an `int`.
- **Python dictionaries.**
  - A dictionary is a `map`, so insertion order is not kept.
  - Profiles.KeyOf: only string keys are modelled. A pair with a key that is
    neither a string nor unhashable (say a number) is reported as
    `NonStringKey`, where Python would build a dictionary with that key.
  - Profiles.PairOf: a two-entry dictionary element is iterated as its two
    keys in insertion order. A map does not keep that order, so it is
    reported as `NonStringKey`.
- **The WAV writer.**
  - The file write of `generate_and_save` (`wavfile.write`) is not modelled.
    Its outcome is the `writeSucceeds` parameter, and `pcm` is what the
    writer receives.
  - Logging is left out.
  - Exceptions other than the three numpy errors above cannot arise for the
    typed inputs here (for example a non-numeric duration).
- SoundGenerators.AmbientSoundGenerator.constructor: requires a positive sample
  rate. The code accepts any value. The renderer with a zero or negative rate
  is not modelled.
- SoundGenerators.Wind: requires a positive sample rate, because the gust
  widths and times are computed from it.
- SoundGenerators.AmbientSoundGenerator.GenerateWind: requires a positive
  sample rate, for the same reason.
- SoundGenerators.Generate: requires a positive sample rate, because it
  dispatches to `SoundGenerators.Wind`.
- SoundGenerators.AmbientSoundGenerator.GenerateAndSave: requires a positive
  sample rate, for the same reason.
- SoundGenerators.ToInt16: does not model the wrap-around of `np.int16` for
  values outside 16 bits, because `SoundGenerators.GeneratedPcmInRange` proves
  that no rendered sample reaches them.
- AmbientGenerators.AmbientGenerator.constructor: `_position`, `_rain_base`
  and `_rain_drops` are fields that are set up and never read. No method's
  frame includes them.
- The other files of the integration are not part of this model:
  - the Home Assistant entities, configuration flow and media source;
  - the HTTP clients;
  - the vectorised renderer in `noise_generator.py`;
  - the URL table in `const.py`.
