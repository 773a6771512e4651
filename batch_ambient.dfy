/**
 * The ambient part of the batch renderer in `sound_generator.py`: the
 * per-intensity parameter tables, the sine modulation envelopes, and the
 * rain-drop and wind-gust overlays that add short bursts into slices of a
 * buffer.
 */
module BatchAmbient {
  import opened Wrappers
  import opened Host
  import opened Pcm
  import opened Rand
  import opened Streams
  import opened BatchNoise
  import opened AmbientGenerators

  // ---------------------------------------------------------------------------
  // Parameter tables
  // ---------------------------------------------------------------------------

  datatype RainParams = RainParams(dropRate: real, dropIntensity: real)
  datatype WindParams = WindParams(modFreq: real, modDepth: real)
  datatype FanParams = FanParams(rotationFreq: real, modDepth: real)

  const RAIN_PARAMS: map<string, RainParams> := map[
    "low" := RainParams(0.5, 0.2), "medium" := RainParams(1.0, 0.4), "high" := RainParams(2.0, 0.6)]
  const WIND_PARAMS: map<string, WindParams> := map[
    "low" := WindParams(0.1, 0.2), "medium" := WindParams(0.2, 0.4), "high" := WindParams(0.3, 0.6)]
  const FAN_PARAMS: map<string, FanParams> := map[
    "low" := FanParams(8.0, 0.05), "medium" := FanParams(12.0, 0.08), "high" := FanParams(16.0, 0.1)]

  /** `intensity_params.get(intensity, intensity_params["medium"])` for each table. */
  function RainParamsFor(intensity: string): RainParams {
    Lookup(RAIN_PARAMS, intensity, RAIN_PARAMS["medium"])
  }

  function WindParamsFor(intensity: string): WindParams {
    Lookup(WIND_PARAMS, intensity, WIND_PARAMS["medium"])
  }

  function FanParamsFor(intensity: string): FanParams {
    Lookup(FAN_PARAMS, intensity, FAN_PARAMS["medium"])
  }

  /**
   * An unknown label behaves as "medium" in every table, and every table
   * grows from "low" to "high".
   */
  lemma ParameterTables(intensity: string)
    ensures intensity !in {"low", "medium", "high"} ==>
      && RainParamsFor(intensity) == RainParamsFor("medium")
      && WindParamsFor(intensity) == WindParamsFor("medium")
      && FanParamsFor(intensity) == FanParamsFor("medium")
    ensures RainParamsFor("low").dropRate < RainParamsFor("medium").dropRate < RainParamsFor("high").dropRate
    ensures RainParamsFor("low").dropIntensity < RainParamsFor("medium").dropIntensity < RainParamsFor("high").dropIntensity
    ensures WindParamsFor("low").modDepth < WindParamsFor("medium").modDepth < WindParamsFor("high").modDepth
    ensures FanParamsFor("low").modDepth < FanParamsFor("medium").modDepth < FanParamsFor("high").modDepth
    ensures 0.0 < RainParamsFor(intensity).dropIntensity && 0.0 < WindParamsFor(intensity).modDepth < 1.0
    ensures 0.0 < FanParamsFor(intensity).modDepth < 1.0
  {
  }

  // ---------------------------------------------------------------------------
  // Envelopes
  // ---------------------------------------------------------------------------

  /** `np.linspace(start, stop, n)`: `n` evenly spaced values from `start` to `stop`. */
  function Linspace(start: real, stop: real, n: nat): (t: seq<real>)
    ensures |t| == n
  {
    if n == 1 then [start]
    else seq(n, i requires 0 <= i < n => LinspaceAt(start, stop, n, i))
  }

  /** The samples run from `start` to `stop` inclusive, in equal steps. */
  lemma LinspaceEnds(start: real, stop: real, n: nat)
    ensures n > 0 ==> Linspace(start, stop, n)[0] == start
    ensures n > 1 ==> Linspace(start, stop, n)[n - 1] == stop
    ensures n > 1 ==> forall i :: 0 <= i < n - 1 ==>
      Linspace(start, stop, n)[i + 1] - Linspace(start, stop, n)[i] == (stop - start) / (n - 1) as real
  {
    if n > 1 {
      LinspaceLast(start, stop, n);
    }
  }

  /** The `i`-th of `n > 1` evenly spaced values. */
  function LinspaceAt(start: real, stop: real, n: nat, i: int): real
    requires n > 1
  {
    start + i as real * ((stop - start) / (n - 1) as real)
  }

  lemma LinspaceLast(start: real, stop: real, n: nat)
    requires n > 1
    ensures LinspaceAt(start, stop, n, 0) == start && LinspaceAt(start, stop, n, n - 1) == stop
  {
    var step := (stop - start) / (n - 1) as real;
    assert (n - 1) as real * step == stop - start;
  }

  /** `1 + depth * np.sin(2 * np.pi * freq * t)` */
  function Modulation(t: seq<real>, freq: real, depth: real): (m: seq<real>)
    ensures |m| == |t|
  {
    seq(|t|, i requires 0 <= i < |t| => Modulate(t[i], freq, depth))
  }

  /** The modulation at one instant. */
  function Modulate(tv: real, freq: real, depth: real): real {
    1.0 + depth * SIN(2.0 * PI * freq * tv)
  }

  /** With a bounded sine, a modulation of depth `d` stays within [1 - d, 1 + d]. */
  lemma ModulationBounds(t: seq<real>, freq: real, depth: real)
    requires SineBounded() && 0.0 <= depth
    ensures forall i :: 0 <= i < |t| ==> 1.0 - depth <= Modulation(t, freq, depth)[i] <= 1.0 + depth
  {
    forall i | 0 <= i < |t|
      ensures 1.0 - depth <= Modulation(t, freq, depth)[i] <= 1.0 + depth
    {
      ModulateBound(t[i], freq, depth);
      assert Modulation(t, freq, depth)[i] == Modulate(t[i], freq, depth);
    }
  }

  lemma ModulateBound(tv: real, freq: real, depth: real)
    requires SineBounded() && 0.0 <= depth
    ensures 1.0 - depth <= Modulate(tv, freq, depth) <= 1.0 + depth
  {
    var s := SIN(2.0 * PI * freq * tv);
    ScaleBound(s, 1.0, depth, depth);
    assert -depth <= s * depth <= depth;
  }

  /** `a *= b` for two buffers of the same length. */
  function Product(xs: seq<real>, ys: seq<real>): (zs: seq<real>)
    requires |xs| == |ys|
    ensures |zs| == |xs|
  {
    seq(|xs|, i requires 0 <= i < |xs| => xs[i] * ys[i])
  }

  // ---------------------------------------------------------------------------
  // Adding into a slice
  // ---------------------------------------------------------------------------

  /** `buffer[start:start + len(values)] += values` */
  function AddSlice(xs: seq<real>, start: int, values: seq<real>): (ys: seq<real>)
    requires 0 <= start && start + |values| <= |xs|
    ensures |ys| == |xs|
  {
    seq(|xs|, i requires 0 <= i < |xs| =>
      if start <= i < start + |values| then xs[i] + values[i - start] else xs[i])
  }

  /** The slice receives the values, and every index outside it keeps its value. */
  lemma AddSliceFrame(xs: seq<real>, start: int, values: seq<real>)
    requires 0 <= start && start + |values| <= |xs|
    ensures forall i :: 0 <= i < start ==> AddSlice(xs, start, values)[i] == xs[i]
    ensures forall i :: start + |values| <= i < |xs| ==> AddSlice(xs, start, values)[i] == xs[i]
    ensures forall k :: 0 <= k < |values| ==> AddSlice(xs, start, values)[start + k] == xs[start + k] + values[k]
  {
  }

  /** Adding the first `n` values of `full` changes exactly the `n` indices from `start`. */
  lemma AddSlicePrefix(xs: seq<real>, start: int, full: seq<real>, n: int)
    requires 0 <= start && 0 <= n <= |full| && start + n <= |xs|
    ensures forall i :: 0 <= i < start ==> AddSlice(xs, start, full[..n])[i] == xs[i]
    ensures forall i :: start + n <= i < |xs| ==> AddSlice(xs, start, full[..n])[i] == xs[i]
    ensures forall i :: start <= i < start + n ==> AddSlice(xs, start, full[..n])[i] == xs[i] + full[i - start]
  {
  }

  /** The vectorised slice addition, in place on the buffer. */
  method AddSliceInPlace(a: array<real>, start: int, values: seq<real>)
    requires 0 <= start && start + |values| <= a.Length
    modifies a
    ensures a[..] == AddSlice(old(a[..]), start, values)
  {
    forall i | start <= i < start + |values| {
      a[i] := a[i] + values[i - start];
    }
  }

  // ---------------------------------------------------------------------------
  // Rain drops
  // ---------------------------------------------------------------------------

  /** `randn(length) * drop_intensity`, then times `np.exp(-np.linspace(0, 5, length))`. */
  function DropWave(draws: Draws, pos: nat, length: nat, dropIntensity: real): (d: seq<real>)
    ensures |d| == length
  {
    Decay(GaussOf(draws, pos, length), dropIntensity, Linspace(0.0, 5.0, length))
  }

  /** Deviates scaled by the drop intensity and damped by `exp(-envelope)`. */
  function Decay(g: seq<real>, dropIntensity: real, envelope: seq<real>): (d: seq<real>)
    requires |g| == |envelope|
    ensures |d| == |g|
  {
    seq(|g|, j requires 0 <= j < |g| => g[j] * dropIntensity * EXP(-envelope[j]))
  }

  /** `min(a, b)` */
  function Min(a: int, b: int): int {
    if a < b then a else b
  }

  /**
   * One iteration of the drop loop over a buffer of `samples` values: a start
   * in [0, samples - 1000), a length in [50, 500), the drop's deviates, then
   * the addition into `base[drop_pos:end_pos]`.  `randint` raises when
   * `samples - 1000` is not positive.
   */
  function RainDrop(base: seq<real>, params: RainParams, draws: Draws, pos: nat): (r: Result<(seq<real>, nat), BatchError>)
    ensures r.Success? ==> |r.value.0| == |base|
  {
    var samples := |base|;
    if samples - 1000 <= 0 then Failure(EmptyRange)
    else
      var dropPos := RandIntOf(0, samples - 1000, draws(pos));
      var dropLength := RandIntOf(50, 500, draws(pos + 1));
      var drop := DropWave(draws, pos + 2, dropLength, params.dropIntensity);
      var endPos := Min(dropPos + dropLength, samples);
      Success((AddSlice(base, dropPos, drop[..endPos - dropPos]), pos + 2 + dropLength))
  }

  /**
   * A drop always fits: it starts before `samples - 1000` and is shorter than
   * 500, so `min` never cuts it and the whole drop is added.
   */
  lemma RainDropWhole(base: seq<real>, params: RainParams, draws: Draws, pos: nat)
    requires |base| > 1000
    ensures var dropPos := RandIntOf(0, |base| - 1000, draws(pos));
      var dropLength := RandIntOf(50, 500, draws(pos + 1));
      && dropPos + dropLength <= |base| - 502
      && RainDrop(base, params, draws, pos)
         == Success((AddSlice(base, dropPos, DropWave(draws, pos + 2, dropLength, params.dropIntensity)),
                     pos + 2 + dropLength))
  {
    var dropLength := RandIntOf(50, 500, draws(pos + 1));
    var drop := DropWave(draws, pos + 2, dropLength, params.dropIntensity);
    assert drop[..|drop|] == drop;
  }

  /** `n` iterations of the drop loop, stopping at the first that raises. */
  function RainDrops(base: seq<real>, params: RainParams, draws: Draws, pos: nat, n: nat): (r: Result<(seq<real>, nat), BatchError>)
    ensures r.Success? ==> |r.value.0| == |base|
    decreases n
  {
    if n == 0 then Success((base, pos))
    else
      match RainDrops(base, params, draws, pos, n - 1)
      case Failure(e) => Failure(e)
      case Success((buf, p)) => RainDrop(buf, params, draws, p)
  }

  /** The drop loop raises exactly when it runs at least once on a buffer of at most 1000 samples. */
  lemma {:induction false} RainDropsFailure(base: seq<real>, params: RainParams, draws: Draws, pos: nat, n: nat)
    ensures RainDrops(base, params, draws, pos, n).Failure? <==> n >= 1 && |base| <= 1000
    ensures RainDrops(base, params, draws, pos, n).Failure? ==> RainDrops(base, params, draws, pos, n).error == EmptyRange
    decreases n
  {
    if n > 0 {
      RainDropsFailure(base, params, draws, pos, n - 1);
    }
  }

  /** The draws of one drop: its start in [0, samples - 1000), then its length, then its deviates. */
  method NextDrop(samples: int, params: RainParams, rng: Rng) returns (dropPos: int, drop: seq<real>)
    requires samples > 1000
    modifies rng
    ensures dropPos == RandIntOf(0, samples - 1000, rng.draws(old(rng.pos)))
    ensures |drop| == RandIntOf(50, 500, rng.draws(old(rng.pos) + 1))
    ensures drop == DropWave(rng.draws, old(rng.pos) + 2, |drop|, params.dropIntensity)
    ensures rng.pos == old(rng.pos) + 2 + |drop|
  {
    dropPos := rng.RandInt(0, samples - 1000);
    var dropLength := rng.RandInt(50, 500);
    var g := rng.Gauss(dropLength);
    var envelope := Linspace(0.0, 5.0, dropLength);
    drop := Decay(g, params.dropIntensity, envelope);
  }

  /** A drop with the start, length and deviates `RainDrop` draws is added whole. */
  lemma RainDropStep(base: seq<real>, params: RainParams, draws: Draws, pos: nat, dropPos: int, drop: seq<real>)
    requires |base| > 1000
    requires dropPos == RandIntOf(0, |base| - 1000, draws(pos))
    requires |drop| == RandIntOf(50, 500, draws(pos + 1))
    requires drop == DropWave(draws, pos + 2, |drop|, params.dropIntensity)
    ensures 0 <= dropPos && dropPos + |drop| < |base|
    ensures RainDrop(base, params, draws, pos) == Success((AddSlice(base, dropPos, drop), pos + 2 + |drop|))
  {
    RainDropWhole(base, params, draws, pos);
  }

  /** One pass of the drop loop's body, on a buffer long enough for `randint` to succeed. */
  method RainIteration(base: array<real>, params: RainParams, rng: Rng)
    requires base.Length > 1000
    modifies base, rng
    ensures RainDrop(old(base[..]), params, rng.draws, old(rng.pos)) == Success((base[..], rng.pos))
  {
    ghost var before := base[..];
    ghost var pos := rng.pos;
    var samples := base.Length;
    var dropPos, drop := NextDrop(samples, params, rng);
    RainDropStep(before, params, rng.draws, pos, dropPos, drop);
    var endPos := Min(dropPos + |drop|, samples);
    assert drop[..endPos - dropPos] == drop;
    AddSliceInPlace(base, dropPos, drop[..endPos - dropPos]);
  }

  /**
   * `for _ in range(num_drops)`: the drop loop, in place on the buffer.  It
   * ends in the state `RainDrops` describes, or reports the error it raises.
   */
  method AddRainDrops(base: array<real>, params: RainParams, numDrops: int, rng: Rng) returns (err: Option<BatchError>)
    modifies base, rng
    ensures var r := RainDrops(old(base[..]), params, rng.draws, old(rng.pos), Count(numDrops));
      && (r.Success? <==> err.None?)
      && (r.Success? ==> base[..] == r.value.0 && rng.pos == r.value.1)
      && (r.Failure? ==> err == Some(r.error))
  {
    ghost var start := base[..];
    ghost var pos0 := rng.pos;
    for k := 0 to Count(numDrops)
      invariant RainDrops(start, params, rng.draws, pos0, k) == Success((base[..], rng.pos))
    {
      if base.Length - 1000 <= 0 {
        RainDropsFailure(start, params, rng.draws, pos0, Count(numDrops));
        return Some(EmptyRange);
      }
      RainIteration(base, params, rng);
    }
    return None;
  }

  // ---------------------------------------------------------------------------
  // Wind gusts
  // ---------------------------------------------------------------------------

  /** `gust_t = np.arange(width) / sample_rate`, `gust = 0.3 * sin(2*pi*0.5*gust_t) * exp(-gust_t)` */
  function GustWave(width: int, sampleRate: int): (g: seq<real>)
    requires sampleRate > 0
    ensures |g| == Count(width)
  {
    seq(Count(width), j requires 0 <= j < Count(width) => GustAt(j, sampleRate))
  }

  /** The gust at sample `j`, `j / sample_rate` seconds after it starts. */
  function GustAt(j: int, sampleRate: int): real
    requires sampleRate > 0
  {
    var gt := j as real / sampleRate as real;
    0.3 * SIN(2.0 * PI * 0.5 * gt) * EXP(-gt)
  }

  lemma MulMonotone(a: real, x: real, y: real)
    requires 0.0 <= a && x <= y
    ensures a * x <= a * y
  {
    assert a * y - a * x == a * (y - x);
  }

  lemma TruncBetween(y: real, lo: int, hi: int)
    requires 0 <= lo && lo as real <= y <= hi as real
    ensures lo <= Trunc(y) <= hi
  {
    var w := Trunc(y);
    assert w as real <= y < w as real + 1.0;
  }

  /** `int(sample_rate * uniform(1, 3))`: at least one sample for a positive rate. */
  function GustWidth(sampleRate: int, u: real): (w: int)
    requires sampleRate > 0 && 0.0 <= u < 1.0
    ensures sampleRate <= w <= 3 * sampleRate
  {
    var x := UniformOf(1.0, 3.0, u);
    ScaledTruncBounds(sampleRate, x);
    Trunc(sampleRate as real * x)
  }

  lemma ScaledTruncBounds(n: int, x: real)
    requires n > 0 && 1.0 <= x <= 3.0
    ensures n <= Trunc(n as real * x) <= 3 * n
  {
    var a := n as real;
    MulMonotone(a, 1.0, x);
    MulMonotone(a, x, 3.0);
    var y := a * x;
    assert a <= y;
    assert y <= a * 3.0;
    assert a * 3.0 == (3 * n) as real;
    TruncBetween(y, n, 3 * n);
  }

  /**
   * One iteration of the gust loop over the modulation envelope: a start in
   * [0, samples), a width of `int(sample_rate * uniform(1, 3))`, and the
   * gust added into `modulation[gust_pos:end_pos]`, cut at the end of the
   * buffer.  `randint(0, 0)` raises on an empty envelope.
   */
  function WindGust(modulation: seq<real>, sampleRate: int, draws: Draws, pos: nat): (r: Result<(seq<real>, nat), BatchError>)
    requires sampleRate > 0
    ensures r.Success? ==> |r.value.0| == |modulation|
  {
    var samples := |modulation|;
    if samples <= 0 then Failure(EmptyRange)
    else
      var gustPos := RandIntOf(0, samples, draws(pos));
      var gustWidth := GustWidth(sampleRate, draws(pos + 1));
      var gust := GustWave(gustWidth, sampleRate);
      var endPos := Min(gustPos + gustWidth, samples);
      Success((AddSlice(modulation, gustPos, gust[..endPos - gustPos]), pos + 2))
  }

  /** `n` iterations of the gust loop, stopping at the first that raises. */
  function WindGusts(modulation: seq<real>, sampleRate: int, draws: Draws, pos: nat, n: nat): (r: Result<(seq<real>, nat), BatchError>)
    requires sampleRate > 0
    ensures r.Success? ==> |r.value.0| == |modulation|
    decreases n
  {
    if n == 0 then Success((modulation, pos))
    else
      match WindGusts(modulation, sampleRate, draws, pos, n - 1)
      case Failure(e) => Failure(e)
      case Success((m, p)) => WindGust(m, sampleRate, draws, p)
  }

  /** A gust with the start and width `WindGust` draws is added, cut at the end of the envelope. */
  lemma WindGustStep(modulation: seq<real>, sampleRate: int, draws: Draws, pos: nat, gustPos: int, gustWidth: int)
    requires sampleRate > 0 && |modulation| > 0
    requires gustPos == RandIntOf(0, |modulation|, draws(pos))
    requires gustWidth == GustWidth(sampleRate, draws(pos + 1))
    ensures 0 <= gustPos < Min(gustPos + gustWidth, |modulation|) <= |modulation|
    ensures Min(gustPos + gustWidth, |modulation|) - gustPos <= |GustWave(gustWidth, sampleRate)|
    ensures WindGust(modulation, sampleRate, draws, pos)
      == Success((AddSlice(modulation, gustPos, GustWave(gustWidth, sampleRate)[..Min(gustPos + gustWidth, |modulation|) - gustPos]), pos + 2))
  {
  }

  /**
   * Each gust is a whole gust or the part of it that fits before the end of
   * the envelope: it changes only indices from its start up to
   * `min(start + width, samples)`.
   */
  lemma WindGustFrame(modulation: seq<real>, sampleRate: int, draws: Draws, pos: nat, gustPos: int, gustWidth: int)
    requires sampleRate > 0 && |modulation| > 0
    requires gustPos == RandIntOf(0, |modulation|, draws(pos))
    requires gustWidth == GustWidth(sampleRate, draws(pos + 1))
    ensures WindGust(modulation, sampleRate, draws, pos).Success?
    ensures var endPos := Min(gustPos + gustWidth, |modulation|);
      var out := WindGust(modulation, sampleRate, draws, pos).value.0;
      && 0 <= gustPos < endPos <= |modulation|
      && (forall i :: 0 <= i < gustPos ==> out[i] == modulation[i])
      && (forall i :: endPos <= i < |modulation| ==> out[i] == modulation[i])
      && (forall i :: gustPos <= i < endPos ==> out[i] == modulation[i] + GustWave(gustWidth, sampleRate)[i - gustPos])
  {
    WindGustStep(modulation, sampleRate, draws, pos, gustPos, gustWidth);
    AddSlicePrefix(modulation, gustPos, GustWave(gustWidth, sampleRate), Min(gustPos + gustWidth, |modulation|) - gustPos);
  }

  /** The gust loop fails exactly when it runs at least once on an empty envelope. */
  lemma {:induction false} WindGustsFailure(modulation: seq<real>, sampleRate: int, draws: Draws, pos: nat, n: nat)
    requires sampleRate > 0
    ensures WindGusts(modulation, sampleRate, draws, pos, n).Failure? <==> n >= 1 && |modulation| == 0
    ensures WindGusts(modulation, sampleRate, draws, pos, n).Failure? ==> WindGusts(modulation, sampleRate, draws, pos, n).error == EmptyRange
    decreases n
  {
    if n > 0 {
      WindGustsFailure(modulation, sampleRate, draws, pos, n - 1);
    }
  }

  /** One pass of the gust loop's body, on a non-empty envelope. */
  method GustIteration(modulation: array<real>, sampleRate: int, rng: Rng)
    requires sampleRate > 0 && modulation.Length > 0
    modifies modulation, rng
    ensures WindGust(old(modulation[..]), sampleRate, rng.draws, old(rng.pos)) == Success((modulation[..], rng.pos))
  {
    ghost var before := modulation[..];
    ghost var pos := rng.pos;
    var samples := modulation.Length;
    var gustPos := rng.RandInt(0, samples);
    var u := rng.Random();
    var gustWidth := GustWidth(sampleRate, u);
    WindGustStep(before, sampleRate, rng.draws, pos, gustPos, gustWidth);
    var gust := GustWave(gustWidth, sampleRate);
    var endPos := Min(gustPos + gustWidth, samples);
    AddSliceInPlace(modulation, gustPos, gust[..endPos - gustPos]);
  }

  /** `for _ in range(int(duration / 5))`: the gust loop, in place on the envelope. */
  method AddWindGusts(modulation: array<real>, sampleRate: int, numGusts: int, rng: Rng) returns (err: Option<BatchError>)
    requires sampleRate > 0
    modifies modulation, rng
    ensures var r := WindGusts(old(modulation[..]), sampleRate, rng.draws, old(rng.pos), Count(numGusts));
      && (r.Success? <==> err.None?)
      && (r.Success? ==> modulation[..] == r.value.0 && rng.pos == r.value.1)
      && (r.Failure? ==> err == Some(r.error))
  {
    ghost var start := modulation[..];
    ghost var pos0 := rng.pos;
    for k := 0 to Count(numGusts)
      invariant WindGusts(start, sampleRate, rng.draws, pos0, k) == Success((modulation[..], rng.pos))
    {
      if modulation.Length <= 0 {
        WindGustsFailure(start, sampleRate, rng.draws, pos0, Count(numGusts));
        return Some(EmptyRange);
      }
      GustIteration(modulation, sampleRate, rng);
    }
    return None;
  }
}
