/**
 * The noise colourers of `noise.py`: the pink filter (seven taps with fixed
 * decay/scale coefficients) and the damped, clamped brown random walk, as
 * functions of the old state and one white draw in [-1, 1].
 */
module Colours {
  import opened Pcm

  /** `UnknownNoiseTypeError`, raised with the offending name. */
  datatype UnknownNoiseTypeError = UnknownNoiseTypeError(name: string)

  /** `PINK_NOISE_COEFFS`: (decay, scale) for taps 0 to 5. */
  const PINK_NOISE_COEFFS: seq<(real, real)> := [
    (0.99886, 0.0555179),
    (0.99332, 0.0750759),
    (0.96900, 0.1538520),
    (0.86650, 0.3104856),
    (0.55000, 0.5329522),
    (-0.7616, -0.0168980)
  ]
  const PINK_NOISE_WHITE_COEFF: real := 0.5362
  const PINK_NOISE_FINAL_STATE_COEFF: real := 0.115926
  const PINK_NOISE_SCALE: real := 0.11

  const BROWN_NOISE_STEP: real := 0.02
  const BROWN_NOISE_DAMPING: real := 0.98

  /** The pink filter state `_pink_state`: always seven values. */
  type Taps = s: seq<real> | |s| == 7 witness [0.0, 0.0, 0.0, 0.0, 0.0, 0.0, 0.0]

  /** `[0.0] * 7` */
  const ZERO_TAPS: Taps := [0.0, 0.0, 0.0, 0.0, 0.0, 0.0, 0.0]

  /** The taps after the coefficient loop: taps 0 to 5 decay and take in the white draw; tap 6 is untouched. */
  function DecayTaps(s: Taps, white: real): Taps {
    seq(7, j requires 0 <= j < 7 =>
      if j < |PINK_NOISE_COEFFS| then PINK_NOISE_COEFFS[j].0 * s[j] + white * PINK_NOISE_COEFFS[j].1 else s[j])
  }

  /** The unscaled pink value: all seven taps after the loop (tap 6 still the old one) plus the weighted white draw. */
  function PinkSum(s: Taps, white: real): real {
    var t := DecayTaps(s, white);
    t[0] + t[1] + t[2] + t[3] + t[4] + t[5] + t[6] + white * PINK_NOISE_WHITE_COEFF
  }

  /** One pink sample: the scaled, clamped sum, and the taps with tap 6 overwritten only afterwards. */
  function PinkStep(s: Taps, white: real): (r: (real, Taps))
    ensures -1.0 <= r.0 <= 1.0
  {
    (Clamp(PinkSum(s, white) * PINK_NOISE_SCALE, -1.0, 1.0),
     DecayTaps(s, white)[6 := white * PINK_NOISE_FINAL_STATE_COEFF])
  }

  /** The range the damped brown walk never leaves. */
  predicate InWalkRange(v: real) {
    -BROWN_NOISE_DAMPING <= v <= BROWN_NOISE_DAMPING
  }

  /** One brown sample: step the walk by the scaled draw, clamp to [-1, 1], damp. */
  function BrownStep(v: real, white: real): (r: real)
    ensures -BROWN_NOISE_DAMPING <= r <= BROWN_NOISE_DAMPING
  {
    Clamp(v + white * BROWN_NOISE_STEP, -1.0, 1.0) * BROWN_NOISE_DAMPING
  }

  /**
   * The pink recurrence written out with its constants: the new taps 0 to 5,
   * the new tap 6, and the output, which sums the OLD tap 6.
   */
  lemma PinkStepSpec(s: Taps, white: real)
    ensures PinkStep(s, white).1[0] == 0.99886 * s[0] + white * 0.0555179
    ensures PinkStep(s, white).1[1] == 0.99332 * s[1] + white * 0.0750759
    ensures PinkStep(s, white).1[2] == 0.96900 * s[2] + white * 0.1538520
    ensures PinkStep(s, white).1[3] == 0.86650 * s[3] + white * 0.3104856
    ensures PinkStep(s, white).1[4] == 0.55000 * s[4] + white * 0.5329522
    ensures PinkStep(s, white).1[5] == -0.7616 * s[5] - white * 0.0168980
    ensures PinkStep(s, white).1[6] == white * 0.115926
    ensures PinkStep(s, white).0 == Clamp(0.11 * (
              PinkStep(s, white).1[0] + PinkStep(s, white).1[1] + PinkStep(s, white).1[2] +
              PinkStep(s, white).1[3] + PinkStep(s, white).1[4] + PinkStep(s, white).1[5] +
              s[6] + white * 0.5362), -1.0, 1.0)
  {
  }

  /** The `for j, (decay, scale) in enumerate(PINK_NOISE_COEFFS)` loop, in place on the taps. */
  method UpdateTaps(taps: array<real>, white: real)
    requires taps.Length == 7
    modifies taps
    ensures taps[..] == DecayTaps(old(taps[..]), white)
  {
    for j := 0 to |PINK_NOISE_COEFFS|
      invariant forall k :: 0 <= k < j ==>
        taps[k] == PINK_NOISE_COEFFS[k].0 * old(taps[k]) + white * PINK_NOISE_COEFFS[k].1
      invariant forall k :: j <= k < 7 ==> taps[k] == old(taps[k])
    {
      var (decay, scale) := PINK_NOISE_COEFFS[j];
      taps[j] := decay * taps[j] + white * scale;
    }
    assert forall k :: 0 <= k < 7 ==> taps[..][k] == DecayTaps(old(taps[..]), white)[k];
  }

  /**
   * The filter part of the pink branch, in place on the taps: the coefficient
   * loop, the sum over all seven taps (tap 6 still the old one), then tap 6
   * overwritten, then scaling and clamping.
   */
  method FilterPink(taps: array<real>, white: real) returns (x: real)
    requires taps.Length == 7
    modifies taps
    ensures (x, taps[..]) == PinkStep(old(taps[..]), white)
  {
    UpdateTaps(taps, white);
    ghost var t := taps[..];
    var pink :=
      taps[0] + taps[1] + taps[2] +
      taps[3] + taps[4] + taps[5] +
      taps[6] + white * PINK_NOISE_WHITE_COEFF;
    assert pink == PinkSum(old(taps[..]), white) by {
      assert t[0] == taps[0] && t[1] == taps[1] && t[2] == taps[2] && t[3] == taps[3];
      assert t[4] == taps[4] && t[5] == taps[5] && t[6] == taps[6];
    }
    taps[6] := white * PINK_NOISE_FINAL_STATE_COEFF;
    x := Clamp(pink * PINK_NOISE_SCALE, -1.0, 1.0);
    assert taps[..] == t[6 := white * PINK_NOISE_FINAL_STATE_COEFF];
  }
}
