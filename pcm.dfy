/**
 * Sample arithmetic shared by the generators: `_clamp`, `_normalize`
 * (float to 16-bit PCM), `struct.pack("<h", ...)`, and the byte image of a
 * run of samples.
 */
module Pcm {

  type byte = b: int | 0 <= b < 256

  function Abs(x: real): real {
    if x < 0.0 then -x else x
  }

  /** `_clamp(value, minimum, maximum)`: the first test wins when the bounds are crossed. */
  function Clamp(value: real, minimum: real, maximum: real): (r: real)
    ensures value < minimum ==> r == minimum
    ensures minimum <= maximum ==> minimum <= r <= maximum
    ensures minimum <= value <= maximum ==> r == value
  {
    if value < minimum then minimum
    else if value > maximum then maximum
    else value
  }

  /** Python's `int(x)` on a float: truncation toward zero. */
  function Trunc(x: real): (n: int)
    ensures 0.0 <= x ==> 0 <= n && n as real <= x < n as real + 1.0
    ensures x < 0.0 ==> n <= 0 && n as real - 1.0 < x <= n as real
  {
    if 0.0 <= x then x.Floor else -((-x).Floor)
  }

  const PCM_SCALE: int := 32767

  /**
   * `_normalize`: clamp to [-1, 1], scale by 32767 and truncate.  The result
   * always fits a signed 16-bit integer and never reaches -32768.
   */
  function Normalize(value: real): (q: int)
    ensures -PCM_SCALE <= q <= PCM_SCALE
    ensures (0.0 <= value ==> 0 <= q) && (value <= 0.0 ==> q <= 0)
    ensures value == Clamp(value, -1.0, 1.0) ==> Abs(q as real) <= Abs(value) * PCM_SCALE as real
  {
    Trunc(Clamp(value, -1.0, 1.0) * PCM_SCALE as real)
  }

  /** `struct.pack("<h", v)`: two's complement, low byte first. */
  function PackInt16LE(v: int): (bs: seq<byte>)
    requires -32768 <= v < 32768
    ensures |bs| == 2 && UnpackInt16LE(bs[0], bs[1]) == v
  {
    var u := if v < 0 then v + 65536 else v;
    [u % 256, u / 256]
  }

  /** `struct.unpack("<h", ...)`: the partner of `PackInt16LE`. */
  function UnpackInt16LE(lo: byte, hi: byte): (v: int)
    ensures -32768 <= v < 32768
  {
    var u := hi * 256 + lo;
    if u >= 32768 then u - 65536 else u
  }

  lemma {:induction false} UnpackPack(lo: byte, hi: byte)
    ensures PackInt16LE(UnpackInt16LE(lo, hi)) == [lo, hi]
  {
    var u := hi * 256 + lo;
    assert u % 256 == lo && u / 256 == hi;
  }

  /** The two bytes `next_chunk` emits for one generated sample. */
  function Frame(sample: real, volume: real): (bs: seq<byte>)
    ensures |bs| == 2
  {
    PackInt16LE(Normalize(sample * volume))
  }

  /** One step of the chunk loop: scale by the volume, quantise, pack. */
  method EncodeFrame(sample: real, volume: real) returns (bs: seq<byte>)
    ensures bs == Frame(sample, volume)
    ensures UnpackInt16LE(bs[0], bs[1]) == Normalize(sample * volume)
  {
    var scaled := sample * volume;
    bs := PackInt16LE(Normalize(scaled));
  }

  /** The bytes of a run of samples, in order: what the chunk loop accumulates. */
  function Frames(samples: seq<real>, volume: real): (bs: seq<byte>)
    ensures |bs| == 2 * |samples|
  {
    if samples == [] then []
    else Frames(samples[..|samples| - 1], volume) + Frame(samples[|samples| - 1], volume)
  }

  /** The `k`-th 16-bit sample of a PCM byte string. */
  function SampleAt(bs: seq<byte>, k: nat): int
    requires 2 * k + 1 < |bs|
  {
    UnpackInt16LE(bs[2 * k], bs[2 * k + 1])
  }

  lemma {:induction false} FramesAppend(xs: seq<real>, ys: seq<real>, volume: real)
    ensures Frames(xs + ys, volume) == Frames(xs, volume) + Frames(ys, volume)
    decreases |ys|
  {
    if ys == [] {
      assert xs + ys == xs;
    } else {
      var init, last := ys[..|ys| - 1], ys[|ys| - 1];
      assert (xs + ys)[..|xs + ys| - 1] == xs + init;
      FramesAppend(xs, init, volume);
    }
  }

  /** The two bytes at positions 2k and 2k+1 are the frame of the k-th sample. */
  lemma {:induction false} FramesAt(samples: seq<real>, volume: real, k: nat)
    requires k < |samples|
    ensures Frames(samples, volume)[2 * k..2 * k + 2] == Frame(samples[k], volume)
    decreases |samples|
  {
    var n := |samples|;
    var init := samples[..n - 1];
    assert Frames(samples, volume) == Frames(init, volume) + Frame(samples[n - 1], volume);
    if k < n - 1 {
      FramesAt(init, volume, k);
      assert init[k] == samples[k];
    }
  }

  /**
   * Decoding the bytes of a run gives back, sample by sample, the quantised
   * value of each sample times the volume; so every decoded value lies in
   * [-32767, 32767] and -32768 never occurs.
   */
  lemma FramesDecode(samples: seq<real>, volume: real, k: nat)
    requires k < |samples|
    ensures SampleAt(Frames(samples, volume), k) == Normalize(samples[k] * volume)
    ensures -PCM_SCALE <= SampleAt(Frames(samples, volume), k) <= PCM_SCALE
  {
    var bs := Frames(samples, volume);
    FramesAt(samples, volume, k);
    var pair := PackInt16LE(Normalize(samples[k] * volume));
    assert bs[2 * k] == pair[0] && bs[2 * k + 1] == pair[1];
  }
}
