/**
 * `build_wav_header`: the 44-byte RIFF/WAVE header put in front of a PCM
 * stream of unknown length, and a reader for it.  The layout is the
 * canonical one of the Waveform Audio File Format (Microsoft/IBM Multimedia
 * Programming Interface and Data Specifications 1.0): a "RIFF" chunk of form
 * type "WAVE" holding a 16-byte "fmt " chunk and then the "data" chunk.
 */
module Wav {
  import opened Wrappers
  import opened Pcm

  /** `struct.error`: an integer does not fit its unsigned field. */
  datatype StructError = StructError

  const UINT16_LIMIT: int := 0x1_0000
  const UINT32_LIMIT: int := 0x1_0000_0000

  /** The size written in both the RIFF and the data chunk header: "length unknown". */
  const UNBOUNDED_SIZE: int := 0xFFFF_FFFF

  const WAVE_FORMAT_PCM: int := 1
  const FMT_CHUNK_SIZE: int := 16
  const CHANNELS: int := 1
  const BITS_PER_SAMPLE: int := 16

  /** The four-character codes, as the bytes of their ASCII letters. */
  const RIFF_ID: seq<byte> := [0x52, 0x49, 0x46, 0x46]   // "RIFF"
  const WAVE_ID: seq<byte> := [0x57, 0x41, 0x56, 0x45]   // "WAVE"
  const FMT_ID: seq<byte> := [0x66, 0x6D, 0x74, 0x20]    // "fmt "
  const DATA_ID: seq<byte> := [0x64, 0x61, 0x74, 0x61]   // "data"

  /** `struct.pack("<H", v)` */
  function PackUInt16LE(v: int): (bs: seq<byte>)
    requires 0 <= v < UINT16_LIMIT
    ensures |bs| == 2 && UnpackUInt16LE(bs) == v
  {
    [v % 256, v / 256]
  }

  function UnpackUInt16LE(bs: seq<byte>): (v: int)
    requires |bs| == 2
    ensures 0 <= v < UINT16_LIMIT
  {
    bs[0] as int + 256 * bs[1] as int
  }

  /** `struct.pack("<I", v)`: the low half first. */
  function PackUInt32LE(v: int): (bs: seq<byte>)
    requires 0 <= v < UINT32_LIMIT
    ensures |bs| == 4 && UnpackUInt32LE(bs) == v
  {
    PackUInt16LE(v % UINT16_LIMIT) + PackUInt16LE(v / UINT16_LIMIT)
  }

  function UnpackUInt32LE(bs: seq<byte>): (v: int)
    requires |bs| == 4
    ensures 0 <= v < UINT32_LIMIT
  {
    UnpackUInt16LE(bs[..2]) + UINT16_LIMIT * UnpackUInt16LE(bs[2..])
  }

  /** The fields of a canonical header. */
  datatype WavFormat = WavFormat(
    riffSize: int, formatTag: int, channels: int, sampleRate: int,
    byteRate: int, blockAlign: int, bitsPerSample: int, dataSize: int)

  /** Every field fits the width it is written with. */
  predicate Representable(f: WavFormat) {
    && 0 <= f.riffSize < UINT32_LIMIT && 0 <= f.dataSize < UINT32_LIMIT
    && 0 <= f.sampleRate < UINT32_LIMIT && 0 <= f.byteRate < UINT32_LIMIT
    && 0 <= f.formatTag < UINT16_LIMIT && 0 <= f.channels < UINT16_LIMIT
    && 0 <= f.blockAlign < UINT16_LIMIT && 0 <= f.bitsPerSample < UINT16_LIMIT
  }

  /** "RIFF", the RIFF chunk size, "WAVE": 12 bytes. */
  function RiffHeader(f: WavFormat): (bs: seq<byte>)
    requires Representable(f)
    ensures |bs| == 12
  {
    RIFF_ID + PackUInt32LE(f.riffSize) + WAVE_ID
  }

  /** The "fmt " chunk: its code, its size 16 and the six format fields: 24 bytes. */
  function FmtChunk(f: WavFormat): (bs: seq<byte>)
    requires Representable(f)
    ensures |bs| == 24
  {
    FMT_ID + PackUInt32LE(FMT_CHUNK_SIZE)
    + PackUInt16LE(f.formatTag) + PackUInt16LE(f.channels)
    + PackUInt32LE(f.sampleRate) + PackUInt32LE(f.byteRate)
    + PackUInt16LE(f.blockAlign) + PackUInt16LE(f.bitsPerSample)
  }

  /** "data" and the data chunk size: 8 bytes. */
  function DataHeader(f: WavFormat): (bs: seq<byte>)
    requires Representable(f)
    ensures |bs| == 8
  {
    DATA_ID + PackUInt32LE(f.dataSize)
  }

  /** `struct.pack("<4sI4s4sIHHIIHH4sI", ...)` of the header fields. */
  function SerializeHeader(f: WavFormat): (bs: seq<byte>)
    requires Representable(f)
    ensures |bs| == 44
  {
    RiffHeader(f) + FmtChunk(f) + DataHeader(f)
  }

  /** The header `build_wav_header` describes for a rate: mono 16-bit PCM of unknown length. */
  function StreamingFormat(sampleRate: int): WavFormat {
    // `//` by the positive 8 floors, as Dafny's `/` does.
    var byteRate := sampleRate * CHANNELS * BITS_PER_SAMPLE / 8;
    var blockAlign := CHANNELS * BITS_PER_SAMPLE / 8;
    WavFormat(UNBOUNDED_SIZE, WAVE_FORMAT_PCM, CHANNELS, sampleRate, byteRate, blockAlign, BITS_PER_SAMPLE, UNBOUNDED_SIZE)
  }

  /**
   * `build_wav_header(sample_rate)`: `struct.pack` raises when the rate or the
   * byte rate (twice the rate) is negative or does not fit 32 bits.
   */
  function BuildWavHeader(sampleRate: int): (r: Result<seq<byte>, StructError>)
    ensures r.Success? <==> 0 <= sampleRate && 2 * sampleRate < UINT32_LIMIT
    ensures r.Success? ==> |r.value| == 44
  {
    var f := StreamingFormat(sampleRate);
    if !Representable(f) then Failure(StructError) else Success(SerializeHeader(f))
  }

  function ParseRiffHeader(bs: seq<byte>): Option<int>
    requires |bs| == 12
  {
    if bs[..4] == RIFF_ID && bs[8..] == WAVE_ID then Some(UnpackUInt32LE(bs[4..8])) else None
  }

  function ParseFmtChunk(bs: seq<byte>): Option<(int, int, int, int, int, int)>
    requires |bs| == 24
  {
    if bs[..4] != FMT_ID || UnpackUInt32LE(bs[4..8]) != FMT_CHUNK_SIZE then None
    else Some((UnpackUInt16LE(bs[8..10]), UnpackUInt16LE(bs[10..12]), UnpackUInt32LE(bs[12..16]),
               UnpackUInt32LE(bs[16..20]), UnpackUInt16LE(bs[20..22]), UnpackUInt16LE(bs[22..])))
  }

  function ParseDataHeader(bs: seq<byte>): Option<int>
    requires |bs| == 8
  {
    if bs[..4] == DATA_ID then Some(UnpackUInt32LE(bs[4..])) else None
  }

  /**
   * Reads a canonical header from the front of a stream: the chunk codes and
   * the form type must be in place and the format chunk must be 16 bytes
   * long; whatever follows the 44 bytes is sample data.
   */
  function ParseWavHeader(bs: seq<byte>): (r: Option<WavFormat>)
    ensures r.Some? ==> |bs| >= 44 && bs[..4] == RIFF_ID && bs[36..40] == DATA_ID
  {
    if |bs| < 44 then None
    else
      match (ParseRiffHeader(bs[..12]), ParseFmtChunk(bs[12..36]), ParseDataHeader(bs[36..44]))
      case (Some(riffSize), Some((tag, channels, rate, byteRate, align, bits)), Some(dataSize)) =>
        assert bs[..4] == bs[..12][..4] && bs[36..40] == bs[36..44][..4];
        Some(WavFormat(riffSize, tag, channels, rate, byteRate, align, bits, dataSize))
      case _ => None
  }

  /** Reading back a serialised header, whatever data follows it, gives its fields. */
  lemma HeaderRoundTrip(f: WavFormat, data: seq<byte>)
    requires Representable(f)
    ensures ParseWavHeader(SerializeHeader(f) + data) == Some(f)
  {
    var a, b, c := RiffHeader(f), FmtChunk(f), DataHeader(f);
    var bs := SerializeHeader(f) + data;
    assert bs == a + b + c + data;
    assert bs[..12] == a && bs[12..36] == b && bs[36..44] == c;
    assert a[..4] == RIFF_ID && a[4..8] == PackUInt32LE(f.riffSize) && a[8..] == WAVE_ID;
    assert b[..4] == FMT_ID && b[4..8] == PackUInt32LE(FMT_CHUNK_SIZE);
    assert b[8..10] == PackUInt16LE(f.formatTag) && b[10..12] == PackUInt16LE(f.channels);
    assert b[12..16] == PackUInt32LE(f.sampleRate) && b[16..20] == PackUInt32LE(f.byteRate);
    assert b[20..22] == PackUInt16LE(f.blockAlign) && b[22..] == PackUInt16LE(f.bitsPerSample);
    assert c[..4] == DATA_ID && c[4..] == PackUInt32LE(f.dataSize);
  }

  /**
   * What the WAVE format requires of PCM data: the block alignment is the
   * bytes of one sample frame across all channels, and the average byte rate
   * is that times the sample rate.
   */
  predicate PcmConsistent(f: WavFormat) {
    && f.formatTag == WAVE_FORMAT_PCM
    && f.blockAlign * 8 == f.channels * f.bitsPerSample
    && f.byteRate == f.sampleRate * f.blockAlign
  }

  /**
   * The streaming header, read back whatever data follows it, is mono 16-bit
   * PCM at the requested rate with 0xFFFFFFFF in both size fields, and its
   * fields are consistent as the WAVE format requires.
   */
  lemma StreamingHeaderFields(sampleRate: int, data: seq<byte>)
    requires BuildWavHeader(sampleRate).Success?
    ensures ParseWavHeader(BuildWavHeader(sampleRate).value + data)
      == Some(WavFormat(UNBOUNDED_SIZE, WAVE_FORMAT_PCM, 1, sampleRate, 2 * sampleRate, 2, 16, UNBOUNDED_SIZE))
    ensures PcmConsistent(ParseWavHeader(BuildWavHeader(sampleRate).value + data).value)
  {
    HeaderRoundTrip(StreamingFormat(sampleRate), data);
  }

  /** Two rates give the same header only if they are equal. */
  lemma HeaderDeterminesRate(a: int, b: int)
    requires BuildWavHeader(a).Success? && BuildWavHeader(b).Success?
    requires BuildWavHeader(a).value == BuildWavHeader(b).value
    ensures a == b
  {
    StreamingHeaderFields(a, []);
    StreamingHeaderFields(b, []);
    assert BuildWavHeader(a).value + [] == BuildWavHeader(b).value + [];
  }
}
