/**
 * `audioBufferToWav`: a rendered buffer becomes a canonical 16-bit PCM WAVE
 * file as laid out in the Microsoft/IBM RIFF Multimedia Programming
 * Interface and Data Specifications 1.0 (WAVE form, `fmt ` chunk with format
 * tag 1): a 44-byte header of little-endian fields, then every sample of
 * every frame, frame by frame, channel by channel, as a little-endian int16.
 */
module WavExport {
  import opened Lists

  newtype byte = x: int | 0 <= x < 256

  /** The parts of a Web Audio `AudioBuffer` the serialiser reads; one sample row per channel. */
  datatype AudioBuffer = AudioBuffer(length: nat, numberOfChannels: nat, sampleRate: nat, channelData: seq<seq<real>>)

  /** Every channel holds `length` samples. */
  predicate WellFormed(b: AudioBuffer) {
    |b.channelData| == b.numberOfChannels
    && forall c :: 0 <= c < |b.channelData| ==> |b.channelData[c]| == b.length
  }

  const Two16: int := 0x1_0000
  const Two32: int := 0x1_0000_0000

  /** `setUint16(pos, x, true)`: the value modulo 2^16, low byte first. */
  function Le16(x: int): (r: seq<byte>)
    ensures |r| == 2
  {
    var u := x % Two16;
    [(u % 256) as byte, (u / 256) as byte]
  }

  /** `setUint32(pos, x, true)`: the value modulo 2^32, low byte first. */
  function Le32(x: int): (r: seq<byte>)
    ensures |r| == 4
  {
    var u := x % Two32;
    [(u % 256) as byte, (u / 0x100 % 256) as byte, (u / 0x1_0000 % 256) as byte, (u / 0x100_0000) as byte]
  }

  function Decode16(bs: seq<byte>): int
    requires |bs| == 2
  {
    bs[0] as int + 256 * bs[1] as int
  }

  function Decode32(bs: seq<byte>): int
    requires |bs| == 4
  {
    bs[0] as int + 0x100 * bs[1] as int + 0x1_0000 * bs[2] as int + 0x100_0000 * bs[3] as int
  }

  /** Reading a written field back gives the value modulo the field width. */
  lemma Le16RoundTrip(x: int)
    ensures Decode16(Le16(x)) == x % Two16
  {
  }

  lemma Le32RoundTrip(x: int)
    ensures Decode32(Le32(x)) == x % Two32
  {
    var u := x % Two32;
    var q1 := u / 0x100;
    var q2 := q1 / 0x100;
    var q3 := q2 / 0x100;
    assert u / 0x1_0000 == q2;
    assert u / 0x100_0000 == q3;
  }

  /** Reading the two bytes of a sample back as a signed int16. */
  function Int16Of(u: int): int {
    if u >= 0x8000 then u - Two16 else u
  }

  lemma Int16RoundTrip(v: int)
    requires -0x8000 <= v < 0x8000
    ensures Int16Of(Decode16(Le16(v))) == v
  {
    Le16RoundTrip(v);
  }

  /** The byte values of an ASCII tag. */
  function Ascii(s: string): seq<byte>
    requires forall k :: 0 <= k < |s| ==> s[k] as int < 256
  {
    seq(|s|, k requires 0 <= k < |s| => s[k] as int as byte)
  }

  /** The four magic numbers, written little-endian, spell the chunk tags. */
  lemma MagicWords()
    ensures Le32(0x46464952) == Ascii("RIFF")
    ensures Le32(0x45564157) == Ascii("WAVE")
    ensures Le32(0x20746d66) == Ascii("fmt ")
    ensures Le32(0x61746164) == Ascii("data")
  {
  }

  /** `buffer.length * buffer.numberOfChannels * 2 + 44`. */
  function FileLength(b: AudioBuffer): (n: nat)
    ensures n >= 44
  {
    b.length * b.numberOfChannels * 2 + 44
  }

  /** `RIFF`, the size of the rest of the file, `WAVE`. */
  function RiffPart(b: AudioBuffer): (r: seq<byte>)
    ensures |r| == 12
  {
    Le32(0x46464952) + Le32(FileLength(b) - 8) + Le32(0x45564157)
  }

  /** The `fmt ` chunk: size 16, PCM tag 1, channels, rate, byte rate, block alignment, 16 bits. */
  function FmtPart(b: AudioBuffer): (r: seq<byte>)
    ensures |r| == 24
  {
    Le32(0x20746d66) + Le32(16) + Le16(1) + Le16(b.numberOfChannels)
    + Le32(b.sampleRate) + Le32(b.sampleRate * b.numberOfChannels * 2)
    + Le16(b.numberOfChannels * 2) + Le16(16)
  }

  /** The head of the `data` chunk: its tag and the size of the samples. */
  function DataPart(b: AudioBuffer): (r: seq<byte>)
    ensures |r| == 8
  {
    Le32(0x61746164) + Le32(FileLength(b) - 44)
  }

  /** The header fields in the order the serialiser writes them. */
  function Header(b: AudioBuffer): (r: seq<byte>)
    ensures |r| == 44
  {
    RiffPart(b) + FmtPart(b) + DataPart(b)
  }

  /** `Math.max(-1, Math.min(1, x))`. */
  function Clamp(x: real): real {
    if x < -1.0 then -1.0 else if x > 1.0 then 1.0 else x
  }

  /** Negative samples scale by 0x8000, the others by 0x7fff. */
  function Scaled(s: real): real {
    if s < 0.0 then s * 32768.0 else s * 32767.0
  }

  /** The conversion of `setInt16`: truncation toward zero (then modulo 2^16, done by `Le16`). */
  function Trunc(v: real): int {
    if v >= 0.0 then v.Floor else -((-v).Floor)
  }

  /** The int16 stored for one sample. */
  function SampleValue(x: real): int {
    Trunc(Scaled(Clamp(x)))
  }

  lemma TruncBounds(v: real, lo: int, hi: int)
    requires lo as real <= v <= hi as real && lo <= 0 <= hi
    ensures lo <= Trunc(v) <= hi
  {
    if v >= 0.0 {
      assert v.Floor as real <= v;
    } else {
      assert (-v).Floor as real <= -v;
      assert (-v) <= (-lo) as real;
    }
  }

  /** Every stored sample is a proper int16: no wrap-around can happen. */
  lemma SampleRange(x: real)
    ensures -0x8000 <= SampleValue(x) <= 0x7fff
  {
    var s := Clamp(x);
    TruncBounds(Scaled(s), -0x8000, 0x7fff);
  }

  /** Full scale: -1 and below map to -32768, 1 and above to 32767, silence to 0. */
  lemma FullScale(x: real)
    ensures x <= -1.0 ==> SampleValue(x) == -0x8000
    ensures x >= 1.0 ==> SampleValue(x) == 0x7fff
    ensures SampleValue(0.0) == 0
  {
  }

  /** The two bytes of each sample of frame `i`, channels `0 .. n-1`. */
  function ChannelBytes(b: AudioBuffer, i: nat, n: nat): (r: seq<byte>)
    requires WellFormed(b) && i < b.length && n <= b.numberOfChannels
    ensures |r| == 2 * n
  {
    if n == 0 then [] else ChannelBytes(b, i, n - 1) + Le16(SampleValue(b.channelData[n - 1][i]))
  }

  /** Frames `0 .. n-1`, interleaved. */
  function FrameBytes(b: AudioBuffer, n: nat): seq<byte>
    requires WellFormed(b) && n <= b.length
  {
    if n == 0 then [] else FrameBytes(b, n - 1) + ChannelBytes(b, n - 1, b.numberOfChannels)
  }

  /** The whole file: the header, then the interleaved samples. */
  function WavFile(b: AudioBuffer): seq<byte>
    requires WellFormed(b)
  {
    Header(b) + FrameBytes(b, b.length)
  }

  lemma {:induction false} FrameBytesLength(b: AudioBuffer, n: nat)
    requires WellFormed(b) && n <= b.length
    ensures |FrameBytes(b, n)| == n * b.numberOfChannels * 2
  {
    if n > 0 {
      FrameBytesLength(b, n - 1);
      assert n * b.numberOfChannels == (n - 1) * b.numberOfChannels + b.numberOfChannels;
    }
  }

  /** The file is `frames * channels * 2 + 44` bytes: the 44-byte header, then two bytes per sample. */
  lemma WavLength(b: AudioBuffer)
    requires WellFormed(b)
    ensures |WavFile(b)| == FileLength(b) == 44 + |FrameBytes(b, b.length)|
  {
    FrameBytesLength(b, b.length);
  }

  lemma {:induction false} FramePrefix(b: AudioBuffer, m: nat, n: nat)
    requires WellFormed(b) && m <= n <= b.length
    ensures FrameBytes(b, m) <= FrameBytes(b, n)
    decreases n
  {
    if m < n {
      FramePrefix(b, m, n - 1);
    }
  }

  lemma {:induction false} ChannelPrefix(b: AudioBuffer, i: nat, m: nat, n: nat)
    requires WellFormed(b) && i < b.length && m <= n <= b.numberOfChannels
    ensures ChannelBytes(b, i, m) <= ChannelBytes(b, i, n)
    decreases n
  {
    if m < n {
      ChannelPrefix(b, i, m, n - 1);
    }
  }

  /** Where the sample of frame `i`, channel `c` starts in the file. */
  function SampleOffset(b: AudioBuffer, i: nat, c: nat): nat {
    44 + 2 * (i * b.numberOfChannels + c)
  }

  /**
   * The sample of frame `i`, channel `c` sits at byte `44 + 2 * (i * channels + c)`,
   * and reads back as the clamped and scaled sample.
   */
  lemma SamplePosition(b: AudioBuffer, i: nat, c: nat)
    requires WellFormed(b) && i < b.length && c < b.numberOfChannels
    ensures var p := SampleOffset(b, i, c);
      p + 2 <= |WavFile(b)|
      && WavFile(b)[p..p + 2] == Le16(SampleValue(b.channelData[c][i]))
      && Int16Of(Decode16(WavFile(b)[p..p + 2])) == SampleValue(b.channelData[c][i])
  {
    var x := b.channelData[c][i];
    var p := SampleOffset(b, i, c);
    var upto := SampleUpTo(b, i, c);
    assert WavFile(b)[p..p + 2] == upto[p..p + 2];
    SampleRange(x);
    Int16RoundTrip(SampleValue(x));
  }

  /** The file up to and including that sample: everything before it, then its two bytes. */
  lemma SampleUpTo(b: AudioBuffer, i: nat, c: nat) returns (upto: seq<byte>)
    requires WellFormed(b) && i < b.length && c < b.numberOfChannels
    ensures |upto| == SampleOffset(b, i, c) + 2 && upto <= WavFile(b)
    ensures upto[SampleOffset(b, i, c)..] == Le16(SampleValue(b.channelData[c][i]))
  {
    var before := Header(b) + FrameBytes(b, i) + ChannelBytes(b, i, c);
    var sample := Le16(SampleValue(b.channelData[c][i]));
    BeforeSampleLength(b, i, c);
    SampleInFile(b, i, c);
    upto := Header(b) + FrameBytes(b, i) + ChannelBytes(b, i, c + 1);
    assert ChannelBytes(b, i, c + 1) == ChannelBytes(b, i, c) + sample;
    AppendAssoc(Header(b) + FrameBytes(b, i), ChannelBytes(b, i, c), sample);
    assert upto == before + sample;
  }

  lemma BeforeSampleLength(b: AudioBuffer, i: nat, c: nat)
    requires WellFormed(b) && i < b.length && c < b.numberOfChannels
    ensures |Header(b) + FrameBytes(b, i) + ChannelBytes(b, i, c)| == SampleOffset(b, i, c)
  {
    FrameBytesLength(b, i);
    assert 2 * (i * b.numberOfChannels + c) == i * b.numberOfChannels * 2 + 2 * c;
  }

  lemma SampleInFile(b: AudioBuffer, i: nat, c: nat)
    requires WellFormed(b) && i < b.length && c < b.numberOfChannels
    ensures Header(b) + FrameBytes(b, i) + ChannelBytes(b, i, c + 1) <= WavFile(b)
  {
    ChannelPrefix(b, i, c + 1, b.numberOfChannels);
    FramePrefix(b, i + 1, b.length);
    assert FrameBytes(b, i) + ChannelBytes(b, i, c + 1) <= FrameBytes(b, i + 1);
    AppendAssoc(Header(b), FrameBytes(b, i), ChannelBytes(b, i, c + 1));
  }

  /**
   * The header, field by field: the chunk tags, the sizes (file length less 8,
   * format chunk 16, data equal to the file length less the 44 header bytes),
   * PCM format tag 1, the channel count, the sample rate, the byte rate
   * `rate * channels * 2`, the block alignment `channels * 2` and 16 bits per
   * sample.
   */
  lemma HeaderFields(b: AudioBuffer)
    requires WellFormed(b)
    ensures var w := WavFile(b);
      w[0..4] == Ascii("RIFF") && Decode32(w[4..8]) == (|w| - 8) % Two32
      && w[8..12] == Ascii("WAVE") && w[12..16] == Ascii("fmt ")
      && Decode32(w[16..20]) == 16 && Decode16(w[20..22]) == 1
      && Decode16(w[22..24]) == b.numberOfChannels % Two16
      && Decode32(w[24..28]) == b.sampleRate % Two32
      && Decode32(w[28..32]) == (b.sampleRate * b.numberOfChannels * 2) % Two32
      && Decode16(w[32..34]) == (b.numberOfChannels * 2) % Two16
      && Decode16(w[34..36]) == 16
      && w[36..40] == Ascii("data") && Decode32(w[40..44]) == (|w| - 44) % Two32
  {
    WavLength(b);
    RiffSlices(b);
    FmtSlices(b);
    DataSlices(b);
    MagicWords();
    Le32RoundTrip(FileLength(b) - 8);
    Le32RoundTrip(16);
    Le16RoundTrip(1);
    Le16RoundTrip(b.numberOfChannels);
    Le32RoundTrip(b.sampleRate);
    Le32RoundTrip(b.sampleRate * b.numberOfChannels * 2);
    Le16RoundTrip(b.numberOfChannels * 2);
    Le16RoundTrip(16);
    Le32RoundTrip(FileLength(b) - 44);
  }

  lemma RiffSlices(b: AudioBuffer)
    requires WellFormed(b)
    ensures var w := WavFile(b);
      w[0..4] == Le32(0x46464952) && w[4..8] == Le32(FileLength(b) - 8) && w[8..12] == Le32(0x45564157)
  {
    var w := WavFile(b);
    assert w[..12] == RiffPart(b);
  }

  lemma FmtSlices(b: AudioBuffer)
    requires WellFormed(b)
    ensures var w := WavFile(b);
      w[12..16] == Le32(0x20746d66) && w[16..20] == Le32(16) && w[20..22] == Le16(1)
      && w[22..24] == Le16(b.numberOfChannels) && w[24..28] == Le32(b.sampleRate)
      && w[28..32] == Le32(b.sampleRate * b.numberOfChannels * 2)
      && w[32..34] == Le16(b.numberOfChannels * 2) && w[34..36] == Le16(16)
  {
    var w := WavFile(b);
    var f := FmtPart(b);
    assert w[12..36] == f;
    assert w[12..16] == f[0..4] && w[16..20] == f[4..8] && w[20..22] == f[8..10] && w[22..24] == f[10..12];
    assert w[24..28] == f[12..16] && w[28..32] == f[16..20] && w[32..34] == f[20..22] && w[34..36] == f[22..24];
  }

  lemma DataSlices(b: AudioBuffer)
    requires WellFormed(b)
    ensures var w := WavFile(b);
      w[36..40] == Le32(0x61746164) && w[40..44] == Le32(FileLength(b) - 44)
  {
    var w := WavFile(b);
    assert w[36..44] == DataPart(b);
  }

  /** `setUint16` into the view: two bytes at `pos`; the new position is returned. */
  method PutUint16(view: array<byte>, pos: nat, x: int) returns (next: nat)
    requires pos + 2 <= view.Length
    modifies view
    ensures next == pos + 2
    ensures view[..next] == old(view[..pos]) + Le16(x)
  {
    var bytes := Le16(x);
    view[pos] := bytes[0];
    view[pos + 1] := bytes[1];
    next := pos + 2;
  }

  /** `setUint32` into the view: four bytes at `pos`; the new position is returned. */
  method PutUint32(view: array<byte>, pos: nat, x: int) returns (next: nat)
    requires pos + 4 <= view.Length
    modifies view
    ensures next == pos + 4
    ensures view[..next] == old(view[..pos]) + Le32(x)
  {
    var bytes := Le32(x);
    view[pos] := bytes[0];
    view[pos + 1] := bytes[1];
    view[pos + 2] := bytes[2];
    view[pos + 3] := bytes[3];
    next := pos + 4;
  }

  /** The header writes, one field after the other from position 0. */
  method WriteHeader(view: array<byte>, b: AudioBuffer, length: int) returns (pos: nat)
    requires length == FileLength(b) && view.Length == length >= 44
    modifies view
    ensures pos == 44 && view[..pos] == Header(b)
  {
    pos := WriteRiff(view, b, length);
    ghost var riff := view[..pos];
    pos := WriteFmt(view, b, pos);
    ghost var fmt := view[..pos];
    assert fmt == riff + FmtPart(b);
    pos := WriteData(view, b, length, pos);
    assert view[..pos] == fmt + DataPart(b);
  }

  /** `RIFF`, the file length less 8, `WAVE`. */
  method WriteRiff(view: array<byte>, b: AudioBuffer, length: int) returns (pos: nat)
    requires length == FileLength(b) && view.Length == length >= 44
    modifies view
    ensures pos == 12 && view[..pos] == RiffPart(b)
  {
    pos := PutUint32(view, 0, 0x46464952);
    pos := PutUint32(view, pos, length - 8);
    pos := PutUint32(view, pos, 0x45564157);
  }

  /** The `fmt ` chunk, written after the first 12 bytes. */
  method WriteFmt(view: array<byte>, b: AudioBuffer, start: nat) returns (pos: nat)
    requires start == 12 && view.Length >= 44
    modifies view
    ensures pos == 36 && view[..pos] == old(view[..start]) + FmtPart(b)
  {
    pos := PutUint32(view, start, 0x20746d66);
    pos := PutUint32(view, pos, 16);
    pos := PutUint16(view, pos, 1);
    pos := PutUint16(view, pos, b.numberOfChannels);
    pos := PutUint32(view, pos, b.sampleRate);
    pos := PutUint32(view, pos, b.sampleRate * b.numberOfChannels * 2);
    pos := PutUint16(view, pos, b.numberOfChannels * 2);
    pos := PutUint16(view, pos, 16);
  }

  /** `data` and the sample byte count, `length - pos - 4` at position 40. */
  method WriteData(view: array<byte>, b: AudioBuffer, length: int, start: nat) returns (pos: nat)
    requires start == 36 && length == FileLength(b) && view.Length == length >= 44
    modifies view
    ensures pos == 44 && view[..pos] == old(view[..start]) + DataPart(b)
  {
    pos := PutUint32(view, start, 0x61746164);
    pos := PutUint32(view, pos, length - pos - 4);
  }

  /** The inner loop: the samples of frame `i`, channel by channel, from `offset`. */
  method WriteFrame(view: array<byte>, b: AudioBuffer, i: nat, offset: nat) returns (next: nat)
    requires WellFormed(b) && i < b.length
    requires view.Length == 44 + |FrameBytes(b, b.length)| && offset == 44 + |FrameBytes(b, i)| <= view.Length
    requires view[..offset] == Header(b) + FrameBytes(b, i)
    modifies view
    ensures next == 44 + |FrameBytes(b, i + 1)| <= view.Length
    ensures view[..next] == Header(b) + FrameBytes(b, i + 1)
  {
    var ch := b.numberOfChannels;
    FramePrefix(b, i + 1, b.length);
    ghost var before := Header(b) + FrameBytes(b, i);
    next := offset;
    var channel := 0;
    while channel < ch
      invariant channel <= ch && next == offset + 2 * channel
      invariant view[..next] == before + ChannelBytes(b, i, channel)
    {
      ChannelPrefix(b, i, channel + 1, ch);
      assert |before + ChannelBytes(b, i, channel + 1)| <= view.Length;
      next := WriteSample(view, b, i, channel, next, before);
      channel := channel + 1;
    }
    AppendAssoc(Header(b), FrameBytes(b, i), ChannelBytes(b, i, ch));
  }

  /** One sample: clamp, scale, and store it as an int16 at `pos`. */
  method WriteSample(view: array<byte>, b: AudioBuffer, i: nat, channel: nat, pos: nat, ghost before: seq<byte>)
    returns (next: nat)
    requires WellFormed(b) && i < b.length && channel < b.numberOfChannels
    requires pos == |before| + 2 * channel && |before + ChannelBytes(b, i, channel + 1)| <= view.Length
    requires view[..pos] == before + ChannelBytes(b, i, channel)
    modifies view
    ensures next == pos + 2
    ensures view[..next] == before + ChannelBytes(b, i, channel + 1)
  {
    var sample := Clamp(b.channelData[channel][i]);
    var value := Trunc(if sample < 0.0 then sample * 32768.0 else sample * 32767.0);
    assert value == SampleValue(b.channelData[channel][i]);
    ghost var done := ChannelBytes(b, i, channel);
    next := PutUint16(view, pos, value);
    AppendAssoc(before, done, Le16(value));
  }

  /** The outer loop: every frame in turn, after the header. */
  method WriteFrames(view: array<byte>, b: AudioBuffer)
    requires WellFormed(b) && view.Length == 44 + |FrameBytes(b, b.length)|
    requires view[..44] == Header(b)
    modifies view
    ensures view[..] == Header(b) + FrameBytes(b, b.length)
  {
    var offset := 44;
    var i := 0;
    while i < b.length
      invariant i <= b.length && offset == 44 + |FrameBytes(b, i)| <= view.Length
      invariant view[..offset] == Header(b) + FrameBytes(b, i)
    {
      offset := WriteFrame(view, b, i, offset);
      i := i + 1;
    }
    assert view[..] == view[..offset];
  }

  /** `audioBufferToWav`: the bytes of the finished array buffer are exactly `WavFile(b)`. */
  method AudioBufferToWav(b: AudioBuffer) returns (view: array<byte>)
    requires WellFormed(b)
    ensures view[..] == WavFile(b)
  {
    var length := FileLength(b);
    view := new byte[length];
    WavLength(b);
    var pos := WriteHeader(view, b, length);
    WriteFrames(view, b);
  }
}
