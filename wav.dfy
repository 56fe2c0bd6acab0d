/** `float2Audio` (src/lib/utils.ts): a single-channel 16 kHz recording of
    32-bit float samples, wrapped in a 44-byte RIFF/WAVE header (format tag 3,
    WAVE_FORMAT_IEEE_FLOAT, of the RFC 2361 codec registry), base64-encoded
    (section 4 of RFC 4648) and returned as a `data:` URL (RFC 2397).
    A sample is an opaque group of four bytes: the model copies samples and
    never reads them as numbers. */
module Wav {
  import opened Js
  import Base64

  type Byte = Base64.Byte

  /** The four bytes one float sample occupies in the sample buffer, in buffer order. */
  datatype Sample = Sample(b0: Byte, b1: Byte, b2: Byte, b3: Byte)

  const NumChannels := 1
  const SampleRate := 16000
  const BytesPerSample := 4
  const BlockAlign := NumChannels * BytesPerSample
  const ByteRate := SampleRate * BlockAlign
  const FormatIeeeFloat := 3
  const HeaderSize := 44
  const TwoTo16 := 0x1_0000
  const TwoTo32 := 0x1_0000_0000

  const DataUrlPrefix := "data:audio/wav; codecs=1;base64,"

  /** `setUint16(offset, v, true)`: the value is reduced modulo 2^16 and
      written low byte first. */
  function U16LE(v: int): (r: seq<Byte>)
    ensures |r| == 2
  {
    var u := v % TwoTo16;
    [u % 256, u / 256]
  }

  /** `setUint32(offset, v, true)`: the value is reduced modulo 2^32 and
      written low byte first. */
  function U32LE(v: int): (r: seq<Byte>)
    ensures |r| == 4
  {
    var u := v % TwoTo32;
    [u % 256, (u / 256) % 256, (u / 0x1_0000) % 256, u / 0x100_0000]
  }

  /** The little-endian unsigned 16-bit integer at `off`. */
  function ReadU16LE(s: seq<Byte>, off: nat): int
    requires off + 2 <= |s|
  {
    s[off] as int + 256 * (s[off + 1] as int)
  }

  /** The little-endian unsigned 32-bit integer at `off`. */
  function ReadU32LE(s: seq<Byte>, off: nat): int
    requires off + 4 <= |s|
  {
    s[off] as int + 256 * (s[off + 1] as int) + 0x1_0000 * (s[off + 2] as int) + 0x100_0000 * (s[off + 3] as int)
  }

  lemma {:induction false} U16RoundTrip(v: int)
    ensures ReadU16LE(U16LE(v), 0) == v % TwoTo16
  {
    var u := v % TwoTo16;
    assert u == 256 * (u / 256) + u % 256;
  }

  lemma {:induction false} U32RoundTrip(v: int)
    ensures ReadU32LE(U32LE(v), 0) == v % TwoTo32
  {
    var u := v % TwoTo32;
    var q1 := u / 256;
    var q2 := q1 / 256;
    var q3 := q2 / 256;
    assert u == 256 * q1 + u % 256;
    assert q1 == 256 * q2 + q1 % 256;
    assert q2 == 256 * q3 + q2 % 256;
    assert u / 0x1_0000 == q2;
    assert u / 0x100_0000 == q3;
  }

  /** `writeString`: each character's code, one byte per character. */
  function Ascii(str: string): (r: seq<Byte>)
    ensures |r| == |str|
    ensures forall i :: 0 <= i < |str| ==> r[i] == (str[i] as int) % 256
  {
    if str == [] then [] else [(str[0] as int) % 256] + Ascii(str[1..])
  }

  /** The RIFF descriptor: tag, size of everything after these 8 bytes, form type. */
  function RiffDescriptor(dataSize: int): (r: seq<Byte>)
    ensures |r| == 12
  {
    Ascii("RIFF") + U32LE(36 + dataSize) + Ascii("WAVE")
  }

  /** The fmt chunk: tag, body size 16, then the format fields. */
  function FmtChunk(): (r: seq<Byte>)
    ensures |r| == 24
  {
    Ascii("fmt ") + U32LE(16) + U16LE(FormatIeeeFloat) + U16LE(NumChannels) +
    U32LE(SampleRate) + U32LE(ByteRate) + U16LE(BlockAlign) + U16LE(BytesPerSample * 8)
  }

  /** The data chunk's tag and size; the sample bytes follow it. */
  function DataChunkHeader(dataSize: int): (r: seq<Byte>)
    ensures |r| == 8
  {
    Ascii("data") + U32LE(dataSize)
  }

  /** The 44 header bytes for `dataSize` bytes of samples. */
  function Header(dataSize: int): (r: seq<Byte>)
    ensures |r| == HeaderSize
  {
    RiffDescriptor(dataSize) + FmtChunk() + DataChunkHeader(dataSize)
  }

  /** The bytes of the sample buffer, sample after sample. */
  function SampleBytes(samples: seq<Sample>): (r: seq<Byte>)
  {
    if samples == [] then []
    else [samples[0].b0, samples[0].b1, samples[0].b2, samples[0].b3] + SampleBytes(samples[1..])
  }

  /** Sample `i` sits, byte for byte, at offsets 4i .. 4i+3. */
  lemma {:induction false} SampleBytesLayout(samples: seq<Sample>, i: nat)
    requires i < |samples|
    ensures |SampleBytes(samples)| == BytesPerSample * |samples|
    ensures var b, k := SampleBytes(samples), BytesPerSample * i;
      b[k] == samples[i].b0 && b[k + 1] == samples[i].b1 &&
      b[k + 2] == samples[i].b2 && b[k + 3] == samples[i].b3
  {
    SampleBytesLength(samples[1..]);
    if i > 0 {
      SampleBytesLayout(samples[1..], i - 1);
    }
  }

  lemma {:induction false} SampleBytesLength(samples: seq<Sample>)
    ensures |SampleBytes(samples)| == BytesPerSample * |samples|
  {
    if samples != [] {
      SampleBytesLength(samples[1..]);
    }
  }

  /** The whole file: header, then the sample bytes. */
  function WavBytes(samples: seq<Sample>): seq<Byte> {
    Header(BytesPerSample * |samples|) + SampleBytes(samples)
  }

  /** The string `float2Audio` returns. */
  function DataUrl(samples: seq<Sample>): string {
    DataUrlPrefix + Base64.Encode(WavBytes(samples))
  }

  /** What a reader of the header learns. */
  datatype WavInfo = WavInfo(
    riffSize: int, formatTag: int, channels: int, sampleRate: int, byteRate: int,
    blockAlign: int, bitsPerSample: int, dataSize: int, data: seq<Byte>)

  /** Reads a canonical 44-byte-header WAVE file: the four chunk tags, a
      16-byte fmt chunk, and RIFF and data sizes that agree with the length. */
  function ParseWav(b: seq<Byte>): Option<WavInfo> {
    if |b| < HeaderSize then None
    else if b[0..4] != Ascii("RIFF") || b[8..12] != Ascii("WAVE") ||
            b[12..16] != Ascii("fmt ") || b[36..40] != Ascii("data") then None
    else if ReadU32LE(b, 16) != 16 then None
    else if ReadU32LE(b, 4) != |b| - 8 || ReadU32LE(b, 40) != |b| - HeaderSize then None
    else Some(WavInfo(ReadU32LE(b, 4), ReadU16LE(b, 20), ReadU16LE(b, 22), ReadU32LE(b, 24),
                      ReadU32LE(b, 28), ReadU16LE(b, 32), ReadU16LE(b, 34), ReadU32LE(b, 40),
                      b[HeaderSize..]))
  }

  /** Every field of the header, read back at its offset. While the sizes
      fit in 32 bits they are exact; beyond that `setUint32` wraps them. */
  lemma HeaderFields(dataSize: int)
    ensures var h := Header(dataSize);
      && h[0..4] == Ascii("RIFF") && h[8..12] == Ascii("WAVE")
      && h[12..16] == Ascii("fmt ") && h[36..40] == Ascii("data")
      && ReadU32LE(h, 4) == (36 + dataSize) % TwoTo32
      && ReadU32LE(h, 16) == 16
      && ReadU16LE(h, 20) == FormatIeeeFloat
      && ReadU16LE(h, 22) == 1
      && ReadU32LE(h, 24) == 16000
      && ReadU32LE(h, 28) == 64000
      && ReadU16LE(h, 32) == 4
      && ReadU16LE(h, 34) == 32
      && ReadU32LE(h, 40) == dataSize % TwoTo32
  {
    var h := Header(dataSize);
    RiffFields(dataSize);
    FmtFields();
    DataFields(dataSize);
    RiffPart(h, RiffDescriptor(dataSize), dataSize);
    FmtPart(h, FmtChunk());
    DataPart(h, DataChunkHeader(dataSize), dataSize);
  }

  lemma RiffPart(h: seq<Byte>, r: seq<Byte>, dataSize: int)
    requires |h| == HeaderSize && |r| == 12 && h[0..12] == r
    requires r[0..4] == Ascii("RIFF") && r[8..12] == Ascii("WAVE")
    requires ReadU32LE(r, 4) == (36 + dataSize) % TwoTo32
    ensures h[0..4] == Ascii("RIFF") && h[8..12] == Ascii("WAVE")
    ensures ReadU32LE(h, 4) == (36 + dataSize) % TwoTo32
  {
    SliceIn(h, 0, 12, 0, 4);
    SliceIn(h, 0, 12, 8, 4);
    U32In(h, 0, 12, 4);
  }

  lemma FmtPart(h: seq<Byte>, f: seq<Byte>)
    requires |h| == HeaderSize && |f| == 24 && h[12..36] == f
    requires && f[0..4] == Ascii("fmt ") && ReadU32LE(f, 4) == 16
             && ReadU16LE(f, 8) == FormatIeeeFloat && ReadU16LE(f, 10) == 1
             && ReadU32LE(f, 12) == 16000 && ReadU32LE(f, 16) == 64000
             && ReadU16LE(f, 20) == 4 && ReadU16LE(f, 22) == 32
    ensures && h[12..16] == Ascii("fmt ") && ReadU32LE(h, 16) == 16
            && ReadU16LE(h, 20) == FormatIeeeFloat && ReadU16LE(h, 22) == 1
            && ReadU32LE(h, 24) == 16000 && ReadU32LE(h, 28) == 64000
            && ReadU16LE(h, 32) == 4 && ReadU16LE(h, 34) == 32
  {
    SliceIn(h, 12, 24, 0, 4);
    U32In(h, 12, 24, 4);
    U16In(h, 12, 24, 8);
    U16In(h, 12, 24, 10);
    U32In(h, 12, 24, 12);
    U32In(h, 12, 24, 16);
    U16In(h, 12, 24, 20);
    U16In(h, 12, 24, 22);
  }

  lemma DataPart(h: seq<Byte>, d: seq<Byte>, dataSize: int)
    requires |h| == HeaderSize && |d| == 8 && h[36..44] == d
    requires d[0..4] == Ascii("data") && ReadU32LE(d, 4) == dataSize % TwoTo32
    ensures h[36..40] == Ascii("data") && ReadU32LE(h, 40) == dataSize % TwoTo32
  {
    SliceIn(h, 36, 8, 0, 4);
    U32In(h, 36, 8, 4);
  }

  lemma RiffFields(dataSize: int)
    ensures var r := RiffDescriptor(dataSize);
      r[0..4] == Ascii("RIFF") && r[8..12] == Ascii("WAVE") &&
      ReadU32LE(r, 4) == (36 + dataSize) % TwoTo32
  {
    ThreeParts(Ascii("RIFF"), U32LE(36 + dataSize), Ascii("WAVE"));
    U32RoundTrip(36 + dataSize);
  }

  lemma FmtFields()
    ensures var f := FmtChunk();
      && f[0..4] == Ascii("fmt ") && ReadU32LE(f, 4) == 16
      && ReadU16LE(f, 8) == FormatIeeeFloat && ReadU16LE(f, 10) == 1
      && ReadU32LE(f, 12) == 16000 && ReadU32LE(f, 16) == 64000
      && ReadU16LE(f, 20) == 4 && ReadU16LE(f, 22) == 32
  {
    EightParts(Ascii("fmt "), U32LE(16), U16LE(FormatIeeeFloat), U16LE(NumChannels),
               U32LE(SampleRate), U32LE(ByteRate), U16LE(BlockAlign), U16LE(BytesPerSample * 8));
    U32RoundTrip(16);
    U16RoundTrip(FormatIeeeFloat);
    U16RoundTrip(NumChannels);
    U32RoundTrip(SampleRate);
    U32RoundTrip(ByteRate);
    U16RoundTrip(BlockAlign);
    U16RoundTrip(BytesPerSample * 8);
  }

  lemma DataFields(dataSize: int)
    ensures var d := DataChunkHeader(dataSize);
      d[0..4] == Ascii("data") && ReadU32LE(d, 4) == dataSize % TwoTo32
  {
    var d := DataChunkHeader(dataSize);
    assert d[4..8] == U32LE(dataSize);
    U32Field(d, 4, dataSize);
  }

  /** Where the three 4-byte parts of the RIFF descriptor lie. */
  lemma ThreeParts(a: seq<Byte>, b: seq<Byte>, c: seq<Byte>)
    requires |a| == 4 && |b| == 4 && |c| == 4
    ensures var x := a + b + c;
      x[0..4] == a && ReadU32LE(x, 4) == ReadU32LE(b, 0) && x[8..12] == c
  {
  }

  /** Where the eight parts of the fmt chunk lie. */
  lemma EightParts(a: seq<Byte>, b: seq<Byte>, c: seq<Byte>, d: seq<Byte>,
                   e: seq<Byte>, f: seq<Byte>, g: seq<Byte>, h: seq<Byte>)
    requires |a| == 4 && |b| == 4 && |c| == 2 && |d| == 2
    requires |e| == 4 && |f| == 4 && |g| == 2 && |h| == 2
    ensures var x := a + b + c + d + e + f + g + h;
      && x[0..4] == a && ReadU32LE(x, 4) == ReadU32LE(b, 0)
      && ReadU16LE(x, 8) == ReadU16LE(c, 0) && ReadU16LE(x, 10) == ReadU16LE(d, 0)
      && ReadU32LE(x, 12) == ReadU32LE(e, 0) && ReadU32LE(x, 16) == ReadU32LE(f, 0)
      && ReadU16LE(x, 20) == ReadU16LE(g, 0) && ReadU16LE(x, 22) == ReadU16LE(h, 0)
  {
  }

  /** Reading inside a slice is reading at the shifted offset. */
  lemma SliceIn(s: seq<Byte>, start: nat, len: nat, off: nat, n: nat)
    requires start + len <= |s| && off + n <= len
    ensures s[start + off..start + off + n] == s[start..start + len][off..off + n]
  {
    var a, b := s[start + off..start + off + n], s[start..start + len][off..off + n];
    assert forall k :: 0 <= k < n ==> a[k] == b[k];
  }

  lemma U32In(s: seq<Byte>, start: nat, len: nat, off: nat)
    requires start + len <= |s| && off + 4 <= len
    ensures ReadU32LE(s, start + off) == ReadU32LE(s[start..start + len], off)
  {
  }

  lemma U16In(s: seq<Byte>, start: nat, len: nat, off: nat)
    requires start + len <= |s| && off + 2 <= len
    ensures ReadU16LE(s, start + off) == ReadU16LE(s[start..start + len], off)
  {
  }

  lemma U32Field(h: seq<Byte>, off: nat, v: int)
    requires off + 4 <= |h| && h[off..off + 4] == U32LE(v)
    ensures ReadU32LE(h, off) == v % TwoTo32
  {
    U32RoundTrip(v);
    assert ReadU32LE(h, off) == ReadU32LE(h[off..off + 4], 0);
  }

  /** The file is 44 + 4n bytes and its bytes from 44 on are the samples. */
  lemma WavLayout(samples: seq<Sample>)
    ensures |WavBytes(samples)| == HeaderSize + BytesPerSample * |samples|
    ensures WavBytes(samples)[..HeaderSize] == Header(BytesPerSample * |samples|)
    ensures WavBytes(samples)[HeaderSize..] == SampleBytes(samples)
  {
    SampleBytesLength(samples);
  }

  /** A reader recovers the format float2Audio promises and the samples,
      whenever the RIFF size still fits in 32 bits. */
  lemma WavRoundTrip(samples: seq<Sample>)
    requires 36 + BytesPerSample * |samples| < TwoTo32
    ensures ParseWav(WavBytes(samples)) ==
      Some(WavInfo(36 + 4 * |samples|, 3, 1, 16000, 64000, 4, 32, 4 * |samples|, SampleBytes(samples)))
  {
    SampleBytesLength(samples);
    HeaderParses(BytesPerSample * |samples|, SampleBytes(samples));
  }

  /** The header for `n` bytes, followed by `n` bytes, parses back. */
  lemma HeaderParses(n: int, d: seq<Byte>)
    requires n == |d| && 36 + n < TwoTo32
    ensures ParseWav(Header(n) + d) == Some(WavInfo(36 + n, 3, 1, 16000, 64000, 4, 32, n, d))
  {
    HeaderFields(n);
    SmallMod32(n);
    SmallMod32(36 + n);
    ParseFile(Header(n), d);
  }

  lemma SmallMod32(x: int)
    requires 0 <= x < TwoTo32
    ensures x % TwoTo32 == x
  {
  }

  /** A header holding the fields of `Header(|d|)`, followed by `d`, parses back. */
  lemma ParseFile(h: seq<Byte>, d: seq<Byte>)
    requires |h| == HeaderSize
    requires && h[0..4] == Ascii("RIFF") && h[8..12] == Ascii("WAVE")
             && h[12..16] == Ascii("fmt ") && h[36..40] == Ascii("data")
             && ReadU32LE(h, 4) == 36 + |d|
             && ReadU32LE(h, 16) == 16
             && ReadU16LE(h, 20) == FormatIeeeFloat && ReadU16LE(h, 22) == 1
             && ReadU32LE(h, 24) == 16000 && ReadU32LE(h, 28) == 64000
             && ReadU16LE(h, 32) == 4 && ReadU16LE(h, 34) == 32
             && ReadU32LE(h, 40) == |d|
    ensures ParseWav(h + d) == Some(WavInfo(36 + |d|, 3, 1, 16000, 64000, 4, 32, |d|, d))
  {
    PrefixAgrees(h, d);
  }

  /** What lies in the first 44 bytes of `h + d` is read from `h`. */
  lemma PrefixAgrees(h: seq<Byte>, d: seq<Byte>)
    requires |h| == HeaderSize
    ensures var b := h + d;
      && b[0..4] == h[0..4] && b[8..12] == h[8..12] && b[12..16] == h[12..16] && b[36..40] == h[36..40]
      && ReadU32LE(b, 4) == ReadU32LE(h, 4) && ReadU32LE(b, 16) == ReadU32LE(h, 16)
      && ReadU16LE(b, 20) == ReadU16LE(h, 20) && ReadU16LE(b, 22) == ReadU16LE(h, 22)
      && ReadU32LE(b, 24) == ReadU32LE(h, 24) && ReadU32LE(b, 28) == ReadU32LE(h, 28)
      && ReadU16LE(b, 32) == ReadU16LE(h, 32) && ReadU16LE(b, 34) == ReadU16LE(h, 34)
      && ReadU32LE(b, 40) == ReadU32LE(h, 40)
      && b[HeaderSize..] == d
  {
  }

  /** Splitting the URL at its prefix and decoding the rest gives the file back. */
  function ParseDataUrl(url: string): Option<seq<Byte>> {
    if |url| < |DataUrlPrefix| || url[..|DataUrlPrefix|] != DataUrlPrefix then None
    else Base64.Decode(url[|DataUrlPrefix|..])
  }

  /** The URL float2Audio returns carries the WAVE file, recoverable byte for byte. */
  lemma DataUrlRoundTrip(samples: seq<Sample>)
    ensures DataUrl(samples)[..|DataUrlPrefix|] == DataUrlPrefix
    ensures ParseDataUrl(DataUrl(samples)) == Some(WavBytes(samples))
  {
    var url := DataUrl(samples);
    assert url[|DataUrlPrefix|..] == Base64.Encode(WavBytes(samples));
    Base64.RoundTrip(WavBytes(samples));
  }

  // The encoder as the source runs it: DataView writes into a zeroed
  // 44-byte buffer, then two typed-array copies into the output buffer.
  // Each write is stated as the buffer's old contents overwritten at an
  // offset, and adjacent writes compose.

  /** `s` with the bytes from `off` on replaced by those of `p`. */
  function Overwrite(s: seq<Byte>, off: nat, p: seq<Byte>): (r: seq<Byte>)
    requires off + |p| <= |s|
    ensures |r| == |s|
  {
    s[..off] + p + s[off + |p|..]
  }

  /** Each byte of an overwrite comes from `p` inside the window and from `s` outside it. */
  lemma OverwriteAt(s: seq<Byte>, off: nat, p: seq<Byte>, i: nat)
    requires off + |p| <= |s| && i < |s|
    ensures Overwrite(s, off, p)[i] == if off <= i < off + |p| then p[i - off] else s[i]
  {
  }

  /** Writing `p` and then `q` right after it is writing `p + q`. */
  lemma OverwriteAdjacent(s: seq<Byte>, off: nat, p: seq<Byte>, q: seq<Byte>)
    requires off + |p| + |q| <= |s|
    ensures Overwrite(Overwrite(s, off, p), off + |p|, q) == Overwrite(s, off, p + q)
  {
    var a, b := Overwrite(Overwrite(s, off, p), off + |p|, q), Overwrite(s, off, p + q);
    forall i | 0 <= i < |s| ensures a[i] == b[i] {
      OverwriteAt(s, off, p, i);
      OverwriteAt(Overwrite(s, off, p), off + |p|, q, i);
      OverwriteAt(s, off, p + q, i);
    }
  }

  /** Writing nothing changes nothing; writing all of it replaces it. */
  lemma OverwriteEnds(s: seq<Byte>, off: nat, p: seq<Byte>)
    requires off <= |s|
    ensures Overwrite(s, off, []) == s
    ensures |p| == |s| ==> Overwrite(s, 0, p) == p
  {
    assert s[..off] + [] + s[off..] == s;
  }

  /** `view.setUint8(offset, value)`. */
  method SetUint8(view: array<Byte>, offset: nat, value: int)
    requires offset < view.Length
    modifies view
    ensures view[..] == Overwrite(old(view[..]), offset, [value % 256])
  {
    view[offset] := value % 256;
    forall i | 0 <= i < view.Length ensures view[i] == Overwrite(old(view[..]), offset, [value % 256])[i] {
      OverwriteAt(old(view[..]), offset, [value % 256], i);
    }
  }

  /** `view.setUint16(offset, value, true)`. */
  method SetUint16(view: array<Byte>, offset: nat, value: int)
    requires offset + 2 <= view.Length
    modifies view
    ensures view[..] == Overwrite(old(view[..]), offset, U16LE(value))
  {
    var u := value % TwoTo16;
    view[offset] := u % 256;
    view[offset + 1] := u / 256;
    forall i | 0 <= i < view.Length ensures view[i] == Overwrite(old(view[..]), offset, U16LE(value))[i] {
      OverwriteAt(old(view[..]), offset, U16LE(value), i);
    }
  }

  /** `view.setUint32(offset, value, true)`. */
  method SetUint32(view: array<Byte>, offset: nat, value: int)
    requires offset + 4 <= view.Length
    modifies view
    ensures view[..] == Overwrite(old(view[..]), offset, U32LE(value))
  {
    var u := value % TwoTo32;
    view[offset] := u % 256;
    view[offset + 1] := (u / 256) % 256;
    view[offset + 2] := (u / 0x1_0000) % 256;
    view[offset + 3] := u / 0x100_0000;
    forall i | 0 <= i < view.Length ensures view[i] == Overwrite(old(view[..]), offset, U32LE(value))[i] {
      OverwriteAt(old(view[..]), offset, U32LE(value), i);
    }
  }

  /** The codes of one more character extend the codes of the prefix. */
  lemma AsciiSnoc(str: string, i: nat)
    requires i < |str|
    ensures Ascii(str[..i + 1]) == Ascii(str[..i]) + [(str[i] as int) % 256]
  {
    var a, b := Ascii(str[..i + 1]), Ascii(str[..i]) + [(str[i] as int) % 256];
    assert forall k :: 0 <= k < i + 1 ==> a[k] == b[k];
  }

  /** One more character written after the codes of the prefix gives the codes of a longer prefix. */
  lemma WriteStringStep(s: seq<Byte>, offset: nat, str: string, i: nat, before: seq<Byte>, after: seq<Byte>)
    requires i < |str| && offset + |str| <= |s|
    requires before == Overwrite(s, offset, Ascii(str[..i]))
    requires after == Overwrite(before, offset + i, [(str[i] as int) % 256])
    ensures after == Overwrite(s, offset, Ascii(str[..i + 1]))
  {
    OverwriteAdjacent(s, offset, Ascii(str[..i]), [(str[i] as int) % 256]);
    AsciiSnoc(str, i);
  }

  /** `writeString(view, offset, str)`: one `setUint8` per character code. */
  method WriteString(view: array<Byte>, offset: nat, str: string)
    requires offset + |str| <= view.Length
    modifies view
    ensures view[..] == Overwrite(old(view[..]), offset, Ascii(str))
  {
    ghost var s := view[..];
    OverwriteEnds(s, offset, []);
    for i := 0 to |str|
      invariant view[..] == Overwrite(s, offset, Ascii(str[..i]))
    {
      ghost var before := view[..];
      SetUint8(view, offset + i, str[i] as int);
      WriteStringStep(s, offset, str, i, before, view[..]);
    }
    assert str[..|str|] == str;
  }

  /** The header writes of float2Audio, in source order, into a 44-byte view. */
  method WriteHeader(view: array<Byte>, dataSize: int)
    requires view.Length == HeaderSize
    modifies view
    ensures view[..] == Header(dataSize)
  {
    ghost var s := view[..];
    WriteRiffDescriptor(view, dataSize);
    WriteFmtChunk(view);
    WriteDataChunkHeader(view, dataSize);
    OverwriteAdjacent(s, 0, RiffDescriptor(dataSize), FmtChunk());
    OverwriteAdjacent(s, 0, RiffDescriptor(dataSize) + FmtChunk(), DataChunkHeader(dataSize));
    OverwriteEnds(s, 0, Header(dataSize));
  }

  method WriteRiffDescriptor(view: array<Byte>, dataSize: int)
    requires view.Length == HeaderSize
    modifies view
    ensures view[..] == Overwrite(old(view[..]), 0, RiffDescriptor(dataSize))
  {
    ghost var s := view[..];
    ghost var a, b, c := Ascii("RIFF"), U32LE(36 + dataSize), Ascii("WAVE");
    WriteString(view, 0, "RIFF");
    SetUint32(view, 4, 36 + dataSize);
    WriteString(view, 8, "WAVE");
    OverwriteAdjacent(s, 0, a, b);
    OverwriteAdjacent(s, 0, a + b, c);
  }

  method WriteFmtChunk(view: array<Byte>)
    requires view.Length == HeaderSize
    modifies view
    ensures view[..] == Overwrite(old(view[..]), 12, FmtChunk())
  {
    ghost var s := view[..];
    ghost var a, b, c, d := Ascii("fmt "), U32LE(16), U16LE(FormatIeeeFloat), U16LE(NumChannels);
    ghost var e, f, g, h := U32LE(SampleRate), U32LE(ByteRate), U16LE(BlockAlign), U16LE(BytesPerSample * 8);
    WriteString(view, 12, "fmt ");
    SetUint32(view, 16, 16);
    SetUint16(view, 20, FormatIeeeFloat);
    SetUint16(view, 22, NumChannels);
    SetUint32(view, 24, SampleRate);
    SetUint32(view, 28, ByteRate);
    SetUint16(view, 32, BlockAlign);
    SetUint16(view, 34, BytesPerSample * 8);
    OverwriteAdjacent(s, 12, a, b);
    OverwriteAdjacent(s, 12, a + b, c);
    OverwriteAdjacent(s, 12, a + b + c, d);
    OverwriteAdjacent(s, 12, a + b + c + d, e);
    OverwriteAdjacent(s, 12, a + b + c + d + e, f);
    OverwriteAdjacent(s, 12, a + b + c + d + e + f, g);
    OverwriteAdjacent(s, 12, a + b + c + d + e + f + g, h);
  }

  method WriteDataChunkHeader(view: array<Byte>, dataSize: int)
    requires view.Length == HeaderSize
    modifies view
    ensures view[..] == Overwrite(old(view[..]), 36, DataChunkHeader(dataSize))
  {
    ghost var s := view[..];
    WriteString(view, 36, "data");
    SetUint32(view, 40, dataSize);
    OverwriteAdjacent(s, 36, Ascii("data"), U32LE(dataSize));
  }

  /** `target.set(source, offset)`: copies `source` into place, nothing else changes. */
  method TypedArraySet(target: array<Byte>, source: seq<Byte>, offset: nat)
    requires offset + |source| <= target.Length
    modifies target
    ensures target[..] == Overwrite(old(target[..]), offset, source)
  {
    forall k | 0 <= k < |source| {
      target[offset + k] := source[k];
    }
    forall i | 0 <= i < target.Length ensures target[i] == Overwrite(old(target[..]), offset, source)[i] {
      OverwriteAt(old(target[..]), offset, source, i);
    }
  }

  /** `float2Audio(float32Array)`: header, samples, base64, data URL. */
  method Float2Audio(samples: seq<Sample>) returns (url: string)
    ensures url == DataUrl(samples)
  {
    var dataSize := BytesPerSample * |samples|;
    var wavHeader := new Byte[HeaderSize](_ => 0);
    WriteHeader(wavHeader, dataSize);
    var headerBytes := wavHeader[..];
    var dataBytes := SampleBytes(samples);
    SampleBytesLength(samples);
    var wavBytes := new Byte[|headerBytes| + |dataBytes|](_ => 0);
    ghost var z := wavBytes[..];
    TypedArraySet(wavBytes, headerBytes, 0);
    TypedArraySet(wavBytes, dataBytes, |headerBytes|);
    OverwriteAdjacent(z, 0, headerBytes, dataBytes);
    OverwriteEnds(z, 0, headerBytes + dataBytes);
    url := DataUrlPrefix + Base64.Encode(wavBytes[..]);
  }
}
