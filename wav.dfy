/**
 * The RIFF/WAVE container written around raw 16-bit PCM audio: a 44-byte
 * header (the RIFF descriptor, the "fmt " sub-chunk and the "data" sub-chunk
 * header, all numbers little-endian) followed by the samples unchanged.
 */
module Wav {
  import opened Wrappers

  newtype byte = x: int | 0 <= x < 256

  const TwoTo16: nat := 0x1_0000
  const TwoTo32: nat := 0x1_0000_0000
  const HeaderSize: nat := 44
  const DefaultSampleRate: nat := 24000
  const DefaultChannels: nat := 1

  /** `setUint16(_, v, true)`: v taken modulo 2^16, low byte first. */
  function U16LE(v: nat): (b: seq<byte>)
    ensures |b| == 2
  {
    var w := v % TwoTo16;
    [(w % 256) as byte, (w / 256) as byte]
  }

  /** `setUint32(_, v, true)`: v taken modulo 2^32, low byte first. */
  function U32LE(v: nat): (b: seq<byte>)
    ensures |b| == 4
  {
    var w := v % TwoTo32;
    [(w % 256) as byte, (w / 0x100 % 256) as byte, (w / 0x1_0000 % 256) as byte, (w / 0x100_0000) as byte]
  }

  function ReadU16LE(b: seq<byte>): nat
    requires |b| == 2
  {
    b[0] as nat + 256 * b[1] as nat
  }

  function ReadU32LE(b: seq<byte>): nat
    requires |b| == 4
  {
    b[0] as nat + 0x100 * b[1] as nat + 0x1_0000 * b[2] as nat + 0x100_0000 * b[3] as nat
  }

  lemma U16RoundTrip(v: nat)
    ensures ReadU16LE(U16LE(v)) == v % TwoTo16
  {
  }

  lemma U32RoundTrip(v: nat)
    ensures ReadU32LE(U32LE(v)) == v % TwoTo32
  {
    var w := v % TwoTo32;
    var b0, r0 := w % 256, w / 256;
    var b1, r1 := r0 % 256, r0 / 256;
    var b2, b3 := r1 % 256, r1 / 256;
    assert w / 0x100 % 256 == b1;
    assert w / 0x1_0000 == r1;
    assert w / 0x100_0000 == b3;
    assert w == b0 + 256 * (b1 + 256 * (b2 + 256 * b3));
  }

  /** `view.setUint8(offset + i, s.charCodeAt(i))` for each character: the code modulo 256. */
  function Ascii(s: string): (b: seq<byte>)
    ensures |b| == |s|
    ensures forall i :: 0 <= i < |s| ==> b[i] as int == s[i] as int % 256
  {
    if s == [] then [] else [(s[0] as int % 256) as byte] + Ascii(s[1..])
  }

  /** The RIFF chunk descriptor: tag, size of the rest of the file, format tag. */
  function RiffDescriptor(dataLength: nat): (b: seq<byte>)
    ensures |b| == 12
  {
    Ascii("RIFF") + U32LE(36 + dataLength) + Ascii("WAVE")
  }

  /** The "fmt " sub-chunk of 16-bit PCM. */
  function FmtChunk(sampleRate: nat, numChannels: nat): (b: seq<byte>)
    ensures |b| == 24
  {
    Ascii("fmt ") + U32LE(16) + U16LE(1) + U16LE(numChannels)
    + U32LE(sampleRate) + U32LE(sampleRate * numChannels * 2) + U16LE(numChannels * 2) + U16LE(16)
  }

  /** The header of the "data" sub-chunk. */
  function DataChunkHeader(dataLength: nat): (b: seq<byte>)
    ensures |b| == 8
  {
    Ascii("data") + U32LE(dataLength)
  }

  function Header(dataLength: nat, sampleRate: nat, numChannels: nat): (h: seq<byte>)
    ensures |h| == HeaderSize
  {
    RiffDescriptor(dataLength) + FmtChunk(sampleRate, numChannels) + DataChunkHeader(dataLength)
  }

  function WavFile(pcm: seq<byte>, sampleRate: nat, numChannels: nat): seq<byte> {
    Header(|pcm|, sampleRate, numChannels) + pcm
  }

  /** What a reader of a file with the canonical 44-byte header recovers. */
  datatype WavInfo = WavInfo(audioFormat: nat, numChannels: nat, sampleRate: nat, byteRate: nat,
                             blockAlign: nat, bitsPerSample: nat, samples: seq<byte>)

  /** The size field of a RIFF descriptor, None unless both tags are in place. */
  function DecodeRiff(b: seq<byte>): Option<nat>
    requires |b| == 12
  {
    if b[0..4] == Ascii("RIFF") && b[8..12] == Ascii("WAVE") then Some(ReadU32LE(b[4..8])) else None
  }

  /** A "fmt " sub-chunk of size 16, read into a WavInfo without samples. */
  function DecodeFmt(b: seq<byte>): Option<WavInfo>
    requires |b| == 24
  {
    if b[0..4] != Ascii("fmt ") || ReadU32LE(b[4..8]) != 16 then None
    else Some(WavInfo(
      audioFormat := ReadU16LE(b[8..10]),
      numChannels := ReadU16LE(b[10..12]),
      sampleRate := ReadU32LE(b[12..16]),
      byteRate := ReadU32LE(b[16..20]),
      blockAlign := ReadU16LE(b[20..22]),
      bitsPerSample := ReadU16LE(b[22..24]),
      samples := []))
  }

  function DecodeDataHeader(b: seq<byte>): Option<nat>
    requires |b| == 8
  {
    if b[0..4] == Ascii("data") then Some(ReadU32LE(b[4..8])) else None
  }

  /**
   * Reads a file with the canonical header back: None unless the four tags
   * are in place and both chunk sizes agree with the length of the file.
   */
  function DecodeWav(w: seq<byte>): (r: Option<WavInfo>)
    ensures r.Some? ==> |w| >= HeaderSize && r.value.samples == w[HeaderSize..]
  {
    if |w| < HeaderSize then None
    else CombineChunks(DecodeRiff(w[..12]), DecodeFmt(w[12..36]), DecodeDataHeader(w[36..44]), w[HeaderSize..])
  }

  /** The three decoded header parts, accepted when both sizes match the samples that follow. */
  function CombineChunks(riff: Option<nat>, fmt: Option<WavInfo>, dataSize: Option<nat>, samples: seq<byte>): (r: Option<WavInfo>)
    ensures r.Some? ==> r.value.samples == samples
  {
    if riff.Some? && fmt.Some? && dataSize.Some? && riff.value == 36 + |samples| && dataSize.value == |samples|
    then Some(fmt.value.(samples := samples))
    else None
  }

  lemma RiffRoundTrip(dataLength: nat)
    ensures DecodeRiff(RiffDescriptor(dataLength)) == Some((36 + dataLength) % TwoTo32)
  {
    var b := RiffDescriptor(dataLength);
    var front := Ascii("RIFF") + U32LE(36 + dataLength);
    Peel(front, Ascii("WAVE"));
    Peel(Ascii("RIFF"), U32LE(36 + dataLength));
    assert b[..8] == front && b[0..4] == front[..4] && b[4..8] == front[4..];
    U32RoundTrip(36 + dataLength);
  }

  lemma SmallMod(v: nat)
    requires v < TwoTo32
    ensures v % TwoTo32 == v
  {
  }

  lemma Peel(front: seq<byte>, field: seq<byte>)
    ensures (front + field)[..|front|] == front
    ensures (front + field)[|front|..] == field
  {
  }

  /** Where each field of the "fmt " sub-chunk sits. */
  lemma FmtLayout(sampleRate: nat, numChannels: nat)
    ensures var b := FmtChunk(sampleRate, numChannels);
            && b[0..4] == Ascii("fmt ") && b[4..8] == U32LE(16) && b[8..10] == U16LE(1)
            && b[10..12] == U16LE(numChannels) && b[12..16] == U32LE(sampleRate)
            && b[16..20] == U32LE(sampleRate * numChannels * 2) && b[20..22] == U16LE(numChannels * 2)
            && b[22..24] == U16LE(16)
  {
    var p1 := Ascii("fmt ");
    var p2 := p1 + U32LE(16);
    var p3 := p2 + U16LE(1);
    var p4 := p3 + U16LE(numChannels);
    var p5 := p4 + U32LE(sampleRate);
    var p6 := p5 + U32LE(sampleRate * numChannels * 2);
    var p7 := p6 + U16LE(numChannels * 2);
    var b := p7 + U16LE(16);
    assert b == FmtChunk(sampleRate, numChannels);
    Peel(p7, U16LE(16));
    Peel(p6, U16LE(numChannels * 2));
    Peel(p5, U32LE(sampleRate * numChannels * 2));
    Peel(p4, U32LE(sampleRate));
    Peel(p3, U16LE(numChannels));
    Peel(p2, U16LE(1));
    Peel(p1, U32LE(16));
    assert b[..20] == p6 && b[..16] == p5 && b[..12] == p4 && b[..10] == p3 && b[..8] == p2 && b[..4] == p1;
  }

  lemma FmtRoundTrip(sampleRate: nat, numChannels: nat)
    ensures DecodeFmt(FmtChunk(sampleRate, numChannels))
         == Some(WavInfo(1, numChannels % TwoTo16, sampleRate % TwoTo32, sampleRate * numChannels * 2 % TwoTo32,
                         numChannels * 2 % TwoTo16, 16, []))
  {
    FmtLayout(sampleRate, numChannels);
    U32RoundTrip(16);
    U16RoundTrip(1);
    U16RoundTrip(numChannels);
    U32RoundTrip(sampleRate);
    U32RoundTrip(sampleRate * numChannels * 2);
    U16RoundTrip(numChannels * 2);
    U16RoundTrip(16);
  }

  lemma DataHeaderRoundTrip(dataLength: nat)
    ensures DecodeDataHeader(DataChunkHeader(dataLength)) == Some(dataLength % TwoTo32)
  {
    var b := DataChunkHeader(dataLength);
    Peel(Ascii("data"), U32LE(dataLength));
    assert b[0..4] == b[..4];
    U32RoundTrip(dataLength);
  }

  /**
   * The file decodes back to the samples and the format it was written with,
   * PCM (format 1) at 16 bits, as long as the sizes fit the 32-bit fields.
   */
  lemma WavRoundTrip(pcm: seq<byte>, sampleRate: nat, numChannels: nat)
    requires 36 + |pcm| < TwoTo32
    ensures DecodeWav(WavFile(pcm, sampleRate, numChannels))
         == Some(WavInfo(1, numChannels % TwoTo16, sampleRate % TwoTo32, sampleRate * numChannels * 2 % TwoTo32,
                         numChannels * 2 % TwoTo16, 16, pcm))
  {
    var w := WavFile(pcm, sampleRate, numChannels);
    var n := |pcm|;
    WavLayout(pcm, sampleRate, numChannels);
    assert DecodeRiff(w[..12]) == Some(36 + n) by {
      RiffRoundTrip(n);
      SmallMod(36 + n);
    }
    assert DecodeFmt(w[12..36]) == Some(WavInfo(1, numChannels % TwoTo16, sampleRate % TwoTo32,
                                                sampleRate * numChannels * 2 % TwoTo32, numChannels * 2 % TwoTo16, 16, [])) by {
      FmtRoundTrip(sampleRate, numChannels);
    }
    assert DecodeDataHeader(w[36..44]) == Some(n) by {
      DataHeaderRoundTrip(n);
      SmallMod(n);
    }
  }

  /** The header is 44 bytes and the samples follow it unchanged. */
  lemma WavLayout(pcm: seq<byte>, sampleRate: nat, numChannels: nat)
    ensures var w := WavFile(pcm, sampleRate, numChannels);
            |w| == HeaderSize + |pcm| && w[HeaderSize..] == pcm
            && w[..12] == RiffDescriptor(|pcm|) && w[12..36] == FmtChunk(sampleRate, numChannels)
            && w[36..44] == DataChunkHeader(|pcm|)
  {
    var w := WavFile(pcm, sampleRate, numChannels);
    assert w[..12] == RiffDescriptor(|pcm|);
    assert w[12..36] == FmtChunk(sampleRate, numChannels);
  }

  // ---------------------------------------------------------------------------
  // The writer: a zeroed buffer of 44 + n bytes filled field by field
  // ---------------------------------------------------------------------------

  /** `writeString`: one byte per character, starting at `offset`. */
  method WriteString(buf: array<byte>, offset: nat, s: string)
    requires offset + |s| <= buf.Length
    modifies buf
    ensures buf[..] == old(buf[..offset]) + Ascii(s) + old(buf[offset + |s|..])
  {
    ghost var before := buf[..];
    var i := 0;
    while i < |s|
      invariant 0 <= i <= |s|
      invariant forall k :: 0 <= k < offset ==> buf[k] == before[k]
      invariant forall k :: 0 <= k < i ==> buf[offset + k] as int == s[k] as int % 256
      invariant forall k :: offset + i <= k < buf.Length ==> buf[k] == before[k]
    {
      buf[offset + i] := (s[i] as int % 256) as byte;
      i := i + 1;
    }
    Splice(before, buf[..], offset, Ascii(s));
  }

  /** A sequence that agrees with `before` outside `[offset, offset + |mid|)` and with `mid` inside it. */
  lemma Splice(before: seq<byte>, after: seq<byte>, offset: nat, mid: seq<byte>)
    requires |after| == |before| && offset + |mid| <= |before|
    requires forall k :: 0 <= k < offset ==> after[k] == before[k]
    requires forall k :: 0 <= k < |mid| ==> after[offset + k] == mid[k]
    requires forall k :: offset + |mid| <= k < |after| ==> after[k] == before[k]
    ensures after == before[..offset] + mid + before[offset + |mid|..]
  {
    var expected := before[..offset] + mid + before[offset + |mid|..];
    forall k | 0 <= k < |after| ensures after[k] == expected[k] {
      if offset <= k < offset + |mid| {
        assert after[offset + (k - offset)] == mid[k - offset];
      }
    }
  }

  /** `setUint16(offset, v, true)`. */
  method SetUint16(buf: array<byte>, offset: nat, v: nat)
    requires offset + 2 <= buf.Length
    modifies buf
    ensures buf[..] == old(buf[..offset]) + U16LE(v) + old(buf[offset + 2..])
  {
    var w := v % TwoTo16;
    buf[offset] := (w % 256) as byte;
    buf[offset + 1] := (w / 256) as byte;
  }

  /** `setUint32(offset, v, true)`. */
  method SetUint32(buf: array<byte>, offset: nat, v: nat)
    requires offset + 4 <= buf.Length
    modifies buf
    ensures buf[..] == old(buf[..offset]) + U32LE(v) + old(buf[offset + 4..])
  {
    var w := v % TwoTo32;
    buf[offset] := (w % 256) as byte;
    buf[offset + 1] := (w / 0x100 % 256) as byte;
    buf[offset + 2] := (w / 0x1_0000 % 256) as byte;
    buf[offset + 3] := (w / 0x100_0000) as byte;
  }

  /**
   * One field written at `offset` behind the already written bytes
   * `before[base..offset]`: the written span grows by the field and
   * everything before `base` and from `untouched` on stays as it was.
   */
  lemma StepWrite(before: seq<byte>, after: seq<byte>, base: nat, offset: nat, field: seq<byte>,
                  written: seq<byte>, untouched: nat)
    requires base <= offset && offset + |field| <= untouched <= |before|
    requires after == before[..offset] + field + before[offset + |field|..]
    requires before[base..offset] == written
    ensures after[base..offset + |field|] == written + field
    ensures after[..base] == before[..base]
    ensures after[untouched..] == before[untouched..]
  {
  }

  lemma AfterWrite(before: seq<byte>, field: seq<byte>, after: seq<byte>, base: nat)
    requires base <= |before|
    ensures (before + field + after)[..base] == before[..base]
    ensures (before + field + after)[base..|before| + |field|] == before[base..] + field
  {
  }

  /** The RIFF chunk descriptor at offsets 0 to 11. */
  method WriteRiffDescriptor(buf: array<byte>, dataLength: nat)
    requires 12 <= buf.Length
    modifies buf
    ensures buf[..12] == RiffDescriptor(dataLength)
    ensures buf[12..] == old(buf[12..])
  {
    ghost var tail := buf[12..];
    WriteString(buf, 0, "RIFF");
    AfterWrite([], Ascii("RIFF"), buf[4..], 0);
    assert buf[12..] == tail;
    ghost var written := Ascii("RIFF");
    SetUint32(buf, 4, 36 + dataLength);
    AfterWrite(buf[..4], U32LE(36 + dataLength), buf[8..], 0);
    assert buf[12..] == tail;
    written := written + U32LE(36 + dataLength);
    assert buf[..8] == written;
    WriteString(buf, 8, "WAVE");
    written := written + Ascii("WAVE");
    assert buf[..12] == written;
    assert buf[12..] == tail;
  }

  /** The "fmt " sub-chunk at offsets 12 to 35. */
  method WriteFmtChunk(buf: array<byte>, sampleRate: nat, numChannels: nat)
    requires 36 <= buf.Length
    modifies buf
    ensures buf[..12] == old(buf[..12])
    ensures buf[12..36] == FmtChunk(sampleRate, numChannels)
    ensures buf[36..] == old(buf[36..])
  {
    WriteString(buf, 12, "fmt ");
    ghost var written := Ascii("fmt ");
    assert buf[12..16] == written;
    ghost var before16 := buf[..];
    SetUint32(buf, 16, 16);
    StepWrite(before16, buf[..], 12, 16, U32LE(16), written, 36);
    written := written + U32LE(16);
    ghost var before20 := buf[..];
    SetUint16(buf, 20, 1);
    StepWrite(before20, buf[..], 12, 20, U16LE(1), written, 36);
    written := written + U16LE(1);
    ghost var before22 := buf[..];
    SetUint16(buf, 22, numChannels);
    StepWrite(before22, buf[..], 12, 22, U16LE(numChannels), written, 36);
    written := written + U16LE(numChannels);
    ghost var before24 := buf[..];
    SetUint32(buf, 24, sampleRate);
    StepWrite(before24, buf[..], 12, 24, U32LE(sampleRate), written, 36);
    written := written + U32LE(sampleRate);
    ghost var before28 := buf[..];
    SetUint32(buf, 28, sampleRate * numChannels * 2);
    StepWrite(before28, buf[..], 12, 28, U32LE(sampleRate * numChannels * 2), written, 36);
    written := written + U32LE(sampleRate * numChannels * 2);
    ghost var before32 := buf[..];
    SetUint16(buf, 32, numChannels * 2);
    StepWrite(before32, buf[..], 12, 32, U16LE(numChannels * 2), written, 36);
    written := written + U16LE(numChannels * 2);
    ghost var before34 := buf[..];
    SetUint16(buf, 34, 16);
    StepWrite(before34, buf[..], 12, 34, U16LE(16), written, 36);
    written := written + U16LE(16);
  }

  /** The "data" sub-chunk header at offsets 36 to 43. */
  method WriteDataChunkHeader(buf: array<byte>, dataLength: nat)
    requires 44 <= buf.Length
    modifies buf
    ensures buf[..36] == old(buf[..36])
    ensures buf[36..44] == DataChunkHeader(dataLength)
    ensures buf[44..] == old(buf[44..])
  {
    WriteString(buf, 36, "data");
    SetUint32(buf, 40, dataLength);
  }

  /** The 44-byte header at the front of the buffer. */
  method WriteHeader(buf: array<byte>, dataLength: nat, sampleRate: nat, numChannels: nat)
    requires HeaderSize <= buf.Length
    modifies buf
    ensures buf[..HeaderSize] == Header(dataLength, sampleRate, numChannels)
    ensures buf[HeaderSize..] == old(buf[HeaderSize..])
  {
    WriteRiffDescriptor(buf, dataLength);
    ghost var riff := buf[..12];
    WriteFmtChunk(buf, sampleRate, numChannels);
    ghost var fmt := buf[12..36];
    ghost var mid := buf[..];
    WriteDataChunkHeader(buf, dataLength);
    PrefixParts(mid, buf[..]);
    assert buf[..12] == riff && buf[12..36] == fmt;
    assert buf[..HeaderSize] == buf[..12] + buf[12..36] + buf[36..44];
  }

  lemma PrefixParts(a: seq<byte>, b: seq<byte>)
    requires |a| == |b| >= 36 && a[..36] == b[..36]
    ensures a[..12] == b[..12] && a[12..36] == b[12..36]
  {
    assert a[..12] == a[..36][..12] && b[..12] == b[..36][..12];
    assert a[12..36] == a[..36][12..] && b[12..36] == b[..36][12..];
  }

  /** The WAV file for the given samples, as `pcmToWav` builds it. */
  method PcmToWav(pcm: seq<byte>, sampleRate: nat := DefaultSampleRate, numChannels: nat := DefaultChannels)
    returns (wav: seq<byte>)
    ensures wav == WavFile(pcm, sampleRate, numChannels)
  {
    var buf := new byte[HeaderSize + |pcm|](_ => 0);
    WriteHeader(buf, |pcm|, sampleRate, numChannels);
    // `new Uint8Array(buffer, 44).set(pcmData)`
    forall i | 0 <= i < |pcm| {
      buf[HeaderSize + i] := pcm[i];
    }
    assert buf[HeaderSize..] == pcm;
    assert buf[..] == buf[..HeaderSize] + buf[HeaderSize..];
    wav := buf[..];
  }
}
