/**
 * The PCM encoder: a canonical 44-byte RIFF/WAVE header (a `fmt ` chunk
 * of 16 bytes with format tag 1 = PCM, one channel, 16 bits per sample)
 * followed by one little-endian signed 16-bit sample per float, each
 * `Math.round(clamp(x, -1, 1) * 32767)`.  The same writer appears in the
 * fallback route and in both batch scripts.
 */
module Wav {

  type Byte = x: int | 0 <= x < 256

  const HeaderSize: nat := 44
  const FmtChunkSize: nat := 16
  const FormatPcm: nat := 1
  const Channels: nat := 1
  const BitsPerSample: nat := 16
  /** `(numChannels * bitsPerSample) / 8`. */
  const BlockAlign: nat := 2
  const FullScale: real := 32767.0

  // ---------------------------------------------------------------------
  // Little-endian fields and their readers
  // ---------------------------------------------------------------------

  function ReadU16(b: seq<Byte>, off: nat): nat
    requires off + 2 <= |b|
  {
    b[off] as int + 256 * b[off + 1] as int
  }

  function ReadU32(b: seq<Byte>, off: nat): nat
    requires off + 4 <= |b|
  {
    b[off] as int + 256 * b[off + 1] as int + 65536 * b[off + 2] as int + 16777216 * b[off + 3] as int
  }

  /** A 16-bit field read back as a two's-complement signed value. */
  function ReadI16(b: seq<Byte>, off: nat): int
    requires off + 2 <= |b|
  {
    var u := ReadU16(b, off);
    if u >= 32768 then u - 65536 else u
  }

  /** `writeUInt16LE(v)`. */
  function U16LE(v: nat): (b: seq<Byte>)
    requires v < 0x10000
    ensures |b| == 2 && ReadU16(b, 0) == v
  {
    [v % 256, v / 256]
  }

  /** `writeUInt32LE(v)`. */
  function U32LE(v: nat): (b: seq<Byte>)
    requires v < 0x1_0000_0000
    ensures |b| == 4 && ReadU32(b, 0) == v
  {
    var b0, r0 := v % 256, v / 256;
    var b1, r1 := r0 % 256, r0 / 256;
    var b2, b3 := r1 % 256, r1 / 256;
    assert r0 == 256 * r1 + b1;
    assert v == 256 * r0 + b0;
    [b0, b1, b2, b3]
  }

  /** `writeInt16LE(v)`: two's complement, low byte first. */
  function I16LE(v: int): (b: seq<Byte>)
    requires -32768 <= v < 32768
    ensures |b| == 2 && ReadI16(b, 0) == v
  {
    U16LE(if v < 0 then v + 65536 else v)
  }

  /** `buffer.write(s)` for an ASCII tag: one byte per character. */
  function Ascii(s: string): (b: seq<Byte>)
    requires forall i :: 0 <= i < |s| ==> s[i] as int < 128
    ensures |b| == |s| && forall i :: 0 <= i < |s| ==> b[i] == s[i] as int
  {
    if s == [] then [] else [s[0] as int] + Ascii(s[1..])
  }

  // ---------------------------------------------------------------------
  // Sample quantisation
  // ---------------------------------------------------------------------

  /** `Math.max(-1, Math.min(1, x))`. */
  function Clamp(x: real): (c: real)
    ensures -1.0 <= c <= 1.0
    ensures -1.0 <= x <= 1.0 ==> c == x
    ensures x > 1.0 ==> c == 1.0
    ensures x < -1.0 ==> c == -1.0
  {
    if x > 1.0 then 1.0 else if x < -1.0 then -1.0 else x
  }

  /** `Math.round(y)`: nearest integer, halves rounded towards +infinity. */
  function Round(y: real): (r: int)
    ensures y - 0.5 < r as real <= y + 0.5
  {
    (y + 0.5).Floor
  }

  /**
   * The 16-bit value a float sample is stored as.  It is the integer nearest
   * to the clamped sample times 32767, so it never leaves [-32767, 32767].
   */
  function Quantize(x: real): (q: int)
    ensures -32767 <= q <= 32767
    ensures Clamp(x) * FullScale - 0.5 < q as real <= Clamp(x) * FullScale + 0.5
  {
    Round(Clamp(x) * FullScale)
  }

  /** The four chunk tags, as the bytes `buffer.write` lays down for them. */
  const RiffTag: seq<Byte> := [0x52, 0x49, 0x46, 0x46]
  const WaveTag: seq<Byte> := [0x57, 0x41, 0x56, 0x45]
  const FmtTag: seq<Byte> := [0x66, 0x6d, 0x74, 0x20]
  const DataTag: seq<Byte> := [0x64, 0x61, 0x74, 0x61]

  /** Each tag is the ASCII spelling of its name. */
  lemma TagsAreAscii()
    ensures RiffTag == Ascii("RIFF") && WaveTag == Ascii("WAVE")
    ensures FmtTag == Ascii("fmt ") && DataTag == Ascii("data")
  {
    TagAscii(RiffTag, "RIFF");
    TagAscii(WaveTag, "WAVE");
    TagAscii(FmtTag, "fmt ");
    TagAscii(DataTag, "data");
  }

  lemma TagAscii(tag: seq<Byte>, s: string)
    requires |tag| == |s| && forall i :: 0 <= i < |s| ==> s[i] as int < 128 && tag[i] == s[i] as int
    ensures tag == Ascii(s)
  {
  }

  // ---------------------------------------------------------------------
  // The container
  // ---------------------------------------------------------------------

  /** Every header field fits its 32-bit slot (`writeUInt32LE` throws otherwise). */
  predicate Fits(sampleCount: nat, sampleRate: nat)
  {
    36 + 2 * sampleCount < 0x1_0000_0000 && sampleRate * BlockAlign < 0x1_0000_0000
  }

  /** The 44-byte header: the RIFF descriptor, the `fmt ` sub-chunk and the `data` sub-chunk header. */
  function Header(sampleCount: nat, sampleRate: nat): (h: seq<Byte>)
    requires Fits(sampleCount, sampleRate)
    ensures |h| == HeaderSize
  {
    RiffPart(2 * sampleCount) + FmtPart(sampleRate) + DataPart(2 * sampleCount)
  }

  /** The RIFF chunk descriptor: "RIFF", 36 + dataSize, "WAVE". */
  function RiffPart(dataSize: nat): (b: seq<Byte>)
    requires 36 + dataSize < 0x1_0000_0000
    ensures |b| == 12
  {
    RiffTag + U32LE(36 + dataSize) + WaveTag
  }

  /** The `fmt ` sub-chunk: size 16, PCM, mono, then the rates and the sample layout. */
  function FmtPart(sampleRate: nat): (b: seq<Byte>)
    requires sampleRate * BlockAlign < 0x1_0000_0000
    ensures |b| == 24
  {
    FmtHead() + FmtRates(sampleRate)
  }

  /** "fmt ", 16, 1 (PCM), 1 (mono). */
  function FmtHead(): (b: seq<Byte>)
    ensures |b| == 12
  {
    FmtTag + U32LE(FmtChunkSize) + U16LE(FormatPcm) + U16LE(Channels)
  }

  /** sampleRate, byteRate = sampleRate * blockAlign, blockAlign, bitsPerSample. */
  function FmtRates(sampleRate: nat): (b: seq<Byte>)
    requires sampleRate * BlockAlign < 0x1_0000_0000
    ensures |b| == 12
  {
    U32LE(sampleRate) + U32LE(sampleRate * BlockAlign) + U16LE(BlockAlign) + U16LE(BitsPerSample)
  }

  /** The `data` sub-chunk header: "data", dataSize. */
  function DataPart(dataSize: nat): (b: seq<Byte>)
    requires dataSize < 0x1_0000_0000
    ensures |b| == 8
  {
    DataTag + U32LE(dataSize)
  }

  /** The data chunk: two bytes per sample, in order. */
  function Pcm(samples: seq<real>): (b: seq<Byte>)
    ensures |b| == 2 * |samples|
  {
    if samples == [] then []
    else Pcm(samples[..|samples| - 1]) + I16LE(Quantize(samples[|samples| - 1]))
  }

  /** The whole file the writer produces. */
  function WavBytes(samples: seq<real>, sampleRate: nat): (w: seq<Byte>)
    requires Fits(|samples|, sampleRate)
    ensures |w| == HeaderSize + 2 * |samples|
  {
    Header(|samples|, sampleRate) + Pcm(samples)
  }

  /**
   * Reading the header back yields the documented fields: the chunk tags,
   * RIFF size 36 + dataSize, fmt size 16, PCM, mono, the sample rate,
   * byteRate = 2 * sampleRate, blockAlign 2, 16 bits, dataSize = 2n.
   */
  lemma HeaderFields(samples: seq<real>, sampleRate: nat)
    requires Fits(|samples|, sampleRate)
    ensures var w, n := WavBytes(samples, sampleRate), |samples|;
      && w[0..4] == RiffTag
      && ReadU32(w, 4) == 36 + 2 * n
      && w[8..12] == WaveTag
      && w[12..16] == FmtTag
      && ReadU32(w, 16) == 16
      && ReadU16(w, 20) == 1
      && ReadU16(w, 22) == 1
      && ReadU32(w, 24) == sampleRate
      && ReadU32(w, 28) == 2 * sampleRate
      && ReadU16(w, 32) == 2
      && ReadU16(w, 34) == 16
      && w[36..40] == DataTag
      && ReadU32(w, 40) == 2 * n
  {
    var n := |samples|;
    var riff, fmt, data := RiffPart(2 * n), FmtPart(sampleRate), DataPart(2 * n);
    var pcm := Pcm(samples);
    RiffFields(2 * n);
    FmtFields(sampleRate);
    DataFields(2 * n);
    // WavBytes is ((riff + fmt) + data) + pcm: peel off the samples, then the data header, then fmt.
    Left(riff + fmt + data, pcm, 0, 44);
    Left(riff + fmt, data, 0, 36);
    Right(riff + fmt, data);
    Left(riff, fmt, 0, 12);
    Right(riff, fmt);
  }

  /** The RIFF descriptor reads back as "RIFF", 36 + dataSize, "WAVE". */
  lemma RiffFields(dataSize: nat)
    requires 36 + dataSize < 0x1_0000_0000
    ensures var r := RiffPart(dataSize);
      r[0..4] == RiffTag && ReadU32(r, 4) == 36 + dataSize && r[8..12] == WaveTag
  {
    var r := RiffPart(dataSize);
    assert r[4..8] == U32LE(36 + dataSize);
    FieldU32(r, 4, 36 + dataSize);
  }

  /** The `fmt ` sub-chunk reads back as its eight fields. */
  lemma FmtFields(sampleRate: nat)
    requires sampleRate * BlockAlign < 0x1_0000_0000
    ensures var f := FmtPart(sampleRate);
      && f[0..4] == FmtTag && ReadU32(f, 4) == 16 && ReadU16(f, 8) == 1 && ReadU16(f, 10) == 1
      && ReadU32(f, 12) == sampleRate && ReadU32(f, 16) == 2 * sampleRate
      && ReadU16(f, 20) == 2 && ReadU16(f, 22) == 16
  {
    var head, rates := FmtHead(), FmtRates(sampleRate);
    assert head[4..8] == U32LE(FmtChunkSize);
    FieldU32(head, 4, 16);
    assert head[8..10] == U16LE(FormatPcm);
    FieldU16(head, 8, 1);
    assert head[10..12] == U16LE(Channels);
    FieldU16(head, 10, 1);
    assert rates[0..4] == U32LE(sampleRate);
    FieldU32(rates, 0, sampleRate);
    assert rates[4..8] == U32LE(2 * sampleRate);
    FieldU32(rates, 4, 2 * sampleRate);
    assert rates[8..10] == U16LE(BlockAlign);
    FieldU16(rates, 8, 2);
    assert rates[10..12] == U16LE(BitsPerSample);
    FieldU16(rates, 10, 16);
    Left(head, rates, 0, 12);
    Right(head, rates);
  }

  /** The `data` header reads back as "data", dataSize. */
  lemma DataFields(dataSize: nat)
    requires dataSize < 0x1_0000_0000
    ensures var d := DataPart(dataSize);
      d[0..4] == DataTag && ReadU32(d, 4) == dataSize
  {
    var d := DataPart(dataSize);
    assert d[4..8] == U32LE(dataSize);
    FieldU32(d, 4, dataSize);
  }

  /** Bytes `lo` to `hi` of `a` keep their place in `a + b`, and so does every field read inside them. */
  lemma Left(a: seq<Byte>, b: seq<Byte>, lo: nat, hi: nat)
    requires lo <= hi <= |a|
    ensures (a + b)[lo..hi] == a[lo..hi]
    ensures forall off :: lo <= off && off + 4 <= hi ==> ReadU32(a + b, off) == ReadU32(a, off)
    ensures forall off :: lo <= off && off + 2 <= hi ==> ReadU16(a + b, off) == ReadU16(a, off)
  {
  }

  /** The bytes of `b` sit |a| further on in `a + b`, and so does every field read in them. */
  lemma Right(a: seq<Byte>, b: seq<Byte>)
    ensures (a + b)[|a|..] == b
    ensures forall off :: 0 <= off && off + 4 <= |b| ==> ReadU32(a + b, |a| + off) == ReadU32(b, off)
    ensures forall off :: 0 <= off && off + 2 <= |b| ==> ReadU16(a + b, |a| + off) == ReadU16(b, off)
  {
  }

  /** A 32-bit field laid down at `off` reads back as its value. */
  lemma FieldU32(b: seq<Byte>, off: nat, v: nat)
    requires v < 0x1_0000_0000 && off + 4 <= |b| && b[off..off + 4] == U32LE(v)
    ensures ReadU32(b, off) == v
  {
    assert b[off + 1] == b[off..off + 4][1] && b[off + 2] == b[off..off + 4][2];
  }

  /** A 16-bit field laid down at `off` reads back as its value. */
  lemma FieldU16(b: seq<Byte>, off: nat, v: nat)
    requires v < 0x10000 && off + 2 <= |b| && b[off..off + 2] == U16LE(v)
    ensures ReadU16(b, off) == v
  {
    assert b[off + 1] == b[off..off + 2][1];
  }

  /** Bytes 2k and 2k + 1 of the data chunk hold sample k. */
  lemma {:induction false} PcmAt(samples: seq<real>, k: nat)
    requires k < |samples|
    ensures Pcm(samples)[2 * k..2 * k + 2] == I16LE(Quantize(samples[k]))
    decreases |samples|
  {
    var init := samples[..|samples| - 1];
    if k < |samples| - 1 {
      PcmAt(init, k);
      assert init[k] == samples[k];
      assert Pcm(samples)[2 * k..2 * k + 2] == Pcm(init)[2 * k..2 * k + 2];
    }
  }

  /**
   * Decoding the 16-bit value at offset 44 + 2k gives back the quantised
   * sample k, which is within [-32767, 32767]: no wrap-around.
   */
  lemma SampleAt(samples: seq<real>, sampleRate: nat, k: nat)
    requires Fits(|samples|, sampleRate) && k < |samples|
    ensures var w := WavBytes(samples, sampleRate);
      && ReadI16(w, HeaderSize + 2 * k) == Quantize(samples[k])
      && -32767 <= ReadI16(w, HeaderSize + 2 * k) <= 32767
  {
    var w := WavBytes(samples, sampleRate);
    PcmAt(samples, k);
    var b := I16LE(Quantize(samples[k]));
    assert w[HeaderSize + 2 * k] == b[0] && w[HeaderSize + 2 * k + 1] == b[1];
  }

  // ---------------------------------------------------------------------
  // The writer
  // ---------------------------------------------------------------------

  /** Writes `bytes` at offset `o` and advances the offset (`ws`, `u16`, `u32`). */
  method Put(buf: array<Byte>, o: nat, bytes: seq<Byte>) returns (next: nat)
    requires o + |bytes| <= buf.Length
    modifies buf
    ensures next == o + |bytes|
    ensures buf[..next] == old(buf[..o]) + bytes
    ensures forall j :: next <= j < buf.Length ==> buf[j] == old(buf[j])
  {
    var j := 0;
    while j < |bytes|
      invariant 0 <= j <= |bytes|
      invariant buf[..o] == old(buf[..o])
      invariant buf[o..o + j] == bytes[..j]
      invariant forall i :: o + |bytes| <= i < buf.Length ==> buf[i] == old(buf[i])
    {
      buf[o + j] := bytes[j];
      j := j + 1;
    }
    next := o + |bytes|;
    assert buf[..next] == buf[..o] + buf[o..next];
  }

  /** `ws("RIFF"); u32(36 + dataSize); ws("WAVE")`. */
  method WriteRiff(buf: array<Byte>, o: nat, dataSize: nat) returns (next: nat)
    requires 36 + dataSize < 0x1_0000_0000 && o + 12 <= buf.Length
    modifies buf
    ensures next == o + 12
    ensures buf[..next] == old(buf[..o]) + RiffPart(dataSize)
    ensures forall j :: next <= j < buf.Length ==> buf[j] == old(buf[j])
  {
    next := Put(buf, o, RiffTag);
    next := Put(buf, next, U32LE(36 + dataSize));
    next := Put(buf, next, WaveTag);
  }

  /** `ws("fmt "); u32(16); u16(1); u16(numChannels); u32(sampleRate); u32(byteRate); u16(blockAlign); u16(bitsPerSample)`. */
  method WriteFmt(buf: array<Byte>, o: nat, sampleRate: nat) returns (next: nat)
    requires sampleRate * BlockAlign < 0x1_0000_0000 && o + 24 <= buf.Length
    modifies buf
    ensures next == o + 24
    ensures buf[..next] == old(buf[..o]) + FmtPart(sampleRate)
    ensures forall j :: next <= j < buf.Length ==> buf[j] == old(buf[j])
  {
    next := WriteFmtHead(buf, o);
    next := WriteFmtRates(buf, next, sampleRate);
  }

  /** `ws("fmt "); u32(16); u16(1); u16(numChannels)`. */
  method WriteFmtHead(buf: array<Byte>, o: nat) returns (next: nat)
    requires o + 12 <= buf.Length
    modifies buf
    ensures next == o + 12
    ensures buf[..next] == old(buf[..o]) + FmtHead()
    ensures forall j :: next <= j < buf.Length ==> buf[j] == old(buf[j])
  {
    next := Put(buf, o, FmtTag);
    next := Put(buf, next, U32LE(FmtChunkSize));
    next := Put(buf, next, U16LE(FormatPcm));
    next := Put(buf, next, U16LE(Channels));
  }

  /** `u32(sampleRate); u32(byteRate); u16(blockAlign); u16(bitsPerSample)`. */
  method WriteFmtRates(buf: array<Byte>, o: nat, sampleRate: nat) returns (next: nat)
    requires sampleRate * BlockAlign < 0x1_0000_0000 && o + 12 <= buf.Length
    modifies buf
    ensures next == o + 12
    ensures buf[..next] == old(buf[..o]) + FmtRates(sampleRate)
    ensures forall j :: next <= j < buf.Length ==> buf[j] == old(buf[j])
  {
    next := Put(buf, o, U32LE(sampleRate));
    next := Put(buf, next, U32LE(sampleRate * BlockAlign));
    next := Put(buf, next, U16LE(BlockAlign));
    next := Put(buf, next, U16LE(BitsPerSample));
  }

  /** `ws("data"); u32(dataSize)`. */
  method WriteDataHeader(buf: array<Byte>, o: nat, dataSize: nat) returns (next: nat)
    requires dataSize < 0x1_0000_0000 && o + 8 <= buf.Length
    modifies buf
    ensures next == o + 8
    ensures buf[..next] == old(buf[..o]) + DataPart(dataSize)
    ensures forall j :: next <= j < buf.Length ==> buf[j] == old(buf[j])
  {
    next := Put(buf, o, DataTag);
    next := Put(buf, next, U32LE(dataSize));
  }

  /** The header writes, through the moving offset. */
  method WriteHeader(buf: array<Byte>, sampleCount: nat, sampleRate: nat) returns (o: nat)
    requires Fits(sampleCount, sampleRate) && HeaderSize <= buf.Length
    modifies buf
    ensures o == HeaderSize
    ensures buf[..o] == Header(sampleCount, sampleRate)
    ensures forall j :: o <= j < buf.Length ==> buf[j] == old(buf[j])
  {
    var dataSize := sampleCount * 2;
    ghost var riff, fmt, data := RiffPart(dataSize), FmtPart(sampleRate), DataPart(dataSize);
    o := WriteRiff(buf, 0, dataSize);
    assert buf[..o] == riff;
    o := WriteFmt(buf, o, sampleRate);
    assert buf[..o] == riff + fmt;
    o := WriteDataHeader(buf, o, dataSize);
    assert buf[..o] == riff + fmt + data;
  }

  /** `buildWavBase64FromFloat` / `writeWav` up to the byte buffer. */
  method BuildWav(samples: array<real>, sampleRate: nat) returns (buf: array<Byte>)
    requires Fits(samples.Length, sampleRate)
    ensures fresh(buf)
    ensures buf[..] == WavBytes(samples[..], sampleRate)
  {
    var dataSize := samples.Length * 2;
    buf := new Byte[HeaderSize + dataSize](_ => 0);
    var o := WriteHeader(buf, samples.Length, sampleRate);

    var i := 0;
    while i < samples.Length
      invariant 0 <= i <= samples.Length
      invariant o == HeaderSize + 2 * i
      invariant buf[..o] == Header(samples.Length, sampleRate) + Pcm(samples[..i])
    {
      var s := Clamp(samples[i]);
      var q := Round(s * FullScale);
      assert samples[..i + 1][..i] == samples[..i];
      o := Put(buf, o, I16LE(q));
      i := i + 1;
    }
    assert samples[..] == samples[..i];
    assert buf[..] == buf[..o];
  }
}
