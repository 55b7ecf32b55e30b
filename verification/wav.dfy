/** The canonical 44-byte RIFF/WAVE header for mono 16-bit linear PCM
    (Microsoft/IBM Multimedia Programming Interface and Data Specifications
    1.0, "WAVE" form): a `RIFF` chunk of form type `WAVE` holding a 16-byte
    `fmt ` chunk (format tag 1 = PCM) followed by the `data` chunk header.
    All numbers are little-endian. */
module Wav {
  import opened Wrappers

  newtype byte = x: int | 0 <= x < 256

  const HeaderSize: nat := 44
  const TwoTo16: nat := 0x1_0000
  const TwoTo32: nat := 0x1_0000_0000

  /** The byte a `DataView` stores for a non-negative number: its value
      modulo 256 (ECMAScript ToUint8). */
  function Low8(v: nat): byte {
    (v % 256) as byte
  }

  /** One byte per character: its char code through ToUint8, as both
      `DataView.setUint8` and a `Uint8Array` element assignment store it. */
  function CharBytes(s: string): seq<byte> {
    seq(|s|, i requires 0 <= i < |s| => Low8(s[i] as int))
  }

  /** The bytes `setUint16(offset, v, true)` stores: ToUint16(v), low byte first. */
  function U16LE(v: nat): seq<byte> {
    [Low8(v), Low8(v / 0x100)]
  }

  /** The bytes `setUint32(offset, v, true)` stores: ToUint32(v), low byte first. */
  function U32LE(v: nat): seq<byte> {
    [Low8(v), Low8(v / 0x100), Low8(v / 0x1_0000), Low8(v / 0x100_0000)]
  }

  /** A little-endian unsigned 16-bit read (`getUint16(offset, true)`). */
  function DecodeU16LE(b: seq<byte>, offset: nat): (v: nat)
    requires offset + 2 <= |b|
    ensures v < TwoTo16
  {
    b[offset] as nat + 0x100 * b[offset + 1] as nat
  }

  /** A little-endian unsigned 32-bit read (`getUint32(offset, true)`). */
  function DecodeU32LE(b: seq<byte>, offset: nat): (v: nat)
    requires offset + 4 <= |b|
    ensures v < TwoTo32
  {
    b[offset] as nat + 0x100 * b[offset + 1] as nat
    + 0x1_0000 * b[offset + 2] as nat + 0x100_0000 * b[offset + 3] as nat
  }

  /** Reading back a 16-bit field gives the stored value modulo 2^16. */
  lemma U16RoundTrip(v: nat)
    ensures DecodeU16LE(U16LE(v), 0) == v % TwoTo16
  {
    var q := v / 0x100;
    assert v == 0x100 * q + v % 0x100;
    assert q == 0x100 * (q / 0x100) + q % 0x100;
    assert v / TwoTo16 == q / 0x100;
  }

  /** Reading back a 32-bit field gives the stored value modulo 2^32. */
  lemma U32RoundTrip(v: nat)
    ensures DecodeU32LE(U32LE(v), 0) == v % TwoTo32
  {
    var q1 := v / 0x100;
    var q2 := q1 / 0x100;
    var q3 := q2 / 0x100;
    assert v == 0x100 * q1 + v % 0x100;
    assert q1 == 0x100 * q2 + q1 % 0x100;
    assert q2 == 0x100 * q3 + q2 % 0x100;
    assert q3 == 0x100 * (q3 / 0x100) + q3 % 0x100;
    assert v / 0x1_0000 == q2;
    assert v / 0x100_0000 == q3;
    assert v / TwoTo32 == q3 / 0x100;
  }

  /** Bytes 0-11: the RIFF chunk header (tag, size of the rest of the file)
      and the form type `WAVE`. */
  function RiffHeader(dataLength: nat): seq<byte> {
    CharBytes("RIFF") + U32LE(36 + dataLength) + CharBytes("WAVE")
  }

  /** Bytes 12-35: the `fmt ` chunk: 16 bytes of PCM format, mono, the sample
      rate, a byte rate of two bytes per sample, block align 2 and 16 bits per
      sample. */
  function FormatChunk(sampleRate: nat): seq<byte> {
    CharBytes("fmt ") + U32LE(16) + U16LE(1) + U16LE(1)
    + U32LE(sampleRate) + U32LE(sampleRate * 2) + U16LE(2) + U16LE(16)
  }

  /** Bytes 36-43: the `data` chunk header. */
  function DataHeader(dataLength: nat): seq<byte> {
    CharBytes("data") + U32LE(dataLength)
  }

  /** The header `createWavHeader(dataLength, sampleRate)` builds. */
  function WavHeader(dataLength: nat, sampleRate: nat): (h: seq<byte>)
    ensures |h| == HeaderSize
  {
    RiffHeader(dataLength) + FormatChunk(sampleRate) + DataHeader(dataLength)
  }

  /** What a reader of the header learns from it. */
  datatype WavFormat = WavFormat(
    riffSize: nat,
    audioFormat: nat,
    channels: nat,
    sampleRate: nat,
    byteRate: nat,
    blockAlign: nat,
    bitsPerSample: nat,
    dataLength: nat)

  /** A reader of the canonical header: the four chunk tags must be in place
      and the `fmt ` chunk must be 16 bytes long; the numeric fields are read
      as stored. */
  function ParseHeader(b: seq<byte>): (r: Option<WavFormat>)
    ensures r.Some? ==> |b| >= HeaderSize && b[0..4] == CharBytes("RIFF") && b[8..12] == CharBytes("WAVE")
                        && b[12..16] == CharBytes("fmt ") && b[36..40] == CharBytes("data")
    ensures r.Some? ==> r.value.riffSize < TwoTo32 && r.value.dataLength < TwoTo32
  {
    if |b| < HeaderSize || b[0..4] != CharBytes("RIFF") || b[8..12] != CharBytes("WAVE")
       || b[12..16] != CharBytes("fmt ") || DecodeU32LE(b, 16) != 16 || b[36..40] != CharBytes("data")
    then None
    else Some(WavFormat(
      DecodeU32LE(b, 4), DecodeU16LE(b, 20), DecodeU16LE(b, 22), DecodeU32LE(b, 24),
      DecodeU32LE(b, 28), DecodeU16LE(b, 32), DecodeU16LE(b, 34), DecodeU32LE(b, 40)))
  }

  /** A 32-bit field found in place decodes to its value modulo 2^32. */
  lemma FieldU32(b: seq<byte>, offset: nat, v: nat)
    requires offset + 4 <= |b| && b[offset..offset + 4] == U32LE(v)
    ensures DecodeU32LE(b, offset) == v % TwoTo32
  {
    U32RoundTrip(v);
    assert b[offset..offset + 4][0] == b[offset] && b[offset..offset + 4][1] == b[offset + 1];
    assert b[offset..offset + 4][2] == b[offset + 2] && b[offset..offset + 4][3] == b[offset + 3];
  }

  /** A 16-bit field found in place decodes to its value modulo 2^16. */
  lemma FieldU16(b: seq<byte>, offset: nat, v: nat)
    requires offset + 2 <= |b| && b[offset..offset + 2] == U16LE(v)
    ensures DecodeU16LE(b, offset) == v % TwoTo16
  {
    U16RoundTrip(v);
    assert b[offset..offset + 2][0] == b[offset] && b[offset..offset + 2][1] == b[offset + 1];
  }

  /** Where each piece of the RIFF header sits within it. */
  lemma RiffHeaderPieces(dataLength: nat)
    ensures var riff := RiffHeader(dataLength);
      |riff| == 12 && riff[0..4] == CharBytes("RIFF") && riff[4..8] == U32LE(36 + dataLength)
      && riff[8..12] == CharBytes("WAVE")
  {
  }

  /** Where each field of the `fmt ` chunk sits within it. */
  lemma FormatChunkPieces(sampleRate: nat)
    ensures var fmt := FormatChunk(sampleRate);
      |fmt| == 24 && fmt[0..4] == CharBytes("fmt ") && fmt[4..8] == U32LE(16)
      && fmt[8..10] == U16LE(1) && fmt[10..12] == U16LE(1)
      && fmt[12..16] == U32LE(sampleRate) && fmt[16..20] == U32LE(sampleRate * 2)
      && fmt[20..22] == U16LE(2) && fmt[22..24] == U16LE(16)
  {
    var fmt := FormatChunk(sampleRate);
    var head := CharBytes("fmt ") + U32LE(16) + U16LE(1) + U16LE(1);
    var rates := U32LE(sampleRate) + U32LE(sampleRate * 2) + U16LE(2) + U16LE(16);
    assert fmt == head + rates;
    assert fmt[..12] == head && fmt[12..] == rates;
  }

  /** Where each chunk sits within the header. */
  lemma HeaderChunks(dataLength: nat, sampleRate: nat)
    ensures var h := WavHeader(dataLength, sampleRate);
      h[0..12] == RiffHeader(dataLength) && h[12..36] == FormatChunk(sampleRate)
      && h[36..44] == DataHeader(dataLength)
  {
    RiffHeaderPieces(dataLength);
    FormatChunkPieces(sampleRate);
  }

  /** The four chunk tags sit at offsets 0, 8, 12 and 36. */
  lemma HeaderTags(dataLength: nat, sampleRate: nat)
    ensures var h := WavHeader(dataLength, sampleRate);
      && h[0..4] == CharBytes("RIFF") && h[8..12] == CharBytes("WAVE")
      && h[12..16] == CharBytes("fmt ") && h[36..40] == CharBytes("data")
  {
    var h := WavHeader(dataLength, sampleRate);
    HeaderChunks(dataLength, sampleRate);
    RiffHeaderPieces(dataLength);
    FormatChunkPieces(sampleRate);
    assert h[0..4] == h[0..12][0..4];
    assert h[8..12] == h[0..12][8..12];
    assert h[12..16] == h[12..36][0..4];
    assert h[36..40] == h[36..44][0..4];
  }

  /** The RIFF size field reads `36 + dataLength` and the data size field
      reads `dataLength`, both modulo 2^32. */
  lemma HeaderSizes(dataLength: nat, sampleRate: nat)
    ensures var h := WavHeader(dataLength, sampleRate);
      && DecodeU32LE(h, 4) == (36 + dataLength) % TwoTo32
      && DecodeU32LE(h, 40) == dataLength % TwoTo32
  {
    var h := WavHeader(dataLength, sampleRate);
    HeaderChunks(dataLength, sampleRate);
    RiffHeaderPieces(dataLength);
    assert h[4..8] == h[0..12][4..8];
    FieldU32(h, 4, 36 + dataLength);
    assert h[40..44] == h[36..44][4..8];
    FieldU32(h, 40, dataLength);
  }

  /** The `fmt ` chunk reads: size 16, format 1 (PCM), 1 channel, the sample
      rate, twice the sample rate as byte rate (modulo 2^32), block align 2,
      16 bits per sample. */
  lemma HeaderFormat(dataLength: nat, sampleRate: nat)
    ensures var h := WavHeader(dataLength, sampleRate);
      && DecodeU32LE(h, 16) == 16
      && DecodeU16LE(h, 20) == 1
      && DecodeU16LE(h, 22) == 1
      && DecodeU32LE(h, 24) == sampleRate % TwoTo32
      && DecodeU32LE(h, 28) == (sampleRate * 2) % TwoTo32
      && DecodeU16LE(h, 32) == 2
      && DecodeU16LE(h, 34) == 16
  {
    var h := WavHeader(dataLength, sampleRate);
    var fmt := FormatChunk(sampleRate);
    HeaderChunks(dataLength, sampleRate);
    FormatChunkPieces(sampleRate);
    assert h[16..20] == fmt[4..8];
    FieldU32(h, 16, 16);
    assert h[20..22] == fmt[8..10];
    FieldU16(h, 20, 1);
    assert h[22..24] == fmt[10..12];
    FieldU16(h, 22, 1);
    assert h[24..28] == fmt[12..16];
    FieldU32(h, 24, sampleRate);
    assert h[28..32] == fmt[16..20];
    FieldU32(h, 28, sampleRate * 2);
    assert h[32..34] == fmt[20..22];
    FieldU16(h, 32, 2);
    assert h[34..36] == fmt[22..24];
    FieldU16(h, 34, 16);
  }

  /** Round trip: while the sizes fit their 32-bit fields, reading the header
      back yields a mono 16-bit PCM stream at `sampleRate` whose RIFF size is
      `36 + dataLength` and whose data chunk is `dataLength` bytes; the byte
      rate is the sample rate times the block align. */
  lemma HeaderRoundTrip(dataLength: nat, sampleRate: nat)
    requires 36 + dataLength < TwoTo32 && sampleRate * 2 < TwoTo32
    ensures ParseHeader(WavHeader(dataLength, sampleRate))
            == Some(WavFormat(36 + dataLength, 1, 1, sampleRate, sampleRate * 2, 2, 16, dataLength))
    ensures var f := ParseHeader(WavHeader(dataLength, sampleRate)).value;
            f.byteRate == f.sampleRate * f.blockAlign
            && f.blockAlign == f.channels * f.bitsPerSample / 8
            && f.riffSize == HeaderSize - 8 + f.dataLength
  {
    var h := WavHeader(dataLength, sampleRate);
    HeaderTags(dataLength, sampleRate);
    HeaderSizes(dataLength, sampleRate);
    HeaderFormat(dataLength, sampleRate);
    SmallMod(36 + dataLength);
    SmallMod(sampleRate);
    SmallMod(sampleRate * 2);
    SmallMod(dataLength);
    assert ParseHeader(h) == Some(WavFormat(
      DecodeU32LE(h, 4), DecodeU16LE(h, 20), DecodeU16LE(h, 22), DecodeU32LE(h, 24),
      DecodeU32LE(h, 28), DecodeU16LE(h, 32), DecodeU16LE(h, 34), DecodeU32LE(h, 40)));
  }

  lemma SmallMod(x: nat)
    requires x < TwoTo32
    ensures x % TwoTo32 == x
  {
  }

  /** Past 2^32 - 37 bytes of audio the size fields wrap around and no longer
      describe the data that follows. */
  lemma HeaderSizeWraps(dataLength: nat, sampleRate: nat)
    requires 36 + dataLength >= TwoTo32
    ensures DecodeU32LE(WavHeader(dataLength, sampleRate), 4) != 36 + dataLength
  {
    HeaderSizes(dataLength, sampleRate);
  }

  /** The header decoder looks at the first 44 bytes only, so it reads a
      header followed by any payload as it reads the header alone. */
  lemma ParseHeaderIgnoresPayload(h: seq<byte>, payload: seq<byte>)
    requires |h| == HeaderSize
    ensures ParseHeader(h + payload) == ParseHeader(h)
  {
    var b := h + payload;
    assert b[..HeaderSize] == h;
    assert b[0..4] == h[0..4] && b[8..12] == h[8..12] && b[12..16] == h[12..16] && b[36..40] == h[36..40];
    assert forall k :: 0 <= k < HeaderSize ==> b[k] == h[k];
  }

  /** `buf` with `b` written over it from `offset` on. */
  function Splice(buf: seq<byte>, offset: nat, b: seq<byte>): seq<byte>
    requires offset + |b| <= |buf|
  {
    buf[..offset] + b + buf[offset + |b|..]
  }

  /** Two adjacent writes amount to one write of both pieces. */
  lemma SpliceAdjacent(buf: seq<byte>, offset: nat, a: seq<byte>, b: seq<byte>)
    requires offset + |a| + |b| <= |buf|
    ensures Splice(Splice(buf, offset, a), offset + |a|, b) == Splice(buf, offset, a + b)
  {
    var once := Splice(buf, offset, a);
    assert once[..offset + |a|] == buf[..offset] + a;
    assert once[offset + |a| + |b|..] == buf[offset + |a| + |b|..];
  }

  /** The inner `writeString(offset, string)` of `createWavHeader`: one
      `setUint8` per character. */
  method WriteString(view: array<byte>, offset: nat, s: string)
    requires offset + |s| <= view.Length
    modifies view
    ensures view[..] == Splice(old(view[..]), offset, CharBytes(s))
  {
    for i := 0 to |s|
      invariant forall k :: 0 <= k < view.Length ==>
                  view[k] == if offset <= k < offset + i then CharBytes(s)[k - offset] else old(view[k])
    {
      view[offset + i] := Low8(s[i] as int);
    }
    assert view[..] == Splice(old(view[..]), offset, CharBytes(s));
  }

  /** `DataView.setUint16(offset, v, true)` */
  method SetUint16(view: array<byte>, offset: nat, v: nat)
    requires offset + 2 <= view.Length
    modifies view
    ensures view[..] == Splice(old(view[..]), offset, U16LE(v))
  {
    view[offset] := Low8(v);
    view[offset + 1] := Low8(v / 0x100);
    assert view[..] == Splice(old(view[..]), offset, U16LE(v));
  }

  /** `DataView.setUint32(offset, v, true)` */
  method SetUint32(view: array<byte>, offset: nat, v: nat)
    requires offset + 4 <= view.Length
    modifies view
    ensures view[..] == Splice(old(view[..]), offset, U32LE(v))
  {
    view[offset] := Low8(v);
    view[offset + 1] := Low8(v / 0x100);
    view[offset + 2] := Low8(v / 0x1_0000);
    view[offset + 3] := Low8(v / 0x100_0000);
    assert view[..] == Splice(old(view[..]), offset, U32LE(v));
  }

  /** The first three writes of `createWavHeader`. */
  method WriteRiffHeader(view: array<byte>, dataLength: nat)
    requires view.Length == HeaderSize
    modifies view
    ensures view[..12] == RiffHeader(dataLength) && view[12..] == old(view[12..])
  {
    ghost var blank := view[..];
    WriteString(view, 0, "RIFF");
    SetUint32(view, 4, 36 + dataLength);
    SpliceAdjacent(blank, 0, CharBytes("RIFF"), U32LE(36 + dataLength));
    WriteString(view, 8, "WAVE");
    SpliceAdjacent(blank, 0, CharBytes("RIFF") + U32LE(36 + dataLength), CharBytes("WAVE"));
    RiffHeaderPieces(dataLength);
    assert view[..] == Splice(blank, 0, RiffHeader(dataLength));
  }

  /** The `fmt ` chunk writes of `createWavHeader`. */
  method WriteFormatChunk(view: array<byte>, sampleRate: nat)
    requires view.Length == HeaderSize
    modifies view
    ensures view[..12] == old(view[..12]) && view[12..36] == FormatChunk(sampleRate)
    ensures view[36..] == old(view[36..])
  {
    ghost var blank := view[..];
    ghost var written := CharBytes("fmt ");
    WriteString(view, 12, "fmt ");
    SetUint32(view, 16, 16);
    SpliceAdjacent(blank, 12, written, U32LE(16));
    written := written + U32LE(16);
    SetUint16(view, 20, 1); // PCM
    SpliceAdjacent(blank, 12, written, U16LE(1));
    written := written + U16LE(1);
    SetUint16(view, 22, 1); // mono
    SpliceAdjacent(blank, 12, written, U16LE(1));
    written := written + U16LE(1);
    SetUint32(view, 24, sampleRate);
    SpliceAdjacent(blank, 12, written, U32LE(sampleRate));
    written := written + U32LE(sampleRate);
    SetUint32(view, 28, sampleRate * 2); // byte rate
    SpliceAdjacent(blank, 12, written, U32LE(sampleRate * 2));
    written := written + U32LE(sampleRate * 2);
    SetUint16(view, 32, 2); // block align
    SpliceAdjacent(blank, 12, written, U16LE(2));
    written := written + U16LE(2);
    SetUint16(view, 34, 16); // bits per sample
    SpliceAdjacent(blank, 12, written, U16LE(16));
    FormatChunkPieces(sampleRate);
    assert view[..] == Splice(blank, 12, FormatChunk(sampleRate));
  }

  /** The last two writes of `createWavHeader`. */
  method WriteDataHeader(view: array<byte>, dataLength: nat)
    requires view.Length == HeaderSize
    modifies view
    ensures view[..36] == old(view[..36]) && view[36..] == DataHeader(dataLength)
  {
    ghost var blank := view[..];
    WriteString(view, 36, "data");
    SetUint32(view, 40, dataLength);
    SpliceAdjacent(blank, 36, CharBytes("data"), U32LE(dataLength));
    assert view[..] == Splice(blank, 36, DataHeader(dataLength));
  }

  /** `createWavHeader(dataLength, sampleRate)`: a fresh 44-byte buffer written
      field by field; it holds exactly `WavHeader(dataLength, sampleRate)`. */
  method CreateWavHeader(dataLength: nat, sampleRate: nat) returns (header: array<byte>)
    ensures fresh(header)
    ensures header.Length == HeaderSize
    ensures header[..] == WavHeader(dataLength, sampleRate)
  {
    header := new byte[HeaderSize];
    WriteRiffHeader(header, dataLength);
    ghost var riff := header[..12];
    WriteFormatChunk(header, sampleRate);
    assert header[..12] == riff;
    ghost var head := header[..36];
    assert head == header[..12] + header[12..36];
    WriteDataHeader(header, dataLength);
    assert header[..36] == head;
    assert header[..] == header[..36] + header[36..];
  }
}
