/** Header decoding of app/helpers/wav-length.ts: the fixed-offset little-endian
    fields of the canonical 44-byte RIFF/WAVE header and its magic check. */
module WavLength {
  import opened Wrappers
  import opened Utils

  /** The header record `getWavDuration` builds. */
  datatype WavHeader = WavHeader(
    chunkId: string,
    chunkSize: nat,
    format: string,
    subChunk1Id: string,
    subChunk1Size: nat,
    audioFormat: nat,
    numChannels: nat,
    sampleRate: nat,
    byteRate: nat,
    blockAlign: nat,
    bitsPerSample: nat,
    subChunk2Id: string,
    subChunk2Size: nat)

  /** `RangeError`: a `DataView` read past the end of the buffer;
      `InvalidWavFormat`: the "Invalid WAV file format" error. */
  datatype WavError = RangeError | InvalidWavFormat

  /** `view.getUint16(offset, true)`. */
  function Uint16(b: Bytes, offset: nat): (r: nat)
    requires offset + 2 <= |b|
    ensures r < 0x1_0000
  {
    b[offset] as nat + 0x100 * b[offset + 1] as nat
  }

  /** `view.getUint32(offset, true)`. */
  function Uint32(b: Bytes, offset: nat): (r: nat)
    requires offset + 4 <= |b|
    ensures r < 0x1_0000_0000
  {
    Uint16(b, offset) + 0x1_0000 * Uint16(b, offset + 2)
  }

  /** The string `getString(view, offset, length)` builds: one character per byte. */
  function Tag(b: Bytes, offset: nat, length: nat): (r: string)
    requires offset + length <= |b|
    ensures |r| == length
    ensures forall i :: 0 <= i < length ==> r[i] as int == b[offset + i] as int
  {
    seq(length, i requires 0 <= i < length => (b[offset + i] as int) as char)
  }

  /** `getString(view, offset, length)`: appends `String.fromCharCode` of each byte
      in turn; `getUint8` throws a `RangeError` at the first position past the end. */
  method GetString(view: Bytes, offset: nat, length: nat) returns (r: Result<string, WavError>)
    ensures r.Ok? <==> length == 0 || offset + length <= |view|
    ensures r.Ok? ==> |r.value| == length
    ensures r.Ok? ==> forall i :: 0 <= i < length ==> r.value[i] as int == view[offset + i] as int
  {
    var result := "";
    for i := 0 to length
      invariant offset + i <= |view| || i == 0
      invariant |result| == i
      invariant forall j :: 0 <= j < i ==> result[j] as int == view[offset + j] as int
    {
      if offset + i >= |view| {
        return Err(RangeError);
      }
      result := result + [(view[offset + i] as int) as char];
    }
    return Ok(result);
  }

  /** The header-decoding part of `getWavDuration`: reads every field at its fixed
      offset (any read past the end throws), then checks only the two magic tags. */
  function GetWavHeader(buffer: Bytes): (r: Result<WavHeader, WavError>)
    ensures r == Err(RangeError) <==> |buffer| < HEADER_LENGTH
    ensures r.Ok? <==> |buffer| >= HEADER_LENGTH && Tag(buffer, 0, 4) == "RIFF" && Tag(buffer, 8, 4) == "WAVE"
  {
    if |buffer| < HEADER_LENGTH then Err(RangeError)
    else
      var header := WavHeader(
        Tag(buffer, 0, 4), Uint32(buffer, 4), Tag(buffer, 8, 4),
        Tag(buffer, 12, 4), Uint32(buffer, 16),
        Uint16(buffer, 20), Uint16(buffer, 22),
        Uint32(buffer, 24), Uint32(buffer, 28),
        Uint16(buffer, 32), Uint16(buffer, 34),
        Tag(buffer, 36, 4), Uint32(buffer, 40));
      if header.chunkId != "RIFF" || header.format != "WAVE" then Err(InvalidWavFormat)
      else Ok(header)
  }

  /** The decoded header depends only on the first 44 bytes: decoding a buffer and
      decoding its `extractWavHeader` prefix agree. */
  lemma HeaderOnlyReadsPrefix(buffer: Bytes)
    requires |buffer| >= HEADER_LENGTH
    ensures ExtractWavHeader(buffer).Ok?
    ensures GetWavHeader(ExtractWavHeader(buffer).value) == GetWavHeader(buffer)
  {
    var h := buffer[..HEADER_LENGTH];
    assert forall i :: 0 <= i < HEADER_LENGTH ==> h[i] == buffer[i];
    assert Tag(h, 0, 4) == Tag(buffer, 0, 4);
    assert Tag(h, 8, 4) == Tag(buffer, 8, 4);
    assert Tag(h, 12, 4) == Tag(buffer, 12, 4);
    assert Tag(h, 36, 4) == Tag(buffer, 36, 4);
  }

  // ---------------------------------------------------------------------------
  // The inverse direction: laying a header record out as bytes.

  /** A record that fits the 44-byte layout: 4-character tags of byte-sized
      characters, fields within their 16- or 32-bit widths. */
  predicate Encodable(h: WavHeader)
  {
    && IsTag(h.chunkId) && IsTag(h.format) && IsTag(h.subChunk1Id) && IsTag(h.subChunk2Id)
    && h.chunkSize < 0x1_0000_0000 && h.subChunk1Size < 0x1_0000_0000
    && h.audioFormat < 0x1_0000 && h.numChannels < 0x1_0000
    && h.sampleRate < 0x1_0000_0000 && h.byteRate < 0x1_0000_0000
    && h.blockAlign < 0x1_0000 && h.bitsPerSample < 0x1_0000
    && h.subChunk2Size < 0x1_0000_0000
  }

  predicate IsTag(s: string)
  {
    |s| == 4 && forall i :: 0 <= i < 4 ==> s[i] as int < 256
  }

  function TagBytes(s: string): (r: Bytes)
    requires IsTag(s)
    ensures |r| == 4 && Tag(r, 0, 4) == s
  {
    var r := seq(4, i requires 0 <= i < 4 => (s[i] as int) as byte);
    assert forall i :: 0 <= i < 4 ==> Tag(r, 0, 4)[i] == s[i];
    r
  }

  function Uint16Bytes(x: nat): (r: Bytes)
    requires x < 0x1_0000
    ensures |r| == 2 && Uint16(r, 0) == x
  {
    [(x % 0x100) as byte, (x / 0x100) as byte]
  }

  function Uint32Bytes(x: nat): (r: Bytes)
    requires x < 0x1_0000_0000
    ensures |r| == 4 && Uint32(r, 0) == x
  {
    var lo := Uint16Bytes(x % 0x1_0000);
    var hi := Uint16Bytes(x / 0x1_0000);
    assert Uint16(lo + hi, 0) == Uint16(lo, 0);
    assert Uint16(lo + hi, 2) == Uint16(hi, 0);
    lo + hi
  }

  /** The canonical little-endian layout of a header record. */
  function EncodeWavHeader(h: WavHeader): (r: Bytes)
    requires Encodable(h)
    ensures |r| == HEADER_LENGTH
  {
    TagBytes(h.chunkId) + Uint32Bytes(h.chunkSize) + TagBytes(h.format)
    + TagBytes(h.subChunk1Id) + Uint32Bytes(h.subChunk1Size)
    + Uint16Bytes(h.audioFormat) + Uint16Bytes(h.numChannels)
    + Uint32Bytes(h.sampleRate) + Uint32Bytes(h.byteRate)
    + Uint16Bytes(h.blockAlign) + Uint16Bytes(h.bitsPerSample)
    + TagBytes(h.subChunk2Id) + Uint32Bytes(h.subChunk2Size)
  }

  /** Decoding an encoded header gives the record back exactly when its magic tags
      are "RIFF" and "WAVE"; otherwise decoding reports the format error. */
  lemma DecodeEncode(h: WavHeader)
    requires Encodable(h)
    ensures h.chunkId == "RIFF" && h.format == "WAVE" ==> GetWavHeader(EncodeWavHeader(h)) == Ok(h)
    ensures h.chunkId != "RIFF" || h.format != "WAVE" ==> GetWavHeader(EncodeWavHeader(h)) == Err(InvalidWavFormat)
  {
    var b := EncodeWavHeader(h);
    FieldAt(b, TagBytes(h.chunkId), 0);
    FieldAt(b, Uint32Bytes(h.chunkSize), 4);
    FieldAt(b, TagBytes(h.format), 8);
    FieldAt(b, TagBytes(h.subChunk1Id), 12);
    FieldAt(b, Uint32Bytes(h.subChunk1Size), 16);
    FieldAt(b, Uint16Bytes(h.audioFormat), 20);
    FieldAt(b, Uint16Bytes(h.numChannels), 22);
    FieldAt(b, Uint32Bytes(h.sampleRate), 24);
    FieldAt(b, Uint32Bytes(h.byteRate), 28);
    FieldAt(b, Uint16Bytes(h.blockAlign), 32);
    FieldAt(b, Uint16Bytes(h.bitsPerSample), 34);
    FieldAt(b, TagBytes(h.subChunk2Id), 36);
    FieldAt(b, Uint32Bytes(h.subChunk2Size), 40);
  }

  /** Fields read at `offset` of a buffer whose bytes there are `field` read as in `field`. */
  lemma FieldAt(b: Bytes, field: Bytes, offset: nat)
    requires offset + |field| <= |b| && b[offset..offset + |field|] == field
    ensures |field| == 4 ==> Tag(b, offset, 4) == Tag(field, 0, 4) && Uint32(b, offset) == Uint32(field, 0)
    ensures |field| == 2 ==> Uint16(b, offset) == Uint16(field, 0)
  {
    assert forall i :: 0 <= i < |field| ==> b[offset + i] == field[i];
  }
}
