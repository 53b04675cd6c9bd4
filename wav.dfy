/**
 * The WAV container that the speech path wraps around raw PCM audio
 * (addWavHeader and writeString in services/geminiService.ts): a 44-byte
 * RIFF/WAVE header with one `fmt ` chunk for linear PCM and one `data` chunk,
 * followed by the PCM bytes verbatim.
 */
module Wav {
  import opened Wrappers
  import opened Uint

  const HeaderLength: nat := 44
  /** The `fmt ` chunk's size field. */
  const FmtChunkSize: nat := 16
  /** wFormatTag of linear PCM. */
  const PcmFormatTag: nat := 1
  const BitsPerSample: nat := 16

  /** Bytes 0..11: the RIFF chunk header with the WAVE form type. */
  function RiffHeader(dataLength: nat): (h: seq<Byte>)
    ensures |h| == 12
  {
    Uint8Codes("RIFF") + LE32(36 + dataLength) + Uint8Codes("WAVE")
  }

  /** Bytes 12..35: the `fmt ` chunk for 16-bit linear PCM. */
  function FmtChunk(sampleRate: nat, numChannels: nat): (h: seq<Byte>)
    ensures |h| == 24
  {
    Uint8Codes("fmt ") + LE32(FmtChunkSize) + LE16(PcmFormatTag)
    + LE16(numChannels) + LE32(sampleRate) + LE32(sampleRate * numChannels * 2)
    + LE16(numChannels * 2) + LE16(BitsPerSample)
  }

  /** Bytes 36..43: the `data` chunk header. */
  function DataHeader(dataLength: nat): (h: seq<Byte>)
    ensures |h| == 8
  {
    Uint8Codes("data") + LE32(dataLength)
  }

  /**
   * The header exactly as addWavHeader writes it, field after field, for a
   * payload of dataLength bytes. Each number goes through the DataView's
   * ToUint16/ToUint32 conversion (inside LE16/LE32).
   */
  function WavHeader(dataLength: nat, sampleRate: nat, numChannels: nat): (h: seq<Byte>)
    ensures |h| == HeaderLength
  {
    RiffHeader(dataLength) + FmtChunk(sampleRate, numChannels) + DataHeader(dataLength)
  }

  /** The whole buffer addWavHeader returns: the header, then the PCM bytes. */
  function WavBytes(pcm: seq<Byte>, sampleRate: nat, numChannels: nat): (w: seq<Byte>)
    ensures |w| == HeaderLength + |pcm|
    ensures w[HeaderLength..] == pcm
  {
    WavHeader(|pcm|, sampleRate, numChannels) + pcm
  }

  /** The format a well-formed header announces. */
  datatype WavFormat = WavFormat(numChannels: nat, sampleRate: nat, dataLength: nat)

  /**
   * Reads a 44-byte canonical PCM header back: the four chunk markers, the
   * constant fields, and the derived fields (RIFF size, byte rate, block
   * alignment) must agree with channel count, sample rate and data length.
   */
  function ParseHeader(b: seq<Byte>): (r: Option<WavFormat>)
    ensures r.Some? ==> |b| >= HeaderLength
  {
    if |b| < HeaderLength then None
    else if b[0..4] != Uint8Codes("RIFF") || b[8..12] != Uint8Codes("WAVE")
         || b[12..16] != Uint8Codes("fmt ") || b[36..40] != Uint8Codes("data")
    then None
    else if DecodeLE32(b[16..20]) != FmtChunkSize || DecodeLE16(b[20..22]) != PcmFormatTag
         || DecodeLE16(b[34..36]) != BitsPerSample
    then None
    else
      var ch := DecodeLE16(b[22..24]);
      var sr := DecodeLE32(b[24..28]);
      var len := DecodeLE32(b[40..44]);
      if DecodeLE32(b[4..8]) != ToUint32(36 + len)
         || DecodeLE32(b[28..32]) != ToUint32(sr * ch * 2)
         || DecodeLE16(b[32..34]) != ToUint16(ch * 2)
      then None
      else Some(WavFormat(ch, sr, len))
  }

  /**
   * The header's layout by offset: markers at 0, 8, 12 and 36, the RIFF size
   * at 4, the fmt fields at 16..35, the data length at 40, and the payload
   * from 44 on; the whole buffer is 44 bytes longer than the payload.
   */
  lemma WavLayout(pcm: seq<Byte>, sampleRate: nat, numChannels: nat)
    ensures var w := WavBytes(pcm, sampleRate, numChannels);
      && |w| == 44 + |pcm|
      && w[0..4] == [82, 73, 70, 70]        // "RIFF"
      && w[4..8] == LE32(36 + |pcm|)
      && w[8..12] == [87, 65, 86, 69]       // "WAVE"
      && w[12..16] == [102, 109, 116, 32]   // "fmt "
      && w[16..20] == LE32(16)
      && w[20..22] == LE16(1)
      && w[22..24] == LE16(numChannels)
      && w[24..28] == LE32(sampleRate)
      && w[28..32] == LE32(sampleRate * numChannels * 2)
      && w[32..34] == LE16(numChannels * 2)
      && w[34..36] == LE16(16)
      && w[36..40] == [100, 97, 116, 97]    // "data"
      && w[40..44] == LE32(|pcm|)
      && w[44..] == pcm
  {
    var w := WavBytes(pcm, sampleRate, numChannels);
    assert Uint8Codes("RIFF") == [82, 73, 70, 70];
    assert Uint8Codes("WAVE") == [87, 65, 86, 69];
    assert Uint8Codes("fmt ") == [102, 109, 116, 32];
    assert Uint8Codes("data") == [100, 97, 116, 97];
  }

  /**
   * Round trip: when every field fits its width, parsing the encoded buffer
   * recovers the channel count, the sample rate and the payload length.
   */
  lemma ParseEncoded(pcm: seq<Byte>, sampleRate: nat, numChannels: nat)
    requires 36 + |pcm| < TWO_32
    requires sampleRate * numChannels * 2 < TWO_32
    requires numChannels * 2 < TWO_16
    requires sampleRate < TWO_32
    ensures ParseHeader(WavBytes(pcm, sampleRate, numChannels))
         == Some(WavFormat(numChannels, sampleRate, |pcm|))
  {
    var w := WavBytes(pcm, sampleRate, numChannels);
    WavLayout(pcm, sampleRate, numChannels);
    LE32RoundTrip(36 + |pcm|);
    LE32RoundTrip(16);
    LE16RoundTrip(1);
    LE16RoundTrip(numChannels);
    LE32RoundTrip(sampleRate);
    LE32RoundTrip(sampleRate * numChannels * 2);
    LE16RoundTrip(numChannels * 2);
    LE16RoundTrip(16);
    LE32RoundTrip(|pcm|);
  }

  /**
   * The other direction: a header the parser accepts is exactly the header
   * addWavHeader writes for the format it announces.
   */
  lemma ParsedHeaderIsCanonical(b: seq<Byte>)
    ensures ParseHeader(b).Some? ==>
      var f := ParseHeader(b).value;
      b[..HeaderLength] == WavHeader(f.dataLength, f.sampleRate, f.numChannels)
  {
    if ParseHeader(b).Some? {
      var f := ParseHeader(b).value;
      ParsedRiffHeader(b, f.dataLength);
      ParsedFmtChunk(b, f.sampleRate, f.numChannels);
      ParsedDataHeader(b, f.dataLength);
      assert b[..HeaderLength] == b[0..12] + b[12..36] + b[36..44];
    }
  }

  lemma ParsedRiffHeader(b: seq<Byte>, len: nat)
    requires |b| >= HeaderLength
    requires b[0..4] == Uint8Codes("RIFF") && b[8..12] == Uint8Codes("WAVE")
    requires DecodeLE32(b[4..8]) == ToUint32(36 + len)
    ensures b[0..12] == RiffHeader(len)
  {
    DecodeLE32Inverse(b[4..8]);
    LE32Reduced(36 + len);
    assert b[0..12] == b[0..4] + b[4..8] + b[8..12];
  }

  /** The fields of a `fmt ` chunk the parser accepted, read back, give back the chunk. */
  predicate FmtFieldsRead(b: seq<Byte>, sr: nat, ch: nat)
    requires |b| >= HeaderLength
  {
    && b[12..16] == Uint8Codes("fmt ")
    && DecodeLE32(b[16..20]) == FmtChunkSize && DecodeLE16(b[20..22]) == PcmFormatTag
    && DecodeLE16(b[22..24]) == ch && DecodeLE32(b[24..28]) == sr
    && DecodeLE32(b[28..32]) == ToUint32(sr * ch * 2) && DecodeLE16(b[32..34]) == ToUint16(ch * 2)
    && DecodeLE16(b[34..36]) == BitsPerSample
  }

  lemma ParsedFmtChunk(b: seq<Byte>, sr: nat, ch: nat)
    requires |b| >= HeaderLength
    ensures FmtFieldsRead(b, sr, ch) ==> b[12..36] == FmtChunk(sr, ch)
  {
    if FmtFieldsRead(b, sr, ch) {
      DecodeLE32Inverse(b[16..20]);
      DecodeLE16Inverse(b[20..22]);
      DecodeLE16Inverse(b[22..24]);
      DecodeLE32Inverse(b[24..28]);
      DecodeLE32Inverse(b[28..32]);
      LE32Reduced(sr * ch * 2);
      DecodeLE16Inverse(b[32..34]);
      assert LE16(ToUint16(ch * 2)) == LE16(ch * 2);
      DecodeLE16Inverse(b[34..36]);
      assert b[12..36] == b[12..16] + b[16..20] + b[20..22] + b[22..24] + b[24..28]
        + b[28..32] + b[32..34] + b[34..36];
    }
  }

  lemma ParsedDataHeader(b: seq<Byte>, len: nat)
    requires |b| >= HeaderLength
    requires b[36..40] == Uint8Codes("data") && DecodeLE32(b[40..44]) == len
    ensures b[36..44] == DataHeader(len)
  {
    DecodeLE32Inverse(b[40..44]);
    assert b[36..44] == b[36..40] + b[40..44];
  }

  /**
   * The concrete case: four PCM bytes at 24 kHz mono give a 48-byte buffer,
   * shown field by field.
   */
  lemma FourByteMonoExample()
    ensures WavBytes([1, 2, 3, 4], 24000, 1)
         == ([82, 73, 70, 70]       // "RIFF"
          + [40, 0, 0, 0]           // 36 + 4
          + [87, 65, 86, 69])       // "WAVE"
          + ([102, 109, 116, 32]    // "fmt "
          + [16, 0, 0, 0]           // fmt chunk size
          + [1, 0]                  // linear PCM
          + [1, 0]                  // one channel
          + [192, 93, 0, 0]         // 24000
          + [128, 187, 0, 0]        // 48000 bytes per second
          + [2, 0]                  // block alignment
          + [16, 0])                // bits per sample
          + ([100, 97, 116, 97]     // "data"
          + [4, 0, 0, 0])           // payload length
          + [1, 2, 3, 4]
  {
    ExampleChunks();
  }

  /** The three header chunks of the four-byte, 24 kHz mono example. */
  lemma ExampleChunks()
    ensures RiffHeader(4) == [82, 73, 70, 70] + [40, 0, 0, 0] + [87, 65, 86, 69]
    ensures FmtChunk(24000, 1) == [102, 109, 116, 32] + [16, 0, 0, 0] + [1, 0] + [1, 0]
      + [192, 93, 0, 0] + [128, 187, 0, 0] + [2, 0] + [16, 0]
    ensures DataHeader(4) == [100, 97, 116, 97] + [4, 0, 0, 0]
  {
    assert Uint8Codes("RIFF") == [82, 73, 70, 70];
    assert Uint8Codes("WAVE") == [87, 65, 86, 69];
    assert Uint8Codes("fmt ") == [102, 109, 116, 32];
    assert Uint8Codes("data") == [100, 97, 116, 97];
    ExampleFields();
  }

  /** The numeric fields of the example, as setUint16/setUint32 lay them out. */
  lemma ExampleFields()
    ensures LE32(36 + 4) == [40, 0, 0, 0] && LE32(4) == [4, 0, 0, 0]
    ensures LE32(24000) == [192, 93, 0, 0] && LE32(24000 * 1 * 2) == [128, 187, 0, 0]
    ensures LE32(16) == [16, 0, 0, 0]
    ensures LE16(1) == [1, 0] && LE16(1 * 2) == [2, 0] && LE16(16) == [16, 0]
  {
  }

  /** An empty payload still yields the full header, announcing 36 and 0. */
  lemma EmptyPayload(sampleRate: nat, numChannels: nat)
    ensures var w := WavBytes([], sampleRate, numChannels);
      |w| == HeaderLength && DecodeLE32(w[4..8]) == 36 && DecodeLE32(w[40..44]) == 0
  {
    WavLayout([], sampleRate, numChannels);
    LE32RoundTrip(36);
    LE32RoundTrip(0);
  }

  // ---------------------------------------------------------------------------
  // The imperative encoder: DataView writes into a fresh buffer.

  /** setUint32(offset, value, true) on the DataView over `view`. */
  method SetUint32(view: array<Byte>, offset: nat, value: int)
    requires offset + 4 <= view.Length
    modifies view
    ensures view[offset..offset + 4] == LE32(value)
    ensures forall j :: 0 <= j < view.Length && !(offset <= j < offset + 4) ==> view[j] == old(view[j])
  {
    var bytes := LE32(value);
    view[offset] := bytes[0];
    view[offset + 1] := bytes[1];
    view[offset + 2] := bytes[2];
    view[offset + 3] := bytes[3];
  }

  /** setUint16(offset, value, true) on the DataView over `view`. */
  method SetUint16(view: array<Byte>, offset: nat, value: int)
    requires offset + 2 <= view.Length
    modifies view
    ensures view[offset..offset + 2] == LE16(value)
    ensures forall j :: 0 <= j < view.Length && !(offset <= j < offset + 2) ==> view[j] == old(view[j])
  {
    var bytes := LE16(value);
    view[offset] := bytes[0];
    view[offset + 1] := bytes[1];
  }

  /**
   * writeString: setUint8(offset + i, charCodeAt(i)) for each character, so
   * exactly the bytes offset .. offset + |s| - 1 change.
   */
  method WriteString(view: array<Byte>, offset: nat, s: string)
    requires offset + |s| <= view.Length
    modifies view
    ensures view[offset..offset + |s|] == Uint8Codes(s)
    ensures forall j :: 0 <= j < view.Length && !(offset <= j < offset + |s|) ==> view[j] == old(view[j])
  {
    for i := 0 to |s|
      invariant forall j :: 0 <= j < view.Length ==>
        view[j] == if offset <= j < offset + i then ToUint8(s[j - offset] as int) else old(view[j])
    {
      view[offset + i] := ToUint8(s[i] as int);
    }
  }

  /** Uint8Array.prototype.set(source, offset): copies source element by element. */
  method SetFrom(target: array<Byte>, source: array<Byte>, offset: nat)
    requires offset + source.Length <= target.Length
    requires source != target
    modifies target
    ensures target[offset..offset + source.Length] == source[..]
    ensures forall j :: 0 <= j < target.Length && !(offset <= j < offset + source.Length) ==> target[j] == old(target[j])
  {
    for i := 0 to source.Length
      invariant forall j :: 0 <= j < target.Length ==>
        target[j] == if offset <= j < offset + i then source[j - offset] else old(target[j])
    {
      target[offset + i] := source[i];
    }
  }

  /** The writes of addWavHeader at offsets 0, 4 and 8. */
  method WriteRiffHeader(view: array<Byte>, dataLength: nat)
    requires 12 <= view.Length
    modifies view
    ensures view[0..12] == RiffHeader(dataLength)
    ensures forall j :: 12 <= j < view.Length ==> view[j] == old(view[j])
  {
    WriteString(view, 0, "RIFF");
    SetUint32(view, 4, 36 + dataLength);
    WriteString(view, 8, "WAVE");
    assert view[0..12] == view[0..4] + view[4..8] + view[8..12];
  }

  /** The writes of addWavHeader at offsets 12 to 34. */
  method WriteFmtChunk(view: array<Byte>, sampleRate: nat, numChannels: nat)
    requires 36 <= view.Length
    modifies view
    ensures view[12..36] == FmtChunk(sampleRate, numChannels)
    ensures forall j :: 0 <= j < view.Length && !(12 <= j < 36) ==> view[j] == old(view[j])
  {
    WriteFormatFields(view, numChannels);
    ghost var format := view[12..24];
    WriteRateFields(view, sampleRate, numChannels);
    assert view[12..24] == format;
    assert view[12..36] == view[12..24] + view[24..36];
  }

  /** Offsets 12 to 22: the chunk id, its size, the format tag and the channel count. */
  method WriteFormatFields(view: array<Byte>, numChannels: nat)
    requires 36 <= view.Length
    modifies view
    ensures view[12..24] == Uint8Codes("fmt ") + LE32(FmtChunkSize) + LE16(PcmFormatTag) + LE16(numChannels)
    ensures forall j :: 0 <= j < view.Length && !(12 <= j < 24) ==> view[j] == old(view[j])
  {
    WriteString(view, 12, "fmt ");
    ghost var id := view[12..16];
    SetUint32(view, 16, FmtChunkSize);
    ghost var size := view[16..20];
    assert view[12..16] == id;
    SetUint16(view, 20, PcmFormatTag);
    assert view[12..16] == id && view[16..20] == size;
    SetUint16(view, 22, numChannels);
    assert view[12..16] == id && view[16..20] == size && view[20..22] == LE16(PcmFormatTag);
    assert view[12..24] == view[12..16] + view[16..20] + view[20..22] + view[22..24];
  }

  /** Offsets 24 to 34: sample rate, byte rate, block alignment and bits per sample. */
  method WriteRateFields(view: array<Byte>, sampleRate: nat, numChannels: nat)
    requires 36 <= view.Length
    modifies view
    ensures view[24..36] == LE32(sampleRate) + LE32(sampleRate * numChannels * 2)
                            + LE16(numChannels * 2) + LE16(BitsPerSample)
    ensures forall j :: 0 <= j < view.Length && !(24 <= j < 36) ==> view[j] == old(view[j])
  {
    SetUint32(view, 24, sampleRate);
    ghost var rate := view[24..28];
    SetUint32(view, 28, sampleRate * numChannels * 2);
    ghost var byteRate := view[28..32];
    assert view[24..28] == rate;
    SetUint16(view, 32, numChannels * 2);
    assert view[24..28] == rate && view[28..32] == byteRate;
    SetUint16(view, 34, BitsPerSample);
    assert view[24..28] == rate && view[28..32] == byteRate && view[32..34] == LE16(numChannels * 2);
    assert view[24..36] == view[24..28] + view[28..32] + view[32..34] + view[34..36];
  }

  /** The writes of addWavHeader at offsets 36 and 40. */
  method WriteDataHeader(view: array<Byte>, dataLength: nat)
    requires 44 <= view.Length
    modifies view
    ensures view[36..44] == DataHeader(dataLength)
    ensures forall j :: 0 <= j < view.Length && !(36 <= j < 44) ==> view[j] == old(view[j])
  {
    WriteString(view, 36, "data");
    SetUint32(view, 40, dataLength);
    assert view[36..44] == view[36..40] + view[40..44];
  }

  /**
   * addWavHeader: allocates 44 + |pcm| bytes, writes the header fields in
   * offset order, then copies the PCM payload at offset 44.
   */
  method AddWavHeader(pcmData: array<Byte>, sampleRate: nat, numChannels: nat)
    returns (buffer: array<Byte>)
    ensures fresh(buffer)
    ensures buffer[..] == WavBytes(pcmData[..], sampleRate, numChannels)
  {
    var dataLength := pcmData.Length;
    buffer := new Byte[HeaderLength + dataLength];
    WriteRiffHeader(buffer, dataLength);
    WriteFmtChunk(buffer, sampleRate, numChannels);
    WriteDataHeader(buffer, dataLength);
    SetFrom(buffer, pcmData, HeaderLength);
    assert buffer[..] == buffer[0..12] + buffer[12..36] + buffer[36..44] + buffer[44..];
  }
}
