/**
 * The WAV writer stage (src/native/stages/wav-writer-stage.cpp, fields from
 * wav-writer-stage.h): opens the output file, writes the 44-byte RIFF/WAVE
 * PCM header built from the audio format the capture stage published, then
 * appends every audio payload it is given.
 *
 * The header is laid out as in the Microsoft/IBM Multimedia Programming
 * Interface and Data Specifications 1.0, chapter 3 (Waveform Audio File
 * Format): a "RIFF" chunk of form "WAVE" holding a 16-byte "fmt " chunk and
 * a "data" chunk, every number little-endian. `fwrite` of the `WaveHeader`
 * struct writes exactly those 44 bytes, since its fields need no padding.
 *
 * The file is the sequence of bytes written to it; `fopen_s` is an oracle
 * reporting its error number.
 */
module WavWriter {
  import opened Text
  import opened Common
  import opened Config
  import opened Stage

  type i16 = x: int | -0x8000 <= x < 0x8000
  type i32 = x: int | -0x8000_0000 <= x < 0x8000_0000

  /** Conversion to a signed C++ integer of 16 or 32 bits (two's-complement wrap-around). */
  function I16(x: int): i16
  {
    var u := x % TwoTo16;
    if u < TwoTo16 / 2 then u else u - TwoTo16
  }

  function I32(x: int): i32
  {
    var u := x % TwoTo32;
    if u < TwoTo32 / 2 then u else u - TwoTo32
  }

  /** The `WaveHeader` struct, field by field; the four tags are `char[4]`. */
  datatype WaveHeader = WaveHeader(
    chunkId: string, chunkSize: i32, format: string,
    subChunk1Id: string, subChunk1Size: i32, audioFormat: i16, numChannels: i16,
    sampleRate: i32, byteRate: i32, blockAlign: i16, bitsPerSample: i16,
    subChunk2Id: string, subChunk2Size: i32)

  /** `WAVE_FORMAT_PCM`. */
  const AudioFormatPcm: i16 := 1

  /**
   * `makeWaveHeader`: the tags, PCM, the format as given, and the two derived
   * rates in C++ `int` arithmetic (the product wraps at 32 bits and the
   * division truncates). Both chunk sizes describe an empty data chunk.
   */
  function MakeWaveHeader(sampleRate: i32, numChannels: i16, bitsPerSample: i16): WaveHeader
  {
    WaveHeader(
      "RIFF", 4 + 8 + 16 + 8 + 0, "WAVE",
      "fmt ", 16, AudioFormatPcm, numChannels,
      sampleRate, TruncDiv(I32(sampleRate * numChannels * bitsPerSample), 8),
      I16(TruncDiv(numChannels * bitsPerSample, 8)), bitsPerSample,
      "data", 0)
  }

  /**
   * For a format of whole bytes per sample, a frame size within 16 bits and
   * a byte rate within 32 bits, the rates are the ones the format defines:
   * a frame of one sample per channel, and that many frames per second.
   */
  lemma RatesOfWholeByteFormats(sampleRate: i32, numChannels: i16, bitsPerSample: i16)
    requires sampleRate > 0 && numChannels > 0 && bitsPerSample > 0 && bitsPerSample % 8 == 0
    requires sampleRate * numChannels * bitsPerSample < TwoTo32 / 2
    requires numChannels * (bitsPerSample / 8) < TwoTo16 / 2
    ensures var h := MakeWaveHeader(sampleRate, numChannels, bitsPerSample);
            && h.blockAlign == numChannels * (bitsPerSample / 8)
            && h.byteRate == sampleRate * h.blockAlign
  {
    var b := bitsPerSample / 8;
    var frame := numChannels * b;
    var rate := sampleRate * frame;
    assert numChannels * bitsPerSample == 8 * frame;
    assert sampleRate * numChannels * bitsPerSample == 8 * rate;
    assert TruncDiv(8 * frame, 8) == frame;
    assert TruncDiv(8 * rate, 8) == rate;
    var h := MakeWaveHeader(sampleRate, numChannels, bitsPerSample);
    assert h.blockAlign == I16(frame) == frame;
    assert h.byteRate == TruncDiv(I32(8 * rate), 8);
    assert I32(8 * rate) == 8 * rate;
  }

  /** CD-quality stereo: 44100 Hz, two channels of 16 bits give 176400 bytes per second in frames of 4 bytes. */
  lemma CdQualityRates()
    ensures MakeWaveHeader(44100, 2, 16).byteRate == 176400
    ensures MakeWaveHeader(44100, 2, 16).blockAlign == 4
  {
  }

  /** The header of the format in the context, converted to the parameter types of `makeWaveHeader`. */
  function HeaderFor(context: PipelineContext): WaveHeader
    requires context.samplesPerSecond.Some? && context.channels.Some? && context.bitsPerSample.Some?
  {
    MakeWaveHeader(I32(context.samplesPerSecond.value), I16(context.channels.value), I16(context.bitsPerSample.value))
  }

  /** Characters that fit in one byte, as the bytes of a `char` array. */
  predicate IsBytes(s: string)
  {
    forall i :: 0 <= i < |s| ==> s[i] as int < 0x100
  }

  function AsciiBytes(s: string): (r: seq<byte>)
    requires IsBytes(s)
    ensures |r| == |s| && forall i :: 0 <= i < |s| ==> r[i] as int == s[i] as int
  {
    seq(|s|, i requires 0 <= i < |s| => s[i] as int as byte)
  }

  function BytesAscii(b: seq<byte>): (r: string)
    ensures |r| == |b| && forall i :: 0 <= i < |b| ==> r[i] as int == b[i] as int
  {
    seq(|b|, i requires 0 <= i < |b| => b[i] as int as char)
  }

  /** The 32-bit two's-complement pattern of x, least significant byte first. */
  function LittleEndian32(x: int): (r: seq<byte>)
    ensures |r| == 4
  {
    var u := U32(x);
    [(u % 256) as byte, ((u / 256) % 256) as byte, ((u / 256 / 256) % 256) as byte, (u / 256 / 256 / 256) as byte]
  }

  /** The 16-bit two's-complement pattern of x, least significant byte first. */
  function LittleEndian16(x: int): (r: seq<byte>)
    ensures |r| == 2
  {
    var u := U16(x);
    [(u % 256) as byte, (u / 256) as byte]
  }

  function FromLittleEndian32(b: seq<byte>): i32
    requires |b| == 4
  {
    I32(b[0] as int + 256 * (b[1] as int + 256 * (b[2] as int + 256 * b[3] as int)))
  }

  function FromLittleEndian16(b: seq<byte>): i16
    requires |b| == 2
  {
    I16(b[0] as int + 256 * b[1] as int)
  }

  lemma {:induction false} LittleEndian32RoundTrip(x: i32)
    ensures FromLittleEndian32(LittleEndian32(x)) == x
  {
    var u := U32(x);
    var b := LittleEndian32(x);
    assert u == u % 256 + 256 * (u / 256);
    assert u / 256 == (u / 256) % 256 + 256 * (u / 256 / 256);
    assert u / 256 / 256 == (u / 256 / 256) % 256 + 256 * (u / 256 / 256 / 256);
    assert b[0] as int + 256 * (b[1] as int + 256 * (b[2] as int + 256 * b[3] as int)) == u;
    assert FromLittleEndian32(b) == I32(u);
    assert I32(u) == x by {
      if x < 0 {
        assert u == x + TwoTo32;
      }
    }
  }

  lemma {:induction false} LittleEndian16RoundTrip(x: i16)
    ensures FromLittleEndian16(LittleEndian16(x)) == x
  {
    var u := U16(x);
    assert u == u % 256 + 256 * (u / 256);
  }

  /** Each tag is four one-byte characters. */
  predicate WellFormed(h: WaveHeader)
  {
    && |h.chunkId| == 4 && |h.format| == 4 && |h.subChunk1Id| == 4 && |h.subChunk2Id| == 4
    && IsBytes(h.chunkId) && IsBytes(h.format) && IsBytes(h.subChunk1Id) && IsBytes(h.subChunk2Id)
  }

  /** The bytes `fwrite(&header, sizeof(WaveHeader), 1, file)` writes. */
  function Serialize(h: WaveHeader): (r: seq<byte>)
    requires WellFormed(h)
    ensures |r| == 44
  {
    AsciiBytes(h.chunkId) + LittleEndian32(h.chunkSize) + AsciiBytes(h.format)
    + AsciiBytes(h.subChunk1Id) + LittleEndian32(h.subChunk1Size) + LittleEndian16(h.audioFormat)
    + LittleEndian16(h.numChannels) + LittleEndian32(h.sampleRate) + LittleEndian32(h.byteRate)
    + LittleEndian16(h.blockAlign) + LittleEndian16(h.bitsPerSample)
    + AsciiBytes(h.subChunk2Id) + LittleEndian32(h.subChunk2Size)
  }

  /** Reads a 44-byte header back, field by field at the offsets the format fixes. */
  function Parse(b: seq<byte>): WaveHeader
    requires |b| == 44
  {
    WaveHeader(
      BytesAscii(b[0..4]), FromLittleEndian32(b[4..8]), BytesAscii(b[8..12]),
      BytesAscii(b[12..16]), FromLittleEndian32(b[16..20]), FromLittleEndian16(b[20..22]),
      FromLittleEndian16(b[22..24]), FromLittleEndian32(b[24..28]), FromLittleEndian32(b[28..32]),
      FromLittleEndian16(b[32..34]), FromLittleEndian16(b[34..36]),
      BytesAscii(b[36..40]), FromLittleEndian32(b[40..44]))
  }

  lemma TagRoundTrip(s: string)
    requires IsBytes(s)
    ensures BytesAscii(AsciiBytes(s)) == s
  {
  }

  /** Every well-formed header is read back exactly from its 44 bytes. */
  lemma {:induction false} ParseSerialize(h: WaveHeader)
    requires WellFormed(h)
    ensures Parse(Serialize(h)) == h
  {
    var b := Serialize(h);
    assert b[0..4] == AsciiBytes(h.chunkId);
    assert b[4..8] == LittleEndian32(h.chunkSize);
    assert b[8..12] == AsciiBytes(h.format);
    assert b[12..16] == AsciiBytes(h.subChunk1Id);
    assert b[16..20] == LittleEndian32(h.subChunk1Size);
    assert b[20..22] == LittleEndian16(h.audioFormat);
    assert b[22..24] == LittleEndian16(h.numChannels);
    assert b[24..28] == LittleEndian32(h.sampleRate);
    assert b[28..32] == LittleEndian32(h.byteRate);
    assert b[32..34] == LittleEndian16(h.blockAlign);
    assert b[34..36] == LittleEndian16(h.bitsPerSample);
    assert b[36..40] == AsciiBytes(h.subChunk2Id);
    assert b[40..44] == LittleEndian32(h.subChunk2Size);
    TagRoundTrip(h.chunkId);
    TagRoundTrip(h.format);
    TagRoundTrip(h.subChunk1Id);
    TagRoundTrip(h.subChunk2Id);
    LittleEndian32RoundTrip(h.chunkSize);
    LittleEndian32RoundTrip(h.subChunk1Size);
    LittleEndian16RoundTrip(h.audioFormat);
    LittleEndian16RoundTrip(h.numChannels);
    LittleEndian32RoundTrip(h.sampleRate);
    LittleEndian32RoundTrip(h.byteRate);
    LittleEndian16RoundTrip(h.blockAlign);
    LittleEndian16RoundTrip(h.bitsPerSample);
    LittleEndian32RoundTrip(h.subChunk2Size);
  }

  /**
   * The header `makeWaveHeader` builds is well formed; read back, it has the
   * four tags, PCM with a 16-byte format chunk, the format as given, and the
   * sizes of an empty data chunk (36 and 0).
   */
  lemma {:induction false} MadeHeaderReadsBack(sampleRate: i32, numChannels: i16, bitsPerSample: i16)
    ensures WellFormed(MakeWaveHeader(sampleRate, numChannels, bitsPerSample))
    ensures var p := Parse(Serialize(MakeWaveHeader(sampleRate, numChannels, bitsPerSample)));
            && p.chunkId == "RIFF" && p.format == "WAVE" && p.subChunk1Id == "fmt " && p.subChunk2Id == "data"
            && p.chunkSize == 36 && p.subChunk1Size == 16 && p.subChunk2Size == 0 && p.audioFormat == 1
            && p.sampleRate == sampleRate && p.numChannels == numChannels && p.bitsPerSample == bitsPerSample
  {
    ParseSerialize(MakeWaveHeader(sampleRate, numChannels, bitsPerSample));
  }

  /** The message of a failed `fopen_s`, with the error number in decimal. */
  function OpenErrorMessage(err: nat): string
  {
    "Failed to open file, error code=" + Decimal(err)
  }

  class WavWriterStage {
    /** `file != nullptr`. */
    var isOpen: bool
    var fileName: string
    /** The bytes written to the file so far. */
    var contents: seq<byte>
    /** How many times `fclose` has run. */
    var closes: nat

    /** The member initialiser of wav-writer-stage.h: no file. */
    constructor ()
      ensures !isOpen && contents == [] && closes == 0
    {
      isOpen := false;
      fileName := "";
      contents := [];
      closes := 0;
    }

    /**
     * `initialize`: opens the configured file for writing (fatal with the
     * error number when that fails) and writes the header of the context's
     * audio format.
     */
    method Initialize(config: PipelineConfig, context: PipelineContext, openError: u32) returns (status: Status)
      requires context.samplesPerSecond.Some? && context.channels.Some? && context.bitsPerSample.Some?
      modifies this`isOpen, this`fileName, this`contents
      ensures fileName == config.output.fileName
      ensures openError != 0 ==> status == Fail(OpenErrorMessage(openError)) && !isOpen && contents == []
      ensures openError == 0 ==> status == Pass && isOpen && WellFormed(HeaderFor(context))
                                 && contents == Serialize(HeaderFor(context))
    {
      fileName := config.output.fileName;
      contents := [];
      if openError != 0 {
        isOpen := false;
        return Fail("Failed to open file, error code=" + Decimal(openError));
      }
      isOpen := true;
      var header := MakeWaveHeader(I32(context.samplesPerSecond.value), I16(context.channels.value),
                                   I16(context.bitsPerSample.value));
      MadeHeaderReadsBack(header.sampleRate, header.numChannels, header.bitsPerSample);
      contents := contents + Serialize(header);
      status := Pass;
    }

    /** `process`: appends the token's `size` bytes verbatim and has no output. */
    method Process(input: Token) returns (result: Token)
      requires isOpen && input.Buffer? && input.data.Readable()
      modifies this`contents
      ensures contents == old(contents) + input.data.Payload()
      ensures result == NoOutput
    {
      contents := contents + input.data.rawData[..input.data.size];
      result := NoOutput;
    }

    /** `shutdown`: flushes and closes the file if one is open; the header is not revisited. */
    method Shutdown()
      modifies this`closes
      ensures closes == old(closes) + (if isOpen then 1 else 0)
    {
      if isOpen {
        closes := closes + 1;
      }
    }
  }

  /**
   * A file written by `initialize` and then any run of `process` calls reads
   * back as the header it was opened with, whose data size still says 0,
   * followed by every payload in order.
   */
  lemma {:induction false} FileIsHeaderThenPayloads(h: WaveHeader, tokens: seq<DataAndSize>)
    requires WellFormed(h)
    requires forall i :: 0 <= i < |tokens| ==> tokens[i].Readable()
    ensures var file := Serialize(h) + Payloads(tokens);
            && Parse(file[..44]) == h
            && file[44..] == Payloads(tokens)
  {
    var file := Serialize(h) + Payloads(tokens);
    assert file[..44] == Serialize(h);
    assert file[44..] == Payloads(tokens);
    ParseSerialize(h);
  }

  /** Writing the stage's file one token at a time builds the same bytes as `Payloads`. */
  method WriteAll(stage: WavWriterStage, tokens: seq<DataAndSize>)
    requires stage.isOpen && forall i :: 0 <= i < |tokens| ==> tokens[i].Readable()
    modifies stage
    ensures stage.contents == old(stage.contents) + Payloads(tokens)
  {
    var i := 0;
    while i < |tokens|
      invariant 0 <= i <= |tokens|
      invariant stage.isOpen
      invariant stage.contents == old(stage.contents) + Payloads(tokens[..i])
    {
      var out := stage.Process(Buffer(tokens[i]));
      assert tokens[..i + 1][..i] == tokens[..i];
      i := i + 1;
    }
    assert tokens[..i] == tokens;
  }
}
