/**
 * The WASAPI audio capture stage (src/native/stages/wasapi-stage.cpp, fields
 * from wasapi-stage.h): opens the default render (loopback) or capture
 * endpoint, coerces a floating-point mix format to 16-bit PCM, and on each
 * tick copies the next captured packet into a stage-owned buffer that
 * doubles, up to a ceiling, to hold it.
 *
 * The audio engine is an oracle: the mix format, the device period, the
 * pending packet sizes, the packet's frames and bytes, and the HRESULTs of the
 * render keep-alive calls (the only ones the source checks).
 */
module Wasapi {
  import opened Text
  import opened Common
  import opened Config
  import opened Stage

  /** `MAX_BUFFER_SIZE`: the largest buffer, in frames. */
  const MaxBufferSize: nat := 32768

  /** The initial `bufferSize`, in frames. */
  const InitialBufferSize: nat := 1024

  const WaveFormatPcm: u16 := 1
  const WaveFormatIeeeFloat: u16 := 3
  const WaveFormatExtensible: u16 := 0xFFFE

  /** `AUDCLNT_STREAMFLAGS_LOOPBACK`. */
  const StreamFlagsLoopback: int := 0x0002_0000

  /** REFERENCE_TIME units (100 ns) per millisecond. */
  const UnitsPerMs: int := 10000

  datatype SubFormat = SubtypePcm | SubtypeIeeeFloat | OtherSubtype(guid: nat)

  /**
   * `WAVEFORMATEX`, with the `WAVEFORMATEXTENSIBLE` fields the stage touches
   * (meaningful only when the tag is `WAVE_FORMAT_EXTENSIBLE`).
   */
  datatype WaveFormat = WaveFormat(formatTag: u16, channels: u16, samplesPerSec: u32, avgBytesPerSec: u32,
                                   blockAlign: u16, bitsPerSample: u16, validBitsPerSample: u16, subFormat: SubFormat)

  datatype DataFlow = ERender | ECapture

  /** A floating-point format, plain or extensible. */
  predicate IsFloat(f: WaveFormat)
  {
    f.formatTag == WaveFormatIeeeFloat || (f.formatTag == WaveFormatExtensible && f.subFormat == SubtypeIeeeFloat)
  }

  /**
   * The coercion to 16-bit PCM. A float format keeps its rate and channels
   * and gets 16 bits, the block alignment of 16-bit samples and the matching
   * byte rate (the tag or the sub-format becomes PCM); any other format is
   * left alone.
   */
  function Coerced(f: WaveFormat): (r: WaveFormat)
    ensures IsFloat(f) ==>
              && r.channels == f.channels && r.samplesPerSec == f.samplesPerSec
              && r.bitsPerSample == 16
              && r.blockAlign == U16(f.channels * 2)
              && r.avgBytesPerSec == U32(r.blockAlign * f.samplesPerSec)
              && !IsFloat(r)
    ensures f.formatTag == WaveFormatIeeeFloat ==> r.formatTag == WaveFormatPcm && r.subFormat == f.subFormat
    ensures f.formatTag == WaveFormatExtensible && IsFloat(f) ==>
              r.formatTag == WaveFormatExtensible && r.subFormat == SubtypePcm && r.validBitsPerSample == 16
    ensures !IsFloat(f) ==> r == f
  {
    if !IsFloat(f) then f
    else
      var align := U16(f.channels * 16 / 8);
      var pcm := f.(bitsPerSample := 16, blockAlign := align, avgBytesPerSec := U32(align * f.samplesPerSec));
      if f.formatTag == WaveFormatIeeeFloat then pcm.(formatTag := WaveFormatPcm)
      else pcm.(subFormat := SubtypePcm, validBitsPerSample := 16)
  }

  /** Coercing twice is coercing once. */
  lemma CoercionIdempotent(f: WaveFormat)
    ensures Coerced(Coerced(f)) == Coerced(f)
  {
  }

  /** Stereo 48 kHz float becomes 16-bit PCM with 4-byte frames and 192000 bytes per second. */
  lemma StereoFloatExample()
    ensures var r := Coerced(WaveFormat(WaveFormatIeeeFloat, 2, 48000, 384000, 8, 32, 0, SubtypePcm));
            r == WaveFormat(WaveFormatPcm, 2, 48000, 192000, 4, 16, 0, SubtypePcm)
  {
  }

  /** The waitable timer's schedule: a relative first due time and a period in milliseconds. */
  datatype Timer = Timer(firstFire: int, periodMs: int)

  /** The timer set from the device period (in 100-ns units), with C++'s truncating division. */
  function TimerFor(devicePeriod: int): Timer
  {
    Timer(TruncDiv(-devicePeriod, 2), TruncDiv(TruncDiv(devicePeriod, 2), UnitsPerMs))
  }

  /**
   * The timer first fires half a device period from now (a negative due time
   * is relative), then every half period, rounded down to whole milliseconds.
   */
  lemma TimerIsHalfPeriod(devicePeriod: int)
    requires devicePeriod >= 0
    ensures var t := TimerFor(devicePeriod);
            && t.firstFire <= 0
            && -2 * t.firstFire <= devicePeriod < -2 * t.firstFire + 2
            && t.periodMs == devicePeriod / (2 * UnitsPerMs)
  {
    var q := devicePeriod / 20000;
    var r := devicePeriod % 20000;
    assert devicePeriod / 2 == 10000 * q + r / 2;
    assert TruncDiv(TruncDiv(devicePeriod, 2), UnitsPerMs) == (10000 * q + r / 2) / 10000;
  }

  /**
   * The growth loop: the capacity, in frames, doubles while the packet does
   * not fit, and the loop gives up once the doubled capacity passes the
   * ceiling. The result is the final capacity and whether it gave up.
   */
  function Grown(capacity: nat, frames: nat): (r: (nat, bool))
    requires capacity > 0
    ensures r.0 >= capacity
    ensures !r.1 ==> r.0 >= frames && (r.0 > capacity ==> r.0 <= MaxBufferSize)
    ensures r.1 ==> r.0 > MaxBufferSize && frames > r.0 / 2
    decreases if frames > capacity then frames - capacity else 0
  {
    if frames <= capacity then (capacity, false)
    else if capacity * 2 > MaxBufferSize then (capacity * 2, true)
    else Grown(capacity * 2, frames)
  }

  /** Capacities the stage can reach: 1024 doubled any number of times. */
  predicate Doubled(capacity: nat)
    decreases capacity
  {
    capacity == InitialBufferSize || (capacity > InitialBufferSize && capacity % 2 == 0 && Doubled(capacity / 2))
  }

  /** The reachable capacities within the ceiling are 1024, 2048, ..., 32768. */
  lemma {:induction false} DoubledWithinCeiling(capacity: nat)
    requires Doubled(capacity) && capacity <= MaxBufferSize
    ensures capacity in {1024, 2048, 4096, 8192, 16384, 32768}
    decreases capacity
  {
    if capacity != InitialBufferSize {
      DoubledWithinCeiling(capacity / 2);
    }
  }

  /**
   * From any capacity the stage can reach, a packet is fatal exactly when
   * it has more than 32768 frames; otherwise the capacity ends at most 32768.
   */
  lemma {:induction false} OverflowIffTooManyFrames(capacity: nat, frames: nat)
    requires Doubled(capacity) && capacity <= MaxBufferSize
    ensures Grown(capacity, frames).1 <==> frames > MaxBufferSize
    ensures !Grown(capacity, frames).1 ==> Grown(capacity, frames).0 <= MaxBufferSize
    decreases MaxBufferSize - capacity
  {
    if frames <= capacity {
    } else if capacity * 2 > MaxBufferSize {
      DoubledWithinCeiling(capacity);
    } else {
      assert Doubled(capacity * 2) by {
        assert (capacity * 2) / 2 == capacity;
      }
      OverflowIffTooManyFrames(capacity * 2, frames);
    }
  }

  /** A buffer of at most 32768 frames of any format has a byte count that fits in 32 bits. */
  lemma BufferBytesFit(blockAlign: u16, frames: nat)
    requires frames <= MaxBufferSize
    ensures blockAlign * frames <= blockAlign * MaxBufferSize < TwoTo32
    ensures U32(blockAlign * frames) == blockAlign * frames
  {
    MulMonotone(blockAlign, frames, MaxBufferSize);
    assert blockAlign * MaxBufferSize <= 0xFFFF * MaxBufferSize;
    U32Small(blockAlign * frames);
  }

  /**
   * The buffer after growing from `oldSize` to `newSize` frames: untouched
   * when the size did not change, else a fresh zeroed allocation.
   */
  function Reallocated(oldBuffer: seq<byte>, blockAlign: u16, oldSize: nat, newSize: nat): seq<byte>
  {
    if newSize == oldSize then oldBuffer else Zeros(blockAlign * newSize)
  }

  /** What the render keep-alive calls report. */
  datatype KeepAliveOracle = KeepAliveOracle(getBufferSizeHr: HResult, frames: u32, getServiceHr: HResult,
                                             getBufferHr: HResult)

  class WasapiStage {
    var endpoint: Option<DataFlow>
    var streamFlags: int
    var wfx: Option<WaveFormat>
    var buffer: seq<byte>
    var bufferSize: u32
    var timer: Option<Timer>
    /** The silence written into the render client's buffer, when the keep-alive runs. */
    var keepAlive: Option<seq<byte>>
    var results: DataAndSize

    /** The member initialisers of wasapi-stage.h. */
    constructor ()
      ensures endpoint.None? && wfx.None? && buffer == [] && bufferSize == InitialBufferSize
      ensures timer.None? && keepAlive.None?
    {
      endpoint := None;
      streamFlags := 0;
      wfx := None;
      buffer := [];
      bufferSize := InitialBufferSize;
      timer := None;
      keepAlive := None;
      results := DataAndSize([], 0);
    }

    /** Ready to capture: a format, and a buffer of `bufferSize` frames of it, within the ceiling. */
    predicate Ready()
      reads this
    {
      && wfx.Some?
      && 0 < bufferSize <= MaxBufferSize
      && |buffer| == wfx.value.blockAlign * bufferSize
    }

    /** The format switch of `initialize`, rewriting the mix format in place. */
    method CoerceMixFormat()
      requires wfx.Some?
      modifies this`wfx
      ensures wfx == Some(Coerced(old(wfx.value)))
    {
      var f := wfx.value;
      if f.formatTag == WaveFormatIeeeFloat {
        f := f.(formatTag := WaveFormatPcm);
        f := f.(bitsPerSample := 16);
        f := f.(blockAlign := U16(f.channels * f.bitsPerSample / 8));
        f := f.(avgBytesPerSec := U32(f.blockAlign * f.samplesPerSec));
      } else if f.formatTag == WaveFormatExtensible {
        if f.subFormat == SubtypeIeeeFloat {
          f := f.(subFormat := SubtypePcm);
          f := f.(validBitsPerSample := 16);
          f := f.(bitsPerSample := 16);
          f := f.(blockAlign := U16(f.channels * f.bitsPerSample / 8));
          f := f.(avgBytesPerSec := U32(f.blockAlign * f.samplesPerSec));
        }
      }
      wfx := Some(f);
    }

    /**
     * `initialize`: render (loopback) or capture endpoint, the coerced
     * format, a buffer of `bufferSize` frames, the timer, and the context's
     * audio fields. For render, a keep-alive client then gets one buffer of
     * silence; its three checked calls are the only ways to fail.
     */
    method Initialize(config: PipelineConfig, context: PipelineContext, mixFormat: WaveFormat, devicePeriod: int,
                      keep: KeepAliveOracle)
      returns (result: Outcome<PipelineContext>)
      requires 0 < bufferSize <= MaxBufferSize
      modifies this
      ensures endpoint == Some(if config.audio.render then ERender else ECapture)
      ensures streamFlags == if config.audio.render then StreamFlagsLoopback else 0
      ensures wfx == Some(Coerced(mixFormat))
      ensures bufferSize == old(bufferSize) && Ready()
      ensures buffer == Zeros(wfx.value.blockAlign * bufferSize)
      ensures timer == Some(TimerFor(devicePeriod))
      ensures !config.audio.render ==> keepAlive == old(keepAlive)
      ensures var f := Coerced(mixFormat);
              var filled := context.(samplesPerSecond := Some(f.samplesPerSec), channels := Some(f.channels),
                                     bitsPerSample := Some(f.bitsPerSample));
              && (!config.audio.render ==> result == Ok(filled))
              && (config.audio.render ==>
                    if keep.getBufferSizeHr < 0 then result == Threw(ErrorCodeMessage("render:getBufferSize", keep.getBufferSizeHr))
                    else if keep.getServiceHr < 0 then result == Threw(ErrorCodeMessage("render:getService", keep.getServiceHr))
                    else if keep.getBufferHr < 0 then result == Threw(ErrorCodeMessage("renderer:getBuffer", keep.getBufferHr))
                    else result == Ok(filled) && keepAlive == Some(Zeros(U32(keep.frames * f.blockAlign))))
      ensures results == old(results)
    {
      endpoint := Some(if config.audio.render then ERender else ECapture);
      wfx := Some(mixFormat);
      CoerceMixFormat();
      var f := wfx.value;
      BufferBytesFit(f.blockAlign, bufferSize);
      streamFlags := if config.audio.render then StreamFlagsLoopback else 0;
      buffer := Zeros(U32(f.blockAlign * bufferSize));
      timer := Some(TimerFor(devicePeriod));
      result := Ok(context.(samplesPerSecond := Some(f.samplesPerSec), channels := Some(f.channels),
                            bitsPerSample := Some(f.bitsPerSample)));
      if config.audio.render {
        var step := ThrowIfFail(keep.getBufferSizeHr, "render:getBufferSize");
        if step.Fail? { return Threw(step.message); }
        step := ThrowIfFail(keep.getServiceHr, "render:getService");
        if step.Fail? { return Threw(step.message); }
        step := ThrowIfFail(keep.getBufferHr, "renderer:getBuffer");
        if step.Fail? { return Threw(step.message); }
        keepAlive := Some(Zeros(U32(keep.frames * f.blockAlign)));
      }
    }

    /**
     * The growth loop of `process`: doubles `bufferSize` while the packet
     * does not fit, reallocating the buffer each time, and stops with an
     * overflow once the doubled size passes the ceiling (the size stays
     * doubled; the buffer is the last one allocated).
     */
    method GrowBuffer(frames: nat) returns (overflow: bool)
      requires Ready()
      modifies this`buffer, this`bufferSize
      ensures bufferSize == Grown(old(bufferSize), frames).0 && overflow == Grown(old(bufferSize), frames).1
      ensures !overflow ==> Ready()
      ensures !overflow ==> buffer == Reallocated(old(buffer), wfx.value.blockAlign, old(bufferSize), bufferSize)
      ensures overflow ==> buffer == Reallocated(old(buffer), wfx.value.blockAlign, old(bufferSize), bufferSize / 2)
    {
      var blockAlign := wfx.value.blockAlign;
      while frames > bufferSize
        invariant 0 < old(bufferSize) <= bufferSize <= MaxBufferSize
        invariant Grown(old(bufferSize), frames) == Grown(bufferSize, frames)
        invariant |buffer| == blockAlign * bufferSize
        invariant bufferSize == old(bufferSize) ==> buffer == old(buffer)
        invariant bufferSize > old(bufferSize) ==> buffer == Zeros(blockAlign * bufferSize)
        decreases frames - bufferSize
      {
        bufferSize := bufferSize * 2;
        if bufferSize > MaxBufferSize {
          return true;
        }
        BufferBytesFit(blockAlign, bufferSize);
        buffer := Zeros(U32(blockAlign * bufferSize));
      }
      return false;
    }

    /**
     * `process`: waits for the timer only when no packet is pending at first,
     * and has no output when none is pending after that. Otherwise the
     * buffer grows as `Grown` says (fatal past the ceiling) and the token is
     * the stage's buffer with the packet's bytes at its start and a size of
     * frames times the block alignment.
     */
    method Process(firstPending: u32, secondPending: u32, frames: u32, captured: seq<byte>)
      returns (result: Outcome<Token>, waited: bool)
      requires Ready()
      requires |captured| == frames * wfx.value.blockAlign
      modifies this`buffer, this`bufferSize, this`results
      ensures waited == (firstPending == 0)
      ensures secondPending == 0 ==>
                result == Ok(NoOutput) && buffer == old(buffer) && bufferSize == old(bufferSize) && results == old(results)
      ensures secondPending != 0 ==> bufferSize == Grown(old(bufferSize), frames).0
      ensures secondPending != 0 && Grown(old(bufferSize), frames).1 ==>
                && result == Threw("Audio frames overlowed buffer.") && results == old(results)
                && buffer == Reallocated(old(buffer), wfx.value.blockAlign, old(bufferSize), bufferSize / 2)
      ensures secondPending != 0 && !Grown(old(bufferSize), frames).1 ==>
                && result == Ok(Buffer(results))
                && results.size == frames * wfx.value.blockAlign
                && results.rawData == buffer
                && |captured| <= |Reallocated(old(buffer), wfx.value.blockAlign, old(bufferSize), bufferSize)|
                && buffer == captured + Reallocated(old(buffer), wfx.value.blockAlign, old(bufferSize), bufferSize)[|captured|..]
                && results.Readable() && results.Payload() == captured
                && Ready()
    {
      waited := firstPending == 0;
      if secondPending == 0 {
        return Ok(NoOutput), waited;
      }
      var overflow := GrowBuffer(frames);
      if overflow {
        return Threw("Audio frames overlowed buffer."), waited;
      }
      ghost var grown := buffer;
      var blockAlign := wfx.value.blockAlign;
      BufferBytesFit(blockAlign, frames);
      MulMonotone(blockAlign, frames, bufferSize);
      var size := U32(frames * blockAlign);
      assert size == |captured| <= |buffer|;
      buffer := captured + buffer[size..];
      assert buffer == captured + grown[|captured|..];
      assert buffer[..size] == captured;
      results := DataAndSize(buffer, size);
      return Ok(Buffer(results)), waited;
    }
  }
}
