/**
 * The AMF encoder stage (src/native/stages/amf-stage.cpp, fields from
 * amf-stage.h): configures an AMD video encoder on the context's device,
 * submits each captured frame and copies out whatever encoded output is
 * ready.
 *
 * The AMF runtime is an oracle: the `AMF_RESULT` of each call of
 * `initialize`, of `SubmitInput`, and the bytes `QueryOutput` returns (if
 * any). `AMF_OK` is 0.
 */
module Amf {
  import opened Text
  import opened Common
  import opened Config
  import opened Stage

  /** `throwIfFailAmd(res, prefix)`: any result other than `AMF_OK` throws. */
  function ThrowIfFailAmd(res: nat, prefix: string): (r: Status)
    ensures r.Fail? <==> res != 0
    ensures r.Fail? ==> r.message == ErrorCodeMessage(prefix, res)
  {
    if res != 0 then Fail(ErrorCodeMessage(prefix, res)) else Pass
  }

  /** The message of a failed call spells the result code in hexadecimal after the prefix. */
  lemma {:induction false} AmfCodeReadable(res: nat, prefix: string)
    requires 0 < res < TwoTo32
    ensures var m := ThrowIfFailAmd(res, prefix).message;
            && StartsWith(m, prefix + " error code=")
            && ParseRadix(m[|prefix| + 12..], 16) == res
  {
    var m := ThrowIfFailAmd(res, prefix).message;
    assert m == (prefix + " error code=") + Hex(res);
    assert m[..|prefix| + 12] == prefix + " error code=";
    assert m[|prefix| + 12..] == Hex(res);
    RadixRoundTrip(res, 16);
  }

  /** The checked calls of `initialize`, in order, by the prefix of their error message. */
  const InitSteps: seq<string> := ["init", "context", "initDX11", "createEncoder", "setEncoder", "setBitrate",
                                   "setSize", "setFramerate", "initEncoder", "allocSurface"]

  /** Step k is the first of the checked calls to fail. */
  predicate FailsAt(codes: seq<nat>, k: nat)
    requires |codes| == |InitSteps|
  {
    k < |codes| && codes[k] != 0 && forall j :: 0 <= j < k ==> codes[j] == 0
  }

  /** `AMF_VIDEO_ENCODER_TARGET_BITRATE`. */
  const TargetBitrate: nat := 5000000

  /** What the encoder is configured with: size, frame rate as a fraction, bitrate. */
  datatype EncoderSettings = EncoderSettings(width: u32, height: u32, rateNum: u32, rateDen: u32, bitrate: nat)

  /** The settings `initialize` applies, and the capacity of the output buffer it allocates. */
  function Settings(config: PipelineConfig, width: u32, height: u32): EncoderSettings
  {
    EncoderSettings(width, height, config.video.frameRate, 1, TargetBitrate)
  }

  /** `new char[width * height * 4]`: four bytes per pixel, as an unsigned product. */
  function OutputCapacity(width: u32, height: u32): u32
  {
    U32(width * height * 4)
  }

  /** Four bytes per pixel fit exactly while the frame is under 2^30 pixels; a 32768 x 32768 frame wraps to nothing. */
  lemma CapacityIsFourBytesPerPixel(width: u32, height: u32)
    ensures width * height < TwoTo32 / 4 ==> OutputCapacity(width, height) == 4 * width * height
    ensures OutputCapacity(32768, 32768) == 0
  {
  }

  /** `1000 / frameRate`: the frame duration, in whole milliseconds, set on every submitted surface. */
  function FrameDuration(frameRate: u32): (r: nat)
    requires frameRate > 0
    ensures r * frameRate <= 1000 < (r + 1) * frameRate
  {
    1000 / frameRate
  }

  /** The stage's components, in the order `shutdown` terminates them. */
  datatype Component = EncoderComponent | ContextComponent | FactoryComponent

  class AmfStage {
    var hasContext: bool
    var hasEncoder: bool
    var hasSurface: bool
    var settings: Option<EncoderSettings>
    var frameRate: u32
    /** The bytes behind `result.rawData`; `None` before the allocation. */
    var rawData: Option<seq<byte>>
    var size: u32
    /** The duration last set on the intermediate surface. */
    var duration: Option<nat>
    /** The `Terminate` calls `shutdown` has made, in order. */
    var terminated: seq<Component>
    var freed: nat

    /** The member initialisers of amf-stage.h; `frameRate` and `result` have none and start at zero and null. */
    constructor ()
      ensures !hasContext && !hasEncoder && !hasSurface && settings.None? && rawData.None?
      ensures terminated == [] && freed == 0
    {
      hasContext := false;
      hasEncoder := false;
      hasSurface := false;
      settings := None;
      frameRate := 0;
      rawData := None;
      size := 0;
      duration := None;
      terminated := [];
      freed := 0;
    }

    /**
     * `initialize`: the ten checked calls in order, each fatal with its own
     * prefix. The context exists once "context" has passed, the encoder once
     * "createEncoder" has, the surface and the output buffer only when all
     * ten passed.
     */
    method Initialize(config: PipelineConfig, context: PipelineContext, codes: seq<nat>) returns (status: Status)
      requires |codes| == |InitSteps|
      requires context.inputWidth.Some? && context.inputHeight.Some?
      requires !hasContext && !hasEncoder && !hasSurface && settings.None? && rawData.None?
      modifies this`hasContext, this`hasEncoder, this`hasSurface, this`settings, this`frameRate, this`rawData
      ensures frameRate == config.video.frameRate
      ensures forall k :: 0 <= k < |InitSteps| && FailsAt(codes, k) ==>
                && status == Fail(ErrorCodeMessage(InitSteps[k], codes[k]))
                && (hasContext <==> k >= 2) && (hasEncoder <==> k >= 4)
                && !hasSurface && rawData.None?
      ensures (forall k :: 0 <= k < |codes| ==> codes[k] == 0) ==>
                && status == Pass && hasContext && hasEncoder && hasSurface
                && settings == Some(Settings(config, context.inputWidth.value, context.inputHeight.value))
                && rawData == Some(Zeros(OutputCapacity(context.inputWidth.value, context.inputHeight.value)))
    {
      var width: int := context.inputWidth.value;
      var height: int := context.inputHeight.value;
      frameRate := config.video.frameRate;
      status := ThrowIfFailAmd(codes[0], "init");
      if status.Fail? { return; }
      status := ThrowIfFailAmd(codes[1], "context");
      if status.Fail? { return; }
      hasContext := true;
      status := ThrowIfFailAmd(codes[2], "initDX11");
      if status.Fail? { return; }
      status := ThrowIfFailAmd(codes[3], "createEncoder");
      if status.Fail? { return; }
      hasEncoder := true;
      status := ThrowIfFailAmd(codes[4], "setEncoder");
      if status.Fail? { return; }
      status := ThrowIfFailAmd(codes[5], "setBitrate");
      if status.Fail? { return; }
      status := ThrowIfFailAmd(codes[6], "setSize");
      if status.Fail? { return; }
      status := ThrowIfFailAmd(codes[7], "setFramerate");
      if status.Fail? { return; }
      status := ThrowIfFailAmd(codes[8], "initEncoder");
      if status.Fail? { return; }
      status := ThrowIfFailAmd(codes[9], "allocSurface");
      if status.Fail? { return; }
      hasSurface := true;
      settings := Some(EncoderSettings(width, height, frameRate, 1, TargetBitrate));
      rawData := Some(Zeros(U32(width * height * 4)));
    }

    /**
     * `process`: the surface gets a duration of `1000 / frameRate`, a failed
     * submit is fatal, no ready output is no token, and ready output is
     * copied to the start of the output buffer with its length as the size.
     */
    method Process(submitResult: nat, output: Option<seq<byte>>) returns (result: Outcome<Token>)
      requires hasSurface && hasEncoder && rawData.Some? && frameRate > 0
      requires |rawData.value| < TwoTo32
      requires output.Some? ==> |output.value| <= |rawData.value|
      modifies this`duration, this`rawData, this`size
      ensures duration == Some(FrameDuration(frameRate))
      ensures submitResult != 0 ==>
                result == Threw(ErrorCodeMessage("submitInput", submitResult)) && rawData == old(rawData) && size == old(size)
      ensures submitResult == 0 && output.None? ==> result == Ok(NoOutput) && rawData == old(rawData) && size == old(size)
      ensures submitResult == 0 && output.Some? ==>
                && rawData == Some(output.value + old(rawData.value)[|output.value|..])
                && size == |output.value|
                && result == Ok(Buffer(DataAndSize(rawData.value, size)))
                && DataAndSize(rawData.value, size).Readable()
                && DataAndSize(rawData.value, size).Payload() == output.value
    {
      duration := Some(1000 / frameRate);
      var submitted := ThrowIfFailAmd(submitResult, "submitInput");
      if submitted.Fail? {
        return Threw(submitted.message);
      }
      if output.None? {
        return Ok(NoOutput);
      }
      var data := output.value;
      rawData := Some(data + rawData.value[|data|..]);
      size := U32(|data|);
      assert rawData.value[..size] == data;
      result := Ok(Buffer(DataAndSize(rawData.value, size)));
    }

    /** `shutdown`: terminates the encoder and the context if they exist, always the factory, and frees the buffer. */
    method Shutdown()
      modifies this`terminated, this`freed
      ensures terminated == old(terminated) + (if hasEncoder then [EncoderComponent] else [])
                                            + (if hasContext then [ContextComponent] else []) + [FactoryComponent]
      ensures freed == old(freed) + (if rawData.Some? then 1 else 0)
    {
      if hasEncoder {
        terminated := terminated + [EncoderComponent];
      }
      if hasContext {
        terminated := terminated + [ContextComponent];
      }
      terminated := terminated + [FactoryComponent];
      if rawData.Some? {
        freed := freed + 1;
      }
    }
  }

  /**
   * `isSupported`: initialises the AMF factory on its own, terminates it
   * whatever the result, and reports whether the initialisation succeeded.
   */
  method IsSupported(initResult: nat) returns (supported: bool, terminated: seq<Component>)
    ensures supported <==> initResult == 0
    ensures terminated == [FactoryComponent]
  {
    terminated := [FactoryComponent];
    supported := initResult == 0;
  }
}
