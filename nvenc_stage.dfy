/**
 * The NVENC encoder stage (src/native/stages/nvenc-stage.cpp, fields from
 * nvenc-stage.h): copies the captured texture into the encoder's input
 * frame, encodes it and hands on the one packet the encoder produced.
 *
 * The NVENC SDK is an oracle: `process` is given the packets `EncodeFrame`
 * wrote into the stage's `packets` vector, and each SDK call that can throw
 * is given the exception text it throws, if any.
 */
module Nvenc {
  import opened Text
  import opened Common
  import opened Config
  import opened Stage

  /** The fields of `NV_ENC_INITIALIZE_PARAMS` and `NV_ENC_CONFIG` the stage sets itself. */
  datatype EncodeParams = EncodeParams(encodeWidth: u32, encodeHeight: u32, maxEncodeWidth: u32,
                                       maxEncodeHeight: u32, frameRateNum: u32, gopLength: u32)

  /**
   * The parameters `initialize` derives: the size of the captured surface,
   * both as the encode size and as the largest one, the configured frame
   * rate, and a group of pictures of two frame periods (an unsigned product).
   */
  function InitParams(config: PipelineConfig, width: u32, height: u32): EncodeParams
  {
    EncodeParams(width, height, width, height, config.video.frameRate, U32(config.video.frameRate * 2))
  }

  /** Each key frame starts two seconds of video, at any frame rate below 2^31. */
  lemma GopIsTwoSeconds(config: PipelineConfig, width: u32, height: u32)
    requires config.video.frameRate < TwoTo32 / 2
    ensures var p := InitParams(config, width, height);
            && p.gopLength == 2 * p.frameRateNum
            && p.encodeWidth == p.maxEncodeWidth == width && p.encodeHeight == p.maxEncodeHeight == height
  {
  }

  /** From 2^31 frames per second on, the group of pictures wraps: 2^31 gives a length of 0. */
  lemma GopWrapsAtTwoToThe31()
    ensures InitParams(DefaultConfig.(video := DefaultVideo.(frameRate := TwoTo32 / 2)), 0, 0).gopLength == 0
  {
  }

  /**
   * What `process` returns for the packets one encode produced: no output for
   * none, the one packet (with its length as an unsigned count), or the
   * exception for more than one.
   */
  function PacketToken(packets: seq<seq<byte>>): (r: Outcome<Token>)
    ensures r == Ok(NoOutput) <==> |packets| == 0
    ensures r.Threw? <==> |packets| > 1
    ensures r.Threw? ==> r.message == "Got more packets than expected"
    ensures r.Ok? && r.value != NoOutput ==> r.value.Buffer? && r.value.data.rawData == packets[0]
  {
    if |packets| == 0 then Ok(NoOutput)
    else if |packets| > 1 then Threw("Got more packets than expected")
    else Ok(Buffer(DataAndSize(packets[0], U32(|packets[0]|))))
  }

  /** A single packet of fewer than 2^32 bytes reaches the next stage byte for byte. */
  lemma OnePacketArrivesWhole(packet: seq<byte>)
    requires |packet| < TwoTo32
    ensures var r := PacketToken([packet]);
            && r.Ok? && r.value.Buffer?
            && r.value.data.Readable() && r.value.data.Payload() == packet
  {
  }

  class NvencStage {
    /** The encoder `initialize` created, by its parameters; `None` is null. */
    var encoder: Option<EncodeParams>
    var device: Option<Device>
    var packets: seq<seq<byte>>
    var results: DataAndSize
    /** How many times `DestroyEncoder` has run. */
    var destroyed: nat

    /** The member initialisers of nvenc-stage.h: no encoder. */
    constructor ()
      ensures encoder.None? && packets == [] && destroyed == 0
    {
      encoder := None;
      device := None;
      packets := [];
      results := DataAndSize([], 0);
      destroyed := 0;
    }

    /**
     * `initialize`: an encoder on the context's device, sized by the
     * captured surface the earlier stage published. The SDK throws an
     * `NVENCException` (a `std::exception`, whose text is the oracle's) when
     * `new NvEncoderD3D11` fails, leaving the field null, or when
     * `CreateEncoder` fails, after the object has been stored.
     */
    method Initialize(config: PipelineConfig, context: PipelineContext, constructError: Option<string>,
                      createError: Option<string>)
      returns (status: Status)
      requires context.d3Device.Some? && context.inputWidth.Some? && context.inputHeight.Some?
      modifies this`encoder, this`device
      ensures device == context.d3Device
      ensures constructError.Some? ==> status == Fail(constructError.value) && encoder == old(encoder)
      ensures constructError.None? ==>
                && encoder == Some(InitParams(config, context.inputWidth.value, context.inputHeight.value))
                && status == (if createError.Some? then Fail(createError.value) else Pass)
    {
      var width := context.inputWidth.value;
      var height := context.inputHeight.value;
      device := context.d3Device;
      if constructError.Some? {
        return Fail(constructError.value);
      }
      var params := EncodeParams(width, height, width, height, 0, 0);
      params := params.(frameRateNum := config.video.frameRate);
      params := params.(gopLength := U32(config.video.frameRate * 2));
      encoder := Some(params);
      if createError.Some? {
        return Fail(createError.value);
      }
      status := Pass;
    }

    /**
     * `process`: the encoder refills `packets`; the token is `PacketToken` of
     * them, and for one packet `results` points at that packet's storage.
     * `encodeError` is the text of an `NVENCException` from `EncodeFrame`.
     */
    method Process(encoded: seq<seq<byte>>, encodeError: Option<string>) returns (result: Outcome<Token>)
      requires encoder.Some?
      modifies this`packets, this`results
      ensures encodeError.Some? ==> result == Threw(encodeError.value) && packets == old(packets) && results == old(results)
      ensures encodeError.None? ==> packets == encoded && result == PacketToken(encoded)
      ensures encodeError.None? && |encoded| == 1 ==>
                results == DataAndSize(packets[0], U32(|packets[0]|)) && result == Ok(Buffer(results))
      ensures encodeError.None? && |encoded| != 1 ==> results == old(results)
    {
      if encodeError.Some? {
        return Threw(encodeError.value);
      }
      packets := encoded;
      if |packets| == 0 {
        return Ok(NoOutput);
      }
      if |packets| > 1 {
        return Threw("Got more packets than expected");
      }
      var packet := packets[0];
      results := DataAndSize(packet, U32(|packet|));
      result := Ok(Buffer(results));
    }

    /** `shutdown`: destroys the encoder only if one was created (the field is not cleared). */
    method Shutdown()
      modifies this`destroyed
      ensures destroyed == old(destroyed) + (if encoder.Some? then 1 else 0)
    {
      if encoder.Some? {
        destroyed := destroyed + 1;
      }
    }
  }
}
