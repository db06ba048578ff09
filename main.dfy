/**
 * The Node.js binding (src/native/main.cpp): the `Pipeline` class JavaScript
 * sees. It fills a `PipelineConfig` from the object passed to its
 * constructor, maps stage names to stage kinds, prefixes engine failures,
 * and copies the engine's errors into an array.
 *
 * JavaScript values are modelled only as far as the binding inspects them:
 * a string, a configuration object with optional keys, or anything else.
 * A JavaScript exception becomes `Threw` (or `Fail`) with its message.
 */
module Binding {
  import opened Text
  import opened Common
  import opened Config
  import opened Stage
  import opened Engine

  /** The name a stage kind has on the JavaScript side. */
  function StageName(kind: StageKind): string
  {
    match kind
    case DesktopDuplication => "DESKTOP_DUPLICATION"
    case Nvenc => "NVENC"
    case Wasapi => "WASAPI"
    case WavWriter => "WAV_WRITER"
    case FileWriter => "FILE_WRITER"
    case Amf => "AMF"
    case GdiCapture => "GDI_CAPTURE"
  }

  /** `getStageTypeFromString`: the kind of each of the seven names; any other name throws. */
  function GetStageTypeFromString(name: string): (r: Outcome<StageKind>)
    ensures r.Threw? ==> r.message == "Unknown stage type"
  {
    if name == "DESKTOP_DUPLICATION" then Ok(DesktopDuplication)
    else if name == "NVENC" then Ok(Nvenc)
    else if name == "WASAPI" then Ok(Wasapi)
    else if name == "WAV_WRITER" then Ok(WavWriter)
    else if name == "FILE_WRITER" then Ok(FileWriter)
    else if name == "AMF" then Ok(Amf)
    else if name == "GDI_CAPTURE" then Ok(GdiCapture)
    else Threw("Unknown stage type")
  }

  /** Every kind is found by its name, and a name is accepted only if it is the name of the kind found. */
  lemma StageNamesRoundTrip(kind: StageKind, name: string)
    ensures GetStageTypeFromString(StageName(kind)) == Ok(kind)
    ensures GetStageTypeFromString(name).Ok? ==> StageName(GetStageTypeFromString(name).value) == name
  {
  }

  /** Different kinds have different names. */
  lemma StageNamesDistinct(a: StageKind, b: StageKind)
    requires a != b
    ensures StageName(a) != StageName(b)
  {
    StageNamesRoundTrip(a, "");
    StageNamesRoundTrip(b, "");
  }

  /** A name that differs from all seven is rejected. */
  lemma UnknownNamesRejected(name: string)
    requires forall k: StageKind :: name != StageName(k)
    ensures GetStageTypeFromString(name) == Threw("Unknown stage type")
  {
    if GetStageTypeFromString(name).Ok? {
      StageNamesRoundTrip(GetStageTypeFromString(name).value, name);
      assert false;
    }
  }

  // ---------------------------------------------------------------------
  // the constructor's configuration object

  /** `video.source`: both keys optional. */
  datatype SourceArg = SourceArg(screenId: Option<int>, windowTitle: Option<string>)

  /** `video`: every key optional; numbers are integers here. */
  datatype VideoArg = VideoArg(frameRate: Option<int>, captureCursor: Option<bool>, source: Option<SourceArg>)

  /** `audio.source.type`, `audio.source` and `audio` are each optional. */
  datatype AudioArg = AudioArg(source: Option<Option<string>>)

  datatype OutputArg = OutputArg(fileName: Option<string>)

  datatype ConfigArg = ConfigArg(video: Option<VideoArg>, audio: Option<AudioArg>, output: Option<OutputArg>)

  /** A JavaScript argument as the binding tells them apart. */
  datatype JsValue = JsString(s: string) | JsObject(config: ConfigArg) | JsOther

  /** `Napi::Number` to `uint32_t`: an integer keeps its low 32 bits. */
  function NumberToU32(n: int): u32
  {
    U32(n)
  }

  /** The audio `render` flag after the source type: "render" and "capture" set it, anything else leaves it. */
  function RenderAfter(sourceType: Option<string>, render: bool): bool
  {
    match sourceType
    case Some(t) => if t == "render" then true else if t == "capture" then false else render
    case None => render
  }

  /** The configuration the constructor builds: each present key overwrites its default. */
  function FilledConfig(arg: ConfigArg): PipelineConfig
  {
    var video :=
      match arg.video
      case None => DefaultVideo
      case Some(v) =>
        var a := if v.frameRate.Some? then DefaultVideo.(frameRate := NumberToU32(v.frameRate.value)) else DefaultVideo;
        var b := if v.captureCursor.Some? then a.(captureCursor := v.captureCursor.value) else a;
        match v.source
        case None => b
        case Some(s) =>
          var c := if s.screenId.Some? then b.(screenId := NumberToU32(s.screenId.value)) else b;
          if s.windowTitle.Some? then c.(windowTitle := s.windowTitle.value) else c;
    var audio :=
      match arg.audio
      case Some(AudioArg(Some(sourceType))) => DefaultAudio.(render := RenderAfter(sourceType, DefaultAudio.render))
      case _ => DefaultAudio;
    var output :=
      match arg.output
      case Some(OutputArg(Some(f))) => DefaultOutput.(fileName := f)
      case _ => DefaultOutput;
    PipelineConfig(output, audio, video)
  }

  /** The object a client passes to ask for exactly the configuration `c`. */
  function ConfigToArg(c: PipelineConfig): ConfigArg
  {
    ConfigArg(
      Some(VideoArg(Some(c.video.frameRate), Some(c.video.captureCursor),
                    Some(SourceArg(Some(c.video.screenId), Some(c.video.windowTitle))))),
      Some(AudioArg(Some(Some(if c.audio.render then "render" else "capture")))),
      Some(OutputArg(Some(c.output.fileName))))
  }

  /** Every configuration can be asked for: filling from its object gives it back. */
  lemma FilledConfigRoundTrip(c: PipelineConfig)
    ensures FilledConfig(ConfigToArg(c)) == c
  {
  }

  /** An empty object gives the defaults of pipeline-config.h. */
  lemma AbsentKeysKeepDefaults()
    ensures FilledConfig(ConfigArg(None, None, None)) == DefaultConfig
  {
  }

  /** An audio source type other than "render" and "capture" keeps the default loopback capture. */
  lemma UnknownAudioTypeKeepsRender(t: string)
    requires t != "render" && t != "capture"
    ensures FilledConfig(ConfigArg(None, Some(AudioArg(Some(Some(t)))), None)).audio.render
  {
  }

  /**
   * The configuration part of the constructor: exactly one object argument,
   * its keys written over the defaults one at a time, and a non-empty file
   * name required.
   */
  method ConstructorConfig(args: seq<JsValue>) returns (result: Outcome<PipelineConfig>)
    ensures (|args| != 1 || !args[0].JsObject?) ==> result == Threw("Pipeline config must be an object")
    ensures |args| == 1 && args[0].JsObject? ==>
              var c := FilledConfig(args[0].config);
              result == if |c.output.fileName| == 0 then Threw("Pipeline could not determine a suitable output") else Ok(c)
  {
    if |args| != 1 || !args[0].JsObject? {
      return Threw("Pipeline config must be an object");
    }
    var arg := args[0].config;
    var config := DefaultConfig;
    if arg.video.Some? {
      var v := arg.video.value;
      if v.frameRate.Some? {
        config := config.(video := config.video.(frameRate := NumberToU32(v.frameRate.value)));
      }
      if v.captureCursor.Some? {
        config := config.(video := config.video.(captureCursor := v.captureCursor.value));
      }
      if v.source.Some? {
        var s := v.source.value;
        if s.screenId.Some? {
          config := config.(video := config.video.(screenId := NumberToU32(s.screenId.value)));
        }
        if s.windowTitle.Some? {
          config := config.(video := config.video.(windowTitle := s.windowTitle.value));
        }
      }
    }
    if arg.audio.Some? && arg.audio.value.source.Some? {
      var sourceType := arg.audio.value.source.value;
      if sourceType.Some? {
        if sourceType.value == "render" {
          config := config.(audio := config.audio.(render := true));
        } else if sourceType.value == "capture" {
          config := config.(audio := config.audio.(render := false));
        }
      }
    }
    if arg.output.Some? && arg.output.value.fileName.Some? {
      config := config.(output := config.output.(fileName := arg.output.value.fileName.value));
    }
    if |config.output.fileName| == 0 {
      return Threw("Pipeline could not determine a suitable output");
    }
    result := Ok(config);
  }

  // ---------------------------------------------------------------------
  // the wrapper object

  const InitializeFailurePrefix: string := "Failed to initialize pipeline: "
  const StartFailurePrefix: string := "Failed to start pipeline: "

  /** An engine failure as the binding rethrows it: the prefix, then the engine's message. */
  function Prefixed(prefix: string, status: Status): (r: Status)
    ensures r.Pass? <==> status.Pass?
    ensures r.Fail? ==> StartsWith(r.message, prefix) && r.message[|prefix|..] == status.message
  {
    match status
    case Pass => Pass
    case Fail(m) => Fail(prefix + m)
  }

  class PipelineWrapper {
    const pipeline: Pipeline

    /** The wrapper around a new engine for a configuration the constructor accepted. */
    constructor (config: PipelineConfig)
      ensures fresh(pipeline) && pipeline.config == config && pipeline.stages == [] && !pipeline.initialized
      ensures pipeline.processingError == "" && !pipeline.threadRunning && pipeline.trace == []
      ensures pipeline.running == []
    {
      pipeline := new Pipeline(config);
    }

    /**
     * The engine state a wrapper call leaves alone besides what it names:
     * whether the engine is initialized, the stage calls made so far, the
     * stored error, the pause and thread flags, and the thread's stage list.
     */
    twostate predicate KeepsLifecycle()
      reads pipeline
    {
      && pipeline.initialized == old(pipeline.initialized) && pipeline.trace == old(pipeline.trace)
      && pipeline.processingError == old(pipeline.processingError)
      && pipeline.paused == old(pipeline.paused) && pipeline.threadRunning == old(pipeline.threadRunning)
      && pipeline.running == old(pipeline.running)
    }

    /** `addStage`: one string argument naming a kind; the engine gains one stage of that kind and nothing else changes. */
    method AddStage(args: seq<JsValue>) returns (status: Status)
      modifies pipeline
      ensures KeepsLifecycle()
      ensures (|args| != 1 || !args[0].JsString?) ==> status == Fail("Expected string") && pipeline.stages == old(pipeline.stages)
      ensures |args| == 1 && args[0].JsString? ==>
                var kind := GetStageTypeFromString(args[0].s);
                && (kind.Threw? ==> status == Fail("Unknown stage type") && pipeline.stages == old(pipeline.stages))
                && (kind.Ok? ==> status == Pass && pipeline.stages == old(pipeline.stages) + [kind.value])
    {
      if |args| != 1 || !args[0].JsString? {
        return Fail("Expected string");
      }
      var kind := GetStageTypeFromString(args[0].s);
      if kind.Threw? {
        return Fail(kind.message);
      }
      pipeline.AddStage(kind.value);
      status := Pass;
    }

    /** `supportsStage`: the engine's answer for the named kind. */
    method SupportsStage(args: seq<JsValue>, hardwarePresent: StageKind -> bool) returns (result: Outcome<bool>)
      ensures (|args| != 1 || !args[0].JsString?) ==> result == Threw("Expected string")
      ensures |args| == 1 && args[0].JsString? ==>
                var kind := GetStageTypeFromString(args[0].s);
                && (kind.Threw? ==> result == Threw("Unknown stage type"))
                && (kind.Ok? ==> result == Ok(OverridesIsSupported(kind.value) ==> hardwarePresent(kind.value)))
    {
      if |args| != 1 || !args[0].JsString? {
        return Threw("Expected string");
      }
      var kind := GetStageTypeFromString(args[0].s);
      if kind.Threw? {
        return Threw(kind.message);
      }
      var supported := pipeline.SupportsStage(kind.value, hardwarePresent);
      result := Ok(supported);
    }

    /**
     * `initialize`: the engine's initialization, its failure rethrown with its
     * prefix. The stages are untouched; a first initialization runs the
     * stages' `initialize` calls up to the first that throws, and leaves the
     * engine initialized exactly when none did.
     */
    method Initialize(init: InitOracle) returns (status: Status)
      modifies pipeline
      ensures pipeline.stages == old(pipeline.stages) && pipeline.processingError == old(pipeline.processingError)
      ensures pipeline.paused == old(pipeline.paused) && pipeline.threadRunning == old(pipeline.threadRunning)
      ensures pipeline.running == old(pipeline.running)
      ensures old(pipeline.initialized) ==> status == Pass && pipeline.initialized && pipeline.trace == old(pipeline.trace)
      ensures !old(pipeline.initialized) ==>
                var run := InitFold(init, |pipeline.stages|);
                && status == Prefixed(InitializeFailurePrefix, InitStatus(run))
                && pipeline.initialized == run.error.None?
                && pipeline.trace == old(pipeline.trace) + Sweep(InitializeOp, run.ran)
    {
      var engine := pipeline.Initialize(init);
      status := Prefixed(InitializeFailurePrefix, engine);
    }

    /**
     * `start`: the engine's start, its failure rethrown with its prefix. The
     * stages are untouched; from uninitialised it first initializes as
     * `Initialize` does, and the processing thread runs exactly when that
     * succeeded (or had succeeded before).
     */
    method Start(init: InitOracle) returns (status: Status)
      modifies pipeline
      ensures pipeline.stages == old(pipeline.stages) && pipeline.processingError == old(pipeline.processingError)
      ensures pipeline.paused == old(pipeline.paused)
      ensures old(pipeline.initialized) ==>
                status == Pass && pipeline.initialized && pipeline.threadRunning && pipeline.trace == old(pipeline.trace)
      ensures !old(pipeline.initialized) ==>
                var run := InitFold(init, |pipeline.stages|);
                && status == Prefixed(StartFailurePrefix, InitStatus(run))
                && pipeline.initialized == run.error.None?
                && pipeline.trace == old(pipeline.trace) + Sweep(InitializeOp, run.ran)
                && pipeline.threadRunning == (run.error.None? || old(pipeline.threadRunning))
      ensures status.Pass? ==> pipeline.running == pipeline.stages
      ensures status.Fail? ==> pipeline.running == old(pipeline.running)
    {
      var engine := pipeline.Start(init);
      status := Prefixed(StartFailurePrefix, engine);
    }

    /** `pollErrors`: the engine's errors, copied one by one into an array of the same length. */
    method PollErrors() returns (errors: array<string>)
      modifies pipeline
      ensures fresh(errors)
      ensures old(pipeline.processingError) == "" ==> errors[..] == []
      ensures old(pipeline.processingError) != "" ==> errors[..] == [old(pipeline.processingError)]
      ensures pipeline.processingError == ""
      ensures pipeline.stages == old(pipeline.stages) && pipeline.initialized == old(pipeline.initialized)
      ensures pipeline.trace == old(pipeline.trace)
      ensures pipeline.paused == old(pipeline.paused) && pipeline.threadRunning == old(pipeline.threadRunning)
      ensures pipeline.running == old(pipeline.running)
    {
      var pipelineErrors := pipeline.PollErrors();
      errors := new string[|pipelineErrors|];
      var i := 0;
      while i < |pipelineErrors|
        invariant 0 <= i <= |pipelineErrors|
        invariant errors[..i] == pipelineErrors[..i]
        modifies errors
      {
        errors[i] := pipelineErrors[i];
        i := i + 1;
      }
    }
  }

  /**
   * The constructor: the configuration checks, then the engine. A rejected
   * argument creates no engine.
   */
  method NewPipelineWrapper(args: seq<JsValue>) returns (result: Outcome<PipelineWrapper>)
    ensures (|args| != 1 || !args[0].JsObject?) ==> result == Threw("Pipeline config must be an object")
    ensures |args| == 1 && args[0].JsObject? && |FilledConfig(args[0].config).output.fileName| == 0 ==>
              result == Threw("Pipeline could not determine a suitable output")
    ensures result.Ok? <==> |args| == 1 && args[0].JsObject? && |FilledConfig(args[0].config).output.fileName| > 0
    ensures result.Ok? ==> |args| == 1 && args[0].JsObject? && fresh(result.value) && fresh(result.value.pipeline)
                           && result.value.pipeline.config == FilledConfig(args[0].config)
                           && result.value.pipeline.stages == []
  {
    var config := ConstructorConfig(args);
    if config.Threw? {
      return Threw(config.message);
    }
    var wrapper := new PipelineWrapper(config.value);
    result := Ok(wrapper);
  }
}
