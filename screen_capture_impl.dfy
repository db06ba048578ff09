/**
 * The capture controller (src/screen-capture-impl.ts): the
 * UNSTARTED/STARTED/CAPTURING/STOPPED state machine, the output file names,
 * the stage list of each native pipeline, error fan-out to the registered
 * callbacks, and the hand-over to post-processing when a capture stops.
 *
 * A native pipeline is represented by the configuration object it was
 * built from and the stage names added to it. What its calls report is an
 * oracle indexed by the pipeline's position: whether `supportsStage` says
 * yes, the error (if any) of `initialize` and `start`, and what
 * `pollErrors` returns. The calls themselves are recorded, in order, in
 * `calls`. A callback is known by a number, and each time one is invoked
 * the pair of callback and error is recorded in `delivered`.
 */
module ScreenCapture {
  import opened Text
  import opened Common
  import opened Binding
  import opened Ffmpeg
  import opened PostProcessing

  // ---------------------------------------------------------------------
  // the state machine

  datatype CaptureState = Unstarted | Started | Capturing | Stopped

  /** The enum's numeric value, which is what error messages show. */
  function StateNumber(s: CaptureState): nat
  {
    match s
    case Unstarted => 0
    case Started => 1
    case Capturing => 2
    case Stopped => 3
  }

  /** The public operations that change the state. */
  datatype Operation = StartOp | PauseOp | ResumeOp | StopOp

  /** The states each operation accepts, in the order its `ensureState` lists them. */
  function Allowed(op: Operation): seq<CaptureState>
  {
    match op
    case StartOp => [Unstarted]
    case PauseOp => [Capturing]
    case ResumeOp => [Started]
    case StopOp => [Started, Capturing]
  }

  /** The state an operation that passed its check moves to. */
  function Next(op: Operation): CaptureState
  {
    match op
    case StartOp => Capturing
    case PauseOp => Started
    case ResumeOp => Capturing
    case StopOp => Stopped
  }

  /**
   * The transitions the class documents and no others: UNSTARTED to
   * CAPTURING by start, CAPTURING to STARTED by pause, STARTED to CAPTURING
   * by resume, and STARTED or CAPTURING to STOPPED by stop. STOPPED is final
   * and nothing leads back to UNSTARTED.
   */
  lemma Lifecycle(s: CaptureState, op: Operation)
    ensures s in Allowed(op) <==>
              (s == Unstarted && op == StartOp) || (s == Capturing && op == PauseOp) ||
              (s == Started && op == ResumeOp) || (s in {Started, Capturing} && op == StopOp)
    ensures Stopped !in Allowed(op) && Next(op) != Unstarted
  {
  }

  function StateNumbers(states: seq<CaptureState>): (r: seq<string>)
    ensures |r| == |states| && forall i :: 0 <= i < |states| ==> r[i] == Decimal(StateNumber(states[i]))
  {
    if |states| == 0 then [] else StateNumbers(states[..|states| - 1]) + [Decimal(StateNumber(states[|states| - 1]))]
  }

  /** `ensureState`: passes exactly when the state is one of those expected. */
  function EnsureState(state: CaptureState, states: seq<CaptureState>): (r: Status)
    ensures r.Pass? <==> state in states
  {
    if state in states then Pass
    else Fail("Expected capture state " + Decimal(StateNumber(state)) + " to be in " + Join(StateNumbers(states), ","))
  }

  /** Different states are shown as different numbers, so a refusal names the state it found. */
  lemma StateNumbersTellStatesApart(a: CaptureState, b: CaptureState)
    requires Decimal(StateNumber(a)) == Decimal(StateNumber(b))
    ensures a == b
  {
    RadixInjective(StateNumber(a), StateNumber(b), 10);
  }

  /** Stopping a capture twice is refused with the states written as numbers. */
  lemma StopTwiceMessage()
    ensures EnsureState(Stopped, Allowed(StopOp)) == Fail("Expected capture state 3 to be in 1,2")
  {
    assert StateNumbers([Started, Capturing]) == ["1", "2"];
    assert StateNumbers([Started, Capturing])[..1] == ["1"];
  }

  // ---------------------------------------------------------------------
  // the configuration

  /** A key of the configuration object: left out, `false`, or given. */
  datatype Setting<T> = Omitted | Disabled | Given(value: T)

  datatype VideoSource = WindowSource(windowTitle: Option<string>) | DesktopSource(screenId: Option<int>)

  datatype VideoCaptureConfig = VideoCaptureConfig(frameRate: Option<int>, source: Option<VideoSource>, captureCursor: Option<bool>)

  /** `sources` lists audio source types ("render", "capture"). */
  datatype AudioCaptureConfig = AudioCaptureConfig(sources: Option<seq<string>>)

  datatype ScreenCaptureConfig = ScreenCaptureConfig(fileName: string, video: Setting<VideoCaptureConfig>, audio: Setting<AudioCaptureConfig>)

  /** `{ ...config.video }`: the video object's keys, none when it was left out. */
  function SpreadVideo(video: Setting<VideoCaptureConfig>): VideoCaptureConfig
  {
    if video.Given? then video.value else VideoCaptureConfig(None, None, None)
  }

  /** The audio sources `start` records: the given list, or one "render" source when there is none. */
  function AudioSources(audio: Setting<AudioCaptureConfig>): (r: seq<string>)
    ensures audio.Disabled? ==> r == []
    ensures (audio.Omitted? || (audio.Given? && audio.value.sources.None?)) ==> r == ["render"]
    ensures audio.Given? && audio.value.sources.Some? ==> r == audio.value.sources.value
  {
    match audio
    case Disabled => []
    case Given(AudioCaptureConfig(Some(sources))) => sources
    case _ => ["render"]
  }

  /** The configuration object a native pipeline is built from. */
  datatype NativeConfig =
    | VideoPipeline(video: VideoCaptureConfig, fileName: string)
    | AudioPipeline(sourceType: string, fileName: string)

  /** The object as the native constructor reads it. */
  function NativeArg(c: NativeConfig): ConfigArg
  {
    match c
    case VideoPipeline(v, f) =>
      var source :=
        match v.source
        case None => None
        case Some(WindowSource(t)) => Some(SourceArg(None, t))
        case Some(DesktopSource(id)) => Some(SourceArg(id, None));
      ConfigArg(Some(VideoArg(v.frameRate, v.captureCursor, source)), None, Some(OutputArg(Some(f))))
    case AudioPipeline(t, f) =>
      ConfigArg(None, Some(AudioArg(Some(Some(t)))), Some(OutputArg(Some(f))))
  }

  /**
   * What the native side makes of each configuration: every pipeline
   * writes the file it was given, an audio pipeline records the microphone
   * only for a "capture" source and the loopback otherwise, and a window
   * source's title and a desktop source's screen reach the capture stage.
   */
  lemma NativeConfigReachesPipeline(c: NativeConfig)
    ensures FilledConfig(NativeArg(c)).output.fileName == c.fileName
    ensures c.AudioPipeline? ==> (FilledConfig(NativeArg(c)).audio.render <==> c.sourceType != "capture")
    ensures c.VideoPipeline? && c.video.source.Some? && c.video.source.value.WindowSource? &&
            c.video.source.value.windowTitle.Some? ==>
              FilledConfig(NativeArg(c)).video.windowTitle == c.video.source.value.windowTitle.value
    ensures c.VideoPipeline? && c.video.source.Some? && c.video.source.value.DesktopSource? &&
            c.video.source.value.screenId.Some? ==>
              FilledConfig(NativeArg(c)).video.screenId == NumberToU32(c.video.source.value.screenId.value)
  {
  }

  /** `config.video.source.type == "window"`. */
  predicate IsWindow(c: NativeConfig)
  {
    c.VideoPipeline? && c.video.source.Some? && c.video.source.value.WindowSource?
  }

  // ---------------------------------------------------------------------
  // stage selection

  datatype PipelineType = VideoType | AudioType

  /** An entry of a stage list: one stage, or alternatives of which the first supported one is used. */
  datatype StageEntry = Single(name: string) | OneOf(names: seq<string>)

  function VideoEntries(window: bool): seq<StageEntry>
  {
    [Single(if window then "GDI_CAPTURE" else "DESKTOP_DUPLICATION"), OneOf(["NVENC", "AMF"]), Single("FILE_WRITER")]
  }

  const AudioEntries: seq<StageEntry> := [Single("WASAPI"), Single("WAV_WRITER")]

  function Entries(pipelineType: PipelineType, c: NativeConfig): seq<StageEntry>
  {
    match pipelineType
    case VideoType => VideoEntries(IsWindow(c))
    case AudioType => AudioEntries
  }

  /** The first of `names[from..]` the pipeline supports. */
  function FirstSupported(names: seq<string>, supports: string -> bool, from: nat): (r: Option<string>)
    requires from <= |names|
    ensures r.Some? ==> exists i :: from <= i < |names| && names[i] == r.value && supports(r.value) &&
                                   forall j :: from <= j < i ==> !supports(names[j])
    ensures r.None? ==> forall j :: from <= j < |names| ==> !supports(names[j])
    decreases |names| - from
  {
    if from == |names| then None
    else if supports(names[from]) then Some(names[from])
    else FirstSupported(names, supports, from + 1)
  }

  /** The stage an entry adds: itself, or the first supported alternative; none supported throws. */
  function ResolveEntry(entry: StageEntry, supports: string -> bool): Outcome<string>
  {
    match entry
    case Single(name) => Ok(name)
    case OneOf(names) =>
      match FirstSupported(names, supports, 0)
      case None => Threw("Could not find suitable stage from " + Join(names, ","))
      case Some(name) => Ok(name)
  }

  /** The stage names a list of entries resolves to, or the error of the first entry that has none. */
  function Resolve(entries: seq<StageEntry>, supports: string -> bool): (r: Outcome<seq<string>>)
    ensures r.Ok? ==> |r.value| == |entries|
  {
    if |entries| == 0 then Ok([])
    else
      var stages := Resolve(entries[..|entries| - 1], supports);
      var last := ResolveEntry(entries[|entries| - 1], supports);
      if stages.Threw? then stages
      else if last.Threw? then Threw(last.message)
      else Ok(stages.value + [last.value])
  }

  /** Once a prefix of the entries fails, the whole list fails with its error. */
  lemma {:induction false} ResolveStopsAtFirstError(entries: seq<StageEntry>, supports: string -> bool, k: nat)
    requires k <= |entries| && Resolve(entries[..k], supports).Threw?
    ensures Resolve(entries, supports) == Resolve(entries[..k], supports)
    decreases |entries| - k
  {
    if k < |entries| {
      assert entries[..k + 1][..k] == entries[..k];
      ResolveStopsAtFirstError(entries, supports, k + 1);
    } else {
      assert entries[..k] == entries;
    }
  }

  /**
   * A video pipeline captures with GDI exactly for a window source and with
   * desktop duplication otherwise, encodes with NVENC when it is supported
   * and with AMF otherwise, and writes to a file; with neither encoder
   * there is no pipeline but an error naming both.
   */
  lemma VideoStages(window: bool, supports: string -> bool)
    ensures var r := Resolve(VideoEntries(window), supports);
            && (r.Ok? <==> supports("NVENC") || supports("AMF"))
            && (r.Ok? ==> r.value == [if window then "GDI_CAPTURE" else "DESKTOP_DUPLICATION",
                                      if supports("NVENC") then "NVENC" else "AMF", "FILE_WRITER"])
            && (r.Threw? ==> r.message == "Could not find suitable stage from NVENC,AMF")
  {
    var capture := Single(if window then "GDI_CAPTURE" else "DESKTOP_DUPLICATION");
    var encoder := OneOf(["NVENC", "AMF"]);
    ResolveAppend([], capture, supports);
    assert [] + [capture] == [capture];
    ResolveAppend([capture], encoder, supports);
    assert [capture] + [encoder] == [capture, encoder];
    ResolveAppend([capture, encoder], Single("FILE_WRITER"), supports);
    assert [capture, encoder] + [Single("FILE_WRITER")] == VideoEntries(window);
    EncoderChoice(supports);
  }

  /** Resolving one more entry: the earlier error, this entry's error, or one more stage. */
  lemma ResolveAppend(entries: seq<StageEntry>, entry: StageEntry, supports: string -> bool)
    ensures var before := Resolve(entries, supports);
            var last := ResolveEntry(entry, supports);
            Resolve(entries + [entry], supports) ==
              if before.Threw? then before else if last.Threw? then Threw(last.message) else Ok(before.value + [last.value])
  {
    assert (entries + [entry])[..|entries|] == entries;
  }

  /** NVENC when it is supported, AMF when only it is, and an error naming both otherwise. */
  lemma EncoderChoice(supports: string -> bool)
    ensures ResolveEntry(OneOf(["NVENC", "AMF"]), supports) ==
              if supports("NVENC") then Ok("NVENC")
              else if supports("AMF") then Ok("AMF")
              else Threw("Could not find suitable stage from NVENC,AMF")
  {
    var names := ["NVENC", "AMF"];
    if !supports("NVENC") {
      assert FirstSupported(names, supports, 0) == FirstSupported(names, supports, 1);
      if !supports("AMF") {
        assert FirstSupported(names, supports, 1) == FirstSupported(names, supports, 2) == None;
        assert names[..1] == ["NVENC"];
        assert Join(names, ",") == "NVENC,AMF";
      }
    }
  }

  /** An audio pipeline is always WASAPI capture followed by the WAV writer. */
  lemma AudioStages(supports: string -> bool)
    ensures Resolve(AudioEntries, supports).Ok? && Resolve(AudioEntries, supports).value == ["WASAPI", "WAV_WRITER"]
  {
    ResolveAppend([], Single("WASAPI"), supports);
    assert [] + [Single("WASAPI")] == [Single("WASAPI")];
    ResolveAppend([Single("WASAPI")], Single("WAV_WRITER"), supports);
    assert [Single("WASAPI")] + [Single("WAV_WRITER")] == AudioEntries;
    var r := Resolve(AudioEntries, supports);
    assert r.Ok? && r.value == [] + ["WASAPI"] + ["WAV_WRITER"];
  }

  /** Every stage name chosen is one the native `addStage` accepts, so adding the stages never throws. */
  lemma ChosenStagesAreKnown(pipelineType: PipelineType, c: NativeConfig, supports: string -> bool)
    requires Resolve(Entries(pipelineType, c), supports).Ok?
    ensures forall name :: name in Resolve(Entries(pipelineType, c), supports).value ==>
              GetStageTypeFromString(name).Ok?
  {
    if pipelineType == VideoType {
      VideoStages(IsWindow(c), supports);
    } else {
      AudioStages(supports);
    }
  }

  // ---------------------------------------------------------------------
  // what `start` creates

  /** A native pipeline: its configuration object and the names of the stages added to it. */
  datatype NativePipeline = NativePipeline(config: NativeConfig, stages: seq<string>)

  function VideoFile(fileName: string): string
  {
    fileName + ".h264"
  }

  function AudioFile(fileName: string, sourceType: string): string
  {
    fileName + "." + sourceType + ".wav"
  }

  function AudioFiles(fileName: string, sources: seq<string>): (r: seq<string>)
    ensures |r| == |sources|
  {
    if |sources| == 0 then [] else AudioFiles(fileName, sources[..|sources| - 1]) + [AudioFile(fileName, sources[|sources| - 1])]
  }

  function AudioPlan(fileName: string, sources: seq<string>): (r: seq<NativePipeline>)
    ensures |r| == |sources|
  {
    if |sources| == 0 then []
    else
      var t := sources[|sources| - 1];
      AudioPlan(fileName, sources[..|sources| - 1]) + [NativePipeline(AudioPipeline(t, AudioFile(fileName, t)), ["WASAPI", "WAV_WRITER"])]
  }

  function VideoConfigOf(config: ScreenCaptureConfig): NativeConfig
  {
    VideoPipeline(SpreadVideo(config.video), VideoFile(config.fileName))
  }

  /** The files `start` records: the video file unless video is off, then one file per audio source. */
  function PlannedFiles(config: ScreenCaptureConfig): seq<string>
  {
    (if config.video.Disabled? then [] else [VideoFile(config.fileName)])
      + AudioFiles(config.fileName, AudioSources(config.audio))
  }

  /** The pipelines `start` creates, or the error of the video pipeline's stage selection. */
  function Plan(config: ScreenCaptureConfig, supports: string -> bool): Outcome<seq<NativePipeline>>
  {
    var audio := AudioPlan(config.fileName, AudioSources(config.audio));
    if config.video.Disabled? then Ok(audio)
    else
      var video := VideoConfigOf(config);
      match Resolve(VideoEntries(IsWindow(video)), supports)
      case Threw(m) => Threw(m)
      case Ok(stages) => Ok([NativePipeline(video, stages)] + audio)
  }

  /** `Plan` by cases: video off, video without an encoder, video with its stages. */
  lemma PlanParts(config: ScreenCaptureConfig, supports: string -> bool)
    ensures var audio := AudioPlan(config.fileName, AudioSources(config.audio));
            var r := Resolve(VideoEntries(IsWindow(VideoConfigOf(config))), supports);
            && (config.video.Disabled? ==> Plan(config, supports).Ok? && Plan(config, supports).value == audio)
            && (!config.video.Disabled? && r.Threw? ==> Plan(config, supports) == Threw(r.message))
            && (!config.video.Disabled? && r.Ok? ==>
                  Plan(config, supports).Ok? && Plan(config, supports).value == [NativePipeline(VideoConfigOf(config), r.value)] + audio)
  {
  }

  lemma {:induction false} AudioPlanWritesAudioFiles(fileName: string, sources: seq<string>)
    ensures forall i :: 0 <= i < |sources| ==>
              AudioPlan(fileName, sources)[i].config == AudioPipeline(sources[i], AudioFiles(fileName, sources)[i])
    decreases |sources|
  {
    if |sources| > 0 {
      AudioPlanWritesAudioFiles(fileName, sources[..|sources| - 1]);
    }
  }

  /**
   * The recorded output files are the planned pipelines' files, one for one
   * and in the same order: video first, then each audio source.
   */
  lemma OutputFilesMatchPipelines(config: ScreenCaptureConfig, supports: string -> bool)
    requires Plan(config, supports).Ok?
    ensures var created := Plan(config, supports).value;
            && |created| == |PlannedFiles(config)|
            && forall i :: 0 <= i < |created| ==> created[i].config.fileName == PlannedFiles(config)[i]
  {
    AudioPlanWritesAudioFiles(config.fileName, AudioSources(config.audio));
  }

  lemma {:induction false} AudioInputCountAppend(a: seq<string>, b: seq<string>)
    ensures AudioInputCount(a + b) == AudioInputCount(a) + AudioInputCount(b)
    decreases |b|
  {
    if |b| == 0 {
      assert a + b == a;
    } else {
      assert (a + b)[..|a + b| - 1] == a + b[..|b| - 1];
      AudioInputCountAppend(a, b[..|b| - 1]);
    }
  }

  lemma AudioFileIsWav(fileName: string, sourceType: string)
    ensures EndsWith(AudioFile(fileName, sourceType), ".wav")
  {
    var f := AudioFile(fileName, sourceType);
    assert f == (fileName + "." + sourceType) + ".wav";
    assert f[|f| - 4..] == ".wav";
  }

  lemma VideoFileIsNotWav(fileName: string)
    ensures !EndsWith(VideoFile(fileName), ".wav")
  {
    var f := VideoFile(fileName);
    assert f[|f| - 1] == '4';
  }

  lemma {:induction false} AudioFilesAreAudioInputs(fileName: string, sources: seq<string>)
    ensures AudioInputCount(AudioFiles(fileName, sources)) == |sources|
    decreases |sources|
  {
    if |sources| > 0 {
      var files := AudioFiles(fileName, sources);
      AudioFilesAreAudioInputs(fileName, sources[..|sources| - 1]);
      assert files[..|files| - 1] == AudioFiles(fileName, sources[..|sources| - 1]);
      AudioFileIsWav(fileName, sources[|sources| - 1]);
    }
  }

  /**
   * Post-processing of the recorded files mixes every audio source: the
   * ".wav" inputs ffmpeg counts are exactly the audio sources.
   */
  lemma MixesEveryAudioSource(config: ScreenCaptureConfig)
    ensures AudioInputCount(PlannedFiles(config)) == |AudioSources(config.audio)|
  {
    var video: seq<string> := if config.video.Disabled? then [] else [VideoFile(config.fileName)];
    var audio := AudioFiles(config.fileName, AudioSources(config.audio));
    assert PlannedFiles(config) == video + audio;
    AudioInputCountAppend(video, audio);
    AudioFilesAreAudioInputs(config.fileName, AudioSources(config.audio));
    if !config.video.Disabled? {
      VideoFileIsNotWav(config.fileName);
      assert video[..0] == [];
    }
  }

  // ---------------------------------------------------------------------
  // calls on the native pipelines and error delivery

  datatype NativeOp = InitializeCall | StartCall | PauseCall | ResumeCall | StopCall | PollCall

  /** A call of one operation on the pipeline at `index`. */
  datatype Call = Call(op: NativeOp, index: nat)

  /** The operation called on pipelines 0 to n - 1, in order. */
  function Each(op: NativeOp, n: nat): (r: seq<Call>)
    ensures |r| == n
  {
    if n == 0 then [] else Each(op, n - 1) + [Call(op, n - 1)]
  }

  /** `Each` calls every pipeline once, in index order. */
  lemma {:induction false} EachCallsEveryPipeline(op: NativeOp, n: nat)
    ensures forall i :: 0 <= i < n ==> Each(op, n)[i] == Call(op, i)
  {
    if n > 0 {
      EachCallsEveryPipeline(op, n - 1);
      assert Each(op, n) == Each(op, n - 1) + [Call(op, n - 1)];
    }
  }

  /** The index of the first of pipelines 0 to n - 1 whose call fails. */
  function FirstFailure(errors: nat -> Option<string>, n: nat): (r: Option<nat>)
    ensures r.Some? ==> r.value < n && errors(r.value).Some? && forall j :: 0 <= j < r.value ==> errors(j).None?
    ensures r.None? ==> forall j :: 0 <= j < n ==> errors(j).None?
  {
    if n == 0 then None
    else
      var f := FirstFailure(errors, n - 1);
      if f.Some? then f else if errors(n - 1).Some? then Some(n - 1) else None
  }

  /** The first failure is the one no earlier call precedes. */
  lemma FirstFailureIs(errors: nat -> Option<string>, n: nat, k: nat)
    requires k < n && errors(k).Some? && forall j :: 0 <= j < k ==> errors(j).None?
    ensures FirstFailure(errors, n) == Some(k)
  {
  }

  /** The native calls of `start`'s `try` and its `catch`, and the error that ended it, if any. */
  datatype Launch = Launch(calls: seq<Call>, error: Option<string>)

  /**
   * Initialize every pipeline in order, then start every one; the first
   * failure ends that, and then every pipeline is stopped.
   */
  function LaunchOf(n: nat, initError: nat -> Option<string>, startError: nat -> Option<string>): Launch
  {
    match FirstFailure(initError, n)
    case Some(k) => Launch(Each(InitializeCall, k + 1) + Each(StopCall, n), initError(k))
    case None =>
      match FirstFailure(startError, n)
      case Some(k) => Launch(Each(InitializeCall, n) + Each(StartCall, k + 1) + Each(StopCall, n), startError(k))
      case None => Launch(Each(InitializeCall, n) + Each(StartCall, n), None)
  }

  /** A start succeeds exactly when no pipeline fails to initialize or to start. */
  lemma LaunchSucceedsIffNoFailure(n: nat, initError: nat -> Option<string>, startError: nat -> Option<string>)
    ensures LaunchOf(n, initError, startError).error.None? <==>
              forall k :: 0 <= k < n ==> initError(k).None? && startError(k).None?
  {
    var i := FirstFailure(initError, n);
    var s := FirstFailure(startError, n);
    if i.Some? {
      assert initError(i.value).Some?;
    } else if s.Some? {
      assert startError(s.value).Some?;
    }
  }

  /** No pipeline is started unless every pipeline initialized. */
  lemma NoStartAfterFailedInitialize(n: nat, initError: nat -> Option<string>, startError: nat -> Option<string>, k: nat)
    requires k < n && initError(k).Some?
    ensures forall c :: c in LaunchOf(n, initError, startError).calls ==> c.op != StartCall
  {
    var f := FirstFailure(initError, n);
    assert f.Some?;
    var calls := Each(InitializeCall, f.value + 1) + Each(StopCall, n);
    EachCallsEveryPipeline(InitializeCall, f.value + 1);
    EachCallsEveryPipeline(StopCall, n);
    forall c | c in calls
      ensures c.op != StartCall
    {
      var i :| 0 <= i < |calls| && calls[i] == c;
      if i < f.value + 1 {
        assert calls[i] == Each(InitializeCall, f.value + 1)[i];
      } else {
        assert calls[i] == Each(StopCall, n)[i - (f.value + 1)];
      }
    }
  }

  /** After a failed start every pipeline is stopped, in order, last of all. */
  lemma FailedLaunchStopsAll(n: nat, initError: nat -> Option<string>, startError: nat -> Option<string>)
    requires LaunchOf(n, initError, startError).error.Some?
    ensures var calls := LaunchOf(n, initError, startError).calls;
            |calls| >= n && calls[|calls| - n..] == Each(StopCall, n)
  {
    var calls := LaunchOf(n, initError, startError).calls;
    var f := FirstFailure(initError, n);
    if f.Some? {
      var head := Each(InitializeCall, f.value + 1);
      assert calls == head + Each(StopCall, n);
      assert calls[|head|..] == Each(StopCall, n);
    } else {
      var g := FirstFailure(startError, n);
      var head := Each(InitializeCall, n) + Each(StartCall, g.value + 1);
      assert calls == head + Each(StopCall, n);
      assert calls[|head|..] == Each(StopCall, n);
    }
  }

  /** One error handed to each callback, in registration order. */
  datatype Delivery = Delivery(callback: nat, error: string)

  /** `handleError`: the error handed to every callback, in registration order. */
  function Broadcast(callbacks: seq<nat>, error: string): (r: seq<Delivery>)
    ensures |r| == |callbacks| && forall j :: 0 <= j < |callbacks| ==> r[j] == Delivery(callbacks[j], error)
  {
    if |callbacks| == 0 then [] else Broadcast(callbacks[..|callbacks| - 1], error) + [Delivery(callbacks[|callbacks| - 1], error)]
  }

  /** Several errors, one after the other, each to every callback. */
  function Deliveries(callbacks: seq<nat>, errors: seq<string>): seq<Delivery>
  {
    if |errors| == 0 then [] else Deliveries(callbacks, errors[..|errors| - 1]) + Broadcast(callbacks, errors[|errors| - 1])
  }

  /** `pollErrors` over pipelines 0 to n - 1: each pipeline's errors, in pipeline order. */
  function PollDeliveries(callbacks: seq<nat>, polled: nat -> seq<string>, n: nat): seq<Delivery>
  {
    if n == 0 then [] else PollDeliveries(callbacks, polled, n - 1) + Deliveries(callbacks, polled(n - 1))
  }

  /** Every callback hears every error, and nothing else is delivered. */
  lemma {:induction false} EveryCallbackHearsEveryError(callbacks: seq<nat>, errors: seq<string>, cb: nat, e: string)
    ensures Delivery(cb, e) in Deliveries(callbacks, errors) <==> cb in callbacks && e in errors
    decreases |errors|
  {
    if |errors| > 0 {
      var init := errors[..|errors| - 1];
      EveryCallbackHearsEveryError(callbacks, init, cb, e);
      assert errors == init + [errors[|errors| - 1]];
      var b := Broadcast(callbacks, errors[|errors| - 1]);
      if cb in callbacks && e == errors[|errors| - 1] {
        var j :| 0 <= j < |callbacks| && callbacks[j] == cb;
        assert b[j] == Delivery(cb, e);
      }
    }
  }

  /** Errors are delivered in the order they were reported: all of the earlier ones first. */
  lemma {:induction false} DeliveriesInOrder(callbacks: seq<nat>, first: seq<string>, later: seq<string>)
    ensures Deliveries(callbacks, first + later) == Deliveries(callbacks, first) + Deliveries(callbacks, later)
    decreases |later|
  {
    if |later| == 0 {
      assert first + later == first;
    } else {
      var init, last := later[..|later| - 1], later[|later| - 1];
      var all := first + later;
      assert all[..|all| - 1] == first + init && all[|all| - 1] == last;
      DeliveriesInOrder(callbacks, first, init);
      var b := Broadcast(callbacks, last);
      calc {
        Deliveries(callbacks, all);
        Deliveries(callbacks, first + init) + b;
        (Deliveries(callbacks, first) + Deliveries(callbacks, init)) + b;
        { SeqAppendAssociates(Deliveries(callbacks, first), Deliveries(callbacks, init), b); }
        Deliveries(callbacks, first) + (Deliveries(callbacks, init) + b);
        Deliveries(callbacks, first) + Deliveries(callbacks, later);
      }
    }
  }

  // ---------------------------------------------------------------------
  // the controller

  class ScreenCaptureImpl {
    const config: ScreenCaptureConfig
    var pipelines: seq<NativePipeline>
    var state: CaptureState
    var outputFiles: seq<string>
    var errorCallbacks: seq<nat>
    /** The calls made on the native pipelines, in order. */
    var calls: seq<Call>
    /** The callback invocations, in order. */
    var delivered: seq<Delivery>

    constructor (config: ScreenCaptureConfig)
      ensures this.config == config && state == Unstarted
      ensures pipelines == [] && errorCallbacks == [] && outputFiles == []
      ensures calls == [] && delivered == []
    {
      this.config := config;
      state := Unstarted;
      pipelines := [];
      errorCallbacks := [];
      outputFiles := [];
      calls := [];
      delivered := [];
    }

    /** `onError`: registers a callback after those already registered. */
    method OnError(callback: nat)
      modifies this`errorCallbacks
      ensures errorCallbacks == old(errorCallbacks) + [callback]
    {
      errorCallbacks := errorCallbacks + [callback];
    }

    /** `handleError`: hands the error to every callback, in registration order. */
    method HandleError(error: string)
      modifies this`delivered
      ensures delivered == old(delivered) + Broadcast(errorCallbacks, error)
    {
      var i := 0;
      while i < |errorCallbacks|
        invariant 0 <= i <= |errorCallbacks|
        invariant delivered == old(delivered) + Broadcast(errorCallbacks[..i], error)
      {
        assert errorCallbacks[..i + 1][..i] == errorCallbacks[..i];
        delivered := delivered + [Delivery(errorCallbacks[i], error)];
        i := i + 1;
      }
      assert errorCallbacks[..i] == errorCallbacks;
    }

    /** The loop of `pollErrors` over one pipeline's errors: each handed to every callback, in order. */
    method HandleErrors(errors: seq<string>)
      modifies this`delivered
      ensures delivered == old(delivered) + Deliveries(errorCallbacks, errors)
    {
      var e := 0;
      while e < |errors|
        invariant 0 <= e <= |errors|
        invariant delivered == old(delivered) + Deliveries(errorCallbacks, errors[..e])
      {
        assert errors[..e + 1][..e] == errors[..e];
        SeqAppendAssociates(old(delivered), Deliveries(errorCallbacks, errors[..e]), Broadcast(errorCallbacks, errors[e]));
        HandleError(errors[e]);
        e := e + 1;
      }
      assert errors[..e] == errors;
    }

    /** `pollErrors`: polls every pipeline in order and hands each of its errors to every callback. */
    method PollErrors(polled: nat -> seq<string>)
      modifies this`delivered, this`calls
      ensures calls == old(calls) + Each(PollCall, |pipelines|)
      ensures delivered == old(delivered) + PollDeliveries(errorCallbacks, polled, |pipelines|)
    {
      var k := 0;
      while k < |pipelines|
        invariant 0 <= k <= |pipelines|
        invariant calls == old(calls) + Each(PollCall, k)
        invariant delivered == old(delivered) + PollDeliveries(errorCallbacks, polled, k)
      {
        SeqAppendAssociates(old(calls), Each(PollCall, k), [Call(PollCall, k)]);
        calls := calls + [Call(PollCall, k)];
        var errors := polled(k);
        HandleErrors(errors);
        SeqAppendAssociates(old(delivered), PollDeliveries(errorCallbacks, polled, k), Deliveries(errorCallbacks, errors));
        k := k + 1;
      }
    }

    /** `forEach(p => p.op())` over all pipelines. */
    method CallEach(op: NativeOp)
      modifies this`calls
      ensures calls == old(calls) + Each(op, |pipelines|)
    {
      var k := 0;
      while k < |pipelines|
        invariant 0 <= k <= |pipelines|
        invariant calls == old(calls) + Each(op, k)
      {
        calls := calls + [Call(op, k)];
        k := k + 1;
      }
    }

    /** `forEach(p => p.op())` inside a `try`: the first pipeline whose call throws ends it. */
    method CallEachUntilFailure(op: NativeOp, errors: nat -> Option<string>) returns (failed: Option<nat>)
      modifies this`calls
      ensures failed == FirstFailure(errors, |pipelines|)
      ensures calls == old(calls) + Each(op, if failed.Some? then failed.value + 1 else |pipelines|)
    {
      var k := 0;
      while k < |pipelines|
        invariant 0 <= k <= |pipelines|
        invariant calls == old(calls) + Each(op, k)
        invariant forall j :: 0 <= j < k ==> errors(j).None?
      {
        calls := calls + [Call(op, k)];
        if errors(k).Some? {
          FirstFailureIs(errors, |pipelines|, k);
          return Some(k);
        }
        k := k + 1;
      }
      return None;
    }

    /** The inner loop of `createPipeline`: the first of the alternatives the native side supports. */
    method FirstSupportedStage(names: seq<string>, supports: string -> bool) returns (chosen: Option<string>)
      ensures chosen == FirstSupported(names, supports, 0)
    {
      var j := 0;
      while j < |names|
        invariant 0 <= j <= |names|
        invariant FirstSupported(names, supports, 0) == FirstSupported(names, supports, j)
      {
        if supports(names[j]) {
          return Some(names[j]);
        }
        j := j + 1;
      }
      return None;
    }

    /**
     * `createPipeline`: the stages of the pipeline's type, the capture stage
     * chosen by its source, each list of alternatives resolved to its first
     * supported stage; a list with none throws and no pipeline is kept.
     */
    method CreatePipeline(pipelineType: PipelineType, c: NativeConfig, supports: string -> bool) returns (status: Status)
      modifies this`pipelines
      ensures var r := Resolve(Entries(pipelineType, c), supports);
              && (r.Ok? ==> status == Pass && pipelines == old(pipelines) + [NativePipeline(c, r.value)])
              && (r.Threw? ==> status == Fail(r.message) && pipelines == old(pipelines))
    {
      var entries: seq<StageEntry>;
      match pipelineType {
        case AudioType =>
          entries := [Single("WASAPI"), Single("WAV_WRITER")];
        case VideoType =>
          entries := [OneOf(["NVENC", "AMF"]), Single("FILE_WRITER")];
          entries := [Single(if IsWindow(c) then "GDI_CAPTURE" else "DESKTOP_DUPLICATION")] + entries;
      }
      assert entries == Entries(pipelineType, c);
      var stages: seq<string> := [];
      var i := 0;
      while i < |entries|
        invariant 0 <= i <= |entries|
        invariant Resolve(entries[..i], supports) == Ok(stages) && pipelines == old(pipelines)
      {
        assert entries[..i + 1][..i] == entries[..i] && entries[..i + 1][i] == entries[i];
        match entries[i] {
          case Single(name) =>
            stages := stages + [name];
          case OneOf(names) =>
            var chosen := FirstSupportedStage(names, supports);
            if chosen.None? {
              assert ResolveEntry(entries[i], supports) == Threw("Could not find suitable stage from " + Join(names, ","));
              assert Resolve(entries[..i + 1], supports) == Threw("Could not find suitable stage from " + Join(names, ","));
              ResolveStopsAtFirstError(entries, supports, i + 1);
              return Fail("Could not find suitable stage from " + Join(names, ","));
            }
            assert ResolveEntry(entries[i], supports) == Ok(chosen.value);
            stages := stages + [chosen.value];
        }
        i := i + 1;
      }
      assert entries[..i] == entries;
      assert Resolve(Entries(pipelineType, c), supports) == Ok(stages);
      pipelines := pipelines + [NativePipeline(c, stages)];
      status := Pass;
    }

    /**
     * The pipeline-building half of `start`: records the video file and
     * creates its pipeline (unless video is off), then a file and a pipeline
     * per audio source. A video pipeline without an encoder throws at once,
     * its file already recorded.
     */
    method CreatePipelines(supports: string -> bool) returns (status: Status)
      modifies this`outputFiles, this`pipelines
      ensures Plan(config, supports).Threw? ==>
                && status == Fail(Plan(config, supports).message)
                && outputFiles == old(outputFiles) + [VideoFile(config.fileName)] && pipelines == old(pipelines)
      ensures Plan(config, supports).Ok? ==>
                && status == Pass
                && outputFiles == old(outputFiles) + PlannedFiles(config)
                && pipelines == old(pipelines) + Plan(config, supports).value
    {
      status := Pass;
      ghost var videoFiles: seq<string> := [];
      ghost var videoPipelines: seq<NativePipeline> := [];
      ghost var sources := AudioSources(config.audio);
      ghost var r := Resolve(VideoEntries(IsWindow(VideoConfigOf(config))), supports);
      PlanParts(config, supports);
      if !config.video.Disabled? {
        status := CreateVideoPipeline(supports);
        if status.Fail? {
          return;
        }
        videoFiles := [VideoFile(config.fileName)];
        videoPipelines := [NativePipeline(VideoConfigOf(config), r.value)];
      }
      assert Plan(config, supports).Ok? && Plan(config, supports).value == videoPipelines + AudioPlan(config.fileName, sources);
      assert PlannedFiles(config) == videoFiles + AudioFiles(config.fileName, sources);
      if !config.audio.Disabled? {
        var sources := if config.audio.Given? && config.audio.value.sources.Some? then config.audio.value.sources.value
                       else ["render"];
        assert sources == AudioSources(config.audio);
        ghost var filesBefore, pipelinesBefore := outputFiles, pipelines;
        CreateAudioPipelines(sources, supports);
        SeqAppendAssociates(old(outputFiles), videoFiles, AudioFiles(config.fileName, sources));
        SeqAppendAssociates(old(pipelines), videoPipelines, AudioPlan(config.fileName, sources));
      } else {
        assert AudioFiles(config.fileName, sources) == [] && AudioPlan(config.fileName, sources) == [];
      }
    }

    /** The video half of `start`'s pipeline building: its file recorded, then its pipeline. */
    method CreateVideoPipeline(supports: string -> bool) returns (status: Status)
      modifies this`outputFiles, this`pipelines
      ensures outputFiles == old(outputFiles) + [VideoFile(config.fileName)]
      ensures var r := Resolve(VideoEntries(IsWindow(VideoConfigOf(config))), supports);
              && (r.Ok? ==> status == Pass && pipelines == old(pipelines) + [NativePipeline(VideoConfigOf(config), r.value)])
              && (r.Threw? ==> status == Fail(r.message) && pipelines == old(pipelines))
    {
      var fileName := config.fileName + ".h264";
      outputFiles := outputFiles + [fileName];
      var video := VideoPipeline(SpreadVideo(config.video), fileName);
      status := CreatePipeline(VideoType, video, supports);
    }

    /** The `forEach` over the audio sources: a file and a WASAPI-to-WAV pipeline per source. */
    method CreateAudioPipelines(sources: seq<string>, supports: string -> bool)
      modifies this`outputFiles, this`pipelines
      ensures outputFiles == old(outputFiles) + AudioFiles(config.fileName, sources)
      ensures pipelines == old(pipelines) + AudioPlan(config.fileName, sources)
    {
      var i := 0;
      while i < |sources|
        invariant 0 <= i <= |sources|
        invariant outputFiles == old(outputFiles) + AudioFiles(config.fileName, sources[..i])
        invariant pipelines == old(pipelines) + AudioPlan(config.fileName, sources[..i])
      {
        assert sources[..i + 1][..i] == sources[..i];
        var fileName := config.fileName + "." + sources[i] + ".wav";
        outputFiles := outputFiles + [fileName];
        AudioStages(supports);
        var created := CreatePipeline(AudioType, AudioPipeline(sources[i], fileName), supports);
        i := i + 1;
      }
      assert sources[..i] == sources;
    }

    /**
     * The `try` of `start`: initializes every pipeline in order, then starts
     * every one. A failure is handed to the callbacks as "Error: " and its
     * message, every pipeline is stopped and the state is left as it was;
     * otherwise the capture is CAPTURING.
     */
    method Launch(initError: nat -> Option<string>, startError: nat -> Option<string>) returns (status: Status)
      modifies this`calls, this`delivered, this`state
      ensures var launch := LaunchOf(|pipelines|, initError, startError);
              && calls == old(calls) + launch.calls
              && (launch.error.Some? ==>
                    && status == Fail(launch.error.value) && state == old(state)
                    && delivered == old(delivered) + Broadcast(errorCallbacks, "Error: " + launch.error.value))
              && (launch.error.None? ==> status == Pass && state == Capturing && delivered == old(delivered))
    {
      var n := |pipelines|;
      ghost var before := calls;
      var error: Option<string> := None;
      var initFailed := CallEachUntilFailure(InitializeCall, initError);
      ghost var tried := Each(InitializeCall, n);
      if initFailed.Some? {
        error := initError(initFailed.value);
        tried := Each(InitializeCall, initFailed.value + 1);
      } else {
        var startFailed := CallEachUntilFailure(StartCall, startError);
        if startFailed.Some? {
          error := startError(startFailed.value);
          SeqAppendAssociates(before, Each(InitializeCall, n), Each(StartCall, startFailed.value + 1));
          tried := Each(InitializeCall, n) + Each(StartCall, startFailed.value + 1);
        } else {
          SeqAppendAssociates(before, Each(InitializeCall, n), Each(StartCall, n));
          assert calls == before + LaunchOf(n, initError, startError).calls;
        }
      }
      if error.Some? {
        assert calls == before + tried;
        assert LaunchOf(n, initError, startError).calls == tried + Each(StopCall, n);
        assert LaunchOf(n, initError, startError).error == error;
        HandleError("Error: " + error.value);
        CallEach(StopCall);
        SeqAppendAssociates(before, tried, Each(StopCall, n));
        return Fail(error.value);
      }
      state := Capturing;
      status := Pass;
    }

    /**
     * `start`: refused unless UNSTARTED; builds the pipelines and launches
     * them. Every pipeline is launched, also those an earlier failed start
     * left behind.
     */
    method Start(supports: string -> bool, initError: nat -> Option<string>, startError: nat -> Option<string>)
      returns (status: Status)
      modifies this`state, this`outputFiles, this`pipelines, this`calls, this`delivered
      ensures old(state) !in Allowed(StartOp) ==>
                && status == EnsureState(old(state), Allowed(StartOp))
                && state == old(state) && outputFiles == old(outputFiles) && pipelines == old(pipelines)
                && calls == old(calls) && delivered == old(delivered)
      ensures old(state) in Allowed(StartOp) && Plan(config, supports).Threw? ==>
                && status == Fail(Plan(config, supports).message) && state == old(state)
                && outputFiles == old(outputFiles) + [VideoFile(config.fileName)] && pipelines == old(pipelines)
                && calls == old(calls) && delivered == old(delivered)
      ensures old(state) in Allowed(StartOp) && Plan(config, supports).Ok? ==>
                var launch := LaunchOf(|pipelines|, initError, startError);
                && outputFiles == old(outputFiles) + PlannedFiles(config)
                && pipelines == old(pipelines) + Plan(config, supports).value
                && calls == old(calls) + launch.calls
                && (launch.error.Some? ==>
                      && status == Fail(launch.error.value) && state == old(state)
                      && delivered == old(delivered) + Broadcast(errorCallbacks, "Error: " + launch.error.value))
                && (launch.error.None? ==> status == Pass && state == Next(StartOp) && delivered == old(delivered))
    {
      status := EnsureState(state, [Unstarted]);
      if status.Fail? {
        return;
      }
      status := CreatePipelines(supports);
      if status.Fail? {
        return;
      }
      status := Launch(initError, startError);
    }

    /** `pause`: refused unless CAPTURING; polls for errors, pauses every pipeline, and moves to STARTED. */
    method Pause(polled: nat -> seq<string>) returns (status: Status)
      modifies this`state, this`calls, this`delivered
      ensures status.Pass? <==> old(state) in Allowed(PauseOp)
      ensures status.Fail? ==>
                status == EnsureState(old(state), Allowed(PauseOp))
                && state == old(state) && calls == old(calls) && delivered == old(delivered)
      ensures status.Pass? ==>
                && state == Next(PauseOp)
                && calls == old(calls) + Each(PollCall, |pipelines|) + Each(PauseCall, |pipelines|)
                && delivered == old(delivered) + PollDeliveries(errorCallbacks, polled, |pipelines|)
    {
      status := EnsureState(state, [Capturing]);
      if status.Fail? {
        return;
      }
      PollErrors(polled);
      CallEach(PauseCall);
      state := Started;
    }

    /** `resume`: refused unless STARTED; polls for errors, resumes every pipeline, and moves to CAPTURING. */
    method Resume(polled: nat -> seq<string>) returns (status: Status)
      modifies this`state, this`calls, this`delivered
      ensures status.Pass? <==> old(state) in Allowed(ResumeOp)
      ensures status.Fail? ==>
                status == EnsureState(old(state), Allowed(ResumeOp))
                && state == old(state) && calls == old(calls) && delivered == old(delivered)
      ensures status.Pass? ==>
                && state == Next(ResumeOp)
                && calls == old(calls) + Each(PollCall, |pipelines|) + Each(ResumeCall, |pipelines|)
                && delivered == old(delivered) + PollDeliveries(errorCallbacks, polled, |pipelines|)
    {
      status := EnsureState(state, [Started]);
      if status.Fail? {
        return;
      }
      PollErrors(polled);
      CallEach(ResumeCall);
      state := Capturing;
    }

    /**
     * `stop`: refused unless STARTED or CAPTURING; polls for errors, moves
     * to STOPPED, stops every pipeline and post-processes the recorded files
     * into the configured file name. A post-processing error is handed to
     * the callbacks as "Error: " and its message and rethrown; otherwise the
     * file name is the result.
     */
    method Stop(polled: nat -> seq<string>, installedPath: string, ffmpegError: Option<string>)
      returns (result: Outcome<string>, command: seq<Step>, deleted: seq<string>)
      modifies this`state, this`calls, this`delivered
      ensures result.Threw? && old(state) !in Allowed(StopOp) ==>
                result.message == EnsureState(old(state), Allowed(StopOp)).message
      ensures old(state) !in Allowed(StopOp) ==>
                && result.Threw? && command == [] && deleted == []
                && state == old(state) && calls == old(calls) && delivered == old(delivered)
      ensures old(state) in Allowed(StopOp) ==>
                && state == Next(StopOp)
                && calls == old(calls) + Each(PollCall, |pipelines|) + Each(StopCall, |pipelines|)
                && |command| >= 1 && InputsOf(command) == outputFiles
                && command[|command| - 1] == Output(config.fileName)
                && (ffmpegError.None? ==>
                      && result == Ok(config.fileName) && deleted == Deletable(outputFiles)
                      && delivered == old(delivered) + PollDeliveries(errorCallbacks, polled, |pipelines|))
                && (ffmpegError.Some? ==>
                      && result == Threw(ffmpegError.value) && deleted == []
                      && delivered == old(delivered) + PollDeliveries(errorCallbacks, polled, |pipelines|)
                                     + Broadcast(errorCallbacks, "Error: " + ffmpegError.value))
    {
      command, deleted := [], [];
      var checked := EnsureState(state, [Started, Capturing]);
      if checked.Fail? {
        return Threw(checked.message), command, deleted;
      }
      result, command, deleted := Shutdown(polled, installedPath, ffmpegError);
    }

    /** `stop` once its state check has passed. */
    method Shutdown(polled: nat -> seq<string>, installedPath: string, ffmpegError: Option<string>)
      returns (result: Outcome<string>, command: seq<Step>, deleted: seq<string>)
      modifies this`state, this`calls, this`delivered
      ensures state == Next(StopOp)
      ensures calls == old(calls) + Each(PollCall, |pipelines|) + Each(StopCall, |pipelines|)
      ensures |command| >= 1 && InputsOf(command) == outputFiles && command[|command| - 1] == Output(config.fileName)
      ensures ffmpegError.None? ==>
                && result == Ok(config.fileName) && deleted == Deletable(outputFiles)
                && delivered == old(delivered) + PollDeliveries(errorCallbacks, polled, |pipelines|)
      ensures ffmpegError.Some? ==>
                && result == Threw(ffmpegError.value) && deleted == []
                && delivered == old(delivered) + PollDeliveries(errorCallbacks, polled, |pipelines|)
                               + Broadcast(errorCallbacks, "Error: " + ffmpegError.value)
    {
      PollErrors(polled);
      state := Stopped;
      CallEach(StopCall);
      var error;
      command, error, deleted := DoPostProcessing(installedPath, config.fileName, outputFiles, ffmpegError);
      if error.Some? {
        HandleError("Error: " + error.value);
        return Threw(error.value), command, deleted;
      }
      result := Ok(config.fileName);
    }
  }
}
