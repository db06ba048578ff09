/**
 * The pipeline's configuration and context (src/native/pipeline-config.h).
 * The configuration is fixed by the client when the pipeline is built; the
 * context is filled in by stages during initialization and read by later
 * stages.
 */
module Config {
  import opened Common
  import opened Text

  datatype VideoConfig = VideoConfig(frameRate: u32, screenId: u32, windowTitle: string, captureCursor: bool)

  /** `render` true captures the audio being played (loopback); false captures the input device. */
  datatype AudioConfig = AudioConfig(render: bool)

  datatype OutputConfig = OutputConfig(fileName: string)

  datatype PipelineConfig = PipelineConfig(output: OutputConfig, audio: AudioConfig, video: VideoConfig)

  /** The default member initialisers of the configuration structs. */
  const DefaultVideo: VideoConfig := VideoConfig(30, 0, "", false)
  const DefaultAudio: AudioConfig := AudioConfig(true)
  const DefaultOutput: OutputConfig := OutputConfig("")
  const DefaultConfig: PipelineConfig := PipelineConfig(DefaultOutput, DefaultAudio, DefaultVideo)

  /** Which graphics adapter a D3D11 device was created on. */
  datatype Device = AdapterDevice(adapterIndex: nat) | DefaultDevice

  /**
   * The context. The C++ struct has no initialisers; `None` stands for a
   * field no stage has written yet.
   */
  datatype PipelineContext = PipelineContext(
    d3Device: Option<Device>,
    inputHeight: Option<u32>,
    inputWidth: Option<u32>,
    samplesPerSecond: Option<u32>,
    channels: Option<u32>,
    bitsPerSample: Option<u32>)

  const EmptyContext: PipelineContext := PipelineContext(None, None, None, None, None, None)
}
