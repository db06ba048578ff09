# queue-recorder capture core in Dafny

queue-recorder records the screen and system audio on Windows. A TypeScript controller
(`ScreenCaptureImpl`) builds one native video pipeline and one native pipeline per audio
source through a Node binding (`PipelineWrapper`). Each native pipeline is a chain of stages
that a processing thread runs one after another, handing each stage the token the previous
one produced:

- video: Desktop Duplication or GDI window capture → NVENC or AMF H.264 encoding → raw
  `.h264` file writer;
- audio: WASAPI loopback or microphone capture → WAV file writer.

When recording stops, the post-processing pass groups the `.h264` and `.wav` files of each
recording by name prefix (every file whose name starts with the prefix) and muxes them into one `.mp4` with ffmpeg, deleting the inputs
when ffmpeg succeeds.

The model has one Dafny module per source file. Code that updates objects in place (the
pipeline engine, the stages, the frame limiter, the binding wrapper and the capture
controller) is modelled as classes whose methods carry `modifies` clauses and loops with
invariants; each method is proved against a specification function, and the properties the
source promises are lemmas about those functions. Pure logic (stage-name parsing, config
filling, ffmpeg command building, file grouping, the WAV header) is datatypes, functions and
lemmas. Calls into Windows, the GPU vendors' SDKs, Node and ffmpeg are oracle parameters:
their results are inputs to the model, never computed by it.

## Model

| member | source | states |
|---|---|---|
| Common.ThrowIfFail | src/native/common.h:11-20 | the call fails exactly when the HRESULT is negative (`FAILED`), and the message starts with the prefix and " error code=" |
| Common.ThrowIfFailCodeReadable | src/native/common.h:16 | the `%x` digits of the message are hexadecimal and read back as the HRESULT's 32-bit two's-complement value |
| Common.SuccessCodesPass | src/native/common.h:13 | a non-negative HRESULT, such as `S_FALSE`, never throws |
| Common.PayloadsAppend | src/native/common.h:22-26 | the bytes of a run of `DataAndSize` tokens are the bytes of its first part followed by those of the rest |
| Common.Zeros | src/native/stages/wasapi-stage.cpp:121 | the buffer has the requested length and every byte is zero |
| Pacing.WaitMs | src/native/stages/common/limiter.cpp:20-32 | with the 32-bit schedule as written, the wait is never negative; a positive wait ends less than one millisecond before the due time, and the wait is zero exactly when the due time is less than one millisecond away or already past |
| Pacing.WaitAt | src/native/stages/common/limiter.cpp:20-32 | a zero frequency traps in the division, and only a zero frequency does; otherwise the limiter anchors first and waits as `WaitMs` says |
| Pacing.Limiter.constructor | src/native/stages/common/limiter.cpp:4-8 | a new limiter keeps its frequency and has no calls and no anchor |
| Pacing.Limiter.GetWait | src/native/stages/common/limiter.cpp:20-32 | the first use anchors at the current time and the call count is kept; the result is `WaitAt` of the old anchor and the call count, the division-by-zero trap for a zero frequency |
| Pacing.Limiter.Wait | src/native/stages/common/limiter.cpp:10-18 | it sleeps exactly the current wait and then counts one more call, wrapping at 2^32; a trap counts nothing |
| Pacing.Limiter.Reset | src/native/stages/common/limiter.cpp:34-38 | the call count is zero and the anchor is the current time |
| Pacing.FirstCallDoesNotWait | src/native/stages/common/limiter.cpp:22-25 | the first call after anchoring never waits |
| Pacing.ResetThenWaitIsZero | src/native/stages/common/limiter.cpp:34-38 | right after `reset()`, `getWait()` asks for no sleep |
| Pacing.ScheduleWithinOneMs | src/native/stages/common/limiter.cpp:28 | call n is due within one millisecond of n / frequency seconds after the anchor |
| Pacing.ScheduleMonotone | src/native/stages/common/limiter.cpp:28 | a later call is never due earlier |
| Pacing.AsWrittenAgreesBeforeWrap | src/native/stages/common/limiter.cpp:28 | up to 4294967 calls the 32-bit product agrees with the intended schedule |
| Pacing.AsWrittenScheduleRunsBackwards | src/native/stages/common/limiter.cpp:28 | as written, at 30 frames per second call 4294968 is due 143165543 ms (about 39.8 hours) before call 4294967 |
| Pacing.LimiterKeepsScheduleBeforeWrap | src/native/stages/common/limiter.cpp:28-29 | up to 4294967 calls the deadline the limiter computes is the intended n / frequency seconds after the anchor, and a later call is never due earlier |
| Pacing.LimiterDeadlineJumpsBack | src/native/stages/common/limiter.cpp:28-29 | at 30 frames per second the limiter's deadline for call 4294968 lies before that of call 4294967 |
| Pacing.AsWrittenDeadlineBounded | src/native/stages/common/limiter.cpp:28 | whatever the call count, the as-written due time is at most (2^32 - 1) / frequency milliseconds after the anchor |
| Pacing.PacingEndsPastBound | src/native/stages/common/limiter.cpp:20-32 | once the clock is past that bound, `getWait` asks for no sleep for any call count, until `reset()` re-anchors |
| Pacing.PacingEndsAtThirtyFps | src/native/stages/common/limiter.cpp:28 | at 30 frames per second the bound is 143165576 ms, just after call 4294967 is due |
| Pacing.WaitShrinksAsTimePasses | src/native/stages/common/limiter.cpp:20-32 | with the same anchor and call count, a later reading never asks for a longer sleep |
| Pacing.WaitAfterGetWaitIsNoLonger | src/native/stages/common/limiter.cpp:10-32 | `getWait()` then `wait()` with no call between sleeps no longer than the first reported, once the limiter is anchored |
| Stage.TextureToken | src/native/stages/desktop-duplication-stage.cpp:16 | a null texture gives the null token; any other texture is passed on as itself |
| Stage.DefaultsAreNoOps | src/native/stages/stage.h:30-35 | an example: the default `pause()` does nothing, and `resume()` does nothing in the stages that do not override it |
| DesktopDuplication.DuplicationOutcomes | src/native/stages/desktop-duplication-stage.cpp:163-168 | once the output is reached, `E_ACCESSDENIED` and `DXGI_ERROR_UNSUPPORTED` (and only they) leave the stage without a duplication and without an error; any other failure throws; success gives a duplication |
| DesktopDuplication.MissingScreenIsFatal | src/native/stages/desktop-duplication-stage.cpp:160 | a screen id the adapter does not enumerate throws with the "Enum outputs" prefix |
| DesktopDuplication.FrameCountedOnce | src/native/stages/desktop-duplication-stage.cpp:8-24 | every `process` call counts exactly one frame, the fatal acquire paths included, except when the reacquisition itself throws |
| DesktopDuplication.OutageReturnsStaleFrame | src/native/stages/desktop-duplication-stage.cpp:8-17 | while the output stays unavailable, `process` returns the most recent texture (null before the first frame) and stays without a duplication |
| DesktopDuplication.TimeoutKeepsDuplication | src/native/stages/desktop-duplication-stage.cpp:32-35 | a wait timeout returns the most recent texture and keeps the duplication |
| DesktopDuplication.LostAccessReacquiresNext | src/native/stages/desktop-duplication-stage.cpp:36-44 | lost access drops the duplication and returns the most recent texture, and the next call tries to reacquire first (its failure is that call's error) |
| DesktopDuplication.OtherAcquireFailuresAreFatal | src/native/stages/desktop-duplication-stage.cpp:45-48 | every other failed acquire throws with the "AcquireNextFrame" prefix and the code |
| DesktopDuplication.TextureCreatedOnce | src/native/stages/desktop-duplication-stage.cpp:57-72 | the intermediate texture is created at most once and kept on every path; every frame returned is that texture |
| DesktopDuplication.PacingPerCall | src/native/stages/desktop-duplication-stage.cpp:11-27 | a call paces once with the limiter, twice when it reacquired the duplication and went on to acquire |
| DesktopDuplication.DesktopDuplicationStage.constructor | src/native/stages/desktop-duplication-stage.cpp:6-8 | a new stage has no device, no duplication, no texture, no limiter and a zero frame count |
| DesktopDuplication.DesktopDuplicationStage.InitializeDuplication | src/native/stages/desktop-duplication-stage.cpp:148-175 | the stage holds a duplication exactly when `DuplicationAttempt` gives one, and fails with its message exactly when it throws |
| DesktopDuplication.DesktopDuplicationStage.Initialize | src/native/stages/desktop-duplication-stage.cpp:107-132 | it succeeds exactly when the frame rate is positive, the device is created and the duplication attempt does not throw; a zero frame rate throws before any device exists; device or duplication failures throw their message; on success the context carries the device and the mode size, and a fresh limiter at the frame rate exists |
| DesktopDuplication.DesktopDuplicationStage.Process | src/native/stages/desktop-duplication-stage.cpp:6-105 | the new duplication, texture, frame count and result are those of `ProcessStep`; the limiter counted one call per pacing; the milliseconds slept are the limiter's waits at each pacing, in order, and the limiter's new anchor is its old one re-anchored at each of those clock readings; a frame is acquired, with the limiter's wait at that moment cut to 32 bits as its timeout, exactly when a duplication is held or reacquired |
| DesktopDuplication.DesktopDuplicationStage.Acquire | src/native/stages/desktop-duplication-stage.cpp:20-105 | with a duplication in hand, the new state and result are those of `AcquireStep`; the timeout is the limiter's wait at the acquire cut to 32 bits, the sleep after it is the limiter's wait then, and the limiter counted one call |
| DesktopDuplication.DesktopDuplicationStage.Resume | src/native/stages/desktop-duplication-stage.cpp:177-181 | a stage with a limiter re-anchors it at the current time with no calls counted |
| GdiCapture.ReadTitle | src/native/stages/gdi-capture-stage.cpp:17-18 | the bytes `GetWindowTextA` leaves in the 256-byte buffer: at most 255 of them, and a shorter ANSI title whole |
| GdiCapture.Utf8Char | src/native/main.cpp:83 | one to four bytes, one exactly for a character below 0x80, which is then the character itself; no NUL byte for a non-NUL character |
| GdiCapture.Utf8 | src/native/main.cpp:83 | the requested title's bytes are at least as many as its characters |
| GdiCapture.UntilNul | src/native/stages/gdi-capture-stage.cpp:20 | `strcmp` sees the requested bytes up to, not including, the first NUL, and all of them when there is none |
| GdiCapture.FirstTitled | src/native/stages/gdi-capture-stage.cpp:15-26 | the index found is the first window whose ANSI title, as read, equals the requested title's UTF-8 bytes up to a NUL; none is found only when no window matches |
| GdiCapture.GetWindowHandleByTitle | src/native/stages/gdi-capture-stage.cpp:29-36 | the handle is that of the first window matching by bytes and enumeration stops right after it; with no match the handle is null and every window was visited |
| GdiCapture.FindWindow | src/native/stages/gdi-capture-stage.cpp:46-54 | the window `initialize` takes is the foreground one for an empty title, and otherwise the first window matching the title byte for byte |
| GdiCapture.LongTitlesNeverMatch | src/native/stages/gdi-capture-stage.cpp:17-20 | a requested title of 256 bytes or more in UTF-8 never matches any window |
| GdiCapture.LongWindowTitleMatchesItsPrefix | src/native/stages/gdi-capture-stage.cpp:17-20 | a window whose ANSI title is longer than 255 bytes matches its first 255 bytes and not its full title |
| GdiCapture.Utf8OfAscii | src/native/main.cpp:83 | UTF-8 encodes ASCII text one byte per character, each byte the character's code |
| GdiCapture.AsciiTitlesMatchAsText | src/native/stages/gdi-capture-stage.cpp:17-20 | for ASCII titles that fit the buffer, the byte comparison holds exactly when the titles are equal as text |
| GdiCapture.CafeInCodePage1252DoesNotMatch | src/native/stages/gdi-capture-stage.cpp:17-20 | an example: the window "Café", read in code page 1252, does not match the requested "Café", which text comparison matches |
| GdiCapture.FirstTitledIntended | src/native/stages/gdi-capture-stage.cpp:15-36 | with titles compared as text, the first window whose title is the requested one, and none only when no window has it |
| GdiCapture.EveryTitleIsFound | src/native/stages/gdi-capture-stage.cpp:15-36 | with titles compared as text, looking a window up by its own title finds it or an earlier window of the same title |
| GdiCapture.CursorPlacement | src/native/stages/gdi-capture-stage.cpp:106-119 | the cursor is drawn exactly when cursor capture is on, `GetCursorInfo` succeeds and the cursor is showing, at its screen position translated into client coordinates |
| GdiCapture.GdiCaptureStage.constructor | src/native/stages/gdi-capture-stage.cpp:38-40 | a new stage has no device, texture, surface, window or limiter |
| GdiCapture.GdiCaptureStage.Initialize | src/native/stages/gdi-capture-stage.cpp:38-91 | it succeeds exactly when the device is created, a window is found (the foreground one for an empty title, else the first byte-level title match), and both the texture and its surface are created; no window, a failed device, texture or surface each throw their message; on success the context carries the device and the client size, and a fresh limiter exists |
| GdiCapture.GdiCaptureStage.Process | src/native/stages/gdi-capture-stage.cpp:93-125 | the limiter sleeps its current wait; a zero frame rate (which `initialize` accepts) traps in the limiter before anything is copied and counts no call; otherwise one call is counted, a failed `BitBlt` throws "BitBlt failed", and a copy yields the stage's one texture with the cursor placed as `CursorPlacement` says |
| GdiCapture.GdiCaptureStage.Resume | src/native/stages/gdi-capture-stage.cpp:141-145 | a stage with a limiter re-anchors it at the current time with no calls counted |
| D3D11Utils.FeatureLevelsDescending | src/native/stages/common/d3d11-utils.cpp:18-24 | four feature levels are requested, best first |
| D3D11Utils.FirstMatchFrom | src/native/stages/common/d3d11-utils.cpp:49-69 | the adapter found is the first, by index, whose description contains one of the search strings; none is found only when no description does |
| D3D11Utils.DescriptionMatches | src/native/stages/common/d3d11-utils.cpp:53-60 | the loop over the search strings reports a match exactly when the description contains one of them |
| D3D11Utils.CreateDefaultDevice | src/native/stages/common/d3d11-utils.cpp:30-35 | the default device is created exactly when `D3D11CreateDevice` succeeds; otherwise the error carries the "D3D11CreateDevice" prefix and the code |
| D3D11Utils.CreateSpecificDeviceAndContext | src/native/stages/common/d3d11-utils.cpp:41-85 | the device is `SelectedDevice`: a factory failure throws; a matching adapter gets the device (or the "D3D11CreateDevice(specific)" error); no match falls back to the default device; every adapter before the match is released, and the matched one after a successful creation |
| D3D11Utils.CreateDeviceAndContext | src/native/stages/common/d3d11-utils.cpp:87-93 | the device is the one selected with the search strings "NVIDIA" and "AMD" |
| D3D11Utils.SelectedDeviceIsFirstVendorAdapter | src/native/stages/common/d3d11-utils.cpp:41-93 | a device on a specific adapter is on the first NVIDIA or AMD adapter by index; a default device means no adapter description names either vendor |
| D3D11Utils.FirstAdapterByIndexWins | src/native/stages/common/d3d11-utils.cpp:54-64 | an example: with an Intel, an AMD and an NVIDIA adapter in that order, the AMD adapter is chosen: adapter order wins over search-string order |
| Engine.Sweep | src/native/pipeline.cpp:25-35 | a sweep calls the operation on every stage exactly once, in the order the stages were added |
| Engine.InitFold | src/native/pipeline.cpp:125-136 | an initialize sweep never calls more stages than there are, calls all of them when none throws, and calls at least the thrower when one does |
| Engine.InitSucceedsIff | src/native/pipeline.cpp:129-135 | initialization succeeds exactly when every stage accepts the context its predecessors left |
| Engine.InitStopsAtThrow | src/native/pipeline.cpp:133 | once a stage has thrown, no later stage is initialized and the outcome is fixed |
| Engine.InitReportsThrower | src/native/pipeline.cpp:133 | a failed initialization reports the exception of the last stage called, and every stage before it succeeded |
| Engine.RunChain | src/native/pipeline.cpp:38-61 | the `process` calls and the error of one iteration are those of `Chain` from stage 0 with the null token |
| Engine.ChainShape | src/native/pipeline.cpp:38-61 | one iteration calls consecutive stages from the first; the first gets the null token and each later one gets its predecessor's output, never null |
| Engine.ChainEnd | src/native/pipeline.cpp:41-60 | an iteration ends in an error exactly when its last `process` call threw, with that message; it stops early without an error only because the last stage called returned null |
| Engine.ChainRunsEveryStage | src/native/pipeline.cpp:39-61 | when every stage always produces a token, every stage runs once per iteration and no error arises |
| Engine.NullTokenSkipsLaterStages | src/native/pipeline.cpp:55-60 | an example: in three stages whose second returns null, the third is not called |
| Engine.Pipeline.constructor | src/native/pipeline.cpp:68-71 | a new pipeline keeps its configuration and has no stages, no error and no thread |
| Engine.Pipeline.AddStage | src/native/pipeline.cpp:111-115 | the stage is appended at the end |
| Engine.Pipeline.SupportsStage | src/native/pipeline.cpp:117-123 | a kind is supported unless it overrides `isSupported` and its hardware is missing; only NVENC and AMF can be unsupported |
| Engine.Pipeline.Initialize | src/native/pipeline.cpp:125-136 | an initialized pipeline does nothing; otherwise the stages are initialized in order as `InitFold` says, and the pipeline is initialized exactly when none threw |
| Engine.Pipeline.Start | src/native/pipeline.cpp:138-146 | initialization as above, so the pipeline is initialized exactly when it succeeded; the thread starts exactly when it succeeded, holding a copy of the stage list as it is at that moment; an initialized pipeline stays initialized |
| Engine.Pipeline.Tick | src/native/pipeline.cpp:14-65 | the loop works on the stage list copied at start, so a stage added afterwards is never paused, resumed or processed; with a pause pending every copied stage is paused, then every one resumed, before the `process` calls of `Chain` over the copy; an exception becomes the stored error and ends the loop |
| Engine.LateStageIsNotRun | src/native/pipeline.cpp:14-39 | the thread gets the stage list by value (pipeline.cpp:143): with one stage added, the pipeline started and a second stage added, an iteration calls only the first stage, and `stop` then shuts down both |
| Engine.Pipeline.Notify | src/native/pipeline.cpp:25-35 | the operation is called on each of the first `count` stages, in order |
| Engine.Pipeline.Pause | src/native/pipeline.cpp:148-152 | the pipeline is paused |
| Engine.Pipeline.Resume | src/native/pipeline.cpp:154-158 | the pipeline is no longer paused |
| Engine.Pipeline.Stop | src/native/pipeline.cpp:160-178 | the loop has ended and every stage of the live list, including any added after start, was shut down once, in order |
| Engine.Pipeline.PollErrors | src/native/pipeline.cpp:180-189 | the stored error is returned once (nothing when there is none) and the store is empty afterwards |
| Engine.PollTwice | src/native/pipeline.cpp:180-189 | polling twice in a row returns at most one error, and nothing the second time |
| Wasapi.Coerced | src/native/stages/wasapi-stage.cpp:30-50 | a floating-point mix format, plain or extensible, becomes 16-bit PCM with the same rate and channels, the block alignment of 16-bit samples and the matching byte rate; any other format is left alone |
| Wasapi.CoercionIdempotent | src/native/stages/wasapi-stage.cpp:30-50 | coercing an already coerced format changes nothing |
| Wasapi.StereoFloatExample | src/native/stages/wasapi-stage.cpp:33-38 | an example: 48 kHz stereo float becomes 16-bit PCM with 4-byte frames and 192000 bytes per second |
| Wasapi.TimerIsHalfPeriod | src/native/stages/wasapi-stage.cpp:64-69 | the timer first fires half a device period from now, then every half period rounded down to whole milliseconds |
| Wasapi.Grown | src/native/stages/wasapi-stage.cpp:120-134 | growth never shrinks the buffer; when it does not give up the packet fits and a grown buffer is within the ceiling; when it gives up the size has passed the ceiling and the packet did not fit the size before |
| Wasapi.DoubledWithinCeiling | src/native/stages/wasapi-stage.cpp:120-123 | the buffer sizes the stage can reach within the ceiling are 1024 doubled up to 32768 |
| Wasapi.OverflowIffTooManyFrames | src/native/stages/wasapi-stage.cpp:120-127 | from any reachable size, a packet is fatal exactly when it holds more than 32768 frames; otherwise the size ends at most 32768 |
| Wasapi.BufferBytesFit | src/native/stages/wasapi-stage.cpp:133 | a buffer of at most 32768 frames of any format has a byte count that fits in 32 bits |
| Wasapi.WasapiStage.constructor | src/native/stages/wasapi-stage.cpp:9-11 | a new stage has no endpoint, no format and no buffer, and a size of 1024 frames |
| Wasapi.WasapiStage.CoerceMixFormat | src/native/stages/wasapi-stage.cpp:31-50 | the in-place rewrite of the mix format leaves exactly `Coerced` of it |
| Wasapi.WasapiStage.Initialize | src/native/stages/wasapi-stage.cpp:9-95 | the render or capture endpoint, loopback only for render, the coerced format, a zeroed buffer of the current size, the timer and the context's audio fields; for render the three checked keep-alive calls are the only failures, each with its prefix, and success writes one buffer of silence |
| Wasapi.WasapiStage.GrowBuffer | src/native/stages/wasapi-stage.cpp:120-134 | the size ends as `Grown` says; each growth allocates a fresh zeroed buffer; without overflow the stage stays ready |
| Wasapi.WasapiStage.Process | src/native/stages/wasapi-stage.cpp:97-143 | it waits only when no packet is pending at first; nothing pending after that gives no output and no change; an overflow throws "Audio frames overlowed buffer."; otherwise the token's bytes are exactly the captured packet, at the start of the stage's buffer |
| WavWriter.RatesOfWholeByteFormats | src/native/stages/wav-writer-stage.cpp:54-55 | for whole-byte samples and rates that fit in C++ `int`/`short`, the block alignment is one sample per channel and the byte rate is that many frames per second |
| WavWriter.CdQualityRates | src/native/stages/wav-writer-stage.cpp:52-55 | an example: 44100 Hz 16-bit stereo gives 176400 bytes per second in 4-byte frames |
| WavWriter.LittleEndian32RoundTrip | src/native/stages/wav-writer-stage.cpp:9 | every `int` field is read back from its four little-endian bytes |
| WavWriter.LittleEndian16RoundTrip | src/native/stages/wav-writer-stage.cpp:15 | every `short` field is read back from its two little-endian bytes |
| WavWriter.TagRoundTrip | src/native/stages/wav-writer-stage.cpp:8 | a tag of one-byte characters is read back from its bytes |
| WavWriter.ParseSerialize | src/native/stages/wav-writer-stage.cpp:5-27 | every header with four-character tags is read back exactly from the 44 bytes `fwrite` writes |
| WavWriter.MadeHeaderReadsBack | src/native/stages/wav-writer-stage.cpp:29-75 | the header `makeWaveHeader` builds reads back with the RIFF, WAVE, "fmt " and data tags, PCM, a 16-byte format chunk, the format as given, and the sizes of an empty data chunk (36 and 0) |
| WavWriter.WavWriterStage.constructor | src/native/stages/wav-writer-stage.cpp:77-79 | a new stage has no file and nothing written |
| WavWriter.WavWriterStage.Initialize | src/native/stages/wav-writer-stage.cpp:77-87 | a failed open throws with the error number in decimal and writes nothing; otherwise the file holds exactly the header of the context's format |
| WavWriter.WavWriterStage.Process | src/native/stages/wav-writer-stage.cpp:89-96 | the token's first `size` bytes are appended verbatim and there is no output |
| WavWriter.WavWriterStage.Shutdown | src/native/stages/wav-writer-stage.cpp:98-105 | the file is closed once when it is open, and not otherwise |
| WavWriter.FileIsHeaderThenPayloads | src/native/stages/wav-writer-stage.cpp:86-94 | the file reads back as the header it was opened with (its data size still 0) followed by every payload in order |
| WavWriter.WriteAll | src/native/stages/wav-writer-stage.cpp:89-96 | writing a run of tokens one `process` call at a time appends exactly their payloads, in order |
| FileWriter.FileWriterStage.constructor | src/native/stages/file-writer-stage.cpp:4-6 | a new stage has no file and nothing written |
| FileWriter.FileWriterStage.Initialize | src/native/stages/file-writer-stage.cpp:4-12 | the configured file is opened empty; a failed open throws with the error number in decimal |
| FileWriter.FileWriterStage.Process | src/native/stages/file-writer-stage.cpp:13-20 | the token's first `size` bytes are appended verbatim and there is no output |
| FileWriter.FileWriterStage.Shutdown | src/native/stages/file-writer-stage.cpp:21-28 | the file is closed once when it is open, and not otherwise |
| FileWriter.WriteAll | src/native/stages/file-writer-stage.cpp:13-20 | a run of `process` calls leaves the file holding every payload in order and nothing else |
| Nvenc.GopIsTwoSeconds | src/native/stages/nvenc-stage.cpp:53-60 | the encode size and the largest size are the captured surface's, and each key frame starts two seconds of video at any frame rate below 2^31 |
| Nvenc.GopWrapsAtTwoToThe31 | src/native/stages/nvenc-stage.cpp:60 | an example: the unsigned product wraps: 2^31 frames per second gives a group of pictures of length 0 |
| Nvenc.PacketToken | src/native/stages/nvenc-stage.cpp:20-33 | no packet means no output, more than one throws "Got more packets than expected", and one packet is passed on as the token |
| Nvenc.OnePacketArrivesWhole | src/native/stages/nvenc-stage.cpp:30-33 | a single packet of fewer than 2^32 bytes reaches the next stage byte for byte |
| Nvenc.NvencStage.constructor | src/native/stages/nvenc-stage.cpp:36-38 | a new stage has no encoder and no packets |
| Nvenc.NvencStage.Initialize | src/native/stages/nvenc-stage.cpp:36-62 | a failing `NvEncoderD3D11` construction fails with the exception's text and creates no encoder; otherwise the encoder is on the context's device with the parameters `InitParams` derives from the surface size and the frame rate, and a failing `CreateEncoder` then fails with its text |
| Nvenc.NvencStage.Process | src/native/stages/nvenc-stage.cpp:12-34 | an `EncodeFrame` exception is passed on with the packets and the result record untouched; otherwise the packets are those the encoder produced and the result is `PacketToken` of them; for one packet the stage's result record points at it |
| Nvenc.NvencStage.Shutdown | src/native/stages/nvenc-stage.cpp:63-72 | the encoder is destroyed once when one was created, and not otherwise |
| Amf.ThrowIfFailAmd | src/native/stages/amf-stage.cpp:8-17 | any result other than `AMF_OK` throws, with the prefix and " error code=" in the message |
| Amf.AmfCodeReadable | src/native/stages/amf-stage.cpp:13 | the `%x` digits after the prefix read back as the result code |
| Amf.CapacityIsFourBytesPerPixel | src/native/stages/amf-stage.cpp:41 | the output buffer holds four bytes per pixel while the frame has fewer than 2^30 pixels; the unsigned product wraps to nothing at 32768 x 32768 |
| Amf.FrameDuration | src/native/stages/amf-stage.cpp:52 | the duration is the whole number of milliseconds in one frame period, rounded down |
| Amf.AmfStage.constructor | src/native/stages/amf-stage.cpp:19-21 | a new stage has no context, encoder, surface or output buffer, and nothing terminated |
| Amf.AmfStage.Initialize | src/native/stages/amf-stage.cpp:19-42 | the first of the ten checked calls to fail throws with its own prefix, leaving the context only if "context" passed and the encoder only if "createEncoder" passed; when all pass, the encoder has the surface size, the frame rate over 1 and 5000000 bits per second, and the output buffer has four bytes per pixel |
| Amf.AmfStage.Process | src/native/stages/amf-stage.cpp:43-68 | the surface gets the frame duration; a failed submit throws with "submitInput"; no ready output means no token; ready output is copied to the start of the output buffer and the token's bytes are exactly that output |
| Amf.AmfStage.Shutdown | src/native/stages/amf-stage.cpp:70-89 | the encoder and the context are terminated when they exist, then always the factory; the output buffer is freed when it was allocated |
| Amf.IsSupported | src/native/stages/amf-stage.cpp:91-96 | support is exactly a successful factory initialisation, and the factory is terminated either way |
| Binding.GetStageTypeFromString | src/native/main.cpp:134-168 | an unknown name throws "Unknown stage type" |
| Binding.StageNamesRoundTrip | src/native/main.cpp:134-168 | each of the seven kinds is found by its name, and a name is accepted only if it is the name of the kind found |
| Binding.StageNamesDistinct | src/native/main.cpp:136-163 | different kinds have different names |
| Binding.UnknownNamesRejected | src/native/main.cpp:164-167 | a name that differs from all seven is rejected |
| Binding.FilledConfigRoundTrip | src/native/main.cpp:57-117 | every configuration can be asked for: filling from the object that spells it out gives it back |
| Binding.AbsentKeysKeepDefaults | src/native/main.cpp:57-117 | an empty object leaves every field at the defaults of pipeline-config.h |
| Binding.UnknownAudioTypeKeepsRender | src/native/main.cpp:94-106 | an audio source type other than "render" and "capture" keeps the default loopback capture |
| Binding.ConstructorConfig | src/native/main.cpp:49-124 | anything but one object argument throws "Pipeline config must be an object"; otherwise the configuration is each present key written over its default, and an empty file name throws "Pipeline could not determine a suitable output" |
| Binding.Prefixed | src/native/main.cpp:189-192 | an engine failure is rethrown as the prefix followed by the engine's message, and success stays success |
| Binding.PipelineWrapper.constructor | src/native/main.cpp:126 | the wrapper holds a new engine for the configuration, with no stages |
| Binding.PipelineWrapper.AddStage | src/native/main.cpp:169-180 | anything but one string argument throws "Expected string", an unknown name throws "Unknown stage type", and in both cases no stage is added; a known name appends one stage of its kind; the engine's lifecycle state is unchanged in every case |
| Binding.PipelineWrapper.SupportsStage | src/native/main.cpp:239-253 | the same argument checks, then the engine's answer for the named kind |
| Binding.PipelineWrapper.Initialize | src/native/main.cpp:182-193 | the engine's initialization: the same new initialized flag and stage trace, a failure rethrown after "Failed to initialize pipeline: "; stages, pending error, pause and thread unchanged |
| Binding.PipelineWrapper.Start | src/native/main.cpp:195-210 | the engine's start: the same initialization, the thread running exactly when it was or the start succeeded, a failure rethrown after "Failed to start pipeline: "; on success the thread holds the current stage list; stages, pending error and pause unchanged |
| Binding.PipelineWrapper.PollErrors | src/native/main.cpp:227-237 | a fresh array holding the engine's pending error, or empty when there is none; the engine's store is empty afterwards and nothing else in the engine changes |
| Binding.NewPipelineWrapper | src/native/main.cpp:49-127 | succeeds exactly when there is one object argument whose filled configuration names an output file; otherwise the two rejections, with no engine; on success a fresh engine for the filled configuration, with no stages |
| Ffmpeg.FfmpegPathRewritesFirstArchive | src/ffmpeg-wrapper.ts:7-10 | a path naming no archive is used as it is; otherwise only the first "app.asar" becomes "app.asar.unpacked" and the text around it is kept |
| Ffmpeg.FfmpegPathRoundTrip | src/ffmpeg-wrapper.ts:7-10 | the rewrite is undone by turning the first "app.asar.unpacked" back into "app.asar": it loses nothing of the installed path |
| Ffmpeg.InputSteps | src/ffmpeg-wrapper.ts:22-24 | every input contributes exactly two builder calls |
| Ffmpeg.AudioInputCount | src/ffmpeg-wrapper.ts:26 | the number of ".wav" inputs is at most the number of inputs |
| Ffmpeg.BuildCommand | src/ffmpeg-wrapper.ts:21-32 | the command is every input each followed by a video-codec "copy" step, then the audio mix of all ".wav" inputs when there are more than one, then the output |
| Ffmpeg.InputsOfAppend | src/ffmpeg-wrapper.ts:22-24 | the inputs of two runs of builder calls are the inputs of the first followed by those of the second |
| Ffmpeg.InputStepsReadBack | src/ffmpeg-wrapper.ts:22-24 | the input calls name exactly the input files, in order |
| Ffmpeg.EveryInputIsCopied | src/ffmpeg-wrapper.ts:23 | every input is followed by a video-codec "copy" step |
| Ffmpeg.CommandShape | src/ffmpeg-wrapper.ts:21-32 | the command reads exactly the given files in order, names the output last and only there, and mixes audio exactly when more than one ".wav" file is given |
| Ffmpeg.TwoAudioSourcesAreMixed | src/ffmpeg-wrapper.ts:26-29 | a video with two recorded audio files gets the filter "amix=inputs=2" |
| Ffmpeg.Process | src/ffmpeg-wrapper.ts:18-37 | the binary is the rewritten path, the command reads exactly the given files and writes the output last, and the promise settles with ffmpeg's outcome |
| PostProcessing.Prefixes | src/post-processing.ts:15-22 | each prefix appears once, and the prefixes are exactly those of the recordings' names (the text before the first dot) |
| PostProcessing.PrefixesInFirstOccurrenceOrder | src/post-processing.ts:15-22 | prefixes appear in the order of their first occurrence: the prefixes of the first names start the list of all of them |
| PostProcessing.AsWrittenGroupTakesLongerPrefixes | src/post-processing.ts:28-32 | as written, the group of "a" also takes "ab.wav", which then belongs to two groups; the intended group of "a" holds only "a.h264" |
| PostProcessing.GroupsPartition | src/post-processing.ts:15-32 | with grouping by prefix, every recording is in the group of its own prefix, which is one of the prefixes, and in no other |
| PostProcessing.PrefixStartsName | src/post-processing.ts:16-29 | every name starts with its own prefix |
| PostProcessing.AsWrittenRunsOverlap | src/post-processing.ts:24-33 | as written, a recording is an input of the run of every prefix its name starts with, its own prefix included; its intended group is contained in the written one |
| PostProcessing.DoPostProcessing | src/post-processing.ts:42-53 | ffmpeg reads exactly the inputs and writes the output; an ffmpeg error is passed on and deletes nothing; success deletes every non-empty input, in order |
| PostProcessing.PostProcessDirectory | src/post-processing.ts:11-39 | one run per prefix of the ".h264" and ".wav" files in the listing, in first-occurrence order, each writing "<prefix>.mp4" in the directory from the paths of every recording whose name starts with the prefix; failed runs are logged in order and the loop goes on; only completed runs delete their inputs |
| PostProcessing.RunGroups | src/post-processing.ts:24-38 | the loop makes the run of each prefix, grouped by `startsWith`, in order, logs exactly the failed runs' errors, and deletes exactly the completed runs' inputs |
| PostProcessing.OnlySuccessfulRunsDelete | src/post-processing.ts:34-52 | a file deleted by the directory pass is a non-empty input of a run whose ffmpeg ended without an error |
| ScreenCapture.Lifecycle | src/screen-capture-impl.ts:31-44 | an operation is accepted exactly in the transitions the class documents: UNSTARTED to CAPTURING by start, CAPTURING to STARTED by pause, STARTED to CAPTURING by resume, STARTED or CAPTURING to STOPPED by stop; STOPPED is final and nothing returns to UNSTARTED |
| ScreenCapture.EnsureState | src/screen-capture-impl.ts:188-194 | the check passes exactly when the state is one of those expected |
| ScreenCapture.StateNumbersTellStatesApart | src/screen-capture-impl.ts:190-192 | different states are shown as different numbers, so a refusal names the state it found |
| ScreenCapture.StopTwiceMessage | src/screen-capture-impl.ts:116-192 | stopping a stopped capture is refused with "Expected capture state 3 to be in 1,2" |
| ScreenCapture.AudioSources | src/screen-capture-impl.ts:70-74 | audio off records no source; audio left out, or given without a source list, records one "render" source; a given list is used as it is, an empty one included |
| ScreenCapture.NativeConfigReachesPipeline | src/screen-capture-impl.ts:65-81 | the native side writes each pipeline's file to the name it was given, records the microphone only for a "capture" source, and receives a window source's title and a desktop source's screen |
| ScreenCapture.FirstSupported | src/screen-capture-impl.ts:165-171 | the stage chosen from a list of alternatives is the first one supported; none is chosen only when none is supported |
| ScreenCapture.Resolve | src/screen-capture-impl.ts:162-178 | a stage list that resolves gives one stage per entry |
| ScreenCapture.ResolveStopsAtFirstError | src/screen-capture-impl.ts:172-174 | once an entry has no supported stage, the whole list fails with that entry's error |
| ScreenCapture.VideoStages | src/screen-capture-impl.ts:137-159 | a video pipeline captures with GDI exactly for a window source and with desktop duplication otherwise, encodes with NVENC when supported and with AMF otherwise, and writes a file; with neither encoder it fails with "Could not find suitable stage from NVENC,AMF" |
| ScreenCapture.ResolveAppend | src/screen-capture-impl.ts:162-178 | resolving one more entry gives the earlier error, this entry's error, or one more stage |
| ScreenCapture.EncoderChoice | src/screen-capture-impl.ts:139-174 | NVENC when it is supported, AMF when only it is, and an error naming both otherwise |
| ScreenCapture.AudioStages | src/screen-capture-impl.ts:142-148 | an audio pipeline is always WASAPI capture followed by the WAV writer |
| ScreenCapture.ChosenStagesAreKnown | src/screen-capture-impl.ts:137-178 | every stage name chosen is one the native `addStage` accepts |
| ScreenCapture.AudioFiles | src/screen-capture-impl.ts:75-77 | one audio file per source |
| ScreenCapture.AudioPlan | src/screen-capture-impl.ts:75-82 | one audio pipeline per source |
| ScreenCapture.PlanParts | src/screen-capture-impl.ts:62-83 | with video off only the audio pipelines are created; a video pipeline without an encoder fails the plan; otherwise the video pipeline comes first, then the audio pipelines |
| ScreenCapture.AudioPlanWritesAudioFiles | src/screen-capture-impl.ts:75-82 | the i-th audio pipeline records the i-th source into the i-th audio file |
| ScreenCapture.OutputFilesMatchPipelines | src/screen-capture-impl.ts:62-83 | the recorded output files are the created pipelines' files, one for one and in the same order |
| ScreenCapture.AudioInputCountAppend | src/ffmpeg-wrapper.ts:26 | the ".wav" count of two lists of files adds up |
| ScreenCapture.AudioFileIsWav | src/screen-capture-impl.ts:76 | every audio file name ends in ".wav" |
| ScreenCapture.VideoFileIsNotWav | src/screen-capture-impl.ts:63 | the video file name does not end in ".wav" |
| ScreenCapture.AudioFilesAreAudioInputs | src/screen-capture-impl.ts:76 | the ".wav" files among the audio files are all of them |
| ScreenCapture.MixesEveryAudioSource | src/screen-capture-impl.ts:62-185 | the ".wav" inputs post-processing counts are exactly the audio sources, so ffmpeg mixes every recorded source |
| ScreenCapture.Each | src/screen-capture-impl.ts:85-86 | one call per pipeline |
| ScreenCapture.EachCallsEveryPipeline | src/screen-capture-impl.ts:85-91 | `forEach` calls every pipeline once, in order |
| ScreenCapture.FirstFailure | src/screen-capture-impl.ts:84-87 | the failure found is the first pipeline whose call throws; none is found only when no call throws |
| ScreenCapture.FirstFailureIs | src/screen-capture-impl.ts:84-87 | a failing pipeline with no failing pipeline before it is the first failure |
| ScreenCapture.LaunchSucceedsIffNoFailure | src/screen-capture-impl.ts:84-95 | a start succeeds exactly when no pipeline fails to initialize or to start |
| ScreenCapture.NoStartAfterFailedInitialize | src/screen-capture-impl.ts:85-86 | no pipeline is started unless every pipeline initialized |
| ScreenCapture.FailedLaunchStopsAll | src/screen-capture-impl.ts:87-93 | after a failed start every pipeline is stopped, in order, last of all |
| ScreenCapture.Broadcast | src/screen-capture-impl.ts:215-219 | the error is handed to every callback once, in registration order |
| ScreenCapture.EveryCallbackHearsEveryError | src/screen-capture-impl.ts:201-219 | a callback hears an error exactly when it is registered and the error was reported, and nothing else is delivered |
| ScreenCapture.DeliveriesInOrder | src/screen-capture-impl.ts:205-207 | errors are delivered in the order they were reported |
| ScreenCapture.ScreenCaptureImpl.constructor | src/screen-capture-impl.ts:53-59 | a new capture is UNSTARTED with no pipelines, callbacks or output files |
| ScreenCapture.ScreenCaptureImpl.OnError | src/screen-capture-impl.ts:131-133 | the callback is registered after those already registered |
| ScreenCapture.ScreenCaptureImpl.HandleError | src/screen-capture-impl.ts:215-219 | the delivered calls grow by `Broadcast` of the error |
| ScreenCapture.ScreenCaptureImpl.HandleErrors | src/screen-capture-impl.ts:205-207 | each of one pipeline's errors is handed to every callback, in order |
| ScreenCapture.ScreenCaptureImpl.PollErrors | src/screen-capture-impl.ts:201-210 | every pipeline is polled once in order, and each of its errors is handed to every callback |
| ScreenCapture.ScreenCaptureImpl.CallEach | src/screen-capture-impl.ts:91-119 | the operation is called on every pipeline, in order |
| ScreenCapture.ScreenCaptureImpl.CallEachUntilFailure | src/screen-capture-impl.ts:85-86 | the calls stop right after the first pipeline that throws, which is `FirstFailure` |
| ScreenCapture.ScreenCaptureImpl.FirstSupportedStage | src/screen-capture-impl.ts:164-171 | the loop picks `FirstSupported` of the alternatives |
| ScreenCapture.ScreenCaptureImpl.CreatePipeline | src/screen-capture-impl.ts:136-180 | the pipeline is kept with the stages `Resolve` chooses; an unresolvable list throws its error and keeps no pipeline |
| ScreenCapture.ScreenCaptureImpl.CreatePipelines | src/screen-capture-impl.ts:62-83 | the output files and pipelines grow by exactly the plan; when the video pipeline has no encoder, its file is still recorded, no pipeline is kept and the error is thrown |
| ScreenCapture.ScreenCaptureImpl.CreateVideoPipeline | src/screen-capture-impl.ts:62-69 | the video file is recorded first, then its pipeline created as `Resolve` says |
| ScreenCapture.ScreenCaptureImpl.CreateAudioPipelines | src/screen-capture-impl.ts:75-82 | a file and a WASAPI-to-WAV pipeline are recorded per source, in order |
| ScreenCapture.ScreenCaptureImpl.Launch | src/screen-capture-impl.ts:84-95 | the native calls are those of `LaunchOf`; a failure is handed to every callback as "Error: " and its message, every pipeline is stopped and the state is unchanged; otherwise the capture is CAPTURING |
| ScreenCapture.ScreenCaptureImpl.Start | src/screen-capture-impl.ts:60-96 | refused unless UNSTARTED, changing nothing; otherwise the files and pipelines of the plan, then the launch; a stage-selection error is thrown before any pipeline is initialized or started |
| ScreenCapture.ScreenCaptureImpl.Pause | src/screen-capture-impl.ts:99-104 | refused unless CAPTURING, changing nothing; otherwise errors are polled, every pipeline is paused and the capture is STARTED |
| ScreenCapture.ScreenCaptureImpl.Resume | src/screen-capture-impl.ts:107-112 | refused unless STARTED, changing nothing; otherwise errors are polled, every pipeline is resumed and the capture is CAPTURING |
| ScreenCapture.ScreenCaptureImpl.Stop | src/screen-capture-impl.ts:115-128 | refused unless STARTED or CAPTURING, changing nothing; otherwise errors are polled, the capture is STOPPED, every pipeline is stopped, and ffmpeg muxes the recorded files into the configured file name; success returns that name and deletes the recordings, failure is handed to the callbacks as "Error: " and its message and rethrown |
| ScreenCapture.ScreenCaptureImpl.Shutdown | src/screen-capture-impl.ts:117-127 | the stop sequence once the state check has passed, with the same outcomes |

## Left out

- Threads, the mutex, the atomic flags and the processing thread itself are not modelled: `Engine.Pipeline.Tick` is one iteration of the processing loop, and a pending pause stands for the `try_lock` that fails while `pause()` holds the lock.
- The clock is a `now` parameter, one per clock reading, except that on first use `getWait` reads the clock twice (limiter.cpp:24 and :27) and the model uses one `now` for both; and `Sleep` is the number of milliseconds a method returns; console output is not modelled.
- `QueryPerformanceFrequency` is taken to report at least 1000 ticks per second (`Pacing.Limiter.ClockResolves`); below that the source divides by zero in the limiter.
- Pacing: a zero frame rate makes the limiter divide by zero (limiter.cpp:28). That is a processor trap, not a C++ exception, so the source's process ends; the model returns `Pacing.Pace.DividedByZero`, and the GDI stage reports it as a failure with the message `Pacing.IntegerDivideByZero`. The Desktop Duplication stage is only modelled past its `initialize`, which rejects a zero frame rate.
- Every Windows, Direct3D, DXGI, GDI, WASAPI, NVENC and AMF call is an oracle parameter (an HRESULT, a success flag, a list of adapters or windows); the bytes of frames and audio packets are abstract tokens, or are given as `captured`.
- Direct3D device contexts, surfaces, the cursor bitmap and the drawing of the cursor into a Desktop Duplication frame (desktop-duplication-stage.cpp:80-102) are not modelled; the GDI cursor position is modelled as `GdiCapture.CursorPlacement`.
- DesktopDuplication.DesktopDuplicationStage.Initialize requires that, once the frame rate and the device are good, the first duplication attempt is not a retriable refusal (`E_ACCESSDENIED` or `DXGI_ERROR_UNSUPPORTED`, `DuplicationAttempt(...) == Ok(false)`): the source then leaves `duplication` null and calls `GetDesc` on it (desktop-duplication-stage.cpp:120-123), which crashes the process rather than throwing, so the model promises nothing for that input.
- `canReinitialize` in the Desktop Duplication stage is never read.
- NVENC encoder internals and the driver probe (`HasDrivers`) are a `hardwarePresent` oracle; an `NVENCException` is an oracle's text. When `EncodeFrame` throws, the packet vector is taken to be unchanged.
- GdiCapture: the conversion of a window title to the ANSI code page is an oracle (`Window.ansiTitle`); a double-byte character cut by the 256-byte buffer is not modelled separately from other bytes.
- `new char[size]` in the writer stages leaves its contents indeterminate; the model fills the buffer with zeros (`Common.Zeros`) as one possible content.
- Amf.AmfStage.Process requires the encoded output to fit the output buffer: the source copies it with `memcpy` and overflows when it does not.
- The WASAPI stage's unchecked HRESULTs, its `delete` of an array allocated with `new[]` and the freeing of its buffer are not modelled.
- Engine.Pipeline: `paused` is left uninitialised in the C++ constructor; the model starts it false. The destructor is not modelled, nor is the `default` branch of `createStage`, which no stage type reaches.
- Binding: `ThrowAsJavaScriptException` does not stop the C++ function; the model ends the call there, as the JavaScript caller sees. The wrapper's `pause`, `resume` and `stop` forward straight to the engine and are not modelled separately. A JavaScript number is taken as an integer and its low 32 bits are kept.
- ScreenCapture: native pipelines are abstract; the calls made to them and the error callbacks delivered are recorded as two separate traces, and the `supportsStage` queries are not recorded. Native `stop` is assumed not to throw, and so are the error callbacks: `handleError` (screen-capture-impl.ts:215-219) calls them with no `try`, so a throwing callback would cut off the later ones and escape from `pollErrors`, `pause`, `resume` and `stop`; `ScreenCapture.EveryCallbackHearsEveryError` holds under that assumption.
- The post-processing delay, `setTimeout` and promise scheduling are not modelled; `path.join` is modelled as joining with a backslash. Whether an input file exists is not modelled: ffmpeg's outcome for each run is an oracle, and `fs.unlinkSync` is assumed to succeed.
- Integer widths: the 32-bit `unsigned` and `long` counters are written out with explicit wrap-around where they matter (the limiter's call count and product, the NVENC GOP length, the WASAPI buffer size); other integers are unbounded.
- ScreenCapture.AudioFiles: states only the number of files; their names are stated by `ScreenCapture.AudioPlanWritesAudioFiles`.
- ScreenCapture.AudioPlan: states only the number of pipelines; their outputs are stated by `ScreenCapture.AudioPlanWritesAudioFiles`.
- ScreenCapture.Each: states only the length of the trace; which pipelines are called, and in which order, is stated by `ScreenCapture.EachCallsEveryPipeline`.
- Ffmpeg.InputSteps: states only the number of arguments; their contents are stated by `Ffmpeg.InputStepsReadBack` and `Ffmpeg.EveryInputIsCopied`.
- Ffmpeg.AudioInputCount: states only a bound; which inputs count is stated by `ScreenCapture.AudioFilesAreAudioInputs`.
- ScreenCapture.Resolve: states only the number of resolved stages; which stages are chosen is stated by `ScreenCapture.VideoStages` and `ScreenCapture.AudioStages`.

Where the code and its documentation disagree, the model follows the code (the two defects under "## Findings" included: the methods model them as written and the intended definitions are proved beside them):

- `audio: { sources: [] }` records no audio at all, because an empty array is truthy in JavaScript; only a missing `sources` falls back to the render device.
- `createPipeline` throws before the `try` block of `start`, after the video file name has already been recorded.
- `stop` post-processes into `config.output.fileName` with no ".mp4" appended.
- When reacquiring the desktop duplication throws, the Desktop Duplication frame count is not incremented.
- The WAV header's size fields stay at 36 and 0; the writer never updates them.

## Findings

| source | as written | input that shows it | evidently intended | confidence | as-written member | corrected member |
|---|---|---|---|---|---|---|
| src/native/stages/common/limiter.cpp:28 | `calls * 1000` is computed in 32-bit `unsigned` and wraps around | at 30 frames per second, call 4294967 is due at 143165566 ms and call 4294968 at 23 ms (intended 143165600 ms): from call 4294968 on every due time is at most 143165576 ms after the anchor, which the clock has already passed, so `getWait` returns 0 on every call until a resume resets the limiter: after about 39.8 hours of recording the stage is never paced again | the schedule never runs backwards: call n is due n / frequency seconds after the anchor | high, not executed | Pacing.AsWrittenScheduleRunsBackwards | Pacing.ScheduleMonotone |
| src/post-processing.ts:28-32 | a recording's group is every file whose name starts with the prefix | files "a.h264" and "ab.wav": "ab.wav" is an input of both the "a" and the "ab" runs; if the "a" run succeeds it deletes "ab.wav" and the "ab" run then fails | each file belongs to the group of its own prefix only | high, not executed | PostProcessing.AsWrittenGroupTakesLongerPrefixes | PostProcessing.GroupsPartition |
| src/native/stages/gdi-capture-stage.cpp:17-20 | the window's title from `GetWindowTextA` (ANSI code page) is compared byte for byte with the requested title, which N-API hands over in UTF-8 (src/native/main.cpp:83) | the window "Café" in code page 1252 reads 43 61 66 E9; the request "Café" is 43 61 66 C3 A9, so no window is found | a window is found by its title as text, whatever its script | high, not executed | GdiCapture.CafeInCodePage1252DoesNotMatch | GdiCapture.EveryTitleIsFound |
