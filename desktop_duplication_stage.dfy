/**
 * The desktop duplication capture stage
 * (src/native/stages/desktop-duplication-stage.cpp, fields from
 * desktop-duplication-stage.h): captures one screen output through DXGI and
 * recovers from the outages a mode change or a secure desktop cause.
 *
 * The DXGI calls are oracles: `DxgiProbe` holds what the calls of
 * `initializeDuplication` report, `FrameOracle` what the calls of one
 * `process` report. COM objects are kept only as presence (the duplication)
 * or as an identity (the intermediate texture). The clock is read once per
 * call, as `now`.
 */
module DesktopDuplication {
  import opened Text
  import opened Common
  import opened Config
  import opened Stage
  import opened Pacing
  import opened D3D11Utils

  /**
   * What the calls of `initializeDuplication` report: the HRESULTs of the
   * interface queries, the number of outputs the adapter enumerates, and the
   * HRESULT of `DuplicateOutput`.
   */
  datatype DxgiProbe = DxgiProbe(queryDeviceHr: HResult, getParentHr: HResult, outputCount: nat,
                                 queryOutput1Hr: HResult, duplicateHr: HResult)

  /** The duplication failures that are retried on a later frame instead of thrown. */
  predicate Retriable(hr: HResult)
  {
    hr == EAccessDenied || hr == DxgiErrorUnsupported
  }

  /**
   * `initializeDuplication`: each step throws through `throwIfFail` with its
   * own prefix (`EnumOutputs` reports not-found for a screen the adapter
   * does not have). `Ok(true)` is a new duplication; `Ok(false)` is a
   * retriable refusal that leaves the stage without one.
   */
  function DuplicationAttempt(probe: DxgiProbe, screenId: u32): (r: Outcome<bool>)
  {
    if probe.queryDeviceHr < 0 then Threw(ErrorCodeMessage("Query dxgi", probe.queryDeviceHr))
    else if probe.getParentHr < 0 then Threw(ErrorCodeMessage("Get dxgi parent", probe.getParentHr))
    else if screenId >= probe.outputCount then Threw(ErrorCodeMessage("Enum outputs", DxgiErrorNotFound))
    else if probe.queryOutput1Hr < 0 then Threw(ErrorCodeMessage("Query dxgi output1", probe.queryOutput1Hr))
    else if Retriable(probe.duplicateHr) then Ok(false)
    else if probe.duplicateHr < 0 then Threw(ErrorCodeMessage("Duplicate Output", probe.duplicateHr))
    else Ok(true)
  }

  /** Once the output is reached, only the two retriable codes leave the stage without a duplication and without an error. */
  lemma DuplicationOutcomes(probe: DxgiProbe, screenId: u32)
    requires probe.queryDeviceHr >= 0 && probe.getParentHr >= 0 && screenId < probe.outputCount
    requires probe.queryOutput1Hr >= 0
    ensures DuplicationAttempt(probe, screenId) == Ok(false) <==> Retriable(probe.duplicateHr)
    ensures DuplicationAttempt(probe, screenId) == Ok(true) <==> probe.duplicateHr >= 0
    ensures DuplicationAttempt(probe, screenId).Threw? <==> probe.duplicateHr < 0 && !Retriable(probe.duplicateHr)
  {
  }

  /** A screen the adapter does not enumerate is fatal, whatever else the calls report. */
  lemma MissingScreenIsFatal(probe: DxgiProbe, screenId: u32)
    requires probe.queryDeviceHr >= 0 && probe.getParentHr >= 0 && screenId >= probe.outputCount
    ensures DuplicationAttempt(probe, screenId).Threw?
    ensures StartsWith(DuplicationAttempt(probe, screenId).message, "Enum outputs error code=")
  {
    assert ("Enum outputs" + " error code=" + Hex(U32(DxgiErrorNotFound)))[..24] == "Enum outputs error code=";
  }

  /**
   * What the calls of one `process` report: the duplication attempt made
   * when there is none, `AcquireNextFrame`, the texture query, and the
   * creation of the intermediate texture (with the identity it gets).
   */
  datatype FrameOracle = FrameOracle(reacquire: DxgiProbe, acquireHr: HResult, queryTextureHr: HResult,
                                     createTextureHr: HResult, newTexture: nat)

  /** The state `process` reads and writes: the duplication, the latest texture and the frame count. */
  datatype Capture = Capture(hasDuplication: bool, texture: Option<nat>, frames: u32)

  /** One `process` call: the state after it, how many times it paced with the limiter, and its result. */
  datatype Step = Step(after: Capture, waits: nat, result: Outcome<Token>)

  /** `process` from the acquire on, with a duplication in hand. */
  function AcquireStep(s: Capture, o: FrameOracle): Step
  {
    var counted := s.(frames := U32(s.frames + 1));
    if o.acquireHr < 0 then
      if o.acquireHr == DxgiErrorWaitTimeout then Step(counted, 1, Ok(TextureToken(s.texture)))
      else if o.acquireHr == DxgiErrorAccessLost || o.acquireHr == DxgiErrorInvalidCall then
        Step(counted.(hasDuplication := false), 1, Ok(TextureToken(s.texture)))
      else Step(counted, 1, Threw(ErrorCodeMessage("AcquireNextFrame", o.acquireHr)))
    else if o.queryTextureHr < 0 then Step(counted, 1, Threw(ErrorCodeMessage("Query texture", o.queryTextureHr)))
    else if s.texture.None? then
      if o.createTextureHr < 0 then Step(counted, 1, Threw(ErrorCodeMessage("Create texture", o.createTextureHr)))
      else Step(counted.(texture := Some(o.newTexture)), 1, Ok(Texture(o.newTexture)))
    else Step(counted, 1, Ok(Texture(s.texture.value)))
  }

  /**
   * `process`: without a duplication it paces, tries to reacquire one and,
   * failing that, counts the frame and returns the stale texture; with one
   * it continues as `AcquireStep`.
   */
  function ProcessStep(s: Capture, screenId: u32, o: FrameOracle): Step
  {
    if s.hasDuplication then AcquireStep(s, o)
    else match DuplicationAttempt(o.reacquire, screenId)
      case Threw(m) => Step(s, 1, Threw(m))
      case Ok(false) => Step(s.(frames := U32(s.frames + 1)), 1, Ok(TextureToken(s.texture)))
      case Ok(true) =>
        var rest := AcquireStep(s.(hasDuplication := true), o);
        rest.(waits := rest.waits + 1)
  }

  /**
   * Every call counts exactly one frame, the fatal paths included, except
   * when the reacquisition itself throws.
   */
  lemma FrameCountedOnce(s: Capture, screenId: u32, o: FrameOracle)
    ensures var step := ProcessStep(s, screenId, o);
            if !s.hasDuplication && DuplicationAttempt(o.reacquire, screenId).Threw?
            then step.after.frames == s.frames
            else step.after.frames == U32(s.frames + 1)
  {
  }

  /** An outage that persists returns the latest texture (null before the first frame) and keeps waiting for the output. */
  lemma OutageReturnsStaleFrame(s: Capture, screenId: u32, o: FrameOracle)
    requires !s.hasDuplication && DuplicationAttempt(o.reacquire, screenId) == Ok(false)
    ensures var step := ProcessStep(s, screenId, o);
            && step.result == Ok(TextureToken(s.texture))
            && !step.after.hasDuplication && step.after.texture == s.texture
            && (s.texture.None? ==> step.result == Ok(NoOutput))
  {
  }

  /** A timeout returns the latest texture and keeps the duplication. */
  lemma TimeoutKeepsDuplication(s: Capture, screenId: u32, o: FrameOracle)
    requires s.hasDuplication && o.acquireHr == DxgiErrorWaitTimeout
    ensures var step := ProcessStep(s, screenId, o);
            step.result == Ok(TextureToken(s.texture)) && step.after.hasDuplication && step.after.texture == s.texture
  {
  }

  /**
   * Lost access drops the duplication and returns the latest texture; the
   * next call then tries to reacquire before anything else.
   */
  lemma LostAccessReacquiresNext(s: Capture, screenId: u32, o: FrameOracle, next: FrameOracle)
    requires s.hasDuplication && (o.acquireHr == DxgiErrorAccessLost || o.acquireHr == DxgiErrorInvalidCall)
    ensures var step := ProcessStep(s, screenId, o);
            && step.result == Ok(TextureToken(s.texture))
            && !step.after.hasDuplication && step.after.texture == s.texture
            && (DuplicationAttempt(next.reacquire, screenId).Threw? ==>
                  ProcessStep(step.after, screenId, next).result == Threw(DuplicationAttempt(next.reacquire, screenId).message))
  {
  }

  /** Every other acquire failure is fatal, with the code in the message. */
  lemma OtherAcquireFailuresAreFatal(s: Capture, screenId: u32, o: FrameOracle)
    requires s.hasDuplication && o.acquireHr < 0
    requires o.acquireHr !in {DxgiErrorWaitTimeout, DxgiErrorAccessLost, DxgiErrorInvalidCall}
    ensures ProcessStep(s, screenId, o).result == Threw(ErrorCodeMessage("AcquireNextFrame", o.acquireHr))
  {
  }

  /**
   * The intermediate texture is created at most once: a stage that has one
   * keeps it on every path, and every frame it returns is that texture.
   */
  lemma TextureCreatedOnce(s: Capture, screenId: u32, o: FrameOracle)
    ensures var step := ProcessStep(s, screenId, o);
            && (s.texture.Some? ==> step.after.texture == s.texture)
            && (step.result.Ok? && step.result.value != NoOutput ==> step.result.value == TextureToken(step.after.texture))
  {
  }

  /** A successful acquire paces once, or twice when the duplication was reacquired in the same call. */
  lemma PacingPerCall(s: Capture, screenId: u32, o: FrameOracle)
    ensures var step := ProcessStep(s, screenId, o);
            step.waits == if !s.hasDuplication && DuplicationAttempt(o.reacquire, screenId) == Ok(true) then 2 else 1
  {
  }

  lemma U32Twice(c: u32)
    ensures U32(U32(c + 1) + 1) == U32(c + 2)
  {
  }

  class DesktopDuplicationStage {
    var device: Option<Device>
    var hasDuplication: bool
    var texture: Option<nat>
    var limiter: Limiter?
    var totalFrameCount: u32
    var screenId: u32
    var frameRate: u32
    var captureCursor: bool

    /** The member initialisers of desktop-duplication-stage.h. */
    constructor ()
      ensures device.None? && !hasDuplication && texture.None? && limiter == null
      ensures totalFrameCount == 0 && screenId == 0 && frameRate == 0 && !captureCursor
    {
      device := None;
      hasDuplication := false;
      texture := None;
      limiter := null;
      totalFrameCount := 0;
      screenId := 0;
      frameRate := 0;
      captureCursor := false;
    }

    function Snapshot(): Capture
      reads this
    {
      Capture(hasDuplication, texture, totalFrameCount)
    }

    /** `initializeDuplication`, called only while the stage has no duplication. */
    method InitializeDuplication(probe: DxgiProbe) returns (status: Status)
      requires !hasDuplication
      modifies this`hasDuplication
      ensures DuplicationAttempt(probe, screenId).Threw? ==>
                status == Fail(DuplicationAttempt(probe, screenId).message) && !hasDuplication
      ensures DuplicationAttempt(probe, screenId).Ok? ==>
                status == Pass && hasDuplication == DuplicationAttempt(probe, screenId).value
    {
      var step := ThrowIfFail(probe.queryDeviceHr, "Query dxgi");
      if step.Fail? { return step; }
      step := ThrowIfFail(probe.getParentHr, "Get dxgi parent");
      if step.Fail? { return step; }
      var enumHr := if screenId < probe.outputCount then 0 else DxgiErrorNotFound;
      step := ThrowIfFail(enumHr, "Enum outputs");
      if step.Fail? { return step; }
      step := ThrowIfFail(probe.queryOutput1Hr, "Query dxgi output1");
      if step.Fail? { return step; }
      var hr := probe.duplicateHr;
      hasDuplication := hr >= 0;
      if hr != EAccessDenied && hr != DxgiErrorUnsupported {
        step := ThrowIfFail(hr, "Duplicate Output");
        if step.Fail? { return step; }
      }
      return Pass;
    }

    /**
     * `initialize`: a zero frame rate is rejected before any device exists;
     * then the device, the duplication, and the context gets the device and
     * the output's mode size. `GetDesc` is called on the duplication without
     * a check, so a retriable refusal here is excluded by the precondition.
     */
    method Initialize(config: PipelineConfig, context: PipelineContext, gpu: GpuOracle, probe: DxgiProbe,
                      modeWidth: u32, modeHeight: u32, performanceFrequency: int)
      returns (result: Outcome<PipelineContext>)
      requires !hasDuplication && limiter == null
      requires config.video.frameRate > 0 && SelectedDevice(gpu, SearchStrings).Ok? ==>
                 DuplicationAttempt(probe, config.video.screenId) != Ok(false)
      modifies this
      ensures screenId == config.video.screenId && frameRate == config.video.frameRate
      ensures captureCursor == config.video.captureCursor
      ensures config.video.frameRate == 0 ==>
                result == Threw("Frame rate must be greater than 0") && device == old(device) && limiter == null
      ensures config.video.frameRate > 0 && SelectedDevice(gpu, SearchStrings).Threw? ==>
                result == Threw(SelectedDevice(gpu, SearchStrings).message) && limiter == null
      ensures config.video.frameRate > 0 && SelectedDevice(gpu, SearchStrings).Ok? ==>
                device == Some(SelectedDevice(gpu, SearchStrings).value)
      ensures config.video.frameRate > 0 && SelectedDevice(gpu, SearchStrings).Ok?
              && DuplicationAttempt(probe, config.video.screenId).Threw? ==>
                result == Threw(DuplicationAttempt(probe, config.video.screenId).message) && limiter == null
      ensures result.Ok? <==>
                && config.video.frameRate > 0
                && SelectedDevice(gpu, SearchStrings).Ok?
                && DuplicationAttempt(probe, config.video.screenId).Ok?
      ensures result.Ok? ==>
                && result.value == context.(d3Device := device, inputWidth := Some(modeWidth), inputHeight := Some(modeHeight))
                && hasDuplication
                && limiter != null && fresh(limiter)
                && limiter.frequency == frameRate && limiter.performanceFrequency == performanceFrequency
                && limiter.calls == 0 && limiter.startTime == 0
      ensures texture == old(texture) && totalFrameCount == old(totalFrameCount)
    {
      screenId := config.video.screenId;
      frameRate := config.video.frameRate;
      captureCursor := config.video.captureCursor;
      if frameRate == 0 {
        return Threw("Frame rate must be greater than 0");
      }
      var created := CreateDeviceAndContext(gpu);
      if created.Threw? {
        return Threw(created.message);
      }
      device := Some(created.value);
      var duplicated := InitializeDuplication(probe);
      if duplicated.Fail? {
        return Threw(duplicated.message);
      }
      result := Ok(context.(d3Device := device, inputWidth := Some(modeWidth), inputHeight := Some(modeHeight)));
      limiter := new Limiter(frameRate, performanceFrequency);
    }

    /**
     * `process`, as `ProcessStep` says: the new duplication, texture and
     * frame count, the result, and one limiter call counted per pacing.
     * The clock is read at `now` for the pacing before a reacquisition, at
     * `acquireAt` for the timeout `AcquireNextFrame` is given, and at
     * `waitAt` for the pacing after it. `timeoutMs` is that timeout (`None`
     * when no frame is acquired) and `sleeps` the milliseconds slept, in order.
     */
    method Process(o: FrameOracle, now: int, acquireAt: int, waitAt: int)
      returns (result: Outcome<Token>, timeoutMs: Option<u32>, sleeps: seq<nat>)
      requires limiter != null && limiter.CanPace()
      modifies this, limiter
      ensures limiter == old(limiter) && device == old(device)
      ensures screenId == old(screenId) && frameRate == old(frameRate) && captureCursor == old(captureCursor)
      ensures var step := ProcessStep(old(Snapshot()), screenId, o);
              && Snapshot() == step.after
              && result == step.result
              && limiter.calls == U32(old(limiter.calls) + step.waits)
              && |sleeps| == step.waits
      ensures timeoutMs.Some? <==> old(hasDuplication) || DuplicationAttempt(o.reacquire, screenId) == Ok(true)
      ensures var f, tpm, t0, c0 := limiter.frequency, TicksPerMs(limiter.performanceFrequency),
                                    old(limiter.startTime), old(limiter.calls);
              if old(hasDuplication) then
                && timeoutMs == Some(U32(WaitAt(t0, c0, f, tpm, acquireAt).ms))
                && sleeps == [WaitAt(Anchor(t0, acquireAt), c0, f, tpm, waitAt).ms]
                && limiter.startTime == Anchor(Anchor(t0, acquireAt), waitAt)
              else
                && sleeps[0] == WaitAt(t0, c0, f, tpm, now).ms
                && (timeoutMs.None? ==> limiter.startTime == Anchor(t0, now))
                && (timeoutMs.Some? ==>
                      && timeoutMs == Some(U32(WaitAt(Anchor(t0, now), U32(c0 + 1), f, tpm, acquireAt).ms))
                      && sleeps[1] == WaitAt(Anchor(Anchor(t0, now), acquireAt), U32(c0 + 1), f, tpm, waitAt).ms
                      && limiter.startTime == Anchor(Anchor(Anchor(t0, now), acquireAt), waitAt))
    {
      ghost var calls0, s0 := limiter.calls, Snapshot();
      if !hasDuplication {
        var slept := limiter.Wait(now);
        sleeps := [slept.ms];
        var reacquired := InitializeDuplication(o.reacquire);
        if reacquired.Fail? {
          return Threw(reacquired.message), None, sleeps;
        }
        if !hasDuplication {
          totalFrameCount := U32(totalFrameCount + 1);
          return Ok(TextureToken(texture)), None, sleeps;
        }
        ghost var s1 := Snapshot();
        assert s1 == s0.(hasDuplication := true);
        ghost var acquired := AcquireStep(s1, o);
        assert ProcessStep(s0, screenId, o) == acquired.(waits := acquired.waits + 1);
        var timeout, sleptAfter;
        result, timeout, sleptAfter := Acquire(o, acquireAt, waitAt);
        timeoutMs := Some(timeout);
        sleeps := sleeps + [sleptAfter];
        assert limiter.calls == U32(calls0 as int + 2) by {
          U32Twice(calls0);
        }
      } else {
        ghost var acquired := AcquireStep(s0, o);
        assert ProcessStep(s0, screenId, o) == acquired;
        var timeout, sleptAfter;
        result, timeout, sleptAfter := Acquire(o, acquireAt, waitAt);
        timeoutMs := Some(timeout);
        sleeps := [sleptAfter];
      }
    }

    /**
     * The rest of `process`, from the acquire on, once a duplication is in
     * hand: `AcquireNextFrame` waits at most the limiter's current wait (cut
     * to the 32-bit `UINT` it takes), then the stage paces once more.
     */
    method Acquire(o: FrameOracle, acquireAt: int, waitAt: int) returns (result: Outcome<Token>, timeoutMs: u32, sleptMs: nat)
      requires hasDuplication && limiter != null && limiter.CanPace()
      modifies this, limiter
      ensures limiter == old(limiter) && device == old(device)
      ensures screenId == old(screenId) && frameRate == old(frameRate) && captureCursor == old(captureCursor)
      ensures var step := AcquireStep(old(Snapshot()), o);
              && Snapshot() == step.after
              && result == step.result
              && limiter.calls == U32(old(limiter.calls) + 1)
      ensures var f, tpm, t0, c0 := limiter.frequency, TicksPerMs(limiter.performanceFrequency),
                                    old(limiter.startTime), old(limiter.calls);
              && timeoutMs == U32(WaitAt(t0, c0, f, tpm, acquireAt).ms)
              && sleptMs == WaitAt(Anchor(t0, acquireAt), c0, f, tpm, waitAt).ms
              && limiter.startTime == Anchor(Anchor(t0, acquireAt), waitAt)
    {
      var timeout := limiter.GetWait(acquireAt);
      timeoutMs := U32(timeout.ms);
      var hr := o.acquireHr;
      totalFrameCount := U32(totalFrameCount + 1);
      var slept := limiter.Wait(waitAt);
      sleptMs := slept.ms;
      if hr < 0 {
        if hr == DxgiErrorWaitTimeout {
          return Ok(TextureToken(texture)), timeoutMs, sleptMs;
        } else if hr == DxgiErrorAccessLost || hr == DxgiErrorInvalidCall {
          hasDuplication := false;
          return Ok(TextureToken(texture)), timeoutMs, sleptMs;
        } else {
          var fatal := ThrowIfFail(hr, "AcquireNextFrame");
          return Threw(fatal.message), timeoutMs, sleptMs;
        }
      }
      var queried := ThrowIfFail(o.queryTextureHr, "Query texture");
      if queried.Fail? {
        return Threw(queried.message), timeoutMs, sleptMs;
      }
      if texture.None? {
        var createdTexture := ThrowIfFail(o.createTextureHr, "Create texture");
        if createdTexture.Fail? {
          return Threw(createdTexture.message), timeoutMs, sleptMs;
        }
        texture := Some(o.newTexture);
      }
      return Ok(Texture(texture.value)), timeoutMs, sleptMs;
    }

    /** `resume`: re-anchors the limiter, if there is one. */
    method Resume(now: int)
      modifies limiter
      ensures limiter != null ==> limiter.calls == 0 && limiter.startTime == now
    {
      if limiter != null {
        limiter.Reset(now);
      }
    }
  }
}
