/**
 * The pipeline engine (src/native/pipeline.cpp, fields from pipeline.h): an
 * append-only list of stages, an idempotent `initialize`, one iteration of the
 * processing thread's loop (a "tick"), `stop` and the one-slot error mailbox
 * that `pollErrors` drains.
 *
 * What the stages themselves do is passed in as oracles: `init(i, ctx)` is
 * what stage i's `initialize` does to the context (or the exception it
 * throws) and `process(i, token)` is what stage i's `process` returns for a
 * token (or throws). The configuration is fixed for the pipeline's lifetime,
 * so an oracle may depend on it freely. Every stage call the engine makes is
 * appended to `trace`, which is how the ordering promises are stated.
 *
 * The processing thread, the mutex and the atomic flag are not modelled:
 * a tick is one loop iteration, and "the main thread holds the lock" is the
 * tick's `pausePending` input.
 */
module Engine {
  import opened Text
  import opened Common
  import opened Config
  import opened Stage

  type InitOracle = (nat, PipelineContext) -> Outcome<PipelineContext>
  type ProcessOracle = (nat, Token) -> Outcome<Token>

  /** The stage operations the engine calls, other than `process`. */
  datatype Op = InitializeOp | PauseOp | ResumeOp | ShutdownOp

  /** One call the engine makes on the stage at index `stage`. */
  datatype StageCall = Lifecycle(op: Op, stage: nat) | ProcessCall(stage: nat, input: Token)

  /** `op` called on stages 0, 1, ..., n - 1, in add order. */
  function Sweep(op: Op, n: nat): (r: seq<StageCall>)
    ensures |r| == n && forall i :: 0 <= i < n ==> r[i] == Lifecycle(op, i)
  {
    if n == 0 then [] else Sweep(op, n - 1) + [Lifecycle(op, n - 1)]
  }

  // ---------------------------------------------------------------------
  // initialize

  /**
   * How far an `initialize` sweep over the first n stages gets: how many
   * stages were called, the context as the last successful stage left it,
   * and the message of the exception that ended the sweep, if one did.
   */
  datatype InitRun = InitRun(ran: nat, context: PipelineContext, error: Option<string>)

  /** The sweep: each stage gets the context its predecessor left; the first exception ends it. */
  function InitFold(init: InitOracle, n: nat): (r: InitRun)
    ensures r.ran <= n
    ensures r.error.None? ==> r.ran == n
    ensures r.error.Some? ==> r.ran >= 1
  {
    if n == 0 then InitRun(0, EmptyContext, None)
    else
      var prev := InitFold(init, n - 1);
      if prev.error.Some? then prev
      else match init(n - 1, prev.context)
        case Ok(c) => InitRun(n, c, None)
        case Threw(m) => InitRun(n, prev.context, Some(m))
  }

  /** What `initialize` reports to its caller for a sweep. */
  function InitStatus(run: InitRun): Status
  {
    if run.error.Some? then Fail(run.error.value) else Pass
  }

  /** The sweep succeeds exactly when no stage throws on the context it is given. */
  lemma {:induction false} InitSucceedsIff(init: InitOracle, n: nat)
    ensures InitFold(init, n).error.None?
        <==> forall i :: 0 <= i < n ==> init(i, InitFold(init, i).context).Ok?
  {
    if n > 0 {
      InitSucceedsIff(init, n - 1);
    }
  }

  /** Once a stage has thrown, no later stage is initialized. */
  lemma {:induction false} InitStopsAtThrow(init: InitOracle, m: nat, n: nat)
    requires m <= n && InitFold(init, m).error.Some?
    ensures InitFold(init, n) == InitFold(init, m)
    decreases n - m
  {
    if m < n {
      InitStopsAtThrow(init, m, n - 1);
    }
  }

  /** The stage that ends a failed sweep is the last one called, and its exception is the one reported. */
  lemma {:induction false} InitReportsThrower(init: InitOracle, n: nat)
    requires InitFold(init, n).error.Some?
    ensures var r := InitFold(init, n);
            && InitFold(init, r.ran - 1).error.None?
            && init(r.ran - 1, InitFold(init, r.ran - 1).context) == Threw(r.error.value)
  {
    var prev := InitFold(init, n - 1);
    if prev.error.Some? {
      InitReportsThrower(init, n - 1);
    }
  }

  // ---------------------------------------------------------------------
  // one iteration of processingThreadMain

  /** The `process` calls of one tick and the message of the exception that ended it, if any. */
  datatype TickRun = TickRun(calls: seq<StageCall>, error: Option<string>)

  /**
   * The token chain from stage i on, given the token stage i receives: a null
   * output or an exception ends it.
   */
  function Chain(process: ProcessOracle, n: nat, i: nat, input: Token): TickRun
    requires i <= n
    decreases n - i
  {
    if i == n then TickRun([], None)
    else match process(i, input)
      case Threw(m) => TickRun([ProcessCall(i, input)], Some(m))
      case Ok(out) =>
        if out == NoOutput then TickRun([ProcessCall(i, input)], None)
        else
          var rest := Chain(process, n, i + 1, out);
          TickRun([ProcessCall(i, input)] + rest.calls, rest.error)
  }

  /** `calls` followed by the run `r`. */
  function Prepend(calls: seq<StageCall>, r: TickRun): TickRun
  {
    TickRun(calls + r.calls, r.error)
  }

  /**
   * The token loop of one iteration: the token starts null, each stage gets
   * the previous stage's output, and a null output or an exception ends it.
   */
  method RunChain(process: ProcessOracle, n: nat) returns (calls: seq<StageCall>, error: Option<string>)
    ensures TickRun(calls, error) == Chain(process, n, 0, NoOutput)
  {
    var data := NoOutput;
    calls := [];
    var i := 0;
    while i < n
      invariant 0 <= i <= n
      invariant Chain(process, n, 0, NoOutput) == Prepend(calls, Chain(process, n, i, data))
    {
      var outcome := process(i, data);
      ghost var before := calls;
      calls := calls + [ProcessCall(i, data)];
      if outcome.Threw? {
        assert Chain(process, n, i, data) == TickRun([ProcessCall(i, data)], Some(outcome.message));
        return calls, Some(outcome.message);
      }
      if outcome.value == NoOutput {
        assert Chain(process, n, i, data) == TickRun([ProcessCall(i, data)], None);
        return calls, None;
      }
      ghost var rest := Chain(process, n, i + 1, outcome.value);
      assert Chain(process, n, i, data) == TickRun([ProcessCall(i, data)] + rest.calls, rest.error);
      assert before + ([ProcessCall(i, data)] + rest.calls) == calls + rest.calls;
      data := outcome.value;
      i := i + 1;
    }
    return calls, None;
  }

  /** The stage notifications at the start of a tick: all pauses, then all resumes. */
  function Notifications(pausePending: bool, n: nat): seq<StageCall>
  {
    if pausePending then Sweep(PauseOp, n) + Sweep(ResumeOp, n) else []
  }

  /**
   * The shape of a tick: consecutive stages from i, the first receiving the
   * given token and each later one receiving its predecessor's output,
   * never a null one.
   */
  lemma {:induction false} ChainShape(process: ProcessOracle, n: nat, i: nat, input: Token)
    requires i <= n
    ensures var r := Chain(process, n, i, input);
            && |r.calls| <= n - i
            && (i < n ==> |r.calls| >= 1 && r.calls[0] == ProcessCall(i, input))
            && (forall k :: 0 <= k < |r.calls| ==> r.calls[k].ProcessCall? && r.calls[k].stage == i + k)
            && (forall k :: 0 < k < |r.calls| ==>
                  r.calls[k].input != NoOutput && process(i + k - 1, r.calls[k - 1].input) == Ok(r.calls[k].input))
    decreases n - i
  {
    if i < n && process(i, input).Ok? && process(i, input).value != NoOutput {
      var out := process(i, input).value;
      var rest := Chain(process, n, i + 1, out);
      ChainShape(process, n, i + 1, out);
      var r := Chain(process, n, i, input);
      assert r.calls == [ProcessCall(i, input)] + rest.calls;
      forall k | 0 < k < |r.calls|
        ensures r.calls[k].input != NoOutput && process(i + k - 1, r.calls[k - 1].input) == Ok(r.calls[k].input)
      {
        assert r.calls[k] == rest.calls[k - 1];
        if k == 1 {
          assert rest.calls[0] == ProcessCall(i + 1, out);
        } else {
          assert r.calls[k - 1] == rest.calls[k - 2];
        }
      }
    }
  }

  /**
   * How a tick ends: it ends in an error exactly when its last call threw
   * (with that message), and it ends early without an error only because
   * the last stage called returned the null token.
   */
  lemma {:induction false} ChainEnd(process: ProcessOracle, n: nat, i: nat, input: Token)
    requires i < n
    ensures var r := Chain(process, n, i, input);
            && |r.calls| >= 1
            && var last := r.calls[|r.calls| - 1];
            && last.ProcessCall?
            && (r.error.Some? <==> process(last.stage, last.input).Threw?)
            && (r.error.Some? ==> process(last.stage, last.input) == Threw(r.error.value))
            && (r.error.None? && last.stage < n - 1 ==> process(last.stage, last.input) == Ok(NoOutput))
    decreases n - i
  {
    var r := Chain(process, n, i, input);
    if process(i, input).Ok? && process(i, input).value != NoOutput && i + 1 < n {
      var out := process(i, input).value;
      ChainEnd(process, n, i + 1, out);
      var rest := Chain(process, n, i + 1, out);
      assert r.calls[|r.calls| - 1] == rest.calls[|rest.calls| - 1];
    }
  }

  /** When every stage always produces a token, every stage runs once per tick and no error arises. */
  lemma {:induction false} ChainRunsEveryStage(process: ProcessOracle, n: nat, i: nat, input: Token)
    requires i <= n
    requires forall j, t :: process(j, t).Ok? && process(j, t).value != NoOutput
    ensures |Chain(process, n, i, input).calls| == n - i
    ensures Chain(process, n, i, input).error.None?
    decreases n - i
  {
    if i < n {
      ChainRunsEveryStage(process, n, i + 1, process(i, input).value);
    }
  }

  /**
   * A three-stage pipeline whose middle stage has nothing to emit this tick
   * (an encoder still buffering): the last stage is not called.
   */
  lemma NullTokenSkipsLaterStages()
    ensures var process: ProcessOracle := (i: nat, t: Token) => if i == 0 then Ok(Texture(7)) else Ok(NoOutput);
            Chain(process, 3, 0, NoOutput) == TickRun([ProcessCall(0, NoOutput), ProcessCall(1, Texture(7))], None)
  {
    var process: ProcessOracle := (i: nat, t: Token) => if i == 0 then Ok(Texture(7)) else Ok(NoOutput);
    assert Chain(process, 3, 1, Texture(7)) == TickRun([ProcessCall(1, Texture(7))], None);
  }

  // ---------------------------------------------------------------------
  // the pipeline object

  class Pipeline {
    const config: PipelineConfig
    var stages: seq<StageKind>
    var initialized: bool
    var processingError: string
    var paused: bool
    /** Whether the processing thread is running its loop. */
    var threadRunning: bool
    /** The stage list the processing thread was handed, by value, when it started. */
    var running: seq<StageKind>
    /** Every call the pipeline has made on its stages, in order. */
    var trace: seq<StageCall>

    constructor (config: PipelineConfig)
      ensures this.config == config
      ensures stages == [] && !initialized && processingError == "" && !paused && !threadRunning && trace == []
      ensures running == []
    {
      this.config := config;
      stages := [];
      initialized := false;
      processingError := "";
      paused := false;
      threadRunning := false;
      running := [];
      trace := [];
    }

    /** `addStage`: one stage of the requested kind, at the end. */
    method AddStage(kind: StageKind)
      modifies this`stages
      ensures stages == old(stages) + [kind]
    {
      stages := stages + [kind];
    }

    /**
     * `supportsStage`: probes a throwaway instance of the kind. Kinds that
     * keep the default `isSupported` are always supported; the two hardware
     * encoders answer from `hardwarePresent`. The pipeline is not changed.
     */
    method SupportsStage(kind: StageKind, hardwarePresent: StageKind -> bool) returns (supported: bool)
      ensures supported <==> (OverridesIsSupported(kind) ==> hardwarePresent(kind))
      ensures supported == false ==> kind in {Nvenc, Amf}
    {
      if OverridesIsSupported(kind) {
        supported := hardwarePresent(kind);
      } else {
        supported := true;
      }
    }

    /**
     * `initialize`: nothing happens once it has succeeded. Otherwise each
     * stage's `initialize` runs in add order on one shared context, and the
     * pipeline counts as initialized only when none threw.
     */
    method Initialize(init: InitOracle) returns (status: Status)
      modifies this`initialized, this`trace
      ensures old(initialized) ==> status == Pass && initialized && trace == old(trace)
      ensures !old(initialized) ==>
                var run := InitFold(init, |stages|);
                && status == InitStatus(run)
                && initialized == run.error.None?
                && trace == old(trace) + Sweep(InitializeOp, run.ran)
    {
      if initialized {
        return Pass;
      }
      var context := EmptyContext;
      var i := 0;
      while i < |stages|
        invariant 0 <= i <= |stages|
        invariant InitFold(init, i) == InitRun(i, context, None)
        invariant trace == old(trace) + Sweep(InitializeOp, i)
        invariant !initialized
      {
        var outcome := init(i, context);
        trace := trace + [Lifecycle(InitializeOp, i)];
        if outcome.Threw? {
          InitStopsAtThrow(init, i + 1, |stages|);
          return Fail(outcome.message);
        }
        context := outcome.value;
        i := i + 1;
      }
      initialized := true;
      return Pass;
    }

    /**
     * `start`: initializes (an exception propagates and no thread starts),
     * then starts the thread on a copy of the current stage list.
     */
    method Start(init: InitOracle) returns (status: Status)
      modifies this`initialized, this`trace, this`threadRunning, this`running
      ensures old(initialized) ==> status == Pass && trace == old(trace)
      ensures !old(initialized) ==>
                var run := InitFold(init, |stages|);
                && status == InitStatus(run)
                && initialized == run.error.None?
                && trace == old(trace) + Sweep(InitializeOp, run.ran)
      ensures old(initialized) ==> initialized
      ensures status.Pass? ==> initialized && threadRunning && running == stages
      ensures status.Fail? ==> threadRunning == old(threadRunning) && running == old(running)
    {
      status := Initialize(init);
      if status.Pass? {
        threadRunning := true;
        running := stages;
      }
    }

    /**
     * One iteration of the processing loop, over the thread's own copy of the
     * stage list: stages added after `start` are not visited. With a pause
     * pending every stage is paused, then every stage resumed, before any
     * `process`. The token starts null and follows `Chain`; an exception
     * becomes the stored error and ends the loop.
     */
    method Tick(pausePending: bool, process: ProcessOracle)
      requires threadRunning
      modifies this`trace, this`processingError, this`threadRunning
      ensures var run := Chain(process, |running|, 0, NoOutput);
              && trace == old(trace) + Notifications(pausePending, |running|) + run.calls
              && (run.error.Some? ==> processingError == run.error.value && !threadRunning)
              && (run.error.None? ==> processingError == old(processingError) && threadRunning)
    {
      if pausePending {
        Notify(PauseOp, |running|);
        Notify(ResumeOp, |running|);
      }
      var calls, error := RunChain(process, |running|);
      trace := trace + calls;
      if error.Some? {
        processingError := error.value;
        threadRunning := false;
      }
    }

    /** `op` on each of the first `count` stages, in add order. */
    method Notify(op: Op, count: nat)
      modifies this`trace
      ensures trace == old(trace) + Sweep(op, count)
    {
      var k := 0;
      while k < count
        invariant 0 <= k <= count
        invariant trace == old(trace) + Sweep(op, k)
      {
        trace := trace + [Lifecycle(op, k)];
        k := k + 1;
      }
    }

    /** `pause`: the main thread takes the processing lock. */
    method Pause()
      modifies this`paused
      ensures paused
    {
      paused := true;
    }

    /** `resume`: the main thread releases the processing lock. */
    method Resume()
      modifies this`paused
      ensures !paused
    {
      paused := false;
    }

    /**
     * `stop`: ends the processing loop, then shuts every stage of the live
     * list down once, in add order (stages added after `start` included).
     */
    method Stop()
      modifies this`trace, this`threadRunning
      ensures !threadRunning
      ensures trace == old(trace) + Sweep(ShutdownOp, |stages|)
    {
      threadRunning := false;
      Notify(ShutdownOp, |stages|);
    }

    /** `pollErrors`: the stored error, if there is one, and the mailbox is emptied. */
    method PollErrors() returns (errors: seq<string>)
      modifies this`processingError
      ensures old(processingError) == "" ==> errors == []
      ensures old(processingError) != "" ==> errors == [old(processingError)]
      ensures processingError == ""
    {
      errors := [];
      if |processingError| > 0 {
        errors := errors + [processingError];
        processingError := "";
      }
    }
  }

  /**
   * A stage added after `start` is not part of the running loop: with one
   * stage added, the pipeline started and a second stage added, an
   * iteration calls only the first stage, while `stop` shuts down both.
   */
  method LateStageIsNotRun(config: PipelineConfig, first: StageKind, late: StageKind,
                           init: InitOracle, process: ProcessOracle, pausePending: bool)
    returns (tick: seq<StageCall>, shutdown: seq<StageCall>)
    requires init(0, EmptyContext).Ok?
    ensures 1 <= |tick|
    ensures forall c :: c in tick ==> c.stage == 0
    ensures shutdown == [Lifecycle(ShutdownOp, 0), Lifecycle(ShutdownOp, 1)]
  {
    var p := new Pipeline(config);
    p.AddStage(first);
    var status := p.Start(init);
    assert InitFold(init, 1) == InitRun(1, init(0, EmptyContext).value, None);
    p.AddStage(late);
    var before := p.trace;
    p.Tick(pausePending, process);
    ChainShape(process, 1, 0, NoOutput);
    tick := p.trace[|before|..];
    var started := p.trace;
    p.Stop();
    shutdown := p.trace[|started|..];
    assert Sweep(ShutdownOp, 2) == Sweep(ShutdownOp, 1) + [Lifecycle(ShutdownOp, 1)];
  }

  /** Polling twice in a row: the second call always finds the mailbox empty. */
  method PollTwice(p: Pipeline) returns (first: seq<string>, second: seq<string>)
    modifies p
    ensures |first| <= 1 && second == []
  {
    first := p.PollErrors();
    second := p.PollErrors();
  }
}
