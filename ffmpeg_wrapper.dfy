/**
 * The ffmpeg wrapper (src/ffmpeg-wrapper.ts): locates the ffmpeg binary and
 * builds the fluent-ffmpeg command that muxes the recorded video and audio
 * files into one output.
 *
 * The command is the list of builder calls made on it, in order. Running
 * ffmpeg is an oracle: whether it emitted "end" or "error" (with a message).
 */
module Ffmpeg {
  import opened Text

  const Asar: string := "app.asar"
  const UnpackedAsar: string := "app.asar.unpacked"

  /**
   * The path of the installed binary with its first "app.asar" replaced by
   * "app.asar.unpacked": inside a packaged Electron app the binary lives in
   * the unpacked copy of the archive.
   */
  function FfmpegPath(installedPath: string): string
  {
    ReplaceFirst(installedPath, Asar, UnpackedAsar)
  }

  /**
   * A path that names no archive is used as it is; otherwise the text before
   * the first "app.asar" is kept, that occurrence becomes "app.asar.unpacked",
   * and the rest follows unchanged.
   */
  lemma FfmpegPathRewritesFirstArchive(installedPath: string)
    ensures !Contains(installedPath, Asar) ==> FfmpegPath(installedPath) == installedPath
    ensures Contains(installedPath, Asar) ==>
              var i := IndexOf(installedPath, Asar).value;
              && FfmpegPath(installedPath) == installedPath[..i] + UnpackedAsar + installedPath[i + |Asar|..]
              && !Contains(installedPath[..i], Asar)
  {
    if Contains(installedPath, Asar) {
      var i := IndexOf(installedPath, Asar).value;
      var pre := installedPath[..i];
      forall j: nat
        ensures !OccursAt(pre, Asar, j)
      {
        if j + |Asar| <= |pre| {
          assert pre[j..j + |Asar|] == installedPath[j..j + |Asar|];
          assert !OccursAt(installedPath, Asar, j);
        }
      }
    }
  }

  /** Where "app.asar.unpacked" occurs, "app.asar" occurs too. */
  lemma UnpackedNamesArchive(s: string, j: nat)
    requires OccursAt(s, UnpackedAsar, j)
    ensures OccursAt(s, Asar, j)
  {
    assert s[j..j + |UnpackedAsar|][..|Asar|] == s[j..j + |Asar|];
  }

  /** In `pre + "app.asar.unpacked" + post`, with no archive in `pre`, nothing earlier is "app.asar.unpacked". */
  lemma NoEarlierUnpacked(pre: string, post: string, k: nat)
    requires !Contains(pre, Asar) && k < |pre|
    ensures !OccursAt(pre + UnpackedAsar + post, UnpackedAsar, k)
  {
    var r := pre + UnpackedAsar + post;
    var i := |pre|;
    assert r[k..k + |UnpackedAsar|][..|Asar|] == r[k..k + |Asar|];
    if k + |Asar| <= i {
      assert r[k..k + |Asar|] == pre[k..k + |Asar|];
      assert !OccursAt(pre, Asar, k);
    } else {
      var w := r[k..k + |UnpackedAsar|];
      assert r[i] == 'a' && r[i + 1] == 'p';
      assert w[i - k] == r[i] && w[i - k + 1] == r[i + 1];
      assert !(UnpackedAsar[i - k] == 'a' && UnpackedAsar[i - k + 1] == 'p');
    }
  }

  /**
   * The rewrite loses nothing: turning the first "app.asar.unpacked" of the
   * rewritten path back into "app.asar" gives the installed path again.
   */
  lemma FfmpegPathRoundTrip(installedPath: string)
    ensures ReplaceFirst(FfmpegPath(installedPath), UnpackedAsar, Asar) == installedPath
  {
    FfmpegPathRewritesFirstArchive(installedPath);
    if !Contains(installedPath, Asar) {
      forall j: nat | OccursAt(installedPath, UnpackedAsar, j)
        ensures OccursAt(installedPath, Asar, j)
      {
        UnpackedNamesArchive(installedPath, j);
      }
    } else {
      var i := IndexOf(installedPath, Asar).value;
      var pre, post := installedPath[..i], installedPath[i + |Asar|..];
      var r := pre + UnpackedAsar + post;
      assert r[i..i + |UnpackedAsar|] == UnpackedAsar;
      assert OccursAt(r, UnpackedAsar, i);
      var k := IndexOf(r, UnpackedAsar).value;
      if k < i {
        NoEarlierUnpacked(pre, post, k);
      }
      assert r[..i] == pre && r[i + |UnpackedAsar|..] == post;
      assert pre + Asar + post == installedPath;
    }
  }

  /** One builder call on the fluent-ffmpeg command. */
  datatype Step = Input(file: string) | VideoCodec(codec: string) | ComplexFilter(filter: string) | Output(file: string)

  /** `.input(f).videoCodec("copy")` for every input, in order. */
  function InputSteps(inputs: seq<string>): (r: seq<Step>)
    ensures |r| == 2 * |inputs|
  {
    if |inputs| == 0 then [] else InputSteps(inputs[..|inputs| - 1]) + [Input(inputs[|inputs| - 1]), VideoCodec("copy")]
  }

  /** The files a command reads, in the order its `input` calls name them. */
  function InputsOf(steps: seq<Step>): seq<string>
  {
    if |steps| == 0 then []
    else InputsOf(steps[..|steps| - 1]) + (if steps[|steps| - 1].Input? then [steps[|steps| - 1].file] else [])
  }

  /** The number of inputs ending in ".wav". */
  function AudioInputCount(inputs: seq<string>): (n: nat)
    ensures n <= |inputs|
  {
    if |inputs| == 0 then 0
    else AudioInputCount(inputs[..|inputs| - 1]) + (if EndsWith(inputs[|inputs| - 1], ".wav") then 1 else 0)
  }

  /** The audio mixing filter for n audio inputs. */
  function AmixFilter(n: nat): string
  {
    "amix=inputs=" + Decimal(n)
  }

  /**
   * The command `process` builds: every input followed by a video-codec "copy" step,
   * then an audio mix of all ".wav" inputs when there is more than one, then
   * the output.
   */
  method BuildCommand(output: string, inputs: seq<string>) returns (command: seq<Step>)
    ensures var n := AudioInputCount(inputs);
            command == InputSteps(inputs) + (if n > 1 then [ComplexFilter(AmixFilter(n))] else []) + [Output(output)]
  {
    command := [];
    var k := 0;
    while k < |inputs|
      invariant 0 <= k <= |inputs|
      invariant command == InputSteps(inputs[..k])
    {
      assert inputs[..k + 1][..k] == inputs[..k];
      command := command + [Input(inputs[k])];
      command := command + [VideoCodec("copy")];
      k := k + 1;
    }
    assert inputs[..k] == inputs;
    var numAudioInputs := AudioInputCount(inputs);
    if numAudioInputs > 1 {
      command := command + [ComplexFilter("amix=inputs=" + Decimal(numAudioInputs))];
    }
    command := command + [Output(output)];
  }

  lemma {:induction false} InputsOfAppend(a: seq<Step>, b: seq<Step>)
    ensures InputsOf(a + b) == InputsOf(a) + InputsOf(b)
    decreases |b|
  {
    if |b| == 0 {
      assert a + b == a;
    } else {
      assert (a + b)[..|a + b| - 1] == a + b[..|b| - 1];
      InputsOfAppend(a, b[..|b| - 1]);
    }
  }

  /** The input steps read back as exactly the input files, in order. */
  lemma {:induction false} InputStepsReadBack(inputs: seq<string>)
    ensures InputsOf(InputSteps(inputs)) == inputs
    decreases |inputs|
  {
    if |inputs| > 0 {
      var init := inputs[..|inputs| - 1];
      var last := inputs[|inputs| - 1];
      InputStepsReadBack(init);
      InputsOfAppend(InputSteps(init), [Input(last), VideoCodec("copy")]);
      assert InputsOf([Input(last), VideoCodec("copy")]) == [last] by {
        assert [Input(last), VideoCodec("copy")][..1] == [Input(last)];
        assert InputsOf([Input(last)]) == [last] by {
          assert [Input(last)][..0] == [];
        }
      }
      assert inputs == init + [last];
    }
  }

  /**
   * Every input step is followed by a `videoCodec("copy")` step. In
   * fluent-ffmpeg that sets the output's video codec only: the video stream is
   * copied, while the audio is still encoded for the ".mp4" output.
   */
  lemma {:induction false} EveryInputIsCopied(inputs: seq<string>)
    ensures forall i :: 0 <= i < |inputs| ==>
              InputSteps(inputs)[2 * i] == Input(inputs[i]) && InputSteps(inputs)[2 * i + 1] == VideoCodec("copy")
    decreases |inputs|
  {
    if |inputs| > 0 {
      var init := inputs[..|inputs| - 1];
      EveryInputIsCopied(init);
      forall i | 0 <= i < |inputs|
        ensures InputSteps(inputs)[2 * i] == Input(inputs[i]) && InputSteps(inputs)[2 * i + 1] == VideoCodec("copy")
      {
        if i < |init| {
          assert InputSteps(inputs)[2 * i] == InputSteps(init)[2 * i];
          assert InputSteps(inputs)[2 * i + 1] == InputSteps(init)[2 * i + 1];
        }
      }
    }
  }

  /**
   * The command reads exactly the given files in order, writes the output
   * last, and mixes audio exactly when more than one ".wav" file is given.
   */
  lemma {:induction false} CommandShape(output: string, inputs: seq<string>)
    ensures var n := AudioInputCount(inputs);
            var command := InputSteps(inputs) + (if n > 1 then [ComplexFilter(AmixFilter(n))] else []) + [Output(output)];
            && InputsOf(command) == inputs
            && command[|command| - 1] == Output(output)
            && (forall i :: 0 <= i < |command| - 1 ==> !command[i].Output?)
            && ((exists i :: 0 <= i < |command| && command[i].ComplexFilter?) <==> n > 1)
  {
    var n := AudioInputCount(inputs);
    var mix: seq<Step> := if n > 1 then [ComplexFilter(AmixFilter(n))] else [];
    NoInputsIn(mix);
    CommandReadsInputs(output, inputs, mix);
    CommandSteps(output, inputs, mix);
  }

  /** The inputs named by the command are the inputs, when the steps after them name none. */
  lemma CommandReadsInputs(output: string, inputs: seq<string>, mix: seq<Step>)
    requires InputsOf(mix) == []
    ensures InputsOf(InputSteps(inputs) + mix + [Output(output)]) == inputs
  {
    var steps, last: seq<Step> := InputSteps(inputs), [Output(output)];
    calc {
      InputsOf(steps + mix + last);
    == { InputsOfAppend(steps + mix, last); }
      InputsOf(steps + mix) + InputsOf(last);
    == { InputsOfAppend(steps, mix); }
      InputsOf(steps) + InputsOf(mix) + InputsOf(last);
    == { InputStepsReadBack(inputs); NoInputsIn(last); }
      inputs;
    }
  }

  /** Steps that are not input steps name no input. */
  lemma {:induction false} NoInputsIn(steps: seq<Step>)
    requires forall i :: 0 <= i < |steps| ==> !steps[i].Input?
    ensures InputsOf(steps) == []
    decreases |steps|
  {
    if |steps| > 0 {
      NoInputsIn(steps[..|steps| - 1]);
    }
  }

  /** Only the last step of the command is an output, and a filter appears exactly when one is mixed in. */
  lemma CommandSteps(output: string, inputs: seq<string>, mix: seq<Step>)
    requires mix == [] || (|mix| == 1 && mix[0].ComplexFilter?)
    ensures var command := InputSteps(inputs) + mix + [Output(output)];
            && command[|command| - 1] == Output(output)
            && (forall i :: 0 <= i < |command| - 1 ==> !command[i].Output?)
            && ((exists i :: 0 <= i < |command| && command[i].ComplexFilter?) <==> |mix| == 1)
  {
    var command := InputSteps(inputs) + mix + [Output(output)];
    EveryInputIsCopied(inputs);
    forall i | 0 <= i < |command| - 1
      ensures !command[i].Output? && (command[i].ComplexFilter? ==> |mix| == 1)
    {
      if i < |InputSteps(inputs)| {
        var j := i / 2;
        assert i == 2 * j || i == 2 * j + 1;
      }
    }
    if |mix| == 1 {
      assert command[|InputSteps(inputs)|].ComplexFilter?;
    }
  }

  /** Two recorded audio sources are mixed into one track: "amix=inputs=2". */
  lemma TwoAudioSourcesAreMixed()
    ensures AudioInputCount(["r.h264", "r.render.wav", "r.capture.wav"]) == 2
    ensures AmixFilter(2) == "amix=inputs=2"
  {
    var inputs := ["r.h264", "r.render.wav", "r.capture.wav"];
    assert inputs[..2][..1] == ["r.h264"];
    assert !EndsWith(inputs[0], ".wav");
    assert EndsWith(inputs[1], ".wav");
    assert EndsWith(inputs[2], ".wav");
    assert inputs[..2] == ["r.h264", "r.render.wav"];
    assert ["r.h264"][..0] == [];
  }

  /** `process`: builds the command on the rewritten binary path and settles with ffmpeg's outcome. */
  method Process(installedPath: string, output: string, inputs: seq<string>, runError: Option<string>)
    returns (binary: string, command: seq<Step>, error: Option<string>)
    ensures binary == FfmpegPath(installedPath)
    ensures |command| >= 1 && InputsOf(command) == inputs && command[|command| - 1] == Output(output)
    ensures error == runError
  {
    binary := ReplaceFirst(installedPath, Asar, UnpackedAsar);
    command := BuildCommand(output, inputs);
    CommandShape(output, inputs);
    error := runError;
  }
}
