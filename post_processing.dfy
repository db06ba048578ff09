/**
 * Post-processing (src/post-processing.ts): muxing the raw recordings with
 * ffmpeg and deleting them afterwards, either for one recording
 * (`doPostProcessing`) or for every recording left in a directory
 * (`postProcessDirectory`), grouped by the file name's prefix.
 *
 * The directory listing and the outcome of each ffmpeg run are oracles;
 * deleting a file is recorded in the list of deleted names. `path.join` is
 * the Windows separator between directory and name.
 */
module PostProcessing {
  import opened Text
  import opened Ffmpeg

  /** A raw recording: a ".h264" video or a ".wav" audio file. */
  predicate IsRecording(name: string)
  {
    EndsWith(name, ".h264") || EndsWith(name, ".wav")
  }

  /** `fileName.split(".")[0]`: the name up to its first dot. */
  function PrefixOf(name: string): string
  {
    Before(name, ".")
  }

  /** `path.join(dir, name)`. */
  function PathJoin(dir: string, name: string): string
  {
    dir + "\\" + name
  }

  function Paths(dir: string, names: seq<string>): (r: seq<string>)
    ensures |r| == |names| && forall i :: 0 <= i < |names| ==> r[i] == PathJoin(dir, names[i])
  {
    if |names| == 0 then [] else Paths(dir, names[..|names| - 1]) + [PathJoin(dir, names[|names| - 1])]
  }

  predicate NoDuplicates(xs: seq<string>)
  {
    forall i, j :: 0 <= i < j < |xs| ==> xs[i] != xs[j]
  }

  /**
   * The `reduce` of `postProcessDirectory`: each name's prefix, added when
   * it is not there yet.
   */
  function Prefixes(names: seq<string>): (r: seq<string>)
    ensures NoDuplicates(r)
    ensures forall p :: p in r <==> exists i :: 0 <= i < |names| && PrefixOf(names[i]) == p
  {
    if |names| == 0 then []
    else
      var a := Prefixes(names[..|names| - 1]);
      var p := PrefixOf(names[|names| - 1]);
      assert forall i :: 0 <= i < |names| - 1 ==> names[..|names| - 1][i] == names[i];
      if p in a then a else a + [p]
  }

  /**
   * Prefixes appear in the order of their first occurrence: the prefixes of
   * the first m names start the list of all of them.
   */
  lemma {:induction false} PrefixesInFirstOccurrenceOrder(names: seq<string>, m: nat)
    requires m <= |names|
    ensures var early := Prefixes(names[..m]);
            |early| <= |Prefixes(names)| && Prefixes(names)[..|early|] == early
    decreases |names| - m
  {
    if m < |names| {
      PrefixesInFirstOccurrenceOrder(names, m + 1);
      var step := names[..m + 1];
      assert step[..|step| - 1] == names[..m];
    } else {
      assert names[..m] == names;
    }
  }

  /** The group of a prefix as `postProcessDirectory` builds it: every name that starts with the prefix. */
  function GroupAsWritten(prefix: string, names: seq<string>): seq<string>
  {
    Filter(names, (x: string) => StartsWith(x, prefix))
  }

  /** The group of a prefix as intended: every name whose own prefix is that prefix. */
  function Group(prefix: string, names: seq<string>): seq<string>
  {
    Filter(names, (x: string) => PrefixOf(x) == prefix)
  }

  /**
   * With `startsWith`, the recording "ab" is also taken into the group of
   * "a", and so into two groups; the intended group of "a" holds "a.h264" only.
   */
  lemma AsWrittenGroupTakesLongerPrefixes()
    ensures GroupAsWritten("a", ["a.h264", "ab.wav"]) == ["a.h264", "ab.wav"]
    ensures "ab.wav" in GroupAsWritten("ab", ["a.h264", "ab.wav"])
    ensures Group("a", ["a.h264", "ab.wav"]) == ["a.h264"]
  {
    AsWrittenGroupOfA();
    assert StartsWith("ab.wav", "ab");
    IntendedGroupOfA();
  }

  lemma AsWrittenGroupOfA()
    ensures GroupAsWritten("a", ["a.h264", "ab.wav"]) == ["a.h264", "ab.wav"]
  {
    var names := ["a.h264", "ab.wav"];
    assert names[..1] == ["a.h264"];
    assert ["a.h264"][..0] == [];
    assert StartsWith(names[0], "a") && StartsWith(names[1], "a");
  }

  lemma IntendedGroupOfA()
    ensures Group("a", ["a.h264", "ab.wav"]) == ["a.h264"]
  {
    var names := ["a.h264", "ab.wav"];
    assert names[..1] == ["a.h264"];
    assert ["a.h264"][..0] == [];
    ExamplePrefixes();
  }

  lemma ExamplePrefixes()
    ensures PrefixOf("a.h264") == "a" && PrefixOf("ab.wav") == "ab"
  {
    var x, y := "a.h264", "ab.wav";
    assert OccursAt(x, ".", 1);
    assert x[0..1] == "a";
    assert OccursAt(y, ".", 2);
    assert y[0..1] == "a" && y[1..2] == "b";
  }

  /**
   * The intended groups partition the recordings: each name belongs to the
   * group of its own prefix, which is one of the prefixes, and to no other.
   */
  lemma GroupsPartition(names: seq<string>, x: string)
    requires x in names
    ensures PrefixOf(x) in Prefixes(names)
    ensures forall p :: x in Group(p, names) <==> p == PrefixOf(x)
  {
    var i :| 0 <= i < |names| && names[i] == x;
  }

  /** `doPostProcessing`'s clean-up: every non-empty input name, in order. */
  function Deletable(inputs: seq<string>): seq<string>
  {
    Filter(inputs, (x: string) => |x| > 0)
  }

  /**
   * `doPostProcessing`: runs ffmpeg over the inputs; only when it ends
   * without an error is every non-empty input deleted, in order.
   */
  method DoPostProcessing(installedPath: string, output: string, inputs: seq<string>, runError: Option<string>)
    returns (command: seq<Step>, error: Option<string>, deleted: seq<string>)
    ensures |command| >= 1 && InputsOf(command) == inputs && command[|command| - 1] == Output(output)
    ensures error == runError
    ensures runError.Some? ==> deleted == []
    ensures runError.None? ==> deleted == Deletable(inputs)
  {
    var binary;
    binary, command, error := Process(installedPath, output, inputs, runError);
    deleted := [];
    if error.Some? {
      return;
    }
    var k := 0;
    while k < |inputs|
      invariant 0 <= k <= |inputs|
      invariant deleted == Deletable(inputs[..k])
    {
      assert inputs[..k + 1][..k] == inputs[..k];
      if |inputs[k]| > 0 {
        deleted := deleted + [inputs[k]];
      }
      k := k + 1;
    }
    assert inputs[..k] == inputs;
  }

  /** One group's ffmpeg run: its output file and its inputs. */
  datatype Run = Run(output: string, inputs: seq<string>)

  /** The run of a prefix's group in `dir`, as `postProcessDirectory` builds it (with `GroupAsWritten`). */
  function RunFor(dir: string, prefix: string, recordings: seq<string>): Run
  {
    Run(PathJoin(dir, prefix + ".mp4"), Paths(dir, GroupAsWritten(prefix, recordings)))
  }

  /** The run of a prefix's group as intended, over the names of that prefix only. */
  function IntendedRunFor(dir: string, prefix: string, recordings: seq<string>): Run
  {
    Run(PathJoin(dir, prefix + ".mp4"), Paths(dir, Group(prefix, recordings)))
  }

  /** A name begins with its own prefix. */
  lemma PrefixStartsName(x: string)
    ensures StartsWith(x, PrefixOf(x))
  {
    match IndexOf(x, ".")
    case None =>
      assert PrefixOf(x) == x;
      assert x[..|x|] == x;
    case Some(i) =>
      assert PrefixOf(x) == x[..i];
      assert i <= |x| by {
        assert OccursAt(x, ".", i);
      }
  }

  /**
   * The runs `postProcessDirectory` makes take every recording of their
   * intended group and, besides, every recording whose name merely begins
   * with the prefix: a recording is an input of the run of each prefix it
   * begins with, and so of more than one run when one prefix begins another.
   */
  lemma {:induction false} AsWrittenRunsOverlap(dir: string, recordings: seq<string>, x: string, p: string)
    requires x in recordings
    ensures x in Group(p, recordings) ==> x in GroupAsWritten(p, recordings)
    ensures x in GroupAsWritten(p, recordings) <==> StartsWith(x, p)
    ensures StartsWith(x, p) ==> PathJoin(dir, x) in RunFor(dir, p, recordings).inputs
  {
    PrefixStartsName(x);
    if StartsWith(x, p) {
      var g := GroupAsWritten(p, recordings);
      var i :| 0 <= i < |g| && g[i] == x;
      assert Paths(dir, g)[i] == PathJoin(dir, x);
    }
  }

  /** The names the runs delete: the inputs of each run that ffmpeg completed, in run order. */
  function DeletedBy(runs: seq<Run>, outcome: nat -> Option<string>): seq<string>
  {
    if |runs| == 0 then []
    else
      var n := |runs| - 1;
      DeletedBy(runs[..n], outcome) + (if outcome(n).None? then Deletable(runs[n].inputs) else [])
  }

  /** The errors the first n runs log, in order. */
  function Logged(outcome: nat -> Option<string>, n: nat): seq<string>
  {
    if n == 0 then []
    else Logged(outcome, n - 1) + (if outcome(n - 1).Some? then [outcome(n - 1).value] else [])
  }

  /**
   * `postProcessDirectory`: one ffmpeg run per prefix of the recordings in
   * the listing, in first-occurrence order, each over its group's paths; a
   * failing run is logged and the loop goes on. `outcome(k)` is the error of
   * the k-th run, if it had one.
   */
  method PostProcessDirectory(installedPath: string, dir: string, listing: seq<string>, outcome: nat -> Option<string>)
    returns (runs: seq<Run>, deleted: seq<string>, logged: seq<string>)
    ensures var recordings := Filter(listing, IsRecording);
            var prefixes := Prefixes(recordings);
            && |runs| == |prefixes|
            && (forall k :: 0 <= k < |runs| ==> runs[k] == RunFor(dir, prefixes[k], recordings))
            && deleted == DeletedBy(runs, outcome)
            && logged == Logged(outcome, |runs|)
  {
    var fileNames := Filter(listing, IsRecording);
    var prefixes := Prefixes(fileNames);
    runs, deleted, logged := RunGroups(installedPath, dir, prefixes, fileNames, outcome);
  }

  /** The runs of the given prefixes, in order. */
  function RunsFor(dir: string, prefixes: seq<string>, recordings: seq<string>): (r: seq<Run>)
    ensures |r| == |prefixes|
  {
    if |prefixes| == 0 then []
    else RunsFor(dir, prefixes[..|prefixes| - 1], recordings) + [RunFor(dir, prefixes[|prefixes| - 1], recordings)]
  }

  /** The k-th of those runs is the run of the k-th prefix. */
  lemma {:induction false} RunsForAt(dir: string, prefixes: seq<string>, recordings: seq<string>, k: nat)
    requires k < |prefixes|
    ensures RunsFor(dir, prefixes, recordings)[k] == RunFor(dir, prefixes[k], recordings)
  {
    var n := |prefixes| - 1;
    var init := prefixes[..n];
    assert RunsFor(dir, prefixes, recordings) == RunsFor(dir, init, recordings) + [RunFor(dir, prefixes[n], recordings)];
    if k < n {
      RunsForAt(dir, init, recordings, k);
      assert init[k] == prefixes[k];
    }
  }

  /** One turn of the loop below: the next prefix's run extends the runs and what they delete. */
  lemma RunGroupsStep(dir: string, prefixes: seq<string>, recordings: seq<string>, k: nat, done: seq<Run>,
                      outcome: nat -> Option<string>)
    requires k < |prefixes| && done == RunsFor(dir, prefixes[..k], recordings)
    ensures var run := RunFor(dir, prefixes[k], recordings);
            && done + [run] == RunsFor(dir, prefixes[..k + 1], recordings)
            && DeletedBy(done + [run], outcome)
               == DeletedBy(done, outcome) + (if outcome(k).None? then Deletable(run.inputs) else [])
  {
    assert prefixes[..k + 1][..k] == prefixes[..k];
    var runs := done + [RunFor(dir, prefixes[k], recordings)];
    assert runs[..k] == done;
  }

  /** The loop of `postProcessDirectory`: one ffmpeg run per prefix, in order. */
  method RunGroups(installedPath: string, dir: string, prefixes: seq<string>, recordings: seq<string>,
                   outcome: nat -> Option<string>)
    returns (runs: seq<Run>, deleted: seq<string>, logged: seq<string>)
    ensures |runs| == |prefixes|
    ensures forall k :: 0 <= k < |runs| ==> runs[k] == RunFor(dir, prefixes[k], recordings)
    ensures deleted == DeletedBy(runs, outcome)
    ensures logged == Logged(outcome, |runs|)
  {
    runs, deleted, logged := [], [], [];
    var k := 0;
    while k < |prefixes|
      invariant 0 <= k <= |prefixes|
      invariant runs == RunsFor(dir, prefixes[..k], recordings)
      invariant deleted == DeletedBy(runs, outcome)
      invariant logged == Logged(outcome, k)
    {
      var run := RunFor(dir, prefixes[k], recordings);
      var command, error, gone := DoPostProcessing(installedPath, run.output, run.inputs, outcome(k));
      RunGroupsStep(dir, prefixes, recordings, k, runs, outcome);
      runs := runs + [run];
      if error.Some? {
        logged := logged + [error.value];
      } else {
        deleted := deleted + gone;
      }
      k := k + 1;
    }
    assert prefixes[..k] == prefixes;
    forall j | 0 <= j < |runs|
      ensures runs[j] == RunFor(dir, prefixes[j], recordings)
    {
      RunsForAt(dir, prefixes, recordings, j);
    }
  }

  /**
   * Every run completes its recordings' clean-up only for itself: a file
   * deleted by the directory pass is an input of a run whose ffmpeg ended
   * without an error.
   */
  lemma {:induction false} OnlySuccessfulRunsDelete(runs: seq<Run>, outcome: nat -> Option<string>, f: string)
    requires f in DeletedBy(runs, outcome)
    ensures exists k :: 0 <= k < |runs| && outcome(k).None? && f in runs[k].inputs && |f| > 0
  {
    var n := |runs| - 1;
    var rest := DeletedBy(runs[..n], outcome);
    if f in rest {
      OnlySuccessfulRunsDelete(runs[..n], outcome, f);
      var k :| 0 <= k < n && outcome(k).None? && f in runs[..n][k].inputs && |f| > 0;
      assert runs[..n][k] == runs[k];
    } else {
      assert outcome(n).None? && f in Deletable(runs[n].inputs);
    }
  }
}
