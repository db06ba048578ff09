/**
 * The file writer stage (src/native/stages/file-writer-stage.cpp, fields from
 * file-writer-stage.h): the sink of the video pipeline, which writes every
 * encoded packet it is given to the output file as it is.
 *
 * The file is the sequence of bytes written to it; `fopen_s` is an oracle
 * reporting its error number.
 */
module FileWriter {
  import opened Text
  import opened Common
  import opened Config
  import opened Stage

  class FileWriterStage {
    /** `file != nullptr`. */
    var isOpen: bool
    var fileName: string
    /** The bytes written to the file so far. */
    var contents: seq<byte>
    /** How many times `fclose` has run. */
    var closes: nat

    /** The member initialiser of file-writer-stage.h: no file. */
    constructor ()
      ensures !isOpen && contents == [] && closes == 0
    {
      isOpen := false;
      fileName := "";
      contents := [];
      closes := 0;
    }

    /** `initialize`: opens the configured file for writing, empty; fatal with the error number when that fails. */
    method Initialize(config: PipelineConfig, openError: u32) returns (status: Status)
      modifies this`isOpen, this`fileName, this`contents
      ensures fileName == config.output.fileName && contents == []
      ensures openError != 0 ==> status == Fail("Failed to open file, error code=" + Decimal(openError)) && !isOpen
      ensures openError == 0 ==> status == Pass && isOpen
    {
      fileName := config.output.fileName;
      contents := [];
      if openError != 0 {
        isOpen := false;
        return Fail("Failed to open file, error code=" + Decimal(openError));
      }
      isOpen := true;
      status := Pass;
    }

    /** `process`: appends the token's `size` bytes verbatim and has no output. */
    method Process(input: Token) returns (result: Token)
      requires isOpen && input.Buffer? && input.data.Readable()
      modifies this`contents
      ensures contents == old(contents) + input.data.Payload()
      ensures result == NoOutput
    {
      contents := contents + input.data.rawData[..input.data.size];
      result := NoOutput;
    }

    /** `shutdown`: flushes and closes the file if one is open. */
    method Shutdown()
      modifies this`closes
      ensures closes == old(closes) + (if isOpen then 1 else 0)
    {
      if isOpen {
        closes := closes + 1;
      }
    }
  }

  /** The file after a run of `process` calls holds every payload, in order, and nothing else. */
  method WriteAll(stage: FileWriterStage, tokens: seq<DataAndSize>)
    requires stage.isOpen && forall i :: 0 <= i < |tokens| ==> tokens[i].Readable()
    modifies stage
    ensures stage.contents == old(stage.contents) + Payloads(tokens)
  {
    var i := 0;
    while i < |tokens|
      invariant 0 <= i <= |tokens|
      invariant stage.isOpen
      invariant stage.contents == old(stage.contents) + Payloads(tokens[..i])
    {
      var out := stage.Process(Buffer(tokens[i]));
      assert tokens[..i + 1][..i] == tokens[..i];
      i := i + 1;
    }
    assert tokens[..i] == tokens;
  }
}
