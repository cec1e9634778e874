/**
 * The scriber package (scriber.go): input validation, output file naming,
 * and `Process`, which reads an input, converts it to WAV, transcribes it
 * and publishes one `Output` on a buffered results channel.
 */
module Scriber {
  import opened Wrappers
  import opened Errors
  import opened GoStd

  newtype byte = b: int | 0 <= b < 256

  const OutputTypeSubtitles: string := "subtitles"
  const OutputTypeTranscript: string := "transcript"

  /** The keys of `supportedOutputTypes`. */
  const SupportedOutputTypes: set<string> := {OutputTypeSubtitles, OutputTypeTranscript}

  /** The buffer size `New` gives the results channel. */
  const ResultsCapacity: nat := 10

  /** The result of processing one input file. */
  datatype Output = Output(name: string, text: seq<byte>)

  /**
   * A Go error value as `Process` builds it: an underlying cause, or a cause
   * wrapped by `fmt.Errorf("<context>: %w", cause)`.
   */
  datatype Error = Cause(msg: string) | Wrapped(context: string, inner: Error) {

    /** `err.Error()`: a wrapped error prints its context, ": " and its cause. */
    function Message(): string {
      match this
      case Cause(m) => m
      case Wrapped(c, i) => c + ": " + i.Message()
    }

    /** `errors.Is(this, target)`: target is this error or found by unwrapping. */
    predicate Is(target: Error) {
      this == target || (Wrapped? && inner.Is(target))
    }
  }

  /**
   * The `io.ReadCloser` of an input. `pending` is what `io.ReadAll` returns on
   * it now: the bytes up to end of input, or the error the reader stops with.
   * `closes` counts the calls to `Close`.
   */
  class ReadCloser {
    var pending: Result<seq<byte>, Error>
    ghost var closes: nat

    constructor (contents: Result<seq<byte>, Error>)
      ensures pending == contents && closes == 0
    {
      pending := contents;
      closes := 0;
    }

    /**
     * `io.ReadAll(r)`: reads until end of input or the first error. After a
     * successful read the reader is at end of input, so reading it again
     * gives no bytes; it does not close the reader.
     */
    method ReadAll() returns (r: Result<seq<byte>, Error>)
      modifies this
      ensures r == old(pending)
      ensures pending == if r.Success? then Success([]) else r
      ensures closes == old(closes)
    {
      r := pending;
      if r.Success? {
        pending := Success([]);
      }
    }

    /** `r.Close()`; its error is discarded by the deferred call. */
    method Close()
      modifies this
      ensures closes == old(closes) + 1 && pending == old(pending)
    {
      closes := closes + 1;
    }
  }

  /** An input file to process; `data == null` is a nil `io.ReadCloser`. */
  datatype Input = Input(name: string, outputType: string, language: string, data: ReadCloser?)

  /** `Input.validate`: five checks in a fixed order, the first failure wins. */
  function Validate(i: Input): (r: Option<ValidationError>)
    ensures r.None? <==>
      i.name != "" && Ext(i.name) != "" && i.outputType in SupportedOutputTypes
      && i.language != "" && i.data != null
    ensures r == Some(ErrNameRequired) <==> i.name == ""
    ensures r == Some(ErrExtRequired) <==> i.name != "" && Ext(i.name) == ""
    ensures r == Some(ErrOutputType) <==>
      i.name != "" && Ext(i.name) != "" && i.outputType !in SupportedOutputTypes
    ensures r == Some(ErrLanguage) <==>
      i.name != "" && Ext(i.name) != "" && i.outputType in SupportedOutputTypes && i.language == ""
    ensures r == Some(ErrData) <==>
      i.name != "" && Ext(i.name) != "" && i.outputType in SupportedOutputTypes
      && i.language != "" && i.data == null
  {
    if i.name == "" then Some(ErrNameRequired)
    else if Ext(i.name) == "" then Some(ErrExtRequired)
    else if i.outputType !in SupportedOutputTypes then Some(ErrOutputType)
    else if i.language == "" then Some(ErrLanguage)
    else if i.data == null then Some(ErrData)
    else None
  }

  /**
   * The extension check in terms of the name's characters: a non-empty name
   * is refused for its extension exactly when its last path element has no dot.
   */
  lemma ValidateExtRequired(i: Input)
    ensures Validate(i) == Some(ErrExtRequired) <==>
      i.name != "" && forall k :: 0 <= k < |i.name| ==> !IsExtStart(i.name, k)
  {
    ExtSpec(i.name);
  }

  /**
   * An input violating exactly one requirement yields that requirement's
   * error, whatever the order of the checks.
   */
  lemma ValidateSingleDefect(i: Input)
    ensures i.name == "" && i.outputType in SupportedOutputTypes && i.language != "" && i.data != null
      ==> Validate(i) == Some(ErrNameRequired)
    ensures i.name != "" && Ext(i.name) == "" && i.outputType in SupportedOutputTypes
      && i.language != "" && i.data != null
      ==> Validate(i) == Some(ErrExtRequired)
    ensures i.name != "" && Ext(i.name) != "" && i.outputType !in SupportedOutputTypes
      && i.language != "" && i.data != null
      ==> Validate(i) == Some(ErrOutputType)
    ensures i.name != "" && Ext(i.name) != "" && i.outputType in SupportedOutputTypes
      && i.language == "" && i.data != null
      ==> Validate(i) == Some(ErrLanguage)
    ensures i.name != "" && Ext(i.name) != "" && i.outputType in SupportedOutputTypes
      && i.language != "" && i.data == null
      ==> Validate(i) == Some(ErrData)
  {
  }

  /** The cases of the package's validation tests. */
  lemma ValidateExamples(d: ReadCloser)
    ensures Validate(Input("test.mp4", OutputTypeSubtitles, "en", d)) == None
    ensures Validate(Input("", OutputTypeSubtitles, "en", d)) == Some(ErrNameRequired)
    ensures Validate(Input("test", OutputTypeSubtitles, "en", d)) == Some(ErrExtRequired)
    ensures Validate(Input("test.mp4", "unsupported", "en", d)) == Some(ErrOutputType)
    ensures Validate(Input("test.mp4", OutputTypeSubtitles, "", d)) == Some(ErrLanguage)
    ensures Validate(Input("test.mp4", OutputTypeSubtitles, "en", null)) == Some(ErrData)
  {
    ExtExamples();
    assert Ext("test.mp4") == ".mp4" by {
      assert ExtScan("test.mp4", 8) == ExtScan("test.mp4", 7) == ExtScan("test.mp4", 6)
        == ExtScan("test.mp4", 5) == "test.mp4"[4..];
    }
    assert Ext("test") == "" by {
      assert ExtScan("test", 4) == ExtScan("test", 3) == ExtScan("test", 2)
        == ExtScan("test", 1) == ExtScan("test", 0);
    }
  }

  /** The extension `generateOutputFileName` puts in: ".txt" for transcripts, ".srt" for any other type. */
  function OutputExt(outType: string): (ext: string)
    ensures ext == ".txt" <==> outType == OutputTypeTranscript
    ensures ext == ".srt" <==> outType != OutputTypeTranscript
  {
    if outType == OutputTypeTranscript then ".txt" else ".srt"
  }

  /** `generateOutputFileName`: the first occurrence of the name's extension is replaced. */
  function OutputFileName(filename: string, outType: string): string {
    ReplaceFirst(filename, Ext(filename), OutputExt(outType))
  }

  /**
   * The output name is the input name with the FIRST occurrence of its
   * extension replaced; that occurrence is never after the final one, and
   * with no extension the new one is put in front of the name.
   */
  lemma OutputFileNameSpec(filename: string, outType: string)
    ensures var e := Ext(filename);
      Index(filename, e).Some? && Index(filename, e).value <= |filename| - |e|
      && var k := Index(filename, e).value;
      (forall j :: 0 <= j < k ==> !OccursAt(filename, e, j))
      && OutputFileName(filename, outType) == filename[..k] + OutputExt(outType) + filename[k + |e|..]
    ensures Ext(filename) == "" ==> OutputFileName(filename, outType) == OutputExt(outType) + filename
    ensures |OutputFileName(filename, outType)| == |filename| - |Ext(filename)| + 4
  {
    var e := Ext(filename);
    ExtSpec(filename);
    assert OccursAt(filename, e, |filename| - |e|);
    ReplaceFirstSpec(filename, e, OutputExt(outType));
  }

  /**
   * When the extension string occurs nowhere but at the end of the name, the
   * final extension is the one replaced and the result ends with the new one.
   */
  lemma OutputFileNameFinal(filename: string, outType: string)
    requires Ext(filename) != ""
    requires forall j :: 0 <= j < |filename| - |Ext(filename)| ==> !OccursAt(filename, Ext(filename), j)
    ensures var base := filename[..|filename| - |Ext(filename)|];
      OutputFileName(filename, outType) == base + OutputExt(outType)
  {
    var e := Ext(filename);
    OutputFileNameSpec(filename, outType);
    assert filename[|filename| - |e| + |e|..] == "";
  }

  /** The package's naming tests: "foo.mp4" becomes "foo.srt" and "bar.mp4" becomes "bar.txt". */
  lemma OutputFileNameTests()
    ensures OutputFileName("foo.mp4", OutputTypeSubtitles) == "foo.srt"
    ensures OutputFileName("bar.mp4", OutputTypeTranscript) == "bar.txt"
  {
    ExtExamples();
    assert Ext("bar.mp4") == ".mp4" by {
      assert ExtScan("bar.mp4", 7) == ExtScan("bar.mp4", 6) == ExtScan("bar.mp4", 5)
        == ExtScan("bar.mp4", 4) == "bar.mp4"[3..];
    }
    MismatchAt("foo.mp4", ".mp4", 0);
    MismatchAt("foo.mp4", ".mp4", 1);
    MismatchAt("foo.mp4", ".mp4", 2);
    OutputFileNameFinal("foo.mp4", OutputTypeSubtitles);
    MismatchAt("bar.mp4", ".mp4", 0);
    MismatchAt("bar.mp4", ".mp4", 1);
    MismatchAt("bar.mp4", ".mp4", 2);
    OutputFileNameFinal("bar.mp4", OutputTypeTranscript);
  }

  /** Replacing the first occurrence rewrites an earlier copy of the extension. */
  lemma OutputFileNameFirstOccurrence()
    ensures OutputFileName("x.mp4.mp4", OutputTypeSubtitles) == "x.srt.mp4"
  {
    ExtExamples();
    OutputFileNameSpec("x.mp4.mp4", OutputTypeSubtitles);
    assert Index("x.mp4.mp4", ".mp4").value == 1 by {
      assert OccursAt("x.mp4.mp4", ".mp4", 1);
    }
    assert "x.mp4.mp4"[..1] + ".srt" + "x.mp4.mp4"[5..] == "x.srt.mp4";
  }

  /** The earlier copy of the extension may even be part of a directory name. */
  lemma OutputFileNameInDirectory()
    ensures OutputFileName("a.b/c.b", OutputTypeSubtitles) == "a.srt/c.b"
  {
    assert Ext("a.b/c.b") == ".b" by {
      assert ExtScan("a.b/c.b", 7) == ExtScan("a.b/c.b", 6) == "a.b/c.b"[5..];
    }
    OutputFileNameSpec("a.b/c.b", OutputTypeSubtitles);
    assert Index("a.b/c.b", ".b").value == 1 by {
      MismatchAt("a.b/c.b", ".b", 0);
      assert OccursAt("a.b/c.b", ".b", 1);
    }
    assert "a.b/c.b"[..1] + ".srt" + "a.b/c.b"[3..] == "a.srt/c.b";
  }

  /** A name without extension gets the new extension as a prefix. */
  lemma OutputFileNameNoExtension()
    ensures OutputFileName("clip", OutputTypeTranscript) == ".txtclip"
  {
    ExtExamples();
    OutputFileNameSpec("clip", OutputTypeTranscript);
  }

  /** `whisperclient.TranscribeAudioInput`: what the transcription client is asked. */
  datatype TranscribeAudioInput = TranscribeAudioInput(name: string, language: string, format: string, data: seq<byte>)

  /**
   * The service `New` builds. The whisper client is an oracle from a request
   * to text bytes or an error; `results` is the buffered `resultsCh`, oldest first.
   */
  class Scriber {
    const whisperClient: TranscribeAudioInput -> Result<seq<byte>, Error>
    const capacity: nat
    var results: seq<Output>

    ghost predicate Valid()
      reads this
    {
      capacity == ResultsCapacity && |results| <= capacity
    }

    /** `New`: an empty results channel with room for ten outputs. */
    constructor (whisperCli: TranscribeAudioInput -> Result<seq<byte>, Error>)
      ensures Valid()
      ensures whisperClient == whisperCli && capacity == 10 && results == []
    {
      whisperClient := whisperCli;
      capacity := ResultsCapacity;
      results := [];
    }

    /** The request `transcribeAudio` sends: the input's name and language, its output type as format. */
    function Request(audio: seq<byte>, input: Input): TranscribeAudioInput {
      TranscribeAudioInput(input.name, input.language, input.outputType, audio)
    }

    /** `transcribeAudio`: the client's text, or its error wrapped as "transcription failed". */
    function TranscribeAudio(audio: seq<byte>, input: Input): Result<seq<byte>, Error> {
      match whisperClient(Request(audio, input))
      case Success(text) => Success(text)
      case Failure(e) => Failure(Wrapped("transcription failed", e))
    }

    /**
     * What `Process` ends in: the output it publishes, or the error it returns.
     * `convert` stands for the package's `convertToWav`.
     */
    function Outcome(input: Input, convert: seq<byte> -> Result<seq<byte>, Error>): Result<Output, Error>
      requires input.data != null
      reads input.data
    {
      match input.data.pending
      case Failure(e) => Failure(Wrapped("reading input", e))
      case Success(data) =>
        match convert(data)
        case Failure(e) => Failure(Wrapped("could not convert to wav", e))
        case Success(audio) =>
          match TranscribeAudio(audio, input)
          case Failure(e) => Failure(Wrapped("could not transcribe audio", e))
          case Success(text) => Success(Output(OutputFileName(input.name, input.outputType), text))
    }

    /**
     * `Process`: read the input fully, then (with the input now closed on
     * every return) convert, transcribe and publish one output.
     */
    method Process(input: Input, convert: seq<byte> -> Result<seq<byte>, Error>) returns (err: Option<Error>)
      requires Valid() && input.data != null
      requires Outcome(input, convert).Success? ==> |results| < capacity
      modifies this, input.data
      ensures Valid()
      ensures var out := old(Outcome(input, convert));
        (out.Success? ==> err == None && results == old(results) + [out.value])
        && (out.Failure? ==> err == Some(out.error) && results == old(results))
      ensures input.data.pending == if old(input.data.pending).Success? then Success([]) else old(input.data.pending)
      ensures input.data.closes == old(input.data.closes) + (if old(input.data.pending).Success? then 1 else 0)
    {
      var read := input.data.ReadAll();
      if read.Failure? {
        return Some(Wrapped("reading input", read.error));
      }
      var data := read.value;
      var converted := convert(data);
      if converted.Failure? {
        input.data.Close();
        return Some(Wrapped("could not convert to wav", converted.error));
      }
      var audio := converted.value;
      var text := TranscribeAudio(audio, input);
      if text.Failure? {
        input.data.Close();
        return Some(Wrapped("could not transcribe audio", text.error));
      }
      results := results + [Output(OutputFileName(input.name, input.outputType), text.value)];
      input.data.Close();
      return None;
    }

    /** A receive from the channel `Collect` returns: the oldest output not yet received. */
    method Collect() returns (o: Output)
      requires Valid() && results != []
      modifies this
      ensures Valid()
      ensures o == old(results)[0] && results == old(results)[1..]
    {
      o := results[0];
      results := results[1..];
    }

    /**
     * `Process` succeeds exactly when reading, conversion and transcription all
     * do; its output is named from the input and carries the client's text.
     */
    lemma OutcomeSuccess(input: Input, convert: seq<byte> -> Result<seq<byte>, Error>)
      requires input.data != null
      ensures var out := Outcome(input, convert);
        out.Success? <==>
          input.data.pending.Success? && convert(input.data.pending.value).Success?
          && whisperClient(Request(convert(input.data.pending.value).value, input)).Success?
      ensures var out := Outcome(input, convert);
        out.Success? ==>
          var req := Request(convert(input.data.pending.value).value, input);
          out.value.name == OutputFileName(input.name, input.outputType)
          && out.value.text == whisperClient(req).value
          && req.name == input.name && req.language == input.language && req.format == input.outputType
    {
    }

    /**
     * `Process` does not call `validate`: an input with an empty name is still
     * processed, and its output is named by the new extension alone.
     */
    lemma OutcomeWithoutValidation(input: Input, convert: seq<byte> -> Result<seq<byte>, Error>)
      requires input.data != null && input.name == ""
      requires input.data.pending.Success? && convert(input.data.pending.value).Success?
      requires whisperClient(Request(convert(input.data.pending.value).value, input)).Success?
      ensures Validate(input) == Some(ErrNameRequired)
      ensures Outcome(input, convert).Success?
      ensures Outcome(input, convert).value.name == OutputExt(input.outputType)
    {
      OutputFileNameSpec(input.name, input.outputType);
    }

    /** A failed read is returned wrapped as "reading input", so `errors.Is` finds its cause. */
    lemma OutcomeReadFailure(input: Input, convert: seq<byte> -> Result<seq<byte>, Error>)
      requires input.data != null && input.data.pending.Failure?
      ensures var out := Outcome(input, convert);
        var cause := input.data.pending.error;
        out.Failure? && out.error.Is(cause)
        && out.error.Message() == "reading input: " + cause.Message()
    {
    }

    /** A failed conversion is returned wrapped as "could not convert to wav". */
    lemma OutcomeConvertFailure(input: Input, convert: seq<byte> -> Result<seq<byte>, Error>)
      requires input.data != null && input.data.pending.Success?
      requires convert(input.data.pending.value).Failure?
      ensures var out := Outcome(input, convert);
        var cause := convert(input.data.pending.value).error;
        out.Failure? && out.error.Is(cause)
        && out.error.Message() == "could not convert to wav: " + cause.Message()
    {
    }

    /**
     * A failed transcription is wrapped twice, by `transcribeAudio` and by
     * `Process`, and both wrappers lead to the client's error.
     */
    lemma OutcomeTranscribeFailure(input: Input, convert: seq<byte> -> Result<seq<byte>, Error>)
      requires input.data != null && input.data.pending.Success?
      requires convert(input.data.pending.value).Success?
      requires whisperClient(Request(convert(input.data.pending.value).value, input)).Failure?
      ensures var out := Outcome(input, convert);
        var cause := whisperClient(Request(convert(input.data.pending.value).value, input)).error;
        out.Failure? && out.error.Is(cause)
        && out.error.Message() == "could not transcribe audio: transcription failed: " + cause.Message()
    {
    }
  }
}
