# scriber, modelled in Dafny

A Dafny model of the Go package `scriber`. The package has a validator for inputs.
Its `Process` reads an input media file, converts it to WAV with ffmpeg, sends the audio
to a whisper transcription client, and publishes an `Output` (its name and the transcribed text) on a buffered results
channel. The model covers four parts:

- `errors.dfy` (module `Errors`): the five sentinel validation errors, their types and messages, and `E.Error`.
- `gostd.dfy` (module `GoStd`): what the package uses from Go's standard library on Unix.
  That is `filepath.Ext` (scan back from the end, stop at `/`, return the suffix from the first `.` met),
  `strings.Index`, and `strings.Replace(s, old, new, 1)`.
  `Replace` returns `s` when `old == new`, replaces the first occurrence of `old`,
  and inserts `new` at position 0 when `old` is empty.
- `scriber.dfy` (module `Scriber`): `Input.validate`, `generateOutputFileName`, and the `Scriber` service.
  The service is a class. `results` is the buffered `resultsCh`, oldest first, with capacity 10.
  The whisper client is an oracle function held by the object. The converter `convertToWav`
  is an oracle parameter of `Process`. Each input's `io.ReadCloser` is an object that
  holds what `io.ReadAll` would return on it now, and a ghost count of its `Close` calls.
  A successful `io.ReadAll` leaves the reader at end of input, so a second read gives no bytes.
- `wrappers.dfy` (module `Wrappers`): `Option` and `Result`.

`Process` is specified against the pure function `Scriber.Scriber.Outcome`. On success the
output is appended to `results`; on failure the error is returned and `results` is unchanged.
The input is closed exactly once when the read succeeded and never when it failed, matching
the `defer` placed after `io.ReadAll`. The lemmas about `Outcome` state when it succeeds,
what the output contains, and how each failure wraps its cause.

Three facts about the code that the model keeps:

- `strings.Replace` with count 1 replaces the first occurrence of the extension string,
  not necessarily the final one. So `x.mp4.mp4` becomes `x.srt.mp4` and `a.b/c.b`
  becomes `a.srt/c.b` (`Scriber.OutputFileNameFirstOccurrence`,
  `Scriber.OutputFileNameInDirectory`). The result is the name
  with its final extension replaced when the extension string occurs only at the end
  (`Scriber.OutputFileNameFinal`).
- `Process` never calls `validate` (`Scriber.Scriber.OutcomeWithoutValidation`).
- `Process` is sequential: it reads the whole input, converts it in one call, then transcribes.

## Model

| member | source | states |
|---|---|---|
| Errors.E.Error | errors.go:21-24 | the message of an `E` is its underlying string, unchanged |
| Errors.ValidationError.Error | errors.go:13-18 | each of the five error types reports the message of the `E` it embeds |
| Errors.SentinelMessages | errors.go:6-10 | the five sentinels carry "name is required", "extension is required", "output type is not supported", "language is required" and "data is required" |
| Errors.SentinelsDistinct | errors.go:3-18 | the five sentinels have five distinct types and pairwise different messages |
| GoStd.ExtScan | scriber.go:85 | the backward scan of `filepath.Ext`; its contract only bounds the result by the path's length, and what it returns is stated by `GoStd.ExtScanSpec` |
| GoStd.Ext | scriber.go:85 | `filepath.Ext`; its contract only bounds the result by the path's length, and what it returns is stated by `GoStd.ExtSpec` |
| GoStd.ExtScanSpec | scriber.go:85 | scanning back from position i over a clean tail yields either the suffix starting at the last dot of the last path element, or "" when that element has no dot |
| GoStd.ExtSpec | scriber.go:85 | `filepath.Ext` is non-empty exactly when some dot has neither a dot nor a `/` after it; then it is the suffix starting at that dot |
| GoStd.ExtExamples | scriber.go:85 | `foo.mp4` gives `.mp4`, `foo.` gives `.`, `.bashrc` gives `.bashrc`, `clip` and `dir.d/clip` give "", `x.mp4.mp4` gives `.mp4` |
| GoStd.IndexFrom | scriber.go:176 | the index found is an occurrence with no earlier occurrence from the start position; "not found" means no occurrence at any position from the start position on |
| GoStd.Index | scriber.go:176 | `strings.Index`: a found index is an occurrence with no earlier one; "not found" means no occurrence anywhere |
| GoStd.ReplaceFirst | scriber.go:176 | `strings.Replace` with count 1; no contract of its own, stated by `GoStd.ReplaceFirstSpec` |
| GoStd.ReplaceFirstSpec | scriber.go:176 | with no occurrence the string is unchanged; otherwise exactly the first occurrence is replaced and the rest is kept; an empty pattern puts the replacement in front |
| Scriber.Validate | scriber.go:80-101 | no error exactly when all five checks pass; each of the five errors exactly when its check is the first that fails, in the order name, extension, output type, language, data |
| Scriber.ValidateExtRequired | scriber.go:85-87 | "extension is required" exactly when the name is non-empty and its last path element has no dot |
| Scriber.ValidateSingleDefect | scriber.go:80-101 | an input that violates only one requirement gets that requirement's error |
| Scriber.ValidateExamples | scriber_test.go:108-164 | the test inputs: the valid one passes; missing name, extension, supported type, language or data each give their own error |
| Scriber.OutputExt | scriber.go:172-175 | the extension is `.txt` exactly for `transcript` and `.srt` for every other type, unsupported ones included |
| Scriber.OutputFileName | scriber.go:171-177 | `generateOutputFileName`; no contract of its own, stated by `Scriber.OutputFileNameSpec` and `Scriber.OutputFileNameFinal` |
| Scriber.OutputFileNameSpec | scriber.go:171-177 | the extension is found in the name at or before its final position; the result is the name with that first occurrence replaced, or the new extension put in front when there is no extension; its length is the name's minus the extension's plus 4 |
| Scriber.OutputFileNameFinal | scriber.go:176 | when the extension string occurs only at the end, the result is the name without its extension followed by the new extension |
| Scriber.OutputFileNameTests | scriber_test.go:48-59 | `foo.mp4` as subtitles gives `foo.srt`; `bar.mp4` as transcript gives `bar.txt` |
| Scriber.OutputFileNameFirstOccurrence | scriber.go:176 | `x.mp4.mp4` gives `x.srt.mp4`: the first copy of the extension is replaced |
| Scriber.OutputFileNameInDirectory | scriber.go:176 | `a.b/c.b` gives `a.srt/c.b`: a copy of the extension in a directory name is replaced |
| Scriber.OutputFileNameNoExtension | scriber.go:176 | `clip` as transcript gives `.txtclip`: with no extension the new one is put in front |
| Scriber.Error.Message | scriber.go:126 | the text of an error built by `fmt.Errorf("<context>: %w", cause)`: the context, ": " and the cause's text; no contract of its own, stated by the `Scriber.Scriber.Outcome…Failure` lemmas |
| Scriber.Error.Is | scriber_test.go:257 | `errors.Is`: the target is the error itself or is reached by unwrapping; no contract of its own, stated by the `Scriber.Scriber.Outcome…Failure` lemmas |
| Scriber.ReadCloser.constructor | scriber_test.go:205 | a new reader yields the given bytes or error on its first read and has not been closed |
| Scriber.ReadCloser.ReadAll | scriber.go:124 | reading returns the bytes or the error the reader holds; after a successful read the reader is at end of input, so the next read gives no bytes; it does not close the reader |
| Scriber.ReadCloser.Close | scriber.go:128 | each close adds one to the reader's close count and changes nothing else |
| Scriber.Scriber.constructor | scriber.go:112-119 | `New` keeps the given whisper client and starts with an empty results channel of capacity 10 |
| Scriber.Scriber.Request | scriber.go:159-164 | the request `transcribeAudio` builds; no contract of its own, its fields are stated by `Scriber.Scriber.OutcomeSuccess` |
| Scriber.Scriber.TranscribeAudio | scriber.go:153-169 | `transcribeAudio`; no contract of its own, stated by `Scriber.Scriber.OutcomeSuccess` and `Scriber.Scriber.OutcomeTranscribeFailure` |
| Scriber.Scriber.Outcome | scriber.go:121-147 | what `Process` ends in; no contract of its own, stated by the `Scriber.Scriber.Outcome…` lemmas and used as the specification of `Scriber.Scriber.Process` |
| Scriber.Scriber.Process | scriber.go:121-147 | on success exactly one output, the one `Outcome` gives on the reader as it was, is appended and nil is returned; on failure the queue is unchanged and the wrapped error is returned; a successful read leaves the reader at end of input; the input is closed once exactly when the read succeeded |
| Scriber.Scriber.Collect | scriber.go:149-151 | a receive from the results channel yields the oldest published output and removes only it |
| Scriber.Scriber.OutcomeSuccess | scriber.go:135-164 | processing succeeds exactly when reading, conversion and transcription all succeed; the output is named by `generateOutputFileName` and holds the client's text; the client is asked with the input's name, language and output type as format |
| Scriber.Scriber.OutcomeWithoutValidation | scriber.go:121-147 | an input that validation refuses for its empty name is still processed, and its output is named by the new extension alone |
| Scriber.Scriber.OutcomeReadFailure | scriber.go:124-127 | a read error is returned as "reading input: " followed by the cause, and `errors.Is` finds the cause |
| Scriber.Scriber.OutcomeConvertFailure | scriber.go:130-133 | a conversion error is returned as "could not convert to wav: " followed by the cause, and `errors.Is` finds the cause |
| Scriber.Scriber.OutcomeTranscribeFailure | scriber.go:135-167 | a client error is returned as "could not transcribe audio: transcription failed: " followed by the cause, and `errors.Is` finds the cause through both wrappers |

## Left out

- The ffmpeg subprocess inside `convertToWav` (scriber.go:27-49) is an OS process. It is the oracle parameter `convert` of `Process`, so its own "ffmpeg failed" wrapping belongs to the oracle.
- The whisper network client is an oracle function. Its context and the 5-minute `context.WithTimeout` (scriber.go:154-155) are not modelled; a timeout is one of the errors the oracle may return.
- Logging through `slog` (scriber.go:114,122,145,157) is I/O with no behaviour to model.
- The `convertToWavFunc` field (scriber.go:107,115) is set by `New` and never read, because `Process` calls the package-level `convertToWav`.
- Goroutines, channel blocking and concurrent `Process` calls on one `Scriber` are not modelled.
- Scriber.Scriber.Process: requires room in the results channel only when the call succeeds, because in Go a successful call sends on the channel, and a send on a full channel blocks until a consumer receives. A failing call returns before the send and is allowed on a full channel. The blocked state is not modelled.
- Scriber.Scriber.Process: requires a non-nil `Data`, because in Go `io.ReadAll` on a nil reader panics instead of returning an error.
- Scriber.Scriber.Collect: requires a non-empty channel, because a receive on an empty channel blocks. `Collect` itself only hands out the channel; the model takes one receive from it as the operation.
- `io.ReadAll` is modelled as one step returning all bytes or an error. After a successful read the reader gives no more bytes, as a `bytes.Buffer` does. A reader that failed is assumed to fail the same way again. The bytes read before an error are not modelled.
- Errors are compared as values. Go's `errors.Is` compares errors made by `errors.New` and `fmt.Errorf` by identity. So in the model `Error.Is` also holds for a distinct error with the same shape and text, where Go would answer false. The lemmas apply `Is` only to the actual cause, where both answers agree.
- The whisper client is a fixed function of the request for the object's lifetime. So the same request always gets the same answer: a timeout on one call and a success on the next identical call cannot be expressed.
- `ReadCloser.Close` behaves like the `io.NopCloser` the tests use: a read after `Close` still gives `pending`. A reader such as an `*os.File` would return an error after being closed.
- The error returned by the deferred `Close` is discarded in the source, so the model does not carry it.
- Go strings are byte strings and the model uses characters. This does not change `filepath.Ext`, `strings.Index` or `strings.Replace` here, because `.` and `/` are single bytes that never occur inside a multi-byte UTF-8 sequence.
