# runpod-faster-whisper: a verified model of the transcription worker

This project models the transcription worker: a serverless job handler that receives
speech audio, runs it through a Whisper speech-recognition engine and returns the
transcript. The handler accepts audio as a URL or as base64 text. The transcript comes
as plain text, one line per segment, SubRip (SRT) or WebVTT, optionally with an
English translation and per-word timings. The model is written in Dafny and covers:

- `Predictor.setup`: the start-up phase that loads the models named in `MODEL_NAMES`
  into the process-wide pool.
- `Predictor.predict`: model lookup, the temperature fallback ladder built with
  `numpy.arange`, the transcribe pass and the optional translate pass, and assembly
  of the result dictionary with its optional `word_timestamps` list.
- `serialize_segments`, `format_segments`, `write_vtt` and `write_srt`: the renderings
  of the engine's segments.
- `handler`: schema-validation errors are returned as a response, exactly one of
  `audio` / `audio_base64` is required, and the chosen audio is turned into a local
  file that is handed to `predict`.

Several things are parameters, and every property holds for all of their values:

- the speech engine, as a function from a loaded model and an `EngineRequest` to
  segments or an exception;
- `format_timestamp`, as a function of (seconds, always-include-hours, decimal marker);
- the CUDA probe, as a boolean;
- schema validation, the URL download, the base64-to-temporary-file writer, and the
  mapping from validated input to `predict`'s keyword arguments.

The model is pure. A request returns its outcome and also the trace of engine calls it
made, so properties such as "no engine call happens" can be stated. Python exceptions
become `Failure` values of `Predictor.Error`, and those the handler propagates
become `Handler.Fault`.

Modules, one file each:

- `Base`: `Option` and `Result`.
- `Values`: JSON-like values with Python truthiness.
- `Text`: Python's `strip`, `lstrip`, `replace("-->", "->")`, `join`, `split` and `str`
  of a number.
- `Arange`: `numpy.arange` over exact reals, with a reference definition.
- `Segments`: the engine's segment and word records.
- `Serializer`: `serialize_segments` and the word-timestamp list.
- `Formatter`: the four renderings.
- `Predictor`: start-up and `predict`.
- `Handler`: `handler`.

## Model

| member | source | states |
|---|---|---|
| Text.LStripSpec | src/predict.py:131 | `lstrip` removes exactly the longest whitespace prefix: the result is a suffix of the text, everything removed is whitespace, and the result does not start with whitespace |
| Text.StripSpec | src/predict.py:143 | `strip` keeps the slice after the leading whitespace that neither starts nor ends with whitespace, with only whitespace before and after it |
| Text.StripIdempotent | src/predict.py:143 | stripping an already stripped cue text changes nothing |
| Text.EscapeIdentity | src/predict.py:143 | `replace("-->", "->")` leaves text without `-->` untouched |
| Text.EscapeGuard | src/predict.py:143 | after the replacement no `-->` remains, provided the text has no `--->` |
| Text.LongArrowSurvives | src/predict.py:143 | wherever the text has `--->`, the replaced text still contains `-->` |
| Text.EscapeGuardIff | src/predict.py:143 | the replaced text is free of `-->` if and only if the original has no `--->` |
| Text.EscapeKeepsArrowOfLongArrow | src/predict.py:155 | the replacement is not a complete guard: `--->` becomes `-->` |
| Text.JoinSplit | src/predict.py:145 | splitting a joined document at the separator and joining again gives the same text |
| Text.SplitJoin | src/predict.py:157 | joining one or more separator-free lines and splitting at the separator gives the lines back |
| Text.JoinSeparatorSwap | src/predict.py:130-133 | joining the same pieces with two one-character separators gives strings of equal length that differ only at separator positions |
| Text.NatToString | src/predict.py:151 | `str(i)` is a non-empty run of decimal digits with no leading zero |
| Text.ParseNatToString | src/predict.py:151 | reading `str(i)` back as a decimal numeral gives `i` |
| Text.NatToStringInjective | src/predict.py:150-151 | distinct SRT cue numbers have distinct numerals |
| Arange.ArangeIsArange | src/predict.py:57 | `Arange` meets the reference definition of `numpy.arange`: element `i` is `start + i*step`, every element lies before `stop`, and the next one would not |
| Arange.IsArangeLength | src/predict.py:57 | any sequence meeting the reference definition has numpy's length `max(0, ceil((stop - start) / step))` |
| Arange.IsArangeUnique | src/predict.py:57 | the reference definition has exactly one solution, and it is `Arange` |
| Arange.ArangeAscending | src/predict.py:57 | with a positive step the range is non-empty exactly when `start < stop`, starts at `start`, rises by exactly `step`, stays below `stop`, and contains every `start + k*step` below `stop` |
| Serializer.SegmentRecord | src/predict.py:113-124 | a segment record has exactly the ten keys id, seek, start, end, text, tokens, temperature, avg_logprob, compression_ratio and no_speech_prob |
| Serializer.SerializeSegments | src/predict.py:111-126 | one record per segment, each with exactly those ten keys |
| Serializer.SerializeRoundTrip | src/predict.py:111-126 | reading the records back, with the words they leave out, rebuilds every segment in order with every field unchanged |
| Serializer.FlattenWords | src/predict.py:104-105 | the flattened word list exists exactly when every segment has words, and then it has as many entries as all segments have words together |
| Serializer.FlattenWordsOrder | src/predict.py:102-106 | word `j` of segment `k` comes after the words of all earlier segments |
| Serializer.WordTimestamps | src/predict.py:101-106 | the word-timestamp list exists exactly when the flattened words do; entry `i` is the record (word, start, end) of flattened word `i` |
| Formatter.FormatSegments | src/predict.py:129-136 | the format name selects plain text, formatted text or SRT; every other name, including unknown ones, renders WebVTT |
| Formatter.VttLineAt | src/predict.py:139-145 | a WebVTT document has three lines per segment: the timing line with hours optional and a `.` decimal marker, the stripped and escaped text, and a blank line |
| Formatter.SrtLineAt | src/predict.py:148-157 | an SRT document has four lines per segment: the counter `k + 1`, whatever the segment's id; the timing line with hours and a `,` decimal marker; the stripped and escaped text; and a blank line |
| Formatter.SrtIgnoresIds | src/predict.py:150-155 | SRT output depends only on each segment's start, end and text |
| Formatter.SrtDocumentLines | src/predict.py:148-157 | for one or more segments, splitting the SRT document at line breaks gives back exactly the emitted lines, four per segment, when no timing line or cue text holds a line break |
| Formatter.VttDocumentLines | src/predict.py:139-145 | for one or more segments, splitting the WebVTT document at line breaks gives back exactly the emitted lines, three per segment, under the same condition |
| Formatter.PlainAndFormattedAgree | src/predict.py:130-133 | plain and formatted text have equal length and differ only where one has a space and the other a line break |
| Formatter.FormattedTextLines | src/predict.py:132-133 | for one or more segments, splitting formatted text at line breaks gives the left-stripped segment texts when none holds a line break |
| Formatter.HelloWorldText | src/predict.py:130-133 | segments " Hello" and " world" render as `Hello world` and as `Hello`, line break, `world` |
| Predictor.NotFoundMessage | src/predict.py:54 | the not-found message quotes the model name between `Model '` and `' not found.` |
| Predictor.NotFoundMessageNamesModel | src/predict.py:54 | the message determines the model: distinct names give distinct messages |
| Predictor.LoadInto | src/predict.py:23-27 | start-up inserts only names from the list, and each inserted model is the one its name loaded |
| Predictor.LoadIntoOutcome | src/predict.py:23-27 | start-up either loads every listed model, or stops at the first load that raises, reports it, and keeps exactly the models before it |
| Predictor.TemperatureLadder | src/predict.py:56-59 | no increment gives the single temperature; a zero increment fails; any other increment gives `numpy.arange(t0, 1.0 + 1e-6, d)` by the reference definition |
| Predictor.LadderAscending | src/predict.py:57 | a positive increment gives a ladder that starts at `t0` (when `t0` is at most 1.0), rises by exactly the increment, and stays below `1.0 + 1e-6` |
| Predictor.LadderComplete | src/predict.py:57 | a positive increment misses no temperature: every `t0 + k*d` up to 1.0 is entry `k` of the ladder |
| Predictor.DefaultLadder | src/predict.py:37-57 | the default arguments give the ladder 0.0, 0.2, 0.4, 0.6, 0.8, 1.0 |
| Predictor.SuppressTokensIgnored | src/predict.py:77 | the transcribe call always suppresses `[-1]`, whatever `suppress_tokens` says |
| Predictor.ResultDict | src/predict.py:92-106 | the result has the six fixed keys, plus `word_timestamps` exactly when it was requested; every key holds its field: segments, detected language, transcription, device and model, `translation` None when not requested, and the word list when requested |
| Predictor.Assemble | src/predict.py:92-108 | the result carries the serialized segments, detected language, transcription, translation, device and model name; it fails only when word timestamps were requested and a segment has no words |
| Predictor.Predict | src/predict.py:52-108 | an unknown model, and only that, raises `Model '<name>' not found.` with no engine call; a zero increment fails with no engine call; otherwise the transcribe pass is always called with the ladder; an engine exception propagates and ends the request; once the transcribe pass answers, the translate pass with the same ladder is called exactly when translation is asked for; when every call answers, the request fails only for a missing word list, and otherwise holds the serialized segments and the rendered transcription and translation |
| Predictor.NeverLoadedIsNotFound | src/predict.py:52-54 | a model name outside `MODEL_NAMES` is never found after start-up, and no engine call is made |
| Handler.SelectAudio | src/handler.py:28-39 | a source is chosen exactly when one of `audio` and `audio_base64` is truthy; neither or both give the two error messages; the URL is preferred when truthy |
| Handler.Handle | src/handler.py:14-66 | validation errors and audio-selection errors are answered as `{"error": ...}` without calling predict; an exception while downloading or decoding the audio (such as a badly padded base64 payload) propagates before predict; otherwise predict runs on the local file of the chosen source, and its result or exception is passed through unchanged |
| Handler.EngineNeedsOneSource | src/handler.py:23-41 | the engine is reached only by input that validates, names exactly one audio source, and whose audio file was produced |
| Handler.UnknownModelRejected | src/handler.py:36-62 | a valid job with one audio source, whose keyword mapping yields a model name outside the start-up list, never reaches the engine: it ends with the exception raised while producing its audio file, or, once the file exists, with the not-found exception |

## Left out

- The speech engine (`WhisperModel` and `transcribe`): a parameter. Its decoding, voice-activity filter and fallback behaviour are not modelled. `load_model`'s device and compute-type choice only configures the engine and is not modelled.
- `format_timestamp`: a parameter. The properties about timing lines hold for every timestamp formatter.
- `rp_cuda.is_available()`: a boolean parameter.
- Concurrency: `setup` loads through a thread pool. The model loads in list order, which is the order in which `executor.map` yields its results.
- Floating point: temperatures, times and probabilities are exact reals. `numpy.arange`'s float64 accumulation, for example 0.6000000000000001, is not modelled.
- Predictor.TemperatureLadder: over exact reals. It does not model float64 rounding, which can change the ladder's last element or its length for increments that are not exact binary fractions.
- Laziness: the engine's segment generators are modelled as finished lists. An exception raised while iterating them is an engine failure of that call.
- Model lookup: `if not model` is modelled as "the name is not in the pool". A loaded model object is always truthy.
- `str(audio)`: the audio path is already a string.
- Handler I/O: schema validation, `download_files_from_urls`, and base64 decoding with the temporary-file write are parameters; the last two return a path or the exception they raised. How runpod's download helper reports a failed download is not part of this model. `rp_cleanup.clean` and `runpod.serverless.start` have no effect on the result and are not modelled. src/schema.py is not part of this model.
- Handler.Handle: the mapping from validated input to `predict`'s keyword arguments is a parameter, so no contract ties the model name to the job's `"model"` field. This includes the `suppress_tokens` default of `"-1"`, which the engine never sees anyway; see Predictor.SuppressTokensIgnored.
- builder/fetch_models.py: a build-time download script outside the request path.
- Exception texts: the texts numpy and Python produce for a zero step and for iterating a missing word list are not modelled.
- `Word.probability`: carried in the segment record, but neither serialized nor rendered by the source.

## Notes on behaviour

- Start-up failures. `setup` does not catch a failed load: `executor.map` re-raises the first load failure when iterating, so start-up stops there. Predictor.LoadIntoOutcome states that loading stops at the first failure, keeps the models loaded before it, and reports the failure.
- Cue-text escaping. Replacing `-->` with `->` keeps the timing arrow out of cue text exactly when the text has no `--->` (Text.EscapeGuardIff). `--->` escapes to `-->` (Text.EscapeKeepsArrowOfLongArrow).
- Translate pass arguments. The translate pass passes only the audio, the task and the temperature ladder. Language, beam size, prompts and the other decoding options are not forwarded.
- Empty transcripts. With no segments, for example a silent recording or one the voice filter drops entirely, every format renders the empty string, and splitting it at line breaks gives one empty line, not zero lines (Formatter.EmptyTranscript). This is why the line-splitting properties above are stated for one or more segments.
- Word timestamps without words. Requesting word timestamps when a segment has no word list makes `predict` raise. The model reports this as `WordsMissing`.
