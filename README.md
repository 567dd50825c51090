# Kokoro TTS front-ends — a Dafny model of their decision logic

Kokoro-TTS-Local wraps a pretrained neural text-to-speech engine in two
front-ends: a web interface (`gradio_interface.py`) and an interactive
command-line menu (`tts_demo.py`). Speech synthesis itself happens in the
external engine. This project models the logic the two front-ends add around
it, and proves properties of that model:

- **Voice router** (`voice_router.dfy`, module `VoiceRouter`). The fixed
  prefix table `LANG_MAP` maps a voice name to a language code, with the
  fallback `"a"`. The curated voice list is data. `PipelineRegistry` is a class
  whose `map` field holds one pipeline per language code. Its `Valid()`
  invariant says that no code was ever constructed twice.
- **Web request path** (`gradio_interface.dfy`, module `GradioInterface`).
  `convert_audio`'s format dispatch, the timestamped output paths, and
  `generate_tts_with_logs`: pick the pipeline, collect the segments' audio in
  order, write the .wav file, convert it, and turn every failure into `""`.
- **Optional values** (`wrappers.dfy`, module `Wrappers`). The `Option`
  datatype that the other modules share.
- **Shared audio accumulation** (`audio.dfy`, module `Audio`). Segments,
  collecting their audio in order while skipping absent audio, and
  concatenating buffers.
- **Demo prompts** (`demo_input.dfy`, module `DemoInput`). The `select_voice`
  and `get_speed` loops, which re-prompt until an answer is accepted, the
  default text, and the 10000-character limit.
- **Demo generation** (`demo_generation.dfy`, module `DemoGeneration`). The
  segment loop with its total budget (300 s) and per-segment budget (60 s),
  the single-segment/concatenate/nothing branch, and `save_audio_with_retry`.
- **Demo menu** (`demo_session.dfy`, module `DemoSession`). The request flow
  (voice, text, length check, speed, generation) and the menu loop with its
  lazily filled voice cache.

The engine and the file system are not modelled. Their observable outcomes
are inputs:
- the segments a pipeline yields, and whether it raises afterwards;
- one clock reading per segment;
- whether each file write, decode or export succeeds (`writeOk(k)` for the k-th
  write attempt);
- whether the output directory can be created and the voice file exists.

Most imperative methods are proved against a specification function, for
example `GenerateSpeech` against `ExpectedGeneration`, `ConsumeSegments`
against `AcceptedCount` and `Collected`, and `Session.Run` against
`ExpectedRun`. The properties are then proved as lemmas about those
functions. Two are not: `SaveAudioWithRetry` is proved against closed-form
postconditions (the first successful attempt, the attempt and sleep counts),
and `PipelineRegistry.GetPipelineForVoice` against postconditions relating
the registry before and after the call, together with the `Valid()`
invariant.

Notes on the source's behaviour that the model follows:
- The per-segment budget is measured from the clock reading taken when the
  previous segment arrived, before that segment's audio was processed
  (tts_demo.py:193-205).
- The language prefix is the first three characters of the voice name,
  lower-cased (gradio_interface.py:117).
- For "wav", `convert_audio` returns the .wav path at once
  (gradio_interface.py:135-136). For any other format it decodes the .wav
  file before it picks mp3, aac or the fallback, so an unreadable file fails
  even for an unrecognised format (gradio_interface.py:138-145).
- The web interface always concatenates the collected audio
  (gradio_interface.py:199); the command-line demo keeps a single segment
  as it is (tts_demo.py:243-247). Both give the same samples (`FinalAudio`,
  `FlattenSingle`).
- The end of input at any prompt raises out of the menu loop and ends the
  session (tts_demo.py:274), including at the text prompt before the length
  check (tts_demo.py:51).

## Model

| member | source | states |
|---|---|---|
| `VoiceRouter.LangMapShape` | gradio_interface.py:32-67 | every key of the prefix table has three characters and ends in `_`, and its code is the key's first character |
| `VoiceRouter.LangCode` | gradio_interface.py:116-118 | the language code always has one character and is either a value of the table or the fallback `"a"` |
| `VoiceRouter.ShortNameFallsBack` | gradio_interface.py:117-118 | a voice name shorter than three characters is never recognised and always gets `"a"` |
| `VoiceRouter.RecognisedCodeIsFirstLetter` | gradio_interface.py:32-67 | a recognised name has at least three characters, and its code is its lower-cased first letter |
| `VoiceRouter.LangCodeIgnoresCase` | gradio_interface.py:117 | lower-casing a voice name first changes neither whether it is recognised nor its code |
| `VoiceRouter.CuratedVoicesRecognised` | gradio_interface.py:89-95 | every curated voice has its prefix in the table, so none takes the fallback, and its code is its first letter |
| `VoiceRouter.PipelineRegistry.constructor` | gradio_interface.py:70-73 | the registry starts empty, with no constructions and the given shared model |
| `VoiceRouter.PipelineRegistry.GetPipelineForVoice` | gradio_interface.py:111-128 | afterwards the voice's code is in the registry and the returned pipeline is its entry. A known code returns the stored pipeline and leaves the registry and the construction count unchanged. An unknown code adds exactly that entry, built on the shared model if there is one. No code is ever constructed twice (`Valid`) |
| `GradioInterface.ConvertAudio` | gradio_interface.py:131-147 | fails exactly when the format is not "wav" and the decode fails, or the export of mp3/aac fails. On success it returns the output path for mp3/aac and the input path for everything else |
| `GradioInterface.UnrecognisedFormatKeepsWav` | gradio_interface.py:143-145 | an unrecognised format whose .wav file decodes returns the .wav path and is not an error |
| `GradioInterface.ResultPath` | gradio_interface.py:166-168 | "wav" gives `outputs/tts_{voice}_{timestamp}.wav`. A successful mp3/aac request gives the format's own path, and any other format the .wav path |
| `GradioInterface.ResultPathShape` | gradio_interface.py:206-212 | a returned path is `outputs/tts_{voice}_{timestamp}.` followed by the format when it is mp3 or aac, and by `wav` otherwise |
| `GradioInterface.WavPath` | gradio_interface.py:166-168 | the .wav file lies in the output directory, is named `tts_{voice}_{timestamp}` and ends in `.wav` |
| `GradioInterface.FormatPath` | gradio_interface.py:206-207 | the converted file has the .wav file's directory and name with the requested format as its extension, and is the .wav path for "wav" |
| `GradioInterface.GenerateTtsWithLogs` | gradio_interface.py:154-218 | unless the output directory could not be created, the voice's code is in the registry afterwards. A known code leaves the registry unchanged. An unknown code adds exactly one pipeline for that code, on the shared model when there is one and its own model otherwise, numbered with the previous construction count. The .wav file holds the in-order concatenation of the non-empty segment audio. It is written only if the directory exists, the stream does not raise, some audio exists and the write succeeds. The result is `ResultPath`'s path, or `""` on any failure |
| `Audio.CollectAudio` | gradio_interface.py:180-189 | collecting never yields more buffers than there are segments |
| `Audio.Flatten` | tts_demo.py:247 | the concatenation of the buffers is empty exactly when every buffer is empty |
| `Audio.CollectAudioAppend` | tts_demo.py:207-212 | one more segment appends its audio at the end if it has audio, and nothing otherwise |
| `Audio.CollectAudioPrefix` | tts_demo.py:191-212 | a stream cut short collects a prefix of what the whole stream collects |
| `Audio.CollectAudioAllPresent` | gradio_interface.py:181-189 | when every segment has audio, the i-th collected buffer is the i-th segment's audio |
| `Audio.FlattenAppend` | tts_demo.py:247 | concatenation distributes over appending lists of buffers |
| `Audio.FlattenLength` | tts_demo.py:247 | the concatenation's length is the sum of the buffers' lengths |
| `Audio.FlattenSingle` | tts_demo.py:243-244 | concatenating a single buffer returns it unchanged |
| `Audio.FlattenPrefix` | tts_demo.py:247 | concatenating a prefix of the buffers gives a prefix of the samples |
| `Audio.FlattenPlacement` | gradio_interface.py:199 | the i-th buffer appears intact in the concatenation, right after the samples of the buffers before it |
| `DemoInput.ChosenVoice` | tts_demo.py:38-42 | an empty answer gives `"af_bella"`, and an index answer gives a voice from the list |
| `DemoInput.SelectedVoice` | tts_demo.py:35-45 | a chosen voice is `"af_bella"` or one of the listed voices |
| `DemoInput.SelectedVoiceIsFirstAccepted` | tts_demo.py:35-45 | the prompt ends without a voice exactly when no answer is empty or in 1..n. Otherwise the first such answer decides: empty gives `"af_bella"`, and k gives `voices[k-1]` |
| `DemoInput.SelectVoice` | tts_demo.py:29-45 | the loop returns `SelectedVoice`. It reads answers up to and including the first accepted one, and every earlier answer is rejected |
| `DemoInput.SelectedSpeed` | tts_demo.py:56-63 | a chosen speed lies in [0.5, 2.0] |
| `DemoInput.SelectedSpeedIsFirstAccepted` | tts_demo.py:56-66 | a speed comes back exactly when some answer is empty or within [0.5, 2.0], bounds included. The first such answer decides, and empty means 1.0 |
| `DemoInput.GetSpeed` | tts_demo.py:54-66 | the loop returns `SelectedSpeed`, having read answers up to and including the first accepted one |
| `DemoInput.TextOrDefault` | tts_demo.py:47-52 | the text is never empty, and a non-empty answer is used as given |
| `DemoInput.TextTooLong` | tts_demo.py:137 | only a non-empty text other than the default can be refused by the length check |
| `DemoInput.DefaultTextAccepted` | tts_demo.py:16 | the default text passes the length check |
| `DemoGeneration.SaveAudioWithRetry` | tts_demo.py:68-91 | succeeds exactly when one of the first `maxRetries` writes succeeds, and stops at the first success with no later write. On failure it made `max(0, maxRetries)` attempts. It sleeps once after each failed attempt except the last, and makes zero attempts when `maxRetries <= 0` |
| `DemoGeneration.AcceptedCount` | tts_demo.py:191-205 | the loop's break index: every segment before it passes both budget checks, and the segment at it, if any, fails one |
| `DemoGeneration.Collected` | tts_demo.py:207-212 | `all_audio` after the loop holds no more buffers than accepted segments and is a prefix of the audio of the whole stream |
| `DemoGeneration.AcceptedFromSpec` | tts_demo.py:192-205 | the segments scanned from i onwards pass both checks up to the returned index, and the segment at that index fails one |
| `DemoGeneration.AcceptedCountIsFirstViolation` | tts_demo.py:191-205 | the number of accepted segments is the index of the first segment that fails a budget check, or all of them if none fails |
| `DemoGeneration.ConsumeSegments` | tts_demo.py:157-216 | the loop accepts exactly `AcceptedCount` segments. The total check is `now - start > 300` and the gap check is `now - previous reading > 60`, so a difference equal to the budget passes. The segment timer resets for every accepted segment, with or without audio. The loop keeps the in-order audio of the accepted segments and skips segments without audio. The stop reason is the failed check, the engine's exception, or the end of the stream |
| `DemoGeneration.CollectedIsPrefix` | tts_demo.py:191-212 | the loop collects a prefix of all the stream's audio, and all of it when every segment is within budget |
| `DemoGeneration.LateSegmentsDropped` | tts_demo.py:193-196 | a segment arriving more than 300 s after the start is not accepted, and neither is any later one |
| `DemoGeneration.FinalAudio` | tts_demo.py:240-251 | there is nothing to save exactly when no segment was collected. Otherwise the saved audio equals the concatenation, including for a single segment that is kept unchanged, and its length is the sum of the segment lengths |
| `DemoGeneration.GenerateSpeech` | tts_demo.py:148-265 | the result is `ExpectedGeneration`. A missing voice file or a failing generator stops the request first. With no audio there is no save attempt. Otherwise the final audio is saved if one of 3 writes succeeds |
| `DemoGeneration.SavedAudioIsBudgetedPrefix` | tts_demo.py:240-253 | saved audio is as long as the accepted segments' buffers together, and is a prefix of the audio of the whole stream |
| `DemoGeneration.StreamErrorKeepsPartialResult` | tts_demo.py:222-237 | an exception from the engine gives the same result as a stream that just ended: the partial audio is kept |
| `DemoGeneration.NoCollectedAudioMeansNoSave` | tts_demo.py:264-265 | with no collected audio the request reports failure and attempts no write |
| `DemoGeneration.TwoSegmentsSaved` | tts_demo.py:191-253 | two in-budget segments whose first write succeeds save the first buffer followed by the second |
| `DemoSession.RequestSpeech` | tts_demo.py:133-146 | the request follows `ExpectedRequest`: voice prompt, then text, then the length check, then the speed prompt, then generation. The end of input at any of the three prompts ends the request there |
| `DemoSession.SynthesizedRequestsAreValid` | tts_demo.py:47-52 | a request that reaches generation has at most 10000 characters, a speed in [0.5, 2.0], and the default voice or a listed one. A selected voice with a longer text is rejected before the generator is built. The end of input at the text prompt ends the request before the length check |
| `DemoSession.Session.constructor` | tts_demo.py:110 | the voice cache starts empty |
| `DemoSession.Session.HandleChoice` | tts_demo.py:112-139 | the step and new state are `ExpectedChoice`'s. "1" refetches the voice list. "2" fetches it only when the cache is empty, and reports no voices for an empty list. "3" exits. Any other answer is invalid, and neither "3" nor an invalid answer changes the state |
| `DemoSession.Session.Run` | tts_demo.py:112-272 | the steps taken and the final cache and fetch count are those of `ExpectedRun`, which folds one pass of the loop over the answers |
| `DemoSession.RunStopsAtFirstEnd` | tts_demo.py:112-274 | one step per answer, the first step is that of the first answer, the loop stops right after the first exit or end of input inside a prompt, and otherwise when the answers run out. A first "3" is the only step and changes nothing |
| `DemoSession.RunFetchCount` | tts_demo.py:115-126 | the voice list is fetched exactly once per handled "1", plus once more when nothing was cached and a "2" comes before any "1" |
| `DemoSession.RunCacheIsLatestFetch` | tts_demo.py:110-126 | the cache holds the list of the latest fetch, is unchanged when nothing was fetched, and a filled cache stays filled |

## Left out

- Neural inference, `KPipeline`/`KModel` construction and `build_model` are external calls. A pipeline is an opaque value, and what it yields is an input stream. A pipeline construction that raises is not modelled.
- File I/O (`sf.write`, `AudioSegment.from_wav`, `export`, `os.makedirs`, `os.path.exists`) appears only as given success or failure outcomes. File contents are modelled only as the buffer a successful .wav write leaves behind.
- Clock and sleeps: `time.time()` readings are given reals, one per segment plus the start. `time.sleep` is counted, and the length of the delay is not modelled.
- The watchdog timer thread (tts_demo.py:163-175, 219-220) only prints a warning, so it is left out.
- Audio samples are integers. The tensor dtype and device conversions are left out. So is `torch.cat` failing on mismatched shapes (tts_demo.py:246-250), which cannot happen for one-dimensional segments.
- `input()`, `.strip()`, `int()` and `float()` parsing are left out. Prompt answers are given stripped and parsed. Running out of answers at the voice or speed prompt, or a missing text answer, is the end of input. Python's `float` also accepts "nan" and "inf". Both fail the range check and are modelled as rejected answers (`NotAFloat`).
- Lower-casing maps ASCII letters only. No non-ASCII character lowers to a table prefix, so the table lookup gives the same result as Python's Unicode `lower()`.
- `os.path.join` is modelled with the POSIX separator `/`.
- Exception categories and all printing are collapsed into one stop reason or outcome each: value/runtime/key/file-not-found errors, tqdm progress and tracebacks.
- The voice list in the demo comes from `models.list_available_voices`, and models.py is not part of this model. What its k-th call returns is the input `fetch(k)`.
- The cleanup block (tts_demo.py:278-353), the Gradio layout and `interface.launch`, and `create_interface`'s loading of the shared model are left out. The shared model is the registry constructor's argument.
- Timestamps are opaque strings. `datetime` formatting is not modelled.
- GenerateTtsWithLogs: the `text` argument and the chosen pipeline reach the engine only. The stream input stands for what that call yields.
