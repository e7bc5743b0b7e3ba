# Streaming speech-to-text relay: a Dafny model of its core

This project models the core of a small speech-to-text relay server and proves properties of that model. The server:

- takes raw 16-bit PCM chunks over HTTP;
- keeps a rolling five-second audio window;
- has a pluggable engine re-transcribe the whole window on every chunk;
- prefix-diffs each transcript against the previous one and answers with the new text or "waiting".

The model also covers the voice-activity segmenter and the bookkeeping of the provider layer:

- the base provider's configuration dictionary;
- the name-to-class registry;
- the Whisper and Deepgram providers' defaults, back-end choice and language validators.

## Modules

- `Wrappers` (`wrappers.dfy`): `Option` and `Result`.
- `Pcm` (`pcm.dfy`): `np.frombuffer(data, int16)` as `Decode`, with its inverse `Encode`. Both round trips are proved. An odd byte count is an error.
- `Transcript` (`transcript.dfy`): Python's `str.strip()` (over the characters `str.isspace()` accepts) and the reconciler `NewPart`.
- `SlidingBuffer` (`sliding_buffer.dfy`): the 80,000-sample window and the lemma that trimming after every append keeps exactly the latest samples.
- `StreamServer` (`stream_server.dfy`): the module-global state (`audio_buffer`, `prev_transcript`, `stt_provider`, `stt_provider_type`) as one `Server` object. It has the `stream_chunk` and `switch_provider` endpoints. A ghost `history` of every appended sample states the window invariant.
- `Vad` (`vad.dfy`): `VADProcessor` as a class. `np.array_split` is modelled exactly. The frame loop is a method proved against the pure functions `Step` and `Run`. The segmenter's invariant, at-most-one-utterance-per-call and the silence/speech/silence scenario are lemmas.
- `SttBase` (`stt_base.dfy`): the value kinds a config may hold and Python truthiness. Also `ValueError`/`ImportError`, and the `STTProvider` base object that owns `config`.
- `Whisper`, `Deepgram` (`whisper.dfy`, `deepgram.dfy`): the two providers as classes. Each contains a `Provider` object in place of inheritance.
- `Factory` (`factory.py`'s `STTFactory`, `factory.dfy`): the registry as a class. It has a sequence of names in dictionary insertion order and a map to provider classes.

## Modelling decisions

- The transcription engine is a parameter `engine: seq<Sample> -> string` of `StreamChunk`. The voice-activity classifier is a parameter `isSpeech: Frame -> bool` fixed when a `VadProcessor` is built.
- Availability of the optional packages is a parameter:
  - `Whisper.Backends(fasterWhisper, openaiWhisper)` says whether faster-whisper and openai-whisper imported;
  - two booleans of the `SttFactory` constructor say whether the two provider modules imported.
- The Deepgram API key from the environment is a parameter of its constructor.
- Exceptions are results. Methods that can raise return `Option<PyError>` or a `Result`, and they leave the state unchanged exactly where the code does.
- `WhisperSTT.__init__` can raise, so construction is `WhisperStt.Create`, which returns a `Result`.
- `stream_chunk` on an odd number of bytes makes numpy raise before any state changes. FastAPI turns that into a 500 response, modelled as `ChunkError(500, …)`. The string in it is the exception's text; the client actually receives the framework's generic "Internal Server Error" body, not that text.
- `process_audio` on fewer than 320 samples calls `np.array_split(pcm, 0)`, which raises ValueError. The model returns `Failure` and changes nothing.
- `np.array_split` with `n = len // 320` gives pieces of at least 320 samples, and exactly 320 only when the length is a multiple of 320. So the `len(frame) < FRAME_SIZE` check never skips a frame (`Vad.FramesSpec`). One might expect a trailing partial frame to be dropped, but `array_split` never produces one: the leftover samples are spread over the first frames.
- The reconciler's restart branch (`server/main.py:117`) does not strip. A whitespace-only transcript unrelated to the previous one is therefore answered as new text (`StreamServer.RestartReply`). One might expect the restart branch to strip as well; it does not.
- `prev_transcript` is overwritten on every chunk, including when the answer is "waiting".
- Provider classes in the registry are a datatype:
  - `DeepgramClass` and `WhisperClass` behave as their modules say;
  - a `CustomClass` is described by its `__name__`, whether it derives from `STTProvider`, the languages it reports and the exception its constructor raises, if any.

  Constructing any of them gives an `Instance`: class name, stored config and languages.

## Model

| member | source | states |
|---|---|---|
| `Pcm.SampleOf` | server/main.py:102 | a byte pair decodes to the signed 16-bit sample whose two's-complement value is `lo + 256 * hi` |
| `Pcm.BytesOf` | server/main.py:102 | the two little-endian bytes of a sample decode back to that sample |
| `Pcm.DecodePairs` | server/main.py:102 | one sample per byte pair, `len / 2` samples, the i-th from bytes 2i and 2i+1 |
| `Pcm.Decode` | server/main.py:101-102 | fails exactly on an odd byte count, with numpy's message; otherwise yields `len / 2` samples |
| `Pcm.Encode` | server/main.py:101-102 | the client's byte string for a list of samples, two bytes each |
| `Pcm.DecodeEncode` | server/main.py:102 | decoding the encoding of any samples gives them back |
| `Pcm.EncodeDecode` | server/main.py:102 | every even-length byte string decodes, and re-encodes to itself |
| `Transcript.SkipSpace` | server/main.py:115 | the left scan of `strip()`: everything skipped is whitespace, and it stops at a non-whitespace character or the end |
| `Transcript.SkipSpaceBack` | server/main.py:115 | the right scan of `strip()`, never crossing the left one: everything skipped is whitespace, and it stops after a non-whitespace character or at the left bound |
| `Transcript.Strip` | server/main.py:115 | `str.strip()`: never longer than its input, and a non-empty result neither starts nor ends with whitespace (`StripSpec` pins it down completely) |
| `Transcript.StripSpec` | server/main.py:115 | `strip()` keeps one contiguous slice, drops only whitespace around it, and the slice has no whitespace at either end |
| `Transcript.StripEmptyIffAllSpace` | server/main.py:115-121 | a string strips to "" exactly when it is all whitespace |
| `Transcript.IsPrefix` | server/main.py:114 | `c.startswith(p)`: when it holds, `c` is `p` followed by the rest of `c` |
| `Transcript.NewPart` | server/main.py:114-117 | on a prefix match the stripped remainder after `prev`, otherwise all of `current`, unstripped |
| `Transcript.NewPartOfSame` | server/main.py:114-115 | reconciling a transcript against itself gives "" |
| `Transcript.NewPartIsSlice` | server/main.py:114-117 | the new part is always a contiguous slice of the current transcript |
| `Transcript.NewPartOfWhitespaceExtension` | server/main.py:114-115 | a transcript that only appends whitespace to the previous one gives "" |
| `SlidingBuffer.LastN` | server/main.py:107-109 | the last `min(n, len)` elements, as a suffix of the input |
| `SlidingBuffer.WindowOfExtension` | server/main.py:105-109 | appending a chunk to the window of a history and trimming gives the window of the extended history |
| `StreamServer.ReplyFor` | server/main.py:121-126 | non-empty new text answers `{"transcript": new}`, empty answers `{"status": "waiting"}`, both with status 200 |
| `StreamServer.RepeatedTranscriptWaits` | server/main.py:114-126 | the same transcript twice in a row answers "waiting" |
| `StreamServer.RestartReply` | server/main.py:116-117 | an unrelated non-empty transcript is sent whole, even if only whitespace; an empty one after a non-empty one answers "waiting" |
| `StreamServer.TwoChunkWalkthrough` | server/main.py:114-124 | transcripts "hel" then "hello" are answered "hel" then "lo" |
| `StreamServer.Server.constructor` | server/main.py:50-52 | the session starts with an empty buffer and an empty previous transcript |
| `StreamServer.Server.StreamChunk` | server/main.py:94-126 | without a provider or on an odd byte count: 500 and nothing changes; otherwise the buffer is the last 80,000 samples of all ever appended, the engine sees the whole buffer, the answer is the reconciled new part, and `prev_transcript` becomes the engine's transcript |
| `StreamServer.Server.SwitchProvider` | server/main.py:183-202 | an unlisted name answers 400, a constructor failure 500, both leaving provider and type unchanged; on success both are replaced together and the new config is returned |
| `Vad.Flatten` | server/vad_processor.py:35 | `np.concatenate` of the buffered frames: a single frame concatenates to itself; `FlattenAppend` gives its behaviour over a split list |
| `Vad.Sections` | server/vad_processor.py:18 | `count` consecutive pieces that concatenate to the input, the first `extras` one sample longer |
| `Vad.ArraySplit` | server/vad_processor.py:18 | `np.array_split(xs, n)`: ValueError for n = 0, else n pieces concatenating to `xs` with numpy's piece lengths |
| `Vad.Frames` | server/vad_processor.py:18 | the frames of `process_audio`: failure exactly below 320 samples, otherwise `len // 320` frames that concatenate back to the input |
| `Vad.FramesSpec` | server/vad_processor.py:7-23 | framing fails exactly below 320 samples; otherwise `len // 320` frames that concatenate to the input, none shorter than 320, all exactly 320 for a multiple of 320 |
| `Vad.FrameSizeOfRate` | server/vad_processor.py:5-7 | the 320-sample frame is 20 ms at 16,000 samples per second |
| `Vad.Step` | server/vad_processor.py:26-37 | one full-length frame: finalises exactly on a non-speech frame in speech with the counter already at 15, and the utterance is the buffered frames followed by that frame; otherwise a frame in or starting speech is appended to the buffer; a speech frame leaves the segmenter in speech with the counter at 0; silence outside speech changes nothing |
| `Vad.StepSpec` | server/vad_processor.py:26-37 | a speech frame is buffered and clears the counter; silence outside speech changes nothing; silence in speech is buffered and counted and finalises exactly on the 16th, yielding the buffer in order; the invariant is kept |
| `Vad.Run` | server/vad_processor.py:21-39 | the frame loop: no frames change nothing, and a call that yields an utterance leaves the segmenter idle |
| `Vad.Process` | server/vad_processor.py:17-39 | `process_audio` on a state: fails with numpy's ValueError exactly below 320 samples, and a call that yields an utterance leaves the segmenter idle |
| `Vad.RunSpec` | server/vad_processor.py:21-39 | a call keeps the invariant (buffer non-empty iff in speech, counter at most 15 and 0 outside speech); a finalising call leaves the segmenter idle and returns an utterance |
| `Vad.RunAppend` | server/vad_processor.py:21-39 | after a finalisation no further frame of the call is processed; otherwise the state carries over to the next frames |
| `Vad.SilenceOnly` | server/vad_processor.py:26-39 | silence alone never finalises and leaves an idle segmenter idle |
| `Vad.SpeechRun` | server/vad_processor.py:26-29 | speech frames are buffered in order and leave the counter at 0 |
| `Vad.TrailingSilence` | server/vad_processor.py:30-34 | up to 15 silent frames in speech are buffered and counted without finalising |
| `Vad.FinalSilence` | server/vad_processor.py:30-37 | with a clear counter, 16 silent frames finalise the buffer followed by those frames |
| `Vad.SpeechThenSilence` | server/vad_processor.py:26-37 | from idle, speech then 16 silent frames finalise exactly those frames |
| `Vad.SingleUtterance` | server/vad_processor.py:21-39 | silence, then speech, then 16 silent frames yield one utterance holding the speech and the trailing silence, and the segmenter is idle after it |
| `Vad.VadProcessor.constructor` | server/vad_processor.py:11-15 | the processor starts idle: empty buffer, counter 0, not in speech |
| `Vad.VadProcessor.Reset` | server/vad_processor.py:41-44 | all three fields return to their initial values |
| `Vad.VadProcessor.Advance` | server/vad_processor.py:26-34 | one full-length frame moves the fields exactly as `Step` does, and reports finalisation exactly when the 16th non-speech frame in a row arrives, with the buffer then holding the utterance |
| `Vad.VadProcessor.ProcessAudio` | server/vad_processor.py:17-39 | below 320 samples it fails and changes nothing; otherwise it returns the concatenated utterance if one was finalised (and is then idle), else nothing with the state carried over; the invariant is kept |
| `SttBase.Get` | server/stt/whisper_provider.py:40-44 | `dict.get`: the stored value when the key is present, the default otherwise |
| `SttBase.InitialConfig` | server/stt/base.py:19 | no config gives the empty map; a given config is kept as it is |
| `SttBase.Provider.constructor` | server/stt/base.py:12-19 | the provider stores `config or {}` |
| `SttBase.Provider.GetConfig` | server/stt/base.py:69-71 | returns a map equal to the provider's config, which later changes to the result cannot reach |
| `SttBase.Provider.UpdateConfig` | server/stt/base.py:73-75 | the given keys take the given values; every other key keeps its value; no key is lost |
| `Whisper.UseFasterWhisper` | server/stt/whisper_provider.py:44 | the configured `use_faster_whisper` entry, or, when absent, a value that is truthy exactly when faster-whisper imported |
| `Whisper.SelectBackend` | server/stt/whisper_provider.py:65-79 | faster-whisper iff requested and installed, else openai-whisper iff installed, else ImportError |
| `Whisper.ConstructionError` | server/stt/whisper_provider.py:36-79 | construction raises the "neither" ImportError when no engine is installed, and succeeds exactly when the back-end choice does |
| `Whisper.ConstructionFailsOnlyWithoutBackend` | server/stt/whisper_provider.py:36-79 | without `use_faster_whisper` construction fails iff neither engine is installed; with a falsy one, iff openai-whisper is missing |
| `Whisper.AcceptsLanguage` | server/stt/whisper_provider.py:155 | 'auto' is accepted, and an accepted setting reaches the engine as `None` exactly when it is 'auto' |
| `Whisper.EngineLanguage` | server/stt/whisper_provider.py:104 | the engine gets `None` exactly for 'auto' (or a `None` entry), otherwise the language itself |
| `Whisper.WhisperStt.Init` | server/stt/whisper_provider.py:27-47 | a constructed object stores the config and reads model, compute type, language, beam size and `use_faster_whisper` from it with their defaults |
| `Whisper.WhisperStt.Create` | server/stt/whisper_provider.py:27-47 | raises exactly as `ConstructionError` says; otherwise the config is stored as given, the defaults are 'tiny', 'int8', 'en' and 1, `use_faster_whisper` is read from the config with faster-whisper's availability as default, and the back end is the one `SelectBackend` chooses for it |
| `Whisper.WhisperStt.GetSupportedLanguages` | server/stt/whisper_provider.py:144-146 | the listed language codes |
| `Whisper.WhisperStt.SetLanguage` | server/stt/whisper_provider.py:148-159 | 'auto' or a listed code sets `language` and `config['language']`; anything else raises ValueError and changes nothing |
| `Whisper.WhisperStt.UpdateModel` | server/stt/whisper_provider.py:161-170 | sets `model_name` and `config['model']`; the back-end choice is re-run and keeps the back end |
| `Whisper.WhisperStt.GetModelInfo` | server/stt/whisper_provider.py:172-180 | name, type, language and beam size, with `compute_type` only for faster-whisper and `None` otherwise |
| `Deepgram.ApiKey` | server/stt/deepgram_provider.py:23 | the config's `api_key` when truthy, otherwise the environment's value |
| `Deepgram.AutoIsRejected` | server/stt/deepgram_provider.py:31-42 | 'auto' is not a Deepgram language, so Deepgram's `set_language('auto')` raises |
| `Deepgram.DeepgramStt.constructor` | server/stt/deepgram_provider.py:13-28 | stores the config; defaults 'en', 'nova-2', smart format and punctuation on; no client |
| `Deepgram.DeepgramStt.Transcribe` | server/stt/deepgram_provider.py:44-49 | always "" |
| `Deepgram.DeepgramStt.TranscribeStreaming` | server/stt/deepgram_provider.py:51-52 | always "" |
| `Deepgram.DeepgramStt.GetSupportedLanguages` | server/stt/deepgram_provider.py:54-56 | the listed language codes |
| `Deepgram.DeepgramStt.SetLanguage` | server/stt/deepgram_provider.py:58-69 | a listed code sets `language` and `config['language']`; anything else raises ValueError and changes nothing |
| `Deepgram.DeepgramStt.UpdateModel` | server/stt/deepgram_provider.py:71-79 | sets `model` and `config['model']` and nothing else |
| `Factory.Instantiate` | server/stt/factory.py:53 | constructing a class stores exactly the given config; Deepgram never fails; Whisper fails as its constructor says |
| `Factory.SttFactory.constructor` | server/stt/factory.py:8-31 | the registry holds 'deepgram' and then 'whisper', each only if its module imported |
| `Factory.SttFactory.CreateProvider` | server/stt/factory.py:33-53 | an unregistered name raises "Unsupported provider type" listing the registered names; otherwise the registered class built with exactly the given config |
| `Factory.SttFactory.GetAvailableProviders` | server/stt/factory.py:55-63 | every registered name exactly once |
| `Factory.SttFactory.RegisterProvider` | server/stt/factory.py:65-77 | a class not derived from `STTProvider` raises ValueError and changes nothing; otherwise that one name is inserted at the end or overwritten in place and is then available |
| `Factory.SttFactory.GetProviderInfo` | server/stt/factory.py:79-109 | an unknown name raises "not found"; otherwise name and class, plus languages and the empty default config when construction succeeds, else the constructor's error message |

## Left out

- The engines themselves are not modelled: faster-whisper's `WhisperModel`, `whisper.load_model`, `model.transcribe` and all of `server/whisper_wrapper.py`. `StreamChunk` takes the engine as an uninterpreted function. `WhisperSTT.transcribe` and `transcribe_streaming` are not modelled, because their whole effect is the engine call.
- The int16-to-float32 normalisation before transcription, because it is floating point.
- The temporary WAV file and soundfile I/O of the openai-whisper path.
- The webrtcvad classifier is a parameter. Its own restrictions on frame length are not modelled.
- Translation (`translate_with_openai`, the `/translate` routes, `server/indic_trans.py`): foreign ML and network calls.
- FastAPI route wiring, `.env` and environment reads, and the start-up provider selection with its fallback (`server/main.py:14-48`). The `Server` constructor takes whatever provider start-up produced.
- The `/stt/providers`, `/stt/current` and `/stt/language` endpoints. They are thin wrappers over `GetProviderInfo`, `GetConfig`/`GetSupportedLanguages` and `SetLanguage`, and those are modelled.
- Concurrency: the asynchronous endpoint shares the module globals across requests. The model is one sequential caller and claims no isolation between requests.
- Persistent-connection events, per-connection sessions and teardown flushes do not exist in this code and are not modelled.
- Config aliasing is not modelled. Python stores the caller's own dictionary, so `update_config` and `set_language` also change the caller's dictionary. Maps are values here.
- The insertion order of keys inside a config dictionary is not modelled. Config values are limited to `None`, booleans, integers and strings.
- A custom provider class is assumed to store its config as given and to report a fixed language list. Its other behaviour is not modelled.
- `Whisper.WhisperStt.Create`: a failure of the engine's own model loading inside `_initialize_model` is not modelled, only the back-end availability checks.
- `Whisper.WhisperStt.UpdateModel`: does not model a model-loading failure for the new model name. In the model, re-running the back-end choice cannot fail.
- `np.frombuffer` reads the host's native byte order. The model decodes little-endian, so it assumes the server runs on a little-endian host.
- An exception raised by a provider's `transcribe` inside `stream_chunk` is not modelled. The Whisper provider catches its own errors and returns "".
