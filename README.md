# OpenVoice V2 web UI: the `predict` pipeline in Dafny

This project models the request pipeline of the OpenVoice V2 local web UI
(`app_v2.py`). `predict` checks a request, then extracts the tone colour of
the reference speaker. Next it loads a MeloTTS text-to-speech model for the
selected language, or takes it from a process-wide cache. It synthesises
the text with the model's first speaker and loads that speaker's
precomputed source embedding. Last, it converts the base audio to the
reference speaker's voice, with the "@MyShell" watermark.

The neural models are oracles. A value of `Pipeline.Env` holds, for one
request, what each external call does:

- what the embedding extractor returns;
- which languages' `TTS(...)` constructors return;
- whether `tts_to_file` and `convert` return;
- which embedding files exist on disk.

A run records the external calls it makes, in order, as a sequence of
`Pipeline.Call`. That lets the proofs say that a call does not happen, and
what arguments the converter receives.

The model has six modules:

- `Text`: the Python string operations `predict` uses. These are
  `str.strip()`, with Python's whitespace set, and ASCII `str.lower()` and
  one-character `str.replace`.
- `SpeakerKeys`: the normalisation of a MeloTTS speaker name into the name
  of its embedding file.
- `Languages`: the `LANGUAGES` table and its `"EN"` default.
- `Paths`: the scratch, output and embedding-file paths.
- `Pipeline`: `predict` as a function of the converter, the model cache,
  the request and the oracles, with lemmas about single runs and about
  sequences of runs.
- `App`: the two globals `tone_color_converter` and `model_cache` as fields
  of a class. `load_models` and `predict` are methods of that class.
  `LoadModels` states its result directly. `GetTts` and `Predict` are
  proved to produce exactly the result of the specification functions
  `CacheLookup` and `Run`.

Three points of the code's control flow shape the model:

- The converter check comes second, after the consent check and before the
  text and reference-audio checks (app_v2.py:63-77).
- Extraction of the target embedding comes before the model lookup
  (app_v2.py:82-103), so a failed extraction never loads a model.
- Nothing catches an exception from `tts_to_file` (app_v2.py:116) or
  `convert` (app_v2.py:148). Such an exception escapes `predict` and is
  modelled as the outcome `Raised`. So are:
  - the `IndexError` for an empty speaker table (app_v2.py:109);
  - any `torch.load` failure other than a missing file (app_v2.py:140).

  A model loaded earlier in the same request stays cached when one of
  these escapes, because the insertion at app_v2.py:96 has already
  happened.

## Model

| member | source | states |
|---|---|---|
| Text.IsSpace | app_v2.py:71 | the code points Python's `str.isspace()` accepts, which `strip()` removes |
| Text.TrimStart | app_v2.py:71 | the result is a suffix of the input, everything dropped is whitespace, and it does not start with whitespace |
| Text.TrimEnd | app_v2.py:71 | the result is a prefix of the input, everything dropped is whitespace, and it does not end with whitespace |
| Text.Strip | app_v2.py:71 | `prompt.strip()` is the slice of the prompt left after cutting off a run of whitespace at each end, and has no whitespace at either end |
| Text.StripEmptyIffAllSpace | app_v2.py:71 | `prompt.strip()` is empty exactly when every character of the prompt is whitespace |
| Text.LowerChar | app_v2.py:130 | an upper-case ASCII letter maps to its lower-case letter, every other character to itself, and the result is never upper case |
| Text.Lower | app_v2.py:130 | `lower()` keeps the length and lowers each character in place |
| Text.Replace | app_v2.py:130 | `replace('_', '-')` keeps the length and swaps exactly the characters equal to the target |
| SpeakerKeys.Normalize | app_v2.py:130 | `speaker_key.lower().replace('_', '-')` keeps the length, transforms each character independently and always yields a key with no '_' and no upper-case ASCII |
| SpeakerKeys.NormalizeIdempotent | app_v2.py:130 | normalising a normalised key changes nothing |
| SpeakerKeys.NormalizeFixedIffCanonical | app_v2.py:130 | a key is left unchanged exactly when it has no '_' and no upper-case ASCII letter |
| SpeakerKeys.NormalizeSpellings | app_v2.py:127-130 | "EN-US", "EN_US" and "en_us" all name the embedding file "en-us" |
| Languages.LanguageCode | app_v2.py:79 | a listed label gets its table entry, any other label gets "EN", and the code is always a supported MeloTTS language |
| Languages.TableIsBijective | app_v2.py:42-52 | the table reaches exactly the six supported codes, each from one label only |
| Languages.LanguageCodeExamples | app_v2.py:79 | "Spanish" gives "ES", "English (American)" gives "EN", and an unlisted "German" falls back to "EN" |
| Paths.ScratchPath | app_v2.py:112 | the scratch file `outputs_v2/tmp_<language>.wav` |
| Paths.OutputPath | app_v2.py:119 | the output file `outputs_v2/output_v2_<language>.wav` |
| Paths.EmbeddingPath | app_v2.py:131 | the embedding file `checkpoints_v2/base_speakers/ses/<key>.pth` |
| Paths.LanguagePathsInjective | app_v2.py:112-119 | different languages never share a scratch file or an output file |
| Paths.EmbeddingPathInjective | app_v2.py:131 | different normalised keys never share an embedding file |
| Paths.PathKindsDisjoint | app_v2.py:112-131 | a scratch path, an output path and an embedding path never coincide, so a conversion never overwrites its input or an embedding |
| Paths.EnglishPaths | app_v2.py:112-131 | the literal scratch, output and embedding paths of an English request whose first speaker is "EN-US" |
| Pipeline.BlankPrompt | app_v2.py:71 | `not prompt or not prompt.strip()`: the prompt is absent, empty, or strips to empty |
| Pipeline.MissingAudio | app_v2.py:75 | `not ref_audio_path`: the reference audio is absent or empty |
| Pipeline.BlankPromptIffWhitespace | app_v2.py:71 | `not prompt or not prompt.strip()` holds exactly when the prompt is absent or all whitespace |
| Pipeline.Validate | app_v2.py:63-77 | each warning is given exactly when its check fails and every earlier check passes, in the order consent, converter, text, reference audio; no warning means all four pass |
| Pipeline.CacheLookup | app_v2.py:93-103 | a cached model is returned with no load; otherwise the load is recorded, a constructor that returns has its model inserted and returned, and a failed one inserts nothing; the cache only gains the requested language |
| Pipeline.Generate | app_v2.py:104-156 | generation ends with the output path, a missing-embedding warning or an escaped exception, and makes no extraction or model load |
| Pipeline.GenerationTrace | app_v2.py:104-156 | synthesis uses the first speaker and the scratch file; a failed synthesis raises with no call after it; only the first speaker's normalised embedding file is loaded; a missing file is exactly the missing-embedding outcome and then nothing is converted; the converter gets the scratch audio, the file's embedding as source, the extracted one as target, and the watermark; success means the conversion was the last call |
| Pipeline.Proceed | app_v2.py:79-156 | a failed extraction returns its warning after that one call, with the cache unchanged; a failed load leaves the cache unchanged with the language still absent; a load that succeeds leaves the model cached, whatever happens later; the cache only gains the language; success returns the language's output path |
| Pipeline.Run | app_v2.py:61-156 | a failed check returns its warning with no call and no cache change; the cache is only extended, and only by the request's language; a failed extraction loads nothing; a load that succeeds leaves the model cached even when a later call raises; success returns the language's output path |
| Pipeline.CallOrder | app_v2.py:82-103 | extraction is the first call and happens only once; a model load can only be the second call, is for the request's language, and happens only when it is not cached |
| Pipeline.ProceedCallOrder | app_v2.py:82-103 | after the checks, extraction is the first call and happens only once; a load can only be the second call, for the language, and only when it is not cached |
| Pipeline.ConversionArguments | app_v2.py:130-156 | on success the last call is the conversion, with the scratch audio, the stored embedding of the cached model's first speaker as `src_se`, the extracted embedding as `tgt_se`, the loaded converter and "@MyShell" |
| Pipeline.MissingEmbeddingStops | app_v2.py:130-145 | the missing-embedding warning is returned exactly when every earlier step succeeded and the first speaker's file is absent, and then the converter is never called |
| Pipeline.FailedLoadIsRetried | app_v2.py:93-101 | after a failed load, the next request for that language that gets past extraction tries the load again |
| Pipeline.RepeatedSuccess | app_v2.py:93-156 | repeating a successful request returns the same output path and cache, loads nothing, and converts into the same files |
| Pipeline.ProceedRepeated | app_v2.py:93-156 | after the checks, repeating a successful stage from the cache it left gives the same outcome and cache, loads nothing, and converts into the same files |
| Pipeline.Serve | app_v2.py:93-103 | over a sequence of requests there is one outcome per request, cached models are never replaced, and no cached language is loaded |
| Pipeline.RunLoadsAtMostOnce | app_v2.py:93-103 | one request loads a language at most once, never when it is cached, and a load leaves it cached |
| Pipeline.ServeLoadsAtMostOnce | app_v2.py:93-103 | over any sequence of requests, each language is loaded successfully at most once, and never when it was cached at the start |
| Pipeline.CompletesWhenCallsSucceed | app_v2.py:61-156 | when every check passes and every external call succeeds, `predict` returns the output path, caches the model, and makes exactly extraction, the load if needed, synthesis, the embedding load and the conversion, in that order |
| Pipeline.EnglishScenario | app_v2.py:61-156 | a first "Hello world" request in English, with speakers "EN-US" then "EN_INDIA": the "EN" model is loaded and cached, speaker 0 is used, the "en-us" embedding is loaded, and the watermarked conversion writes the English output file |
| App.ModelRegistry.constructor | app_v2.py:27-28 | at import there is no converter and the cache is empty |
| App.ModelRegistry.LoadModels | app_v2.py:30-38 | a converter is held exactly when its construction and checkpoint load both succeed; otherwise none |
| App.ModelRegistry.GetTts | app_v2.py:93-103 | the cache update in place gives the model, calls and cache of `CacheLookup`; a failed load leaves the cache unchanged |
| App.ModelRegistry.Predict | app_v2.py:61-156 | the imperative `predict` returns the outcome and calls of `Run` and leaves the cache `Run` gives; without consent it returns nothing, calls nothing and changes nothing |

## Left out

- The Gradio interface, the text of the warnings, the `print` calls and the `--share` flag: presentation only.
- The choice between `cuda:0` and `cpu`, and `os.makedirs(output_dir)`: these change neither the control flow nor the paths.
- The neural models themselves. Extraction, TTS loading, synthesis, `torch.load` and conversion are oracles in `Pipeline.Env`. Embeddings and models are opaque handles. Audio content and the bytes written to the scratch and output files are not modelled.
- `se_extractor.get_se`'s second result `audio_name`: `predict` never uses it.
- The `os.path.exists` check at app_v2.py:133-137: its only branch is `pass`, so the model has no step for it.
- Concurrent requests and `demo.queue()`: each `predict` is modelled as atomic. Duplicate loads of a language by two overlapping requests, and two requests sharing a scratch or output file, are therefore not captured.
- The demo `examples` list: it only pre-fills the UI.
- Text.LowerChar: lowers the ASCII letters 'A' to 'Z' only. Python's `str.lower()` also lowers non-ASCII letters, which MeloTTS speaker names do not contain.
- Text.Lower: inherits the ASCII-only lowering of `Text.LowerChar`.
- SpeakerKeys.Normalize: inherits the ASCII-only lowering of `Text.LowerChar`, so a key with a non-ASCII upper-case letter keeps that letter.
- Pipeline.Generate: the speaker id is the first entry's value in the model's speaker table, taken in the table's own order. Uniqueness of speaker names is not modelled, because `predict` only ever reads the first entry.
- A language label of `None` from the dropdown (app_v2.py:166): `LANGUAGES.get(None, "EN")` returns "EN", the same as for any unlisted label, so `Request.languageLabel` is a plain string and an unlisted string stands for `None`.
