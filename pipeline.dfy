/**
 * The orchestration inside `predict` (app_v2.py), as a function of the
 * process-wide state it reads (the tone-colour converter and the model cache),
 * the request, and the outcomes of the external calls it makes.
 *
 * The neural models are oracles: `Env` says, for one request, what the
 * speaker-embedding extractor returns, which text-to-speech models can be
 * constructed, whether synthesis and conversion return normally, and which
 * embedding files exist on disk. A run records the external calls it makes, in
 * order, so that "no call happens" and "the converter receives these
 * arguments" can be stated.
 */
module Pipeline {
  import opened Text
  import opened Languages
  import opened Paths
  import opened SpeakerKeys

  datatype Option<T> = None | Some(value: T)

  /** An opaque handle of the loaded tone-colour converter. */
  datatype Converter = Converter(id: nat)

  /** An opaque speaker embedding (a tensor in the source). */
  datatype Embedding = Embedding(id: nat)

  /** One entry of a text-to-speech model's speaker table (`hps.data.spk2id`). */
  datatype Speaker = Speaker(key: string, id: int)

  /** A loaded text-to-speech model; `speakers` lists its speaker table in iteration order. */
  datatype TtsModel = TtsModel(id: nat, speakers: seq<Speaker>)

  /** The four inputs of `predict`; Gradio passes `None` for an empty text box or audio field. */
  datatype Request = Request(prompt: Option<string>, languageLabel: string, refAudio: Option<string>, agree: bool)

  /** What `torch.load` finds at a path that exists. */
  datatype SeFile = Tensor(se: Embedding) | Unreadable

  /** The outcomes of the external calls of one request. */
  datatype Env = Env(
    extract: Option<Embedding>,         // se_extractor.get_se: the target embedding, or None if it raises
    loadTts: map<string, TtsModel>,     // the languages whose TTS(...) constructor returns, with the model
    synthesizes: bool,                  // tts_to_file returns normally
    seFiles: map<string, SeFile>,       // the files present on disk, by path
    converts: bool)                     // convert returns normally

  /** The warnings `predict` shows before returning `None`. */
  datatype Warning =
    | ConsentMissing
    | ConverterNotLoaded
    | EmptyText
    | NoReferenceAudio
    | ExtractionFailed
    | ModelLoadFailed
    | EmbeddingFileMissing

  /**
   * How `predict` ends: it returns the output path, returns `None` after a
   * warning, or lets an exception escape (the calls at app_v2.py:109, 116, 140
   * and 148 are not guarded by a handler that catches what they raise).
   */
  datatype Outcome = Output(path: string) | NoResult(warning: Warning) | Raised

  /** An external call made by `predict`, with its arguments. */
  datatype Call =
    | Extract(audio: string, converter: Converter, targetDir: string, vad: bool)
    | LoadTts(language: string, succeeded: bool)
    | Synthesize(model: TtsModel, text: string, speakerId: int, path: string, speed: real)
    | LoadEmbedding(path: string)
    | Convert(converter: Converter, src: string, srcSe: Embedding, tgtSe: Embedding, output: string, message: string)

  /** The result of the cache get-or-load: the model, if any, the new cache and the calls made. */
  datatype Lookup = Lookup(model: Option<TtsModel>, cache: map<string, TtsModel>, calls: seq<Call>)

  /** The result of one `predict`: its outcome, the model cache afterwards and the calls made. */
  datatype Step = Step(outcome: Outcome, cache: map<string, TtsModel>, calls: seq<Call>)

  /** The watermark passed to every conversion. */
  const Watermark: string := "@MyShell"
  /** The directory `se_extractor.get_se` caches its results in. */
  const ExtractorDir: string := "processed"
  /** The speed of the base synthesis. */
  const Speed: real := 1.0

  /** `not prompt or not prompt.strip()`. */
  predicate BlankPrompt(prompt: Option<string>) {
    prompt.None? || prompt.value == [] || Strip(prompt.value) == []
  }

  /** `not ref_audio_path`. */
  predicate MissingAudio(refAudio: Option<string>) {
    refAudio.None? || refAudio.value == []
  }

  /** The prompt is blank exactly when it is absent or made of whitespace only. */
  lemma BlankPromptIffWhitespace(prompt: Option<string>)
    ensures BlankPrompt(prompt) <==> prompt.None? || AllSpace(prompt.value)
  {
    if prompt.Some? {
      StripEmptyIffAllSpace(prompt.value);
    }
  }

  /**
   * The four checks of `predict`, in the order the code makes them; the first
   * one that fails decides the warning.
   */
  function Validate(converter: Option<Converter>, req: Request): (w: Option<Warning>)
    ensures w == Some(ConsentMissing) <==> !req.agree
    ensures w == Some(ConverterNotLoaded) <==> req.agree && converter.None?
    ensures w == Some(EmptyText) <==> req.agree && converter.Some? && BlankPrompt(req.prompt)
    ensures w == Some(NoReferenceAudio) <==>
              req.agree && converter.Some? && !BlankPrompt(req.prompt) && MissingAudio(req.refAudio)
    ensures w == None <==>
              req.agree && converter.Some? && !BlankPrompt(req.prompt) && !MissingAudio(req.refAudio)
  {
    if !req.agree then Some(ConsentMissing)
    else if converter.None? then Some(ConverterNotLoaded)
    else if BlankPrompt(req.prompt) then Some(EmptyText)
    else if MissingAudio(req.refAudio) then Some(NoReferenceAudio)
    else None
  }

  /** `cache` agrees with `cache'` on every key of `cache`. */
  predicate Extends(cache': map<string, TtsModel>, cache: map<string, TtsModel>) {
    forall k :: k in cache ==> k in cache' && cache'[k] == cache[k]
  }

  /**
   * The get-or-load of the text-to-speech model for `language`: a cached model
   * is used without a load; otherwise the model is constructed, and only a
   * successful construction is inserted.
   */
  function CacheLookup(cache: map<string, TtsModel>, language: string, loadTts: map<string, TtsModel>): (r: Lookup)
    ensures Extends(r.cache, cache) && r.cache.Keys <= cache.Keys + {language}
    ensures r.model.Some? <==> language in r.cache
    ensures r.model.Some? ==> r.cache[language] == r.model.value
    ensures r.model.None? ==> r.cache == cache
    ensures language in cache ==> r.calls == [] && r.model == Some(cache[language])
    ensures language !in cache ==> r.calls == [LoadTts(language, r.model.Some?)]
    ensures language !in cache && r.model.Some? ==> language in loadTts && r.model.value == loadTts[language]
    // a constructor that returns has its model inserted and returned
    ensures language !in cache && language in loadTts ==>
              r.model == Some(loadTts[language]) && r.cache == cache[language := loadTts[language]]
  {
    if language in cache then Lookup(Some(cache[language]), cache, [])
    else if language in loadTts then
      Lookup(Some(loadTts[language]), cache[language := loadTts[language]], [LoadTts(language, true)])
    else Lookup(None, cache, [LoadTts(language, false)])
  }

  /** The number of successful loads of `language` recorded in `calls`. */
  function LoadsOf(calls: seq<Call>, language: string): nat {
    if calls == [] then 0
    else (if calls[0] == LoadTts(language, true) then 1 else 0) + LoadsOf(calls[1..], language)
  }

  /** The path of the precomputed embedding of a model's first speaker. */
  function BaseEmbeddingPath(model: TtsModel): string
    requires model.speakers != []
  {
    EmbeddingPath(Normalize(model.speakers[0].key))
  }

  /** The outcome and the calls of the part of `predict` that follows the model lookup. */
  datatype Generation = Generation(outcome: Outcome, calls: seq<Call>)

  /**
   * Synthesis with the model's first speaker into the language's scratch file,
   * the load of that speaker's source embedding, and the conversion.
   */
  function Generate(converter: Converter, model: TtsModel, text: string, language: string, targetSe: Embedding, env: Env): (g: Generation)
    ensures g.outcome.Raised? || g.outcome.Output? || g.outcome == NoResult(EmbeddingFileMissing)
    ensures g.outcome.Output? ==> g.outcome.path == OutputPath(language)
    ensures forall c :: c in g.calls ==> !c.Extract? && !c.LoadTts?
  {
    if model.speakers == [] then Generation(Raised, [])
    else
      var speaker := model.speakers[0];
      var srcPath := ScratchPath(language);
      var synth := Synthesize(model, text, speaker.id, srcPath, Speed);
      if !env.synthesizes then Generation(Raised, [synth])
      else
        var savePath := OutputPath(language);
        var sePath := EmbeddingPath(Normalize(speaker.key));
        if sePath !in env.seFiles then Generation(NoResult(EmbeddingFileMissing), [synth, LoadEmbedding(sePath)])
        else
          match env.seFiles[sePath]
          case Unreadable => Generation(Raised, [synth, LoadEmbedding(sePath)])
          case Tensor(sourceSe) =>
            var calls := [synth, LoadEmbedding(sePath), Convert(converter, srcPath, sourceSe, targetSe, savePath, Watermark)];
            if !env.converts then Generation(Raised, calls) else Generation(Output(savePath), calls)
  }

  /** The calls of the generation stage and their arguments. */
  lemma GenerationTrace(converter: Converter, model: TtsModel, text: string, language: string, targetSe: Embedding, env: Env)
    // synthesis uses the first speaker of the table and writes the scratch file
    ensures var g := Generate(converter, model, text, language, targetSe, env);
            forall c :: c in g.calls && c.Synthesize? ==>
              model.speakers != [] && c.model == model && c.speakerId == model.speakers[0].id &&
              c.path == ScratchPath(language) && c.text == text && c.speed == Speed
    // a failing synthesis raises, and nothing is called after it
    ensures var g := Generate(converter, model, text, language, targetSe, env);
            model.speakers != [] && !env.synthesizes ==>
              g == Generation(Raised, [Synthesize(model, text, model.speakers[0].id, ScratchPath(language), Speed)])
    // only the first speaker's normalised embedding file is loaded
    ensures var g := Generate(converter, model, text, language, targetSe, env);
            forall c :: c in g.calls && c.LoadEmbedding? ==>
              model.speakers != [] && c.path == BaseEmbeddingPath(model)
    // a missing embedding file, and nothing else, ends the run with that warning and no conversion
    ensures var g := Generate(converter, model, text, language, targetSe, env);
            (exists c :: c in g.calls && c.LoadEmbedding? && c.path !in env.seFiles) <==>
              g.outcome == NoResult(EmbeddingFileMissing)
    ensures var g := Generate(converter, model, text, language, targetSe, env);
            g.outcome == NoResult(EmbeddingFileMissing) ==> forall c :: c in g.calls ==> !c.Convert?
    // the converter gets the scratch audio, the source then the target embedding, and the watermark
    ensures var g := Generate(converter, model, text, language, targetSe, env);
            forall c :: c in g.calls && c.Convert? ==>
              model.speakers != [] &&
              BaseEmbeddingPath(model) in env.seFiles && env.seFiles[BaseEmbeddingPath(model)] == Tensor(c.srcSe) &&
              c.tgtSe == targetSe && c.converter == converter &&
              c.src == ScratchPath(language) && c.output == OutputPath(language) && c.message == Watermark
    // success means the conversion returned, and it was the last call
    ensures var g := Generate(converter, model, text, language, targetSe, env);
            g.outcome.Output? ==> env.converts && g.calls != [] && g.calls[|g.calls| - 1].Convert?
  {
  }

  /**
   * The part of `predict` after the checks: extraction of the target
   * embedding from the reference audio, the model lookup for `language`, and
   * generation.
   */
  function Proceed(converter: Converter, cache: map<string, TtsModel>, text: string, audio: string, language: string, env: Env): (r: Step)
    ensures Extends(r.cache, cache) && r.cache.Keys <= cache.Keys + {language}
    // extraction comes before the model lookup: when it fails, nothing is loaded
    ensures env.extract.None? ==> r == Step(NoResult(ExtractionFailed), cache, [Extract(audio, converter, ExtractorDir, true)])
    // a failed load changes nothing, so the next request loads again
    ensures r.outcome == NoResult(ModelLoadFailed) ==> r.cache == cache && language !in cache
    ensures r.outcome.Output? ==> r.outcome.path == OutputPath(language)
    // a model that loads stays cached, whatever happens after the load
    ensures env.extract.Some? && language !in cache && language in env.loadTts ==>
              r.cache == cache[language := env.loadTts[language]]
  {
    var extract := Extract(audio, converter, ExtractorDir, true);
    match env.extract
    case None => Step(NoResult(ExtractionFailed), cache, [extract])
    case Some(targetSe) =>
      var got := CacheLookup(cache, language, env.loadTts);
      match got.model
      case None => Step(NoResult(ModelLoadFailed), got.cache, [extract] + got.calls)
      case Some(model) =>
        var g := Generate(converter, model, text, language, targetSe, env);
        Step(g.outcome, got.cache, [extract] + got.calls + g.calls)
  }

  /**
   * One call of `predict`, given the converter and model cache it starts from.
   */
  function Run(converter: Option<Converter>, cache: map<string, TtsModel>, req: Request, env: Env): (r: Step)
    // a failed check returns no result, makes no call and leaves the cache alone
    ensures Validate(converter, req).Some? ==>
              r == Step(NoResult(Validate(converter, req).value), cache, [])
    // the cache only ever gains the entry of the request's language
    ensures Extends(r.cache, cache)
    ensures r.cache.Keys <= cache.Keys + {LanguageCode(req.languageLabel)}
    ensures env.extract.None? ==> r.cache == cache && |r.calls| <= 1
    ensures r.outcome == NoResult(ModelLoadFailed) ==>
              r.cache == cache && LanguageCode(req.languageLabel) !in cache
    ensures r.outcome.Output? ==> r.outcome.path == OutputPath(LanguageCode(req.languageLabel))
    // a model that loads stays cached, even when a later call raises
    ensures var language := LanguageCode(req.languageLabel);
            Validate(converter, req).None? && env.extract.Some? && language !in cache && language in env.loadTts ==>
              r.cache == cache[language := env.loadTts[language]]
  {
    match Validate(converter, req)
    case Some(w) => Step(NoResult(w), cache, [])
    case None => Proceed(converter.value, cache, req.prompt.value, req.refAudio.value, LanguageCode(req.languageLabel), env)
  }

  /**
   * The order of the external calls: extraction first, then at most one load,
   * of the request's language and only when it is not cached, then generation.
   */
  lemma CallOrder(converter: Option<Converter>, cache: map<string, TtsModel>, req: Request, env: Env)
    ensures var r := Run(converter, cache, req, env);
            var language := LanguageCode(req.languageLabel);
            (r.calls != [] ==> r.calls[0] == Extract(req.refAudio.value, converter.value, ExtractorDir, true)) &&
            (forall i :: 0 <= i < |r.calls| && r.calls[i].LoadTts? ==>
               i == 1 && r.calls[i].language == language && language !in cache) &&
            (forall i :: 0 < i < |r.calls| ==> !r.calls[i].Extract?)
  {
    if Validate(converter, req).None? {
      ProceedCallOrder(converter.value, cache, req.prompt.value, req.refAudio.value, LanguageCode(req.languageLabel), env);
    }
  }

  /** `CallOrder` for the stage after the checks. */
  lemma ProceedCallOrder(converter: Converter, cache: map<string, TtsModel>, text: string, audio: string, language: string, env: Env)
    ensures var r := Proceed(converter, cache, text, audio, language, env);
            r.calls != [] && r.calls[0] == Extract(audio, converter, ExtractorDir, true) &&
            (forall i :: 0 <= i < |r.calls| && r.calls[i].LoadTts? ==>
               i == 1 && r.calls[i].language == language && language !in cache) &&
            (forall i :: 0 < i < |r.calls| ==> !r.calls[i].Extract?)
  {
    var r := Proceed(converter, cache, text, audio, language, env);
    if env.extract.Some? {
      var got := CacheLookup(cache, language, env.loadTts);
      if got.model.Some? {
        var g := Generate(converter, got.model.value, text, language, env.extract.value, env);
        assert r.calls == [r.calls[0]] + got.calls + g.calls;
        forall i | 0 < i < |r.calls|
          ensures !r.calls[i].Extract?
          ensures r.calls[i].LoadTts? ==> i == 1 && r.calls[i].language == language && language !in cache
        {
          if i > |got.calls| {
            assert r.calls[i] == g.calls[i - 1 - |got.calls|];
            assert r.calls[i] in g.calls;
          }
        }
      }
    }
  }

  /**
   * On a completed run the converter received the scratch audio of the
   * request's language, the embedding file of the cached model's first
   * speaker as source, the extracted embedding as target, and the watermark.
   */
  lemma ConversionArguments(converter: Option<Converter>, cache: map<string, TtsModel>, req: Request, env: Env)
    requires Run(converter, cache, req, env).outcome.Output?
    ensures var r := Run(converter, cache, req, env);
            var language := LanguageCode(req.languageLabel);
            language in r.cache && r.cache[language].speakers != [] &&
            var model := r.cache[language];
            r.calls != [] &&
            var c := r.calls[|r.calls| - 1];
            c.Convert? && c.src == ScratchPath(language) && c.output == OutputPath(language) &&
            BaseEmbeddingPath(model) in env.seFiles && env.seFiles[BaseEmbeddingPath(model)] == Tensor(c.srcSe) &&
            env.extract == Some(c.tgtSe) && converter == Some(c.converter) && c.message == Watermark
  {
    var r := Run(converter, cache, req, env);
    var language := LanguageCode(req.languageLabel);
    var got := CacheLookup(cache, language, env.loadTts);
    var g := Generate(converter.value, got.model.value, req.prompt.value, language, env.extract.value, env);
    GenerationTrace(converter.value, got.model.value, req.prompt.value, language, env.extract.value, env);
    assert r.calls[|r.calls| - 1] == g.calls[|g.calls| - 1];
    assert g.calls[|g.calls| - 1] in g.calls;
  }

  /**
   * A missing source-embedding file yields its own warning, and the converter
   * is then never called; conversely that warning means the file was looked
   * up and missing.
   */
  lemma MissingEmbeddingStops(converter: Option<Converter>, cache: map<string, TtsModel>, req: Request, env: Env)
    ensures var r := Run(converter, cache, req, env);
            var language := LanguageCode(req.languageLabel);
            r.outcome == NoResult(EmbeddingFileMissing) <==>
              (Validate(converter, req).None? && env.extract.Some? && language in r.cache &&
               r.cache[language].speakers != [] && env.synthesizes &&
               BaseEmbeddingPath(r.cache[language]) !in env.seFiles)
    ensures var r := Run(converter, cache, req, env);
            r.outcome == NoResult(EmbeddingFileMissing) ==> forall c :: c in r.calls ==> !c.Convert?
  {
    var r := Run(converter, cache, req, env);
    if Validate(converter, req).None? && env.extract.Some? {
      var language := LanguageCode(req.languageLabel);
      var got := CacheLookup(cache, language, env.loadTts);
      if got.model.Some? {
        var g := Generate(converter.value, got.model.value, req.prompt.value, language, env.extract.value, env);
        GenerationTrace(converter.value, got.model.value, req.prompt.value, language, env.extract.value, env);
        assert r.calls == [r.calls[0]] + got.calls + g.calls;
        if g.outcome == NoResult(EmbeddingFileMissing) {
          forall c | c in r.calls ensures !c.Convert? {
            assert c in [r.calls[0]] + got.calls || c in g.calls;
          }
        }
      }
    }
  }

  /**
   * After a failed load, the next request for the same language that gets past
   * extraction loads the model again.
   */
  lemma FailedLoadIsRetried(converter: Option<Converter>, cache: map<string, TtsModel>, req: Request, env: Env, env': Env)
    requires Run(converter, cache, req, env).outcome == NoResult(ModelLoadFailed)
    requires env'.extract.Some?
    ensures var language := LanguageCode(req.languageLabel);
            var again := Run(converter, Run(converter, cache, req, env).cache, req, env');
            |again.calls| >= 2 && again.calls[1] == LoadTts(language, language in env'.loadTts)
  {
  }

  /**
   * Repeating a successful request with the same oracles makes no load and
   * returns the same output path, overwriting the same files.
   */
  lemma RepeatedSuccess(converter: Option<Converter>, cache: map<string, TtsModel>, req: Request, env: Env)
    requires Run(converter, cache, req, env).outcome.Output?
    ensures var first := Run(converter, cache, req, env);
            var second := Run(converter, first.cache, req, env);
            second.outcome == first.outcome && second.cache == first.cache &&
            (forall c :: c in second.calls ==> !c.LoadTts?) &&
            (forall c :: c in second.calls && c.Convert? ==> c in first.calls)
  {
    ProceedRepeated(converter.value, cache, req.prompt.value, req.refAudio.value, LanguageCode(req.languageLabel), env);
  }

  /** `RepeatedSuccess` for the stage after the checks, which do not depend on the cache. */
  lemma ProceedRepeated(converter: Converter, cache: map<string, TtsModel>, text: string, audio: string, language: string, env: Env)
    requires Proceed(converter, cache, text, audio, language, env).outcome.Output?
    ensures var first := Proceed(converter, cache, text, audio, language, env);
            var second := Proceed(converter, first.cache, text, audio, language, env);
            second.outcome == first.outcome && second.cache == first.cache &&
            (forall c :: c in second.calls ==> !c.LoadTts?) &&
            (forall c :: c in second.calls && c.Convert? ==> c in first.calls)
  {
    var first := Proceed(converter, cache, text, audio, language, env);
    var got := CacheLookup(cache, language, env.loadTts);
    var model := got.model.value;
    var g := Generate(converter, model, text, language, env.extract.value, env);
    assert first.calls == [first.calls[0]] + got.calls + g.calls;
    assert CacheLookup(first.cache, language, env.loadTts) == Lookup(Some(model), first.cache, []);
    var second := Proceed(converter, first.cache, text, audio, language, env);
    assert second.calls == [second.calls[0]] + g.calls;
    forall c | c in second.calls && c.Convert? ensures c in first.calls {
      assert c in g.calls;
    }
  }

  /** The requests a server handles one after another, sharing the model cache. */
  datatype Served = Served(outcomes: seq<Outcome>, cache: map<string, TtsModel>, calls: seq<Call>)

  /** `predict` applied to each request of `batch` in turn, each with its own oracle outcomes. */
  function Serve(converter: Option<Converter>, cache: map<string, TtsModel>, batch: seq<(Request, Env)>): (r: Served)
    ensures |r.outcomes| == |batch|
    ensures Extends(r.cache, cache)
    ensures forall c :: c in r.calls && c.LoadTts? ==> c.language !in cache
    decreases |batch|
  {
    if batch == [] then Served([], cache, [])
    else
      var first := Run(converter, cache, batch[0].0, batch[0].1);
      var rest := Serve(converter, first.cache, batch[1..]);
      CallOrder(converter, cache, batch[0].0, batch[0].1);
      Served([first.outcome] + rest.outcomes, rest.cache, first.calls + rest.calls)
  }

  lemma {:induction false} LoadsOfAppend(a: seq<Call>, b: seq<Call>, language: string)
    ensures LoadsOf(a + b, language) == LoadsOf(a, language) + LoadsOf(b, language)
  {
    if a == [] {
      assert a + b == b;
    } else {
      assert (a + b)[0] == a[0];
      assert (a + b)[1..] == a[1..] + b;
      LoadsOfAppend(a[1..], b, language);
    }
  }

  /** One request loads a language at most once, and not at all when it is cached. */
  lemma RunLoadsAtMostOnce(converter: Option<Converter>, cache: map<string, TtsModel>, req: Request, env: Env, language: string)
    ensures var r := Run(converter, cache, req, env);
            LoadsOf(r.calls, language) <= 1 &&
            (LoadsOf(r.calls, language) == 1 ==> language !in cache && language in r.cache) &&
            (language in cache ==> LoadsOf(r.calls, language) == 0)
  {
    var r := Run(converter, cache, req, env);
    var wanted := LanguageCode(req.languageLabel);
    if Validate(converter, req).None? && env.extract.Some? {
      var extract := r.calls[0];
      var got := CacheLookup(cache, wanted, env.loadTts);
      var rest: seq<Call> := [];
      if got.model.Some? {
        rest := Generate(converter.value, got.model.value, req.prompt.value, wanted, env.extract.value, env).calls;
      }
      assert r.calls == [extract] + got.calls + rest;
      NoLoadsIn(rest, language);
      LoadsOfAppend([extract] + got.calls, rest, language);
      LoadsOfAppend([extract], got.calls, language);
      assert LoadsOf([extract], language) == 0;
      if got.calls != [] {
        assert got.calls == [got.calls[0]];
        assert LoadsOf(got.calls, language) == (if got.calls[0] == LoadTts(language, true) then 1 else 0);
      }
    }
  }

  lemma {:induction false} NoLoadsIn(calls: seq<Call>, language: string)
    requires forall c :: c in calls ==> !c.LoadTts?
    ensures LoadsOf(calls, language) == 0
  {
    if calls != [] {
      assert calls[0] in calls;
      NoLoadsIn(calls[1..], language);
    }
  }

  /**
   * Over any sequence of requests, each language is loaded successfully at most
   * once, and never if it was cached at the start: a loaded model is reused.
   */
  lemma {:induction false} ServeLoadsAtMostOnce(converter: Option<Converter>, cache: map<string, TtsModel>, batch: seq<(Request, Env)>, language: string)
    ensures LoadsOf(Serve(converter, cache, batch).calls, language) <= 1
    ensures language in cache ==> LoadsOf(Serve(converter, cache, batch).calls, language) == 0
    decreases |batch|
  {
    if batch != [] {
      var first := Run(converter, cache, batch[0].0, batch[0].1);
      var rest := Serve(converter, first.cache, batch[1..]);
      LoadsOfAppend(first.calls, rest.calls, language);
      RunLoadsAtMostOnce(converter, cache, batch[0].0, batch[0].1, language);
      ServeLoadsAtMostOnce(converter, first.cache, batch[1..], language);
    }
  }

  /**
   * When every check passes and every external call succeeds, `predict`
   * returns the language's output path, having cached the model and made
   * exactly these calls, in this order.
   */
  lemma CompletesWhenCallsSucceed(converter: Converter, cache: map<string, TtsModel>, req: Request, env: Env,
                                  model: TtsModel, sourceSe: Embedding, targetSe: Embedding)
    requires Validate(Some(converter), req).None?
    requires env.extract == Some(targetSe)
    requires var language := LanguageCode(req.languageLabel);
             if language in cache then cache[language] == model
             else language in env.loadTts && env.loadTts[language] == model
    requires model.speakers != [] && env.synthesizes && env.converts
    requires BaseEmbeddingPath(model) in env.seFiles && env.seFiles[BaseEmbeddingPath(model)] == Tensor(sourceSe)
    ensures var language := LanguageCode(req.languageLabel);
            var r := Run(Some(converter), cache, req, env);
            r.outcome == Output(OutputPath(language)) && r.cache == cache[language := model] &&
            r.calls == [Extract(req.refAudio.value, converter, ExtractorDir, true)] +
                       (if language in cache then [] else [LoadTts(language, true)]) +
                       [Synthesize(model, req.prompt.value, model.speakers[0].id, ScratchPath(language), Speed),
                        LoadEmbedding(BaseEmbeddingPath(model)),
                        Convert(converter, ScratchPath(language), sourceSe, targetSe, OutputPath(language), Watermark)]
  {
    var language := LanguageCode(req.languageLabel);
    if language in cache {
      assert cache[language := model] == cache;
    }
  }

  /**
   * A first request for "Hello world" in English against stub models: the
   * "EN" model is loaded and cached, its first speaker "EN-US" is used, its
   * embedding is looked up under "en-us", and the watermarked conversion
   * writes the English output file.
   */
  lemma EnglishScenario(converter: Converter, model: TtsModel, sourceSe: Embedding, targetSe: Embedding,
                        audio: string, req: Request, env: Env)
    requires audio != []
    requires model.speakers == [Speaker("EN-US", 0), Speaker("EN_INDIA", 1)]
    requires req == Request(Some("Hello world"), "English (American)", Some(audio), true)
    requires env == Env(Some(targetSe), map["EN" := model], true, map[EmbeddingPath("en-us") := Tensor(sourceSe)], true)
    ensures Run(Some(converter), map[], req, env).outcome == Output(OutputPath("EN"))
    ensures Run(Some(converter), map[], req, env).cache == map["EN" := model]
    // extraction, the load of "EN", then synthesis, the embedding load and the conversion
    ensures Run(Some(converter), map[], req, env).calls ==
            [Extract(audio, converter, ExtractorDir, true)] + [LoadTts("EN", true)] +
            [Synthesize(model, "Hello world", 0, ScratchPath("EN"), Speed),
             LoadEmbedding(EmbeddingPath("en-us")),
             Convert(converter, ScratchPath("EN"), sourceSe, targetSe, OutputPath("EN"), Watermark)]
  {
    assert Validate(Some(converter), req).None? by {
      var text := "Hello world";
      assert !IsSpace(text[0]);
      BlankPromptIffWhitespace(Some(text));
    }
    assert BaseEmbeddingPath(model) == EmbeddingPath("en-us") by {
      NormalizeSpellings();
    }
    LanguageCodeExamples();
    CompletesWhenCallsSucceed(converter, map[], req, env, model, sourceSe, targetSe);
  }
}
