/**
 * The process-wide state of app_v2.py and the operations that update it:
 * `load_models` sets the tone-colour converter once at start-up, and each
 * `predict` may insert a text-to-speech model into the cache.
 */
module App {
  import opened Pipeline
  import opened Languages

  /** The globals `tone_color_converter` and `model_cache`. */
  class ModelRegistry {
    var toneColorConverter: Option<Converter>
    var modelCache: map<string, TtsModel>

    /** The state when the module is imported: no converter and an empty cache. */
    constructor ()
      ensures toneColorConverter == None && modelCache == map[]
    {
      toneColorConverter := None;
      modelCache := map[];
    }

    /**
     * `load_models`: `created` is what the `ToneColorConverter(...)` constructor
     * returns (None if it raises) and `checkpointLoads` whether `load_ckpt`
     * returns normally; any failure leaves no converter, without raising.
     */
    method LoadModels(created: Option<Converter>, checkpointLoads: bool)
      modifies this`toneColorConverter
      ensures toneColorConverter.Some? <==> created.Some? && checkpointLoads
      ensures toneColorConverter.Some? ==> toneColorConverter == created
    {
      match created
      case None =>
        toneColorConverter := None;
      case Some(c) =>
        toneColorConverter := Some(c);
        if !checkpointLoads {
          toneColorConverter := None;
        }
    }

    /**
     * The get-or-load of `predict`: a cached model is returned as it is;
     * otherwise `TTS(language=...)` is called and, if it returns, inserted.
     */
    method GetTts(language: string, loadTts: map<string, TtsModel>) returns (model: Option<TtsModel>, calls: seq<Call>)
      modifies this`modelCache
      ensures Lookup(model, modelCache, calls) == CacheLookup(old(modelCache), language, loadTts)
      ensures Extends(modelCache, old(modelCache))
      ensures model.None? ==> modelCache == old(modelCache)
    {
      calls := [];
      if language !in modelCache {
        if language !in loadTts {
          return None, [LoadTts(language, false)];
        }
        modelCache := modelCache[language := loadTts[language]];
        calls := [LoadTts(language, true)];
      }
      model := Some(modelCache[language]);
    }

    /**
     * `predict`: the returned outcome, the calls made and the new cache are
     * those of the specification `Run`; the converter is never changed.
     */
    method Predict(req: Request, env: Env) returns (outcome: Outcome, calls: seq<Call>)
      modifies this`modelCache
      ensures Step(outcome, modelCache, calls) == Run(toneColorConverter, old(modelCache), req, env)
      ensures !req.agree ==> outcome == NoResult(ConsentMissing) && calls == [] && modelCache == old(modelCache)
      ensures Extends(modelCache, old(modelCache))
    {
      var w := Validate(toneColorConverter, req);
      if w.Some? {
        return NoResult(w.value), [];
      }
      var converter := toneColorConverter.value;
      var language := LanguageCode(req.languageLabel);
      calls := [Extract(req.refAudio.value, converter, ExtractorDir, true)];
      if env.extract.None? {
        return NoResult(ExtractionFailed), calls;
      }
      var targetSe := env.extract.value;
      var model, loadCalls := GetTts(language, env.loadTts);
      calls := calls + loadCalls;
      if model.None? {
        return NoResult(ModelLoadFailed), calls;
      }
      var generated := Generate(converter, model.value, req.prompt.value, language, targetSe, env);
      outcome := generated.outcome;
      calls := calls + generated.calls;
    }
  }
}
