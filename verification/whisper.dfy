/**
 * The bookkeeping of `WhisperSTT`: configuration defaults, the choice between
 * the faster-whisper and openai-whisper back ends, the language validator and
 * model updates. Loading a model and running it are foreign calls and are
 * not part of this model.
 */
module Whisper {
  import opened Wrappers
  import opened SttBase

  /** Which of the two optional engine packages imported successfully. */
  datatype Backends = Backends(fasterWhisper: bool, openaiWhisper: bool)

  /** `model_type`. */
  datatype ModelType = FasterWhisper | OpenAiWhisper

  const ClassName := "WhisperSTT"
  const NeitherMessage := "Neither faster-whisper nor openai-whisper is available. Please install one of them."
  const NoImplementationMessage := "No Whisper implementation available"

  /** The supported language codes, as listed (duplicates included). */
  const Languages: seq<string> :=
    ["en", "hi", "gu", "bn", "ta", "te", "ml", "kn", "mr", "pa", "or", "as"] +
    ["es", "fr", "de", "it", "pt", "ru", "ja", "ko", "zh", "ar", "tr", "pl"] +
    ["nl", "sv", "da", "no", "fi", "cs", "hu", "ro", "bg", "hr", "sk", "sl"] +
    ["et", "lv", "lt", "mt", "cy", "ga", "is", "mk", "sq", "sr", "uk", "be"] +
    ["ka", "hy", "az", "kk", "ky", "uz", "mn", "ne", "si", "my", "km", "lo"] +
    ["th", "vi", "id", "ms", "tl", "sw", "am", "ha", "ig", "yo", "zu", "xh"] +
    ["af", "eu", "ca", "gl", "he", "fa", "ur", "ps", "sd", "dv", "bo", "dz"] +
    ["ti", "om", "so", "rw", "rn", "ny", "sn", "st", "tn", "ts", "ve", "xh"] +
    ["zu", "ss", "nr", "nso", "zu", "xh", "af", "sq", "eu", "ca", "gl", "is"] +
    ["ga", "cy", "mt", "mk", "sq", "sr", "uk", "be", "ka", "hy", "az", "kk"] +
    ["ky", "uz", "mn", "ne", "si", "my", "km", "lo", "th", "vi", "id", "ms"] +
    ["tl", "sw", "am", "ha", "ig", "yo", "zu", "xh", "af"]

  /** `use_faster_whisper`: the config entry, defaulting to whether faster-whisper imported. */
  function UseFasterWhisper(config: Config, backends: Backends): (v: Value)
    ensures "use_faster_whisper" in config ==> v == config["use_faster_whisper"]
    ensures "use_faster_whisper" !in config ==> (Truthy(v) <==> backends.fasterWhisper)
  {
    Get(config, "use_faster_whisper", VBool(backends.fasterWhisper))
  }

  /**
   * `_initialize_model`'s choice: faster-whisper when it is asked for and
   * installed, otherwise openai-whisper when installed, otherwise ImportError.
   */
  function SelectBackend(useFasterWhisper: Value, backends: Backends): (r: Result<ModelType, PyError>)
    ensures r == Success(FasterWhisper) <==> Truthy(useFasterWhisper) && backends.fasterWhisper
    ensures r == Success(OpenAiWhisper) <==>
              !(Truthy(useFasterWhisper) && backends.fasterWhisper) && backends.openaiWhisper
    ensures r.Failure? <==> !(Truthy(useFasterWhisper) && backends.fasterWhisper) && !backends.openaiWhisper
    ensures r.Failure? ==> r.error == ImportError(NoImplementationMessage)
  {
    if Truthy(useFasterWhisper) && backends.fasterWhisper then Success(FasterWhisper)
    else if backends.openaiWhisper then Success(OpenAiWhisper)
    else Failure(ImportError(NoImplementationMessage))
  }

  /**
   * The exception `WhisperSTT(config)` raises, if any: the availability check
   * of the constructor first, then the back-end choice.
   */
  function ConstructionError(config: Config, backends: Backends): (r: Option<PyError>)
    ensures !backends.fasterWhisper && !backends.openaiWhisper ==> r == Some(ImportError(NeitherMessage))
    ensures r.None? <==> SelectBackend(UseFasterWhisper(config, backends), backends).Success?
  {
    if !backends.fasterWhisper && !backends.openaiWhisper then Some(ImportError(NeitherMessage))
    else match SelectBackend(UseFasterWhisper(config, backends), backends)
      case Success(_) => None
      case Failure(e) => Some(e)
  }

  /**
   * With no `use_faster_whisper` entry construction fails exactly when neither
   * engine package is installed; an explicit falsy entry also makes it fail
   * when only faster-whisper is installed.
   */
  lemma ConstructionFailsOnlyWithoutBackend(config: Config, backends: Backends)
    ensures "use_faster_whisper" !in config ==>
      (ConstructionError(config, backends).Some? <==> !backends.fasterWhisper && !backends.openaiWhisper)
    ensures "use_faster_whisper" in config && !Truthy(config["use_faster_whisper"]) ==>
      (ConstructionError(config, backends).Some? <==> !backends.openaiWhisper)
  {
  }

  /** `set_language` accepts 'auto' and every listed code. */
  predicate AcceptsLanguage(language: string)
    ensures language == "auto" ==> AcceptsLanguage(language)
    ensures AcceptsLanguage(language) ==> (EngineLanguage(VStr(language)) == VNull <==> language == "auto")
  {
    language == "auto" || language in Languages
  }

  function UnsupportedLanguage(language: string): PyError {
    ValueError("Language '" + language + "' not supported. Use 'auto' or one of: " + ListRepr(Languages))
  }

  /** The `language` argument handed to the engine: `None` for 'auto' (and for a `None` entry). */
  function EngineLanguage(language: Value): (r: Value)
    ensures r == VNull <==> language == VStr("auto") || language == VNull
    ensures r != VNull ==> r == language
  {
    if language != VStr("auto") then language else VNull
  }

  /** `get_model_info()`. */
  datatype ModelInfo = ModelInfo(modelName: Value, modelType: ModelType, computeType: Value,
                                 language: Value, beamSize: Value)

  class WhisperStt {
    /** The `STTProvider` part of the object, which owns `config`. */
    const base: Provider
    /** The import results the module saw; fixed for the life of the process. */
    const backends: Backends
    var modelName: Value
    var computeType: Value
    var language: Value
    var beamSize: Value
    var useFasterWhisper: Value
    var modelType: ModelType

    /** The object invariant: the recorded back end is the one the settings select. */
    ghost predicate Valid()
      reads this
    {
      SelectBackend(useFasterWhisper, backends) == Success(modelType)
    }

    /** The state of a successfully constructed object; `Create` decides whether construction succeeds. */
    constructor Init(config: Option<Config>, backends: Backends)
      requires ConstructionError(InitialConfig(config), backends).None?
      ensures Valid() && fresh(base)
      ensures base.config == InitialConfig(config) && this.backends == backends
      ensures modelName == Get(base.config, "model", VStr("tiny"))
      ensures computeType == Get(base.config, "compute_type", VStr("int8"))
      ensures language == Get(base.config, "language", VStr("en"))
      ensures beamSize == Get(base.config, "beam_size", VInt(1))
      ensures useFasterWhisper == UseFasterWhisper(base.config, backends)
    {
      var p := new Provider(config);
      var c := p.config;
      base := p;
      this.backends := backends;
      modelName := Get(c, "model", VStr("tiny"));
      computeType := Get(c, "compute_type", VStr("int8"));
      language := Get(c, "language", VStr("en"));
      beamSize := Get(c, "beam_size", VInt(1));
      useFasterWhisper := UseFasterWhisper(c, backends);
      modelType := SelectBackend(UseFasterWhisper(c, backends), backends).value;
    }

    /**
     * `WhisperSTT(config)`: raises exactly when `ConstructionError` says so;
     * otherwise the defaults are model 'tiny', compute type 'int8', language
     * 'en' and beam size 1, and the config is stored as given.
     */
    static method Create(config: Option<Config>, backends: Backends) returns (r: Result<WhisperStt, PyError>)
      ensures r.Failure? <==> ConstructionError(InitialConfig(config), backends).Some?
      ensures r.Failure? ==> Some(r.error) == ConstructionError(InitialConfig(config), backends)
      ensures r.Success? ==> fresh(r.value) && fresh(r.value.base) && r.value.Valid()
      ensures r.Success? ==> r.value.base.config == InitialConfig(config) && r.value.backends == backends
      ensures r.Success? ==> r.value.useFasterWhisper == UseFasterWhisper(InitialConfig(config), backends)
      ensures r.Success? ==> r.value.modelName == Get(InitialConfig(config), "model", VStr("tiny"))
      ensures r.Success? ==> r.value.computeType == Get(InitialConfig(config), "compute_type", VStr("int8"))
      ensures r.Success? ==> r.value.language == Get(InitialConfig(config), "language", VStr("en"))
      ensures r.Success? ==> r.value.beamSize == Get(InitialConfig(config), "beam_size", VInt(1))
    {
      var err := ConstructionError(InitialConfig(config), backends);
      if err.Some? {
        r := Failure(err.value);
      } else {
        var w := new WhisperStt.Init(config, backends);
        r := Success(w);
      }
    }

    /** `get_supported_languages()`: a fresh copy of the listed codes. */
    function GetSupportedLanguages(): (r: seq<string>)
      ensures r == Languages
    {
      Languages
    }

    /**
     * `set_language`: 'auto' or a listed code sets both `language` and
     * `config['language']`; anything else raises ValueError and changes nothing.
     */
    method SetLanguage(code: string) returns (err: Option<PyError>)
      requires Valid()
      modifies this, base
      ensures Valid()
      ensures AcceptsLanguage(code) ==>
        (err.None? && language == VStr(code) && base.config == old(base.config)["language" := VStr(code)])
      ensures !AcceptsLanguage(code) ==>
        (err == Some(UnsupportedLanguage(code)) && language == old(language) && base.config == old(base.config))
      ensures modelName == old(modelName) && computeType == old(computeType) && beamSize == old(beamSize)
      ensures useFasterWhisper == old(useFasterWhisper) && modelType == old(modelType)
    {
      if code == "auto" || code in Languages {
        language := VStr(code);
        base.config := base.config["language" := VStr(code)];
        err := None;
      } else {
        err := Some(UnsupportedLanguage(code));
      }
    }

    /**
     * `update_model`: sets `model_name` and `config['model']`, then re-runs the
     * back-end choice, which under the object invariant picks the same back
     * end again and cannot fail.
     */
    method UpdateModel(name: string) returns (err: Option<PyError>)
      requires Valid()
      modifies this, base
      ensures Valid() && err.None?
      ensures modelName == VStr(name) && base.config == old(base.config)["model" := VStr(name)]
      ensures modelType == old(modelType) && language == old(language) && computeType == old(computeType)
      ensures beamSize == old(beamSize) && useFasterWhisper == old(useFasterWhisper)
    {
      modelName := VStr(name);
      base.config := base.config["model" := VStr(name)];
      match SelectBackend(useFasterWhisper, backends)
      case Success(t) =>
        modelType := t;
        err := None;
      case Failure(e) =>
        err := Some(e);
    }

    /** `get_model_info()`: `compute_type` is reported only for faster-whisper. */
    function GetModelInfo(): (info: ModelInfo)
      reads this
      ensures info.modelName == modelName && info.modelType == modelType
      ensures info.computeType == if modelType == FasterWhisper then computeType else VNull
      ensures info.language == language && info.beamSize == beamSize
    {
      ModelInfo(modelName, modelType, if modelType == FasterWhisper then computeType else VNull,
                language, beamSize)
    }
  }
}
