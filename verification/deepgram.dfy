/**
 * The bookkeeping of `DeepgramSTT`: defaults, the API key fallback, the
 * language validator and model updates. Its transcription methods are
 * placeholders that always return the empty string.
 */
module Deepgram {
  import opened Wrappers
  import opened SttBase

  const ClassName := "DeepgramSTT"

  /** The supported language codes, as listed (duplicates included); 'auto' is not among them. */
  const Languages: seq<string> :=
    Row0 + Row1 + Row2 + Row3 + Row4 + Row5 + Row6 + Row7 + Row8 + Row9
  /** The list twelve codes at a time, so that membership can be decided row by row. */
  const Row0: seq<string> := ["en", "hi", "gu", "bn", "ta", "te", "ml", "kn", "mr", "pa", "or", "as"]
  const Row1: seq<string> := ["es", "fr", "de", "it", "pt", "ru", "ja", "ko", "zh", "ar", "tr", "pl"]
  const Row2: seq<string> := ["nl", "sv", "da", "no", "fi", "cs", "hu", "ro", "bg", "hr", "sk", "sl"]
  const Row3: seq<string> := ["et", "lv", "lt", "mt", "cy", "ga", "is", "mk", "sq", "sr", "uk", "be"]
  const Row4: seq<string> := ["ka", "hy", "az", "kk", "ky", "uz", "mn", "ne", "si", "my", "km", "lo"]
  const Row5: seq<string> := ["th", "vi", "id", "ms", "tl", "sw", "am", "ha", "ig", "yo", "zu", "xh"]
  const Row6: seq<string> := ["af", "sq", "eu", "ca", "gl", "is", "ga", "cy", "mt", "mk", "sq", "sr"]
  const Row7: seq<string> := ["uk", "be", "ka", "hy", "az", "kk", "ky", "uz", "mn", "ne", "si", "my"]
  const Row8: seq<string> := ["km", "lo", "th", "vi", "id", "ms", "tl", "sw", "am", "ha", "ig", "yo"]
  const Row9: seq<string> := ["zu", "xh", "af"]

  function UnsupportedLanguage(language: string): PyError {
    ValueError("Language '" + language + "' not supported. Supported languages: " + ListRepr(Languages))
  }

  /**
   * `config.get('api_key') or DEEPGRAM_API_KEY`: the configured key when it is
   * truthy, otherwise the environment's value (`VNull` when unset).
   */
  function ApiKey(config: Config, environmentKey: Value): (k: Value)
    ensures "api_key" in config && Truthy(config["api_key"]) ==> k == config["api_key"]
    ensures !("api_key" in config && Truthy(config["api_key"])) ==> k == environmentKey
  {
    var configured := Get(config, "api_key", VNull);
    if Truthy(configured) then configured else environmentKey
  }

  /** Unlike Whisper's, the Deepgram validator rejects 'auto'. */
  lemma AutoIsRejected()
    ensures "auto" !in Languages
  {
    assert "auto" !in Row0;
    assert "auto" !in Row1;
    assert "auto" !in Row2;
    assert "auto" !in Row3;
    assert "auto" !in Row4;
    assert "auto" !in Row5;
    assert "auto" !in Row6;
    assert "auto" !in Row7;
    assert "auto" !in Row8;
    assert "auto" !in Row9;
  }

  class DeepgramStt {
    /** The `STTProvider` part of the object, which owns `config`. */
    const base: Provider
    var apiKey: Value
    /** The SDK client; always `None` here, it is created lazily elsewhere. */
    var client: Value
    var language: Value
    var model: Value
    var smartFormat: Value
    var punctuate: Value

    /**
     * `DeepgramSTT(config)`: never raises; defaults are language 'en', model
     * 'nova-2', smart formatting and punctuation on.
     */
    constructor (config: Option<Config>, environmentKey: Value)
      ensures fresh(base) && base.config == InitialConfig(config)
      ensures apiKey == ApiKey(base.config, environmentKey) && client == VNull
      ensures language == Get(base.config, "language", VStr("en"))
      ensures model == Get(base.config, "model", VStr("nova-2"))
      ensures smartFormat == Get(base.config, "smart_format", VBool(true))
      ensures punctuate == Get(base.config, "punctuate", VBool(true))
    {
      var p := new Provider(config);
      var c := p.config;
      base := p;
      apiKey := ApiKey(c, environmentKey);
      client := VNull;
      language := Get(c, "language", VStr("en"));
      model := Get(c, "model", VStr("nova-2"));
      smartFormat := Get(c, "smart_format", VBool(true));
      punctuate := Get(c, "punctuate", VBool(true));
    }

    /** `transcribe`: a placeholder that returns "" whatever the audio. */
    function Transcribe(audio: seq<int>, sampleRate: int): (text: string)
      ensures text == ""
    {
      ""
    }

    /** `transcribe_streaming`: a placeholder that returns "" whatever the audio. */
    function TranscribeStreaming(audio: seq<int>, sampleRate: int): (text: string)
      ensures text == ""
    {
      ""
    }

    /** `get_supported_languages()`: a fresh copy of the listed codes. */
    function GetSupportedLanguages(): (r: seq<string>)
      ensures r == Languages
    {
      Languages
    }

    /**
     * `set_language`: a listed code sets both `language` and
     * `config['language']`; anything else raises ValueError and changes nothing.
     */
    method SetLanguage(code: string) returns (err: Option<PyError>)
      modifies this, base
      ensures code in Languages ==>
        (err.None? && language == VStr(code) && base.config == old(base.config)["language" := VStr(code)])
      ensures code !in Languages ==>
        (err == Some(UnsupportedLanguage(code)) && language == old(language) && base.config == old(base.config))
      ensures model == old(model) && apiKey == old(apiKey) && client == old(client)
      ensures smartFormat == old(smartFormat) && punctuate == old(punctuate)
    {
      if code in Languages {
        language := VStr(code);
        base.config := base.config["language" := VStr(code)];
        err := None;
      } else {
        err := Some(UnsupportedLanguage(code));
      }
    }

    /** `update_model`: sets `model` and `config['model']` and nothing else. */
    method UpdateModel(name: string)
      modifies this, base
      ensures model == VStr(name) && base.config == old(base.config)["model" := VStr(name)]
      ensures language == old(language) && apiKey == old(apiKey) && client == old(client)
      ensures smartFormat == old(smartFormat) && punctuate == old(punctuate)
    {
      model := VStr(name);
      base.config := base.config["model" := VStr(name)];
    }
  }
}
