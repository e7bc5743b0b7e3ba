/**
 * `STTFactory`: the class-level registry from provider names to provider
 * classes, in registration (dictionary insertion) order, and the lookups
 * over it.
 */
module Factory {
  import opened Wrappers
  import opened SttBase
  import Whisper
  import Deepgram

  /**
   * A provider class as the factory sees it. A custom class is described by
   * its name, whether it derives from `STTProvider`, the languages its
   * instances report and the exception its constructor raises, if any.
   */
  datatype ProviderClass =
    | DeepgramClass
    | WhisperClass
    | CustomClass(className: string, derivesFromBase: bool, languages: seq<string>,
                  constructorError: Option<PyError>)
  {
    /** `provider_class.__name__`. */
    function Name(): string {
      match this
      case DeepgramClass => Deepgram.ClassName
      case WhisperClass => Whisper.ClassName
      case CustomClass(n, _, _, _) => n
    }

    /** `issubclass(provider_class, STTProvider)`. */
    predicate IsSttProvider() {
      !CustomClass? || derivesFromBase
    }
  }

  /** What a constructed provider exposes through the base interface. */
  datatype Instance = Instance(className: string, config: Config, languages: seq<string>)

  /**
   * `provider_class(config)`. No provider constructor changes the config it
   * stores; Deepgram's never raises, Whisper's raises as `ConstructionError` says.
   */
  function Instantiate(cls: ProviderClass, config: Option<Config>, backends: Whisper.Backends)
    : (r: Result<Instance, PyError>)
    ensures r.Success? ==> r.value.className == cls.Name() && r.value.config == InitialConfig(config)
    ensures cls == DeepgramClass ==> r.Success? && r.value.languages == Deepgram.Languages
    ensures cls == WhisperClass ==>
      (r.Failure? <==> Whisper.ConstructionError(InitialConfig(config), backends).Some?)
    ensures cls == WhisperClass && r.Success? ==> r.value.languages == Whisper.Languages
  {
    match cls
    case DeepgramClass =>
      Success(Instance(cls.Name(), InitialConfig(config), Deepgram.Languages))
    case WhisperClass =>
      (match Whisper.ConstructionError(InitialConfig(config), backends)
       case Some(e) => Failure(e)
       case None => Success(Instance(cls.Name(), InitialConfig(config), Whisper.Languages)))
    case CustomClass(_, _, languages, constructorError) =>
      (match constructorError
       case Some(e) => Failure(e)
       case None => Success(Instance(cls.Name(), InitialConfig(config), languages)))
  }

  /** `get_provider_info(name)`: either languages and default config, or the constructor's error. */
  datatype ProviderInfo =
    | Info(name: string, className: string, supportedLanguages: seq<string>, defaultConfig: Config)
    | InfoError(name: string, className: string, error: string)

  const NotSttProviderMessage := "Provider class must inherit from STTProvider"

  function UnsupportedProvider(name: string, available: seq<string>): PyError {
    ValueError("Unsupported provider type: " + name + ". Available: " + Join(available, ", "))
  }

  function ProviderNotFound(name: string): PyError {
    ValueError("Provider type '" + name + "' not found")
  }

  predicate NoDuplicates(names: seq<string>) {
    forall i, j :: 0 <= i < j < |names| ==> names[i] != names[j]
  }

  class SttFactory {
    /** The registry's keys in insertion order. */
    var names: seq<string>
    var classes: map<string, ProviderClass>

    ghost predicate Valid()
      reads this
    {
      && NoDuplicates(names)
      && (forall n :: n in classes <==> n in names)
      && (forall n :: n in classes ==> classes[n].IsSttProvider())
    }

    /**
     * The registry at import time: 'deepgram' and then 'whisper', each only
     * when its module imported.
     */
    constructor (deepgramImported: bool, whisperImported: bool)
      ensures Valid()
      ensures names == (if deepgramImported then ["deepgram"] else []) + (if whisperImported then ["whisper"] else [])
      ensures "deepgram" in classes <==> deepgramImported
      ensures "whisper" in classes <==> whisperImported
      ensures deepgramImported ==> classes["deepgram"] == DeepgramClass
      ensures whisperImported ==> classes["whisper"] == WhisperClass
    {
      names := [];
      classes := map[];
      new;
      if deepgramImported {
        names := names + ["deepgram"];
        classes := classes["deepgram" := DeepgramClass];
      }
      if whisperImported {
        names := names + ["whisper"];
        classes := classes["whisper" := WhisperClass];
      }
    }

    /**
     * `create_provider(name, config)`: ValueError for an unregistered name;
     * otherwise the registered class constructed with exactly `config`.
     */
    function CreateProvider(name: string, config: Option<Config>, backends: Whisper.Backends)
      : (r: Result<Instance, PyError>)
      reads this
      ensures name !in classes ==> r == Failure(UnsupportedProvider(name, names))
      ensures name in classes ==> r == Instantiate(classes[name], config, backends)
      ensures r.Success? ==> name in classes && r.value.className == classes[name].Name()
                             && r.value.config == InitialConfig(config)
    {
      if name !in classes then Failure(UnsupportedProvider(name, names))
      else Instantiate(classes[name], config, backends)
    }

    /** `get_available_providers()`: every registered name once, in insertion order. */
    function GetAvailableProviders(): (r: seq<string>)
      requires Valid()
      reads this
      ensures NoDuplicates(r) && |r| == |classes|
      ensures forall n :: n in r <==> n in classes
    {
      DistinctCount(names, classes.Keys);
      names
    }

    /**
     * `register_provider(name, cls)`: a class that does not derive from
     * `STTProvider` is refused with ValueError and the registry is unchanged;
     * otherwise that one name is inserted (at the end) or overwritten (in place).
     */
    method RegisterProvider(name: string, cls: ProviderClass) returns (err: Option<PyError>)
      requires Valid()
      modifies this
      ensures Valid()
      ensures !cls.IsSttProvider() ==>
        (err == Some(ValueError(NotSttProviderMessage)) && names == old(names) && classes == old(classes))
      ensures cls.IsSttProvider() ==> (err.None? && classes == old(classes)[name := cls])
      ensures cls.IsSttProvider() && name in old(classes) ==> names == old(names)
      ensures cls.IsSttProvider() && name !in old(classes) ==> names == old(names) + [name]
      ensures cls.IsSttProvider() ==> name in GetAvailableProviders()
    {
      if !cls.IsSttProvider() {
        err := Some(ValueError(NotSttProviderMessage));
        return;
      }
      if name !in classes {
        names := names + [name];
      }
      classes := classes[name := cls];
      err := None;
    }

    /**
     * `get_provider_info(name)`: ValueError for an unregistered name;
     * otherwise name and class name, with the languages and config of an
     * instance built without config, or the constructor's error message.
     */
    function GetProviderInfo(name: string, backends: Whisper.Backends): (r: Result<ProviderInfo, PyError>)
      reads this
      ensures name !in classes <==> r == Failure(ProviderNotFound(name))
      ensures r.Success? ==> r.value.name == name && r.value.className == classes[name].Name()
      ensures r.Success? ==>
        (r.value.Info? <==> Instantiate(classes[name], None, backends).Success?)
      ensures r.Success? && r.value.Info? ==>
        r.value.defaultConfig == map[] && r.value.supportedLanguages == Instantiate(classes[name], None, backends).value.languages
      ensures r.Success? && r.value.InfoError? ==>
        r.value.error == Instantiate(classes[name], None, backends).error.Message()
    {
      if name !in classes then Failure(ProviderNotFound(name))
      else
        var cls := classes[name];
        match Instantiate(cls, None, backends)
        case Success(instance) => Success(Info(name, cls.Name(), instance.languages, instance.config))
        case Failure(e) => Success(InfoError(name, cls.Name(), e.Message()))
    }
  }

  /** A duplicate-free sequence has as many elements as the set of its elements. */
  lemma {:induction false} DistinctCount(names: seq<string>, keys: set<string>)
    requires NoDuplicates(names)
    requires forall n :: n in keys <==> n in names
    ensures |names| == |keys|
  {
    if names != [] {
      var rest := names[1..];
      assert forall n :: n in keys - {names[0]} <==> n in rest by {
        forall n ensures n in keys - {names[0]} <==> n in rest {
          if n in rest {
            var k :| 0 <= k < |rest| && rest[k] == n;
            assert names[k + 1] == n;
          }
          assert n in names ==> n == names[0] || n in rest by {
            assert names == [names[0]] + rest;
          }
        }
      }
      DistinctCount(rest, keys - {names[0]});
    } else {
      assert keys == {};
    }
  }
}
