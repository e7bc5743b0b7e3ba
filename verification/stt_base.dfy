/**
 * The part of the `STTProvider` base class that is not a foreign call: the
 * provider's configuration dictionary, with the values Python allows in it.
 */
module SttBase {
  import opened Wrappers

  /** A configuration value; Python lets any object in, the model keeps the kinds the providers read. */
  datatype Value = VNull | VBool(b: bool) | VInt(i: int) | VStr(s: string)

  /** Python truthiness, which decides `x or y`. */
  predicate Truthy(v: Value) {
    match v
    case VNull => false
    case VBool(b) => b
    case VInt(i) => i != 0
    case VStr(s) => s != ""
  }

  type Config = map<string, Value>

  /** The two exception classes the providers and the factory raise. */
  datatype PyError = ValueError(message: string) | ImportError(message: string)
  {
    /** `str(e)`. */
    function Message(): string { message }
  }

  /** `dict.get(key, default)`. */
  function Get(config: Config, key: string, default: Value): (v: Value)
    ensures key in config ==> v == config[key]
    ensures key !in config ==> v == default
  {
    if key in config then config[key] else default
  }

  /** `config or {}`: a missing (or empty) dictionary becomes an empty one. */
  function InitialConfig(config: Option<Config>): (c: Config)
    ensures config.None? ==> c == map[]
    ensures config.Some? ==> c == config.value
  {
    match config
    case None => map[]
    case Some(m) => m
  }

  /** Python's `repr` of a list of strings, used in error messages. */
  function ListRepr(xs: seq<string>): string {
    "[" + JoinQuoted(xs) + "]"
  }

  function JoinQuoted(xs: seq<string>): string {
    if xs == [] then ""
    else if |xs| == 1 then "'" + xs[0] + "'"
    else "'" + xs[0] + "', " + JoinQuoted(xs[1..])
  }

  /** `", ".join(xs)`. */
  function Join(xs: seq<string>, sep: string): string {
    if xs == [] then ""
    else if |xs| == 1 then xs[0]
    else xs[0] + sep + Join(xs[1..], sep)
  }

  /** The `STTProvider` base object: it owns the configuration dictionary. */
  class Provider {
    var config: Config

    /** `self.config = config or {}`. */
    constructor (config: Option<Config>)
      ensures this.config == InitialConfig(config)
    {
      this.config := InitialConfig(config);
    }

    /**
     * `get_config`: an equal map. Maps are values here, so what the caller
     * does with the result cannot reach the provider's own dictionary.
     */
    method GetConfig() returns (c: Config)
      ensures c == config
    {
      c := config;
    }

    /** `update_config`: the given keys take the given values; every other key is kept. */
    method UpdateConfig(updates: Config)
      modifies this
      ensures config.Keys == old(config).Keys + updates.Keys
      ensures forall k :: k in updates ==> config[k] == updates[k]
      ensures forall k :: k in old(config) && k !in updates ==> config[k] == old(config)[k]
    {
      config := config + updates;
    }
  }
}
