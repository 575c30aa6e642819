/** Configuration resolution (core/config.py): built-in defaults, then the
    keys of config.json, then the FLOWMATE_* environment variables. The file
    and the environment are passed in as values. */
module Config {
  import opened Common
  import Text

  /** The JSON values this model represents in config.json (no floats, arrays
      or objects); Null is also Python's None. */
  datatype Value = Null | Bool(b: bool) | Int(i: int) | Str(s: string)

  /** The process environment: variable name to value. */
  type Env = map<string, string>

  /** Python truthiness of a configuration value. */
  predicate Truthy(v: Value) {
    match v
    case Null => false
    case Bool(b) => b
    case Int(i) => i != 0
    case Str(s) => s != ""
  }

  /** The four keys that have a default and that save_config persists. */
  const PersistenceKeys: seq<string> := ["api_key", "base_url", "model", "strict_mode"]

  function Defaults(): map<string, Value> {
    map["api_key" := Str(""), "base_url" := Str("https://api.deepseek.com"),
        "model" := Str("deepseek-chat"), "strict_mode" := Bool(false)]
  }

  /** MOCK_MODE: FLOWMATE_MOCK_MODE (default "false") lower-cased equals "true". */
  function MockMode(env: Env): (r: bool)
    ensures r <==> "FLOWMATE_MOCK_MODE" in env && Text.Lower(env["FLOWMATE_MOCK_MODE"]) == "true"
  {
    var v := if "FLOWMATE_MOCK_MODE" in env then env["FLOWMATE_MOCK_MODE"] else "false";
    assert Text.Lower("false")[0] == 'f';
    Text.Lower(v) == "true"
  }

  /** What the defaults and the file give for a key, before the environment. */
  function FromFile(file: Option<map<string, Value>>, key: string): Value
    requires key in Defaults()
  {
    if file.Some? && key in file.value then file.value[key] else Defaults()[key]
  }

  /** os.getenv(name, fallback) for a string setting. */
  function EnvOr(env: Env, name: string, fallback: Value): Value {
    if name in env then Str(env[name]) else fallback
  }

  /** _load_initial_config. `file` is the parsed content of config.json, or None
      when the file is missing, unreadable or not valid JSON (the error is
      swallowed). Every key of the result comes from the defaults or the file;
      api_key, base_url and model are taken from FLOWMATE_API_KEY,
      FLOWMATE_BASE_URL and FLOWMATE_MODEL when those are set, and strict_mode
      from FLOWMATE_STRICT_MODE, as `value.lower() == "true"`. */
  method LoadInitialConfig(file: Option<map<string, Value>>, env: Env) returns (config: map<string, Value>)
    ensures config.Keys == Defaults().Keys + (if file.Some? then file.value.Keys else {})
    ensures forall k :: k in config && k !in Defaults() ==> file.Some? && config[k] == file.value[k]
    ensures config["api_key"] == EnvOr(env, "FLOWMATE_API_KEY", FromFile(file, "api_key"))
    ensures config["base_url"] == EnvOr(env, "FLOWMATE_BASE_URL", FromFile(file, "base_url"))
    ensures config["model"] == EnvOr(env, "FLOWMATE_MODEL", FromFile(file, "model"))
    ensures config["strict_mode"] ==
      if "FLOWMATE_STRICT_MODE" in env then Bool(Text.Lower(env["FLOWMATE_STRICT_MODE"]) == "true")
      else FromFile(file, "strict_mode")
  {
    config := Defaults();
    if file.Some? {
      config := config + file.value;
    }
    config := config["api_key" := EnvOr(env, "FLOWMATE_API_KEY", config["api_key"])];
    config := config["base_url" := EnvOr(env, "FLOWMATE_BASE_URL", config["base_url"])];
    config := config["model" := EnvOr(env, "FLOWMATE_MODEL", config["model"])];
    if "FLOWMATE_STRICT_MODE" in env {
      config := config["strict_mode" := Bool(Text.Lower(env["FLOWMATE_STRICT_MODE"]) == "true")];
    }
  }

  /** How the write of config.json in save_config ends: the file could not be
      opened, it was opened (and so truncated) but writing failed, or it was
      written. */
  datatype WriteOutcome = OpenFailed | WriteFailed | Written

  /** The ConfigManager singleton: the live settings and the content of
      config.json (None while the file does not exist or cannot be read). */
  class ConfigManager {
    var config: map<string, Value>
    var file: Option<map<string, Value>>

    /** Every defaulted key stays present in the live settings. */
    ghost predicate Valid()
      reads this
    {
      Defaults().Keys <= config.Keys
    }

    constructor (file: Option<map<string, Value>>, env: Env)
      ensures Valid() && this.file == file
      ensures config.Keys == Defaults().Keys + (if file.Some? then file.value.Keys else {})
      ensures forall k :: k in config && k !in Defaults() ==> file.Some? && config[k] == file.value[k]
      ensures config["api_key"] == EnvOr(env, "FLOWMATE_API_KEY", FromFile(file, "api_key"))
      ensures config["base_url"] == EnvOr(env, "FLOWMATE_BASE_URL", FromFile(file, "base_url"))
      ensures config["model"] == EnvOr(env, "FLOWMATE_MODEL", FromFile(file, "model"))
      ensures config["strict_mode"] ==
        if "FLOWMATE_STRICT_MODE" in env then Bool(Text.Lower(env["FLOWMATE_STRICT_MODE"]) == "true")
        else FromFile(file, "strict_mode")
    {
      this.file := file;
      var c := LoadInitialConfig(file, env);
      config := c;
    }

    /** get(key, default): the stored value when the key is present; otherwise
        the caller's default unless it is None, and then the built-in default
        (None for a key without one). */
    function Get(key: string, default: Value): (r: Value)
      reads this
      ensures key in config ==> r == config[key]
      ensures key !in config && default != Null ==> r == default
      ensures key !in config && default == Null ==> r == (if key in Defaults() then Defaults()[key] else Null)
      ensures Valid() && key in Defaults() ==> r == config[key]
    {
      if key in config then config[key]
      else if default != Null then default
      else if key in Defaults() then Defaults()[key] else Null
    }

    /** save_config(key, value): the setting changes in memory, then config.json
        is rewritten with the four persisted keys and their live values. Opening
        the file for writing truncates it, so a failure after the open (a full
        disk, say) leaves content that no longer parses, and the next start
        reads no file; a failure to open leaves the file as it was. Both
        errors are swallowed. */
    method SaveConfig(key: string, value: Value, outcome: WriteOutcome)
      requires Valid()
      modifies this
      ensures Valid()
      ensures config == old(config)[key := value]
      ensures forall d :: Get(key, d) == value
      ensures outcome == Written ==> file.Some? && file.value.Keys == Defaults().Keys
      ensures outcome == Written ==> forall k :: k in file.value ==> file.value[k] == config[k]
      ensures outcome == WriteFailed ==> file == None
      ensures outcome == OpenFailed ==> file == old(file)
    {
      config := config[key := value];
      var saved := map k | k in PersistenceKeys :: Get(k, Null);
      match outcome {
        case Written => file := Some(saved);
        case WriteFailed => file := None;
        case OpenFailed =>
      }
    }
  }
}
