/** The versioned configuration file: its shape after deserialization, the
    defaults that fill absent optional keys, the version check and `load`. */
module Config {
  import opened Wrappers
  import Strings

  /** Rust's `u32`. */
  type U32 = x: int | 0 <= x < 0x1_0000_0000

  /** The schema version this build accepts. */
  const VERSION: U32 := 1

  /** An `f32` kept as its bit pattern; nothing in the core computes with it. */
  datatype F32 = F32(bits: bv32)

  /** `GeminiConfig`: the `[gemini]` table. */
  datatype GeminiConfig = GeminiConfig(
    key: string,
    model: string,
    temperature: Option<F32>,
    topP: Option<F32>,
    topK: Option<U32>,
    maxOutputTokens: Option<U32>,
    thinkingBudget: Option<U32>,
    thinkingLevel: Option<string>)

  /** `Config`: the whole file. */
  datatype Config = Config(
    version: U32,
    provider: string,
    timeout: U32,
    gemini: Option<GeminiConfig>,
    prompt: map<string, string>)

  // ---------------------------------------------------------------------------
  // What the TOML document holds, before serde applies defaults.
  // Each `Option` here says whether the key is present in the file.
  // ---------------------------------------------------------------------------

  datatype GeminiTable = GeminiTable(
    key: Option<string>,
    model: Option<string>,
    temperature: Option<F32>,
    topP: Option<F32>,
    topK: Option<U32>,
    maxOutputTokens: Option<U32>,
    thinkingBudget: Option<U32>,
    thinkingLevel: Option<string>)

  datatype ConfigTable = ConfigTable(
    version: Option<U32>,
    provider: Option<string>,
    timeout: Option<U32>,
    gemini: Option<GeminiTable>,
    prompt: Option<map<string, string>>)

  /** serde's "missing field" error, naming the first required key that is absent. */
  datatype DecodeError = MissingField(name: string)

  /** The `[gemini]` table as `GeminiConfig`: `key` and `model` are required,
      every other key defaults to `None` when absent. */
  function DecodeGemini(t: GeminiTable): (r: Result<GeminiConfig, DecodeError>)
    ensures r.Success? <==> t.key.Some? && t.model.Some?
    ensures t.key.None? ==> r == Failure(MissingField("key"))
    ensures t.key.Some? && t.model.None? ==> r == Failure(MissingField("model"))
    ensures r.Success? ==>
      && r.value.key == t.key.value && r.value.model == t.model.value
      && r.value.temperature == t.temperature && r.value.topP == t.topP
      && r.value.topK == t.topK && r.value.maxOutputTokens == t.maxOutputTokens
      && r.value.thinkingBudget == t.thinkingBudget && r.value.thinkingLevel == t.thinkingLevel
  {
    match (t.key, t.model)
    case (None, _) => Failure(MissingField("key"))
    case (_, None) => Failure(MissingField("model"))
    case (Some(key), Some(model)) =>
      Success(GeminiConfig(key, model, t.temperature, t.topP, t.topK,
                           t.maxOutputTokens, t.thinkingBudget, t.thinkingLevel))
  }

  /** The document as `Config`. A malformed `[gemini]` table is reported while
      it is visited, before the top-level required keys are checked; those are
      checked in declaration order. `gemini` defaults to `None` and `prompt` to
      the empty map. */
  function Decode(t: ConfigTable): (r: Result<Config, DecodeError>)
    ensures r.Success? <==>
      && t.version.Some? && t.provider.Some? && t.timeout.Some?
      && (t.gemini.Some? ==> DecodeGemini(t.gemini.value).Success?)
    ensures t.gemini.Some? && DecodeGemini(t.gemini.value).Failure? ==>
      r == Failure(DecodeGemini(t.gemini.value).error)
    ensures t.gemini.None? || DecodeGemini(t.gemini.value).Success? ==>
      && (t.version.None? ==> r == Failure(MissingField("version")))
      && (t.version.Some? && t.provider.None? ==> r == Failure(MissingField("provider")))
      && (t.version.Some? && t.provider.Some? && t.timeout.None? ==> r == Failure(MissingField("timeout")))
    ensures r.Success? ==>
      && r.value.version == t.version.value
      && r.value.provider == t.provider.value
      && r.value.timeout == t.timeout.value
      && (t.gemini.None? ==> r.value.gemini == None)
      && (t.gemini.Some? ==> r.value.gemini == Some(DecodeGemini(t.gemini.value).value))
      && r.value.prompt == (if t.prompt.Some? then t.prompt.value else map[])
  {
    var gemini :=
      match t.gemini
      case None => Success(None)
      case Some(g) =>
        (match DecodeGemini(g)
         case Failure(e) => Failure(e)
         case Success(c) => Success(Some(c)));
    match gemini
    case Failure(e) => Failure(e)
    case Success(g) =>
      match (t.version, t.provider, t.timeout)
      case (None, _, _) => Failure(MissingField("version"))
      case (_, None, _) => Failure(MissingField("provider"))
      case (_, _, None) => Failure(MissingField("timeout"))
      case (Some(version), Some(provider), Some(timeout)) =>
        Success(Config(version, provider, timeout, g,
                       if t.prompt.Some? then t.prompt.value else map[]))
  }

  // ---------------------------------------------------------------------------
  // Version check and loading
  // ---------------------------------------------------------------------------

  /** Why `load` gave up. */
  datatype LoadError =
    | NoConfigDir                        // the platform has no configuration directory
    | ReadFailed                         // the file could not be read
    | ParseFailed(cause: Option<DecodeError>)  // not TOML, a wrong type, or a missing key
    | VersionMismatch(expected: U32, found: U32)

  /** `ensure_version`: the file's version must be exactly `VERSION`. */
  function EnsureVersion(config: Config): (r: Outcome<LoadError>)
    ensures r.Pass? <==> config.version == VERSION
    ensures r.Fail? ==> r.error == VersionMismatch(VERSION, config.version)
  {
    if config.version == VERSION then Pass else Fail(VersionMismatch(VERSION, config.version))
  }

  const MismatchLead := "Configuration file version mismatch. Expected major version "
  const MismatchAdvice := ". Please update your config file or run with --init-config to generate a new one."

  /** The text `ensure_version` reports on a mismatch: both versions, in decimal. */
  function VersionMismatchMessage(expected: U32, found: U32): (m: string)
    ensures Strings.IsPrefix(MismatchLead, m)
    ensures Strings.OccursAt(Strings.Decimal(expected) + ", found " + Strings.Decimal(found), m, |MismatchLead|)
    ensures Strings.IsSuffix(MismatchAdvice, m)
    ensures |m| == |MismatchLead| + |Strings.Decimal(expected) + ", found " + Strings.Decimal(found)| + |MismatchAdvice|
  {
    var middle := Strings.Decimal(expected) + ", found " + Strings.Decimal(found);
    var m := MismatchLead + middle + MismatchAdvice;
    assert m[|MismatchLead|..|MismatchLead| + |middle|] == middle;
    m
  }

  /** What the file system and the TOML parser hand to `load`. */
  datatype ConfigFile =
    | NoDir                              // `dirs::config_dir()` is `None`
    | Unreadable                         // `fs::read_to_string` failed
    | Malformed                          // not TOML, or a value of the wrong type
    | Parsed(table: ConfigTable)

  /** `load`: read, parse, decode, then check the version. */
  function Load(file: ConfigFile): (r: Result<Config, LoadError>)
    ensures r.Success? ==> r.value.version == VERSION
    ensures r.Success? <==>
      file.Parsed? && Decode(file.table).Success? && Decode(file.table).value.version == VERSION
    ensures file.Parsed? && Decode(file.table).Success? ==>
      r == (if Decode(file.table).value.version == VERSION then Success(Decode(file.table).value)
            else Failure(VersionMismatch(VERSION, Decode(file.table).value.version)))
  {
    match file
    case NoDir => Failure(NoConfigDir)
    case Unreadable => Failure(ReadFailed)
    case Malformed => Failure(ParseFailed(None))
    case Parsed(table) =>
      match Decode(table)
      case Failure(e) => Failure(ParseFailed(Some(e)))
      case Success(config) =>
        match EnsureVersion(config)
        case Fail(e) => Failure(e)
        case Pass => Success(config)
  }

  /** The two unit tests of `ensure_version`: a config at `VERSION` passes,
      one at `VERSION + 1` fails. */
  lemma EnsureVersionExamples(provider: string, timeout: U32, prompt: map<string, string>)
    ensures VERSION == 1
    ensures EnsureVersion(Config(VERSION, provider, timeout, None, prompt)) == Pass
    ensures EnsureVersion(Config(VERSION + 1, provider, timeout, None, prompt)).Fail?
  {
  }

  /** A document holding only the three required keys decodes with every
      optional part at its default. */
  lemma MinimalDocumentDefaults(version: U32, provider: string, timeout: U32)
    ensures Decode(ConfigTable(Some(version), Some(provider), Some(timeout), None, None))
         == Success(Config(version, provider, timeout, None, map[]))
  {
  }

  /** A `[gemini]` table holding only `key` and `model` leaves every generation
      parameter unset. */
  lemma MinimalGeminiDefaults(key: string, model: string)
    ensures DecodeGemini(GeminiTable(Some(key), Some(model), None, None, None, None, None, None))
         == Success(GeminiConfig(key, model, None, None, None, None, None, None))
  {
  }
}
