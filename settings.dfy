/** The service configuration, read once from the process environment when the
    service starts and never changed afterwards. */
module Settings {
  import opened Wrappers
  import PyInt

  /** The process environment: variable names to their raw values. */
  type Env = map<string, string>

  const DEFAULT_MODEL_ID: string := "gemini-2.5-flash"
  const DEFAULT_REQUEST_TIMEOUT_SECONDS: int := 120
  const DEFAULT_MAX_CONCURRENCY: int := 4
  const DEFAULT_MAX_TEXT_CHARS: int := 100000
  const DEFAULT_MAX_EXAMPLES: int := 50
  const DEFAULT_MAX_WORKERS: int := 20

  datatype Config = Config(
    serviceApiKey: string,
    langextractApiKey: string,
    defaultModelId: string,
    requestTimeoutSeconds: int,
    maxConcurrency: int,
    maxTextChars: int,
    maxExamples: int,
    maxWorkers: int)

  /** `os.getenv(name)`. */
  function GetEnv(env: Env, name: string): (r: Option<string>)
    ensures r.Some? <==> name in env
    ensures r.Some? ==> r.value == env[name]
  {
    if name in env then Some(env[name]) else None
  }

  /** `os.getenv(name, default)`: a variable set to the empty string stays empty. */
  function GetEnvOr(env: Env, name: string, default: string): (r: string)
    ensures name in env ==> r == env[name]
    ensures name !in env ==> r == default
  {
    match GetEnv(env, name)
    case Some(raw) => raw
    case None => default
  }

  /** `_int_env(name, default)`: the variable's integer value, or `default` when
      the variable is unset or `int()` rejects its value. */
  function IntEnv(env: Env, name: string, default: int): (r: int)
    ensures name !in env ==> r == default
    ensures name in env && PyInt.ParseInt(env[name]).None? ==> r == default
    ensures name in env && PyInt.ParseInt(env[name]).Some? ==> r == PyInt.ParseInt(env[name]).value
  {
    match GetEnv(env, name)
    case None => default
    case Some(raw) =>
      match PyInt.ParseInt(raw)
      case Some(n) => n
      case None => default
  }

  /** A variable holding the decimal form of `n` configures exactly `n`, unless
      `n` has more digits than `int()` accepts, which leaves the default. */
  lemma IntEnvReadsFormattedValue(env: Env, name: string, n: int, default: int)
    ensures PyInt.NumDigits(n) <= PyInt.MAX_STR_DIGITS ==> IntEnv(env[name := PyInt.FormatInt(n)], name, default) == n
    ensures PyInt.NumDigits(n) > PyInt.MAX_STR_DIGITS ==> IntEnv(env[name := PyInt.FormatInt(n)], name, default) == default
  {
    PyInt.ParseFormatRoundTrip(n);
  }

  /** A variable whose value holds no digit at all leaves the default in place. */
  lemma IntEnvIgnoresNonNumeric(env: Env, name: string, default: int)
    requires name in env
    requires forall i :: 0 <= i < |env[name]| ==> !PyInt.IsDigit(env[name][i])
    ensures IntEnv(env, name, default) == default
  {
    PyInt.NoDigitNoParse(env[name]);
  }

  /** A value starting with an ASCII information separator (`\x1c`..`\x1f`)
      leaves the default: `int()` does not strip those characters. */
  lemma IntEnvRefusesLeadingSeparator(env: Env, name: string, default: int)
    requires name in env && |env[name]| > 0
    requires '\U{1C}' <= env[name][0] <= '\U{1F}'
    ensures IntEnv(env, name, default) == default
  {
    var v := env[name];
    assert v == [v[0]] + v[1..];
    PyInt.LeadingJunkNoParse(v[0], v[1..]);
  }

  /** The module-level settings, computed once from the environment. */
  function LoadConfig(env: Env): (c: Config)
    ensures c.serviceApiKey == (if "SERVICE_API_KEY" in env then env["SERVICE_API_KEY"] else "")
    ensures c.langextractApiKey == (if "LANGEXTRACT_API_KEY" in env then env["LANGEXTRACT_API_KEY"] else "")
  {
    Config(
      serviceApiKey := GetEnvOr(env, "SERVICE_API_KEY", ""),
      langextractApiKey := GetEnvOr(env, "LANGEXTRACT_API_KEY", ""),
      defaultModelId := GetEnvOr(env, "DEFAULT_MODEL_ID", DEFAULT_MODEL_ID),
      requestTimeoutSeconds := IntEnv(env, "REQUEST_TIMEOUT_SECONDS", DEFAULT_REQUEST_TIMEOUT_SECONDS),
      maxConcurrency := IntEnv(env, "MAX_CONCURRENCY", DEFAULT_MAX_CONCURRENCY),
      maxTextChars := IntEnv(env, "MAX_TEXT_CHARS", DEFAULT_MAX_TEXT_CHARS),
      maxExamples := IntEnv(env, "MAX_EXAMPLES", DEFAULT_MAX_EXAMPLES),
      maxWorkers := IntEnv(env, "MAX_WORKERS", DEFAULT_MAX_WORKERS))
  }

  /** With only the two secrets set, every other setting takes its default. */
  lemma OnlySecretsSet(serviceApiKey: string, langextractApiKey: string)
    ensures LoadConfig(map["SERVICE_API_KEY" := serviceApiKey, "LANGEXTRACT_API_KEY" := langextractApiKey])
         == Config(serviceApiKey, langextractApiKey, DEFAULT_MODEL_ID, 120, 4, 100000, 50, 20)
  {
    var env := map["SERVICE_API_KEY" := serviceApiKey, "LANGEXTRACT_API_KEY" := langextractApiKey];
    assert "SERVICE_API_KEY"[0] != "MAX_CONCURRENCY"[0];
    assert env.Keys == {"SERVICE_API_KEY", "LANGEXTRACT_API_KEY"};
    assert "DEFAULT_MODEL_ID" !in env && "REQUEST_TIMEOUT_SECONDS" !in env && "MAX_CONCURRENCY" !in env;
    assert "MAX_TEXT_CHARS" !in env && "MAX_EXAMPLES" !in env && "MAX_WORKERS" !in env;
  }

  /** With nothing set, both secrets are empty (unconfigured) and every limit
      takes its documented default. */
  lemma EmptyEnvironmentDefaults()
    ensures LoadConfig(map[]) == Config("", "", "gemini-2.5-flash", 120, 4, 100000, 50, 20)
  {
  }
}
