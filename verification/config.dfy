/** Configuration (`internal/config`): the settings read from the
    environment, their defaults, and the checks a configuration must pass.
    The environment is a function from variable names to values; an unset
    variable reads as "". Durations are counted in nanoseconds, as Go's
    `time.Duration` counts them. */
module Configuration {
  import opened Wrappers
  import Text
  import Numbers
  import GoQuote

  /** `time.Second`, in nanoseconds. */
  const Second: int := 1_000_000_000

  /** The largest number of seconds whose duration fits an `int64`. */
  const MaxSeconds: int := 9_223_372_036

  const DefaultListenAddr := ":8080"
  const DefaultUpstreamBaseURL := "https://api.groq.com/openai/v1"
  const DefaultTranscriptionModel := "whisper-large-v3"
  const DefaultPostProcessModel := "meta-llama/llama-4-scout-17b-16e-instruct"
  const DefaultLogLevel := "info"
  const DefaultRequestTimeoutSeconds := 25
  const DefaultTranscriptionTimeoutSeconds := 20
  const DefaultPostProcessTimeoutSeconds := 20
  const DefaultMaxUploadBytes := 25 * 1024 * 1024

  datatype Config = Config(
    listenAddr: string,
    upstreamBaseURL: string,
    upstreamAPIKey: string,
    transcriptionModel: string,
    postProcessModel: string,
    requestTimeout: int,
    transcriptionTimeout: int,
    postProcessTimeout: int,
    maxUploadBytes: int,
    enableAuth: bool,
    apiBearerToken: string,
    logLevel: string)

  /** The process environment: the value of every variable, with "" for
      one that is not set, as `os.Getenv` reports it. */
  type Env = string -> string

  /** `os.Getenv`. */
  function Getenv(env: Env, key: string): string {
    env(key)
  }

  /** Every check `Validate` makes, stated at once. */
  predicate Valid(c: Config) {
    && c.listenAddr != ""
    && c.upstreamBaseURL != ""
    && c.upstreamAPIKey != ""
    && c.transcriptionModel != ""
    && c.postProcessModel != ""
    && c.maxUploadBytes > 0
    && (c.enableAuth ==> c.apiBearerToken != "")
  }

  /** `Config.Validate`: the message of the first check that fails, in the
      order listen address, upstream base URL, upstream key, the two
      models, the upload limit, and the bearer token when authentication
      is on; `None` when every check passes. */
  function Validate(c: Config): (r: Option<string>)
    ensures r.None? <==> Valid(c)
    ensures c.listenAddr == "" ==> r == Some("LISTEN_ADDR must not be empty")
    ensures c.listenAddr != "" && c.upstreamBaseURL == "" ==> r == Some("UPSTREAM_BASE_URL must not be empty")
    ensures c.listenAddr != "" && c.upstreamBaseURL != "" && c.upstreamAPIKey == "" ==>
      r == Some("UPSTREAM_API_KEY is required")
    ensures c.listenAddr != "" && c.upstreamBaseURL != "" && c.upstreamAPIKey != "" && c.transcriptionModel == "" ==>
      r == Some("TRANSCRIPTION_MODEL must not be empty")
    ensures (c.listenAddr != "" && c.upstreamBaseURL != "" && c.upstreamAPIKey != "" && c.transcriptionModel != ""
             && c.postProcessModel == "") ==> r == Some("POSTPROCESS_MODEL must not be empty")
    ensures (c.listenAddr != "" && c.upstreamBaseURL != "" && c.upstreamAPIKey != "" && c.transcriptionModel != ""
             && c.postProcessModel != "" && c.maxUploadBytes <= 0) ==> r == Some("MAX_UPLOAD_BYTES must be > 0")
    ensures Valid(c.(enableAuth := false)) && c.enableAuth && c.apiBearerToken == "" ==>
      r == Some("API_BEARER_TOKEN is required when ENABLE_AUTH=true")
  {
    if c.listenAddr == "" then Some("LISTEN_ADDR must not be empty")
    else if c.upstreamBaseURL == "" then Some("UPSTREAM_BASE_URL must not be empty")
    else if c.upstreamAPIKey == "" then Some("UPSTREAM_API_KEY is required")
    else if c.transcriptionModel == "" then Some("TRANSCRIPTION_MODEL must not be empty")
    else if c.postProcessModel == "" then Some("POSTPROCESS_MODEL must not be empty")
    else if c.maxUploadBytes <= 0 then Some("MAX_UPLOAD_BYTES must be > 0")
    else if c.enableAuth && c.apiBearerToken == "" then Some("API_BEARER_TOKEN is required when ENABLE_AUTH=true")
    else None
  }

  /** With authentication off, the bearer token is never required. */
  lemma NoTokenNeededWithoutAuth(c: Config)
    requires !c.enableAuth
    ensures Validate(c) == Validate(c.(apiBearerToken := ""))
  {
  }

  /** `envOrDefault`: the variable's value trimmed, or the fallback when
      it is blank or unset. */
  function EnvOrDefault(env: Env, key: string, fallback: string): (r: string)
    ensures Text.AllSpace(Getenv(env, key)) ==> r == fallback
    ensures !Text.AllSpace(Getenv(env, key)) ==> r == Text.TrimSpace(Getenv(env, key)) && r != ""
  {
    Text.TrimmedOr(Getenv(env, key), fallback)
  }

  /** The text of a `*strconv.NumError`: the function, the quoted input and
      the reason. */
  function NumErrorText(fn: string, num: string, e: Numbers.NumError): string {
    "strconv." + fn + ": parsing " + GoQuote.Quote(num) + ": " + e.Text()
  }

  /** The error of a variable that does not hold an integer. */
  function NotAnInteger(key: string, fn: string, value: string, e: Numbers.NumError): string {
    key + " must be an integer: " + NumErrorText(fn, value, e)
  }

  /** The error of a variable that holds zero or a negative number. */
  function NotPositive(key: string): string {
    key + " must be > 0"
  }

  /** `secondsEnv` as written: the seconds are multiplied by `time.Second`
      in `int64` arithmetic, which wraps around for more than
      `MaxSeconds` seconds. */
  function SecondsEnvAsWritten(env: Env, key: string, fallback: int): (r: Result<int, string>)
    ensures r.Ok? ==> Numbers.Int64Min <= r.value <= Numbers.Int64Max
    ensures Text.AllSpace(Getenv(env, key)) ==> r == Ok(Numbers.WrapInt64(fallback * Second))
    ensures !Text.AllSpace(Getenv(env, key)) ==>
      var value := Text.TrimSpace(Getenv(env, key));
      && (Numbers.ParseInt64(value).Err? ==> r == Err(NotAnInteger(key, "Atoi", value, Numbers.ParseInt64(value).error)))
      && (Numbers.ParseInt64(value).Ok? && Numbers.ParseInt64(value).value <= 0 ==> r == Err(NotPositive(key)))
      && (Numbers.ParseInt64(value).Ok? && Numbers.ParseInt64(value).value > 0 ==>
            r == Ok(Numbers.WrapInt64(Numbers.ParseInt64(value).value * Second)))
  {
    var value := Text.TrimSpace(Getenv(env, key));
    if value == "" then Ok(Numbers.WrapInt64(fallback * Second))
    else
      match Numbers.ParseInt64(value)
      case Err(e) => Err(NotAnInteger(key, "Atoi", value, e))
      case Ok(seconds) =>
        if seconds <= 0 then Err(NotPositive(key))
        else Ok(Numbers.WrapInt64(seconds * Second))
  }

  /** A number of seconds that parses and is positive still yields a
      negative timeout once it exceeds `MaxSeconds`: 9300000000, say. */
  lemma SecondsEnvAsWrittenWraps(env: Env, key: string, seconds: int, fallback: int)
    requires MaxSeconds < seconds <= 2 * MaxSeconds + 1
    requires Getenv(env, key) == Numbers.FormatInt(seconds)
    ensures var r := SecondsEnvAsWritten(env, key, fallback);
      r.Ok? && r.value < 0
  {
    DigitsAreTrimmed(seconds);
    Numbers.ParseFormatInt(seconds);
    var x := seconds * Second;
    assert Numbers.Int64Max < x < 0x1_0000_0000_0000_0000;
    assert Numbers.WrapInt64(x) == x - 0x1_0000_0000_0000_0000;
  }

  /** Past the negative band the product wraps around to a positive
      duration that has nothing to do with the setting: from 18446744074
      to 27670116110 seconds. */
  lemma SecondsEnvAsWrittenWrapsPositive(env: Env, key: string, seconds: int, fallback: int)
    requires 2 * MaxSeconds + 1 < seconds <= 3 * MaxSeconds + 2
    requires Getenv(env, key) == Numbers.FormatInt(seconds)
    ensures var r := SecondsEnvAsWritten(env, key, fallback);
      r.Ok? && 0 < r.value < seconds * Second
  {
    DigitsAreTrimmed(seconds);
    Numbers.ParseFormatInt(seconds);
    var x := seconds * Second;
    assert 0x1_0000_0000_0000_0000 < x <= 0x1_0000_0000_0000_0000 + Numbers.Int64Max;
    assert Numbers.WrapInt64(x) == x - 0x1_0000_0000_0000_0000;
  }

  /** A decimal number has no white space around it. */
  lemma DigitsAreTrimmed(n: int)
    ensures Text.IsTrimmed(Numbers.FormatInt(n))
  {
    var s := Numbers.FormatInt(n);
    if n < 0 {
      assert s[|s| - 1] == Numbers.FormatNat(-n)[|Numbers.FormatNat(-n)| - 1];
    }
    LastDigit(if n < 0 then -n else n);
  }

  lemma LastDigit(n: nat)
    ensures Numbers.IsDigit(Numbers.FormatNat(n)[|Numbers.FormatNat(n)| - 1])
  {
  }

  /** `secondsEnv` as intended: a blank variable gives the fallback, a
      variable that is not a positive integer is an error, and so is a
      number of seconds too large for a duration; any duration it returns
      is a positive whole number of seconds. */
  function SecondsEnv(env: Env, key: string, fallback: int): (r: Result<int, string>)
    requires 0 < fallback <= MaxSeconds
    ensures r.Ok? ==> 0 < r.value <= Numbers.Int64Max && r.value % Second == 0
    ensures Text.AllSpace(Getenv(env, key)) ==> r == Ok(fallback * Second)
    ensures !Text.AllSpace(Getenv(env, key)) ==>
      var value := Text.TrimSpace(Getenv(env, key));
      && (Numbers.ParseInt64(value).Err? ==> r == Err(NotAnInteger(key, "Atoi", value, Numbers.ParseInt64(value).error)))
      && (Numbers.ParseInt64(value).Ok? && Numbers.ParseInt64(value).value <= 0 ==> r == Err(NotPositive(key)))
      && (r.Ok? ==> r.value == Numbers.ParseInt64(value).value * Second)
  {
    var value := Text.TrimSpace(Getenv(env, key));
    if value == "" then
      DurationFits(fallback);
      Ok(fallback * Second)
    else
      match Numbers.ParseInt64(value)
      case Err(e) => Err(NotAnInteger(key, "Atoi", value, e))
      case Ok(seconds) =>
        if seconds <= 0 then Err(NotPositive(key))
        else if seconds > MaxSeconds then Err(key + " must be at most " + Numbers.FormatInt(MaxSeconds))
        else
          DurationFits(seconds);
          Ok(seconds * Second)
  }

  /** Up to `MaxSeconds`, a number of seconds is a duration that fits an
      `int64`; one more second does not. */
  lemma DurationFits(seconds: int)
    requires 0 < seconds <= MaxSeconds
    ensures 0 < seconds * Second <= Numbers.Int64Max
    ensures (seconds * Second) % Second == 0
    ensures (MaxSeconds + 1) * Second > Numbers.Int64Max
  {
    assert seconds * Second <= MaxSeconds * Second;
  }

  /** Every number of seconds the corrected rule accepts reads back as
      exactly that many seconds, and there it agrees with the code as
      written. */
  lemma SecondsEnvRoundTrip(env: Env, key: string, seconds: int, fallback: int)
    requires 0 < seconds <= MaxSeconds && 0 < fallback <= MaxSeconds
    requires Getenv(env, key) == Numbers.FormatInt(seconds)
    ensures SecondsEnv(env, key, fallback) == Ok(seconds * Second)
    ensures SecondsEnvAsWritten(env, key, fallback) == Ok(seconds * Second)
  {
    DigitsAreTrimmed(seconds);
    Numbers.ParseFormatInt(seconds);
  }

  /** `int64Env`: a blank variable gives the fallback; otherwise the value
      must parse as an `int64` and be positive. */
  function Int64Env(env: Env, key: string, fallback: int): (r: Result<int, string>)
    ensures Text.AllSpace(Getenv(env, key)) ==> r == Ok(fallback)
    ensures !Text.AllSpace(Getenv(env, key)) ==>
      var value := Text.TrimSpace(Getenv(env, key));
      && (Numbers.ParseInt64(value).Err? ==> r == Err(NotAnInteger(key, "ParseInt", value, Numbers.ParseInt64(value).error)))
      && (Numbers.ParseInt64(value).Ok? && Numbers.ParseInt64(value).value <= 0 ==> r == Err(NotPositive(key)))
      && (r.Ok? ==> r.value == Numbers.ParseInt64(value).value && 0 < r.value <= Numbers.Int64Max)
  {
    var value := Text.TrimSpace(Getenv(env, key));
    if value == "" then Ok(fallback)
    else
      match Numbers.ParseInt64(value)
      case Err(e) => Err(NotAnInteger(key, "ParseInt", value, e))
      case Ok(n) => if n <= 0 then Err(NotPositive(key)) else Ok(n)
  }

  /** Every positive `int64`, written in decimal, is read back as itself. */
  lemma Int64EnvRoundTrip(env: Env, key: string, n: int, fallback: int)
    requires 0 < n <= Numbers.Int64Max
    requires Getenv(env, key) == Numbers.FormatInt(n)
    ensures Int64Env(env, key, fallback) == Ok(n)
  {
    DigitsAreTrimmed(n);
    Numbers.ParseFormatInt(n);
  }

  /** `boolEnv`: a blank variable gives the fallback; otherwise the value
      must be one of `strconv.ParseBool`'s spellings. */
  function BoolEnv(env: Env, key: string, fallback: bool): (r: Result<bool, string>)
    ensures Text.AllSpace(Getenv(env, key)) ==> r == Ok(fallback)
    ensures !Text.AllSpace(Getenv(env, key)) ==>
      var value := Text.TrimSpace(Getenv(env, key));
      && (Numbers.ParseBool(value).None? <==> r.Err?)
      && (r.Err? ==> r.error == key + " must be a bool: " + NumErrorText("ParseBool", value, Numbers.Syntax))
      && (r.Ok? ==> Numbers.ParseBool(value) == Some(r.value))
  {
    var value := Text.TrimSpace(Getenv(env, key));
    if value == "" then Ok(fallback)
    else
      match Numbers.ParseBool(value)
      case None => Err(key + " must be a bool: " + NumErrorText("ParseBool", value, Numbers.Syntax))
      case Some(b) => Ok(b)
  }

  /** The numeric and boolean settings, read in `Load`'s order. */
  datatype Limits = Limits(
    requestTimeout: int,
    transcriptionTimeout: int,
    postProcessTimeout: int,
    maxUploadBytes: int,
    enableAuth: bool)

  /** The three timeouts, the upload limit and the authentication switch
      in `Load`'s order, the first error ending the read. The timeouts are
      read by `secondsEnv` as written, so a huge number of seconds gives a
      negative timeout. */
  function ReadLimits(env: Env): (r: Result<Limits, string>)
    ensures r.Ok? ==> r.value.maxUploadBytes > 0
    ensures r.Ok? ==>
      && SecondsEnvAsWritten(env, "REQUEST_TIMEOUT_SECONDS", DefaultRequestTimeoutSeconds) == Ok(r.value.requestTimeout)
      && SecondsEnvAsWritten(env, "TRANSCRIPTION_TIMEOUT_SECONDS", DefaultTranscriptionTimeoutSeconds) == Ok(r.value.transcriptionTimeout)
      && SecondsEnvAsWritten(env, "POSTPROCESS_TIMEOUT_SECONDS", DefaultPostProcessTimeoutSeconds) == Ok(r.value.postProcessTimeout)
      && Int64Env(env, "MAX_UPLOAD_BYTES", DefaultMaxUploadBytes) == Ok(r.value.maxUploadBytes)
      && BoolEnv(env, "ENABLE_AUTH", false) == Ok(r.value.enableAuth)
    ensures SecondsEnvAsWritten(env, "REQUEST_TIMEOUT_SECONDS", DefaultRequestTimeoutSeconds).Err? ==>
      r == Err(SecondsEnvAsWritten(env, "REQUEST_TIMEOUT_SECONDS", DefaultRequestTimeoutSeconds).error)
  {
    var requestTimeout :- SecondsEnvAsWritten(env, "REQUEST_TIMEOUT_SECONDS", DefaultRequestTimeoutSeconds);
    var transcriptionTimeout :- SecondsEnvAsWritten(env, "TRANSCRIPTION_TIMEOUT_SECONDS", DefaultTranscriptionTimeoutSeconds);
    var postProcessTimeout :- SecondsEnvAsWritten(env, "POSTPROCESS_TIMEOUT_SECONDS", DefaultPostProcessTimeoutSeconds);
    var maxUploadBytes :- Int64Env(env, "MAX_UPLOAD_BYTES", DefaultMaxUploadBytes);
    var enableAuth :- BoolEnv(env, "ENABLE_AUTH", false);
    Ok(Limits(requestTimeout, transcriptionTimeout, postProcessTimeout, maxUploadBytes, enableAuth))
  }

  /** The same read with the corrected `SecondsEnv`: every timeout it
      returns is positive. */
  function ReadLimitsCorrected(env: Env): (r: Result<Limits, string>)
    ensures r.Ok? ==>
      && r.value.requestTimeout > 0 && r.value.transcriptionTimeout > 0 && r.value.postProcessTimeout > 0
      && r.value.maxUploadBytes > 0
    ensures r.Ok? ==>
      && SecondsEnv(env, "REQUEST_TIMEOUT_SECONDS", DefaultRequestTimeoutSeconds) == Ok(r.value.requestTimeout)
      && SecondsEnv(env, "TRANSCRIPTION_TIMEOUT_SECONDS", DefaultTranscriptionTimeoutSeconds) == Ok(r.value.transcriptionTimeout)
      && SecondsEnv(env, "POSTPROCESS_TIMEOUT_SECONDS", DefaultPostProcessTimeoutSeconds) == Ok(r.value.postProcessTimeout)
      && Int64Env(env, "MAX_UPLOAD_BYTES", DefaultMaxUploadBytes) == Ok(r.value.maxUploadBytes)
      && BoolEnv(env, "ENABLE_AUTH", false) == Ok(r.value.enableAuth)
    ensures SecondsEnv(env, "REQUEST_TIMEOUT_SECONDS", DefaultRequestTimeoutSeconds).Err? ==>
      r == Err(SecondsEnv(env, "REQUEST_TIMEOUT_SECONDS", DefaultRequestTimeoutSeconds).error)
  {
    var requestTimeout :- SecondsEnv(env, "REQUEST_TIMEOUT_SECONDS", DefaultRequestTimeoutSeconds);
    var transcriptionTimeout :- SecondsEnv(env, "TRANSCRIPTION_TIMEOUT_SECONDS", DefaultTranscriptionTimeoutSeconds);
    var postProcessTimeout :- SecondsEnv(env, "POSTPROCESS_TIMEOUT_SECONDS", DefaultPostProcessTimeoutSeconds);
    var maxUploadBytes :- Int64Env(env, "MAX_UPLOAD_BYTES", DefaultMaxUploadBytes);
    var enableAuth :- BoolEnv(env, "ENABLE_AUTH", false);
    Ok(Limits(requestTimeout, transcriptionTimeout, postProcessTimeout, maxUploadBytes, enableAuth))
  }

  /** The configuration `Load` assembles once every numeric setting has
      been read: the text settings with their defaults, the base URL
      without trailing slashes, the upstream key and the bearer token
      trimmed, and the log level in lower case. */
  function Assemble(env: Env, limits: Limits): (c: Config)
    ensures c.listenAddr == EnvOrDefault(env, "LISTEN_ADDR", DefaultListenAddr)
    ensures c.upstreamBaseURL == Text.TrimRightChar(EnvOrDefault(env, "UPSTREAM_BASE_URL", DefaultUpstreamBaseURL), '/')
    ensures c.upstreamAPIKey == Text.TrimSpace(Getenv(env, "UPSTREAM_API_KEY"))
    ensures c.transcriptionModel == EnvOrDefault(env, "TRANSCRIPTION_MODEL", DefaultTranscriptionModel)
    ensures c.postProcessModel == EnvOrDefault(env, "POSTPROCESS_MODEL", DefaultPostProcessModel)
    ensures c.requestTimeout == limits.requestTimeout && c.transcriptionTimeout == limits.transcriptionTimeout
    ensures c.postProcessTimeout == limits.postProcessTimeout && c.maxUploadBytes == limits.maxUploadBytes
    ensures c.enableAuth == limits.enableAuth
    ensures c.apiBearerToken == Text.TrimSpace(Getenv(env, "API_BEARER_TOKEN"))
    ensures c.logLevel == Text.ToLower(EnvOrDefault(env, "LOG_LEVEL", DefaultLogLevel))
  {
    Config(
      EnvOrDefault(env, "LISTEN_ADDR", DefaultListenAddr),
      Text.TrimRightChar(EnvOrDefault(env, "UPSTREAM_BASE_URL", DefaultUpstreamBaseURL), '/'),
      Text.TrimSpace(Getenv(env, "UPSTREAM_API_KEY")),
      EnvOrDefault(env, "TRANSCRIPTION_MODEL", DefaultTranscriptionModel),
      EnvOrDefault(env, "POSTPROCESS_MODEL", DefaultPostProcessModel),
      limits.requestTimeout,
      limits.transcriptionTimeout,
      limits.postProcessTimeout,
      limits.maxUploadBytes,
      limits.enableAuth,
      Text.TrimSpace(Getenv(env, "API_BEARER_TOKEN")),
      Text.ToLower(EnvOrDefault(env, "LOG_LEVEL", DefaultLogLevel)))
  }

  /** `config.Load`: the text settings, then the three timeouts, the upload
      limit and the authentication switch in that order, the first error
      ending the load; then the bearer token; then `Validate`, whose
      message is the error of a configuration it refuses. The Go function
      returns a zero `Config` alongside each error; here an error carries
      no configuration at all. `Validate` checks no timeout, so a wrapped,
      negative timeout loads. */
  function Load(env: Env): (r: Result<Config, string>)
    ensures ReadLimits(env).Err? ==> r == Err(ReadLimits(env).error)
    ensures ReadLimits(env).Ok? ==>
      var c := Assemble(env, ReadLimits(env).value);
      && (Validate(c).Some? ==> r == Err(Validate(c).value))
      && (Validate(c).None? ==> r == Ok(c))
    ensures r.Ok? ==> Valid(r.value) && r.value.maxUploadBytes > 0
  {
    LoadWith(env, ReadLimits(env))
  }

  /** `Load` with the corrected timeout reader: a loaded configuration has
      positive timeouts. */
  function LoadCorrected(env: Env): (r: Result<Config, string>)
    ensures ReadLimitsCorrected(env).Err? ==> r == Err(ReadLimitsCorrected(env).error)
    ensures ReadLimitsCorrected(env).Ok? ==>
      var c := Assemble(env, ReadLimitsCorrected(env).value);
      && (Validate(c).Some? ==> r == Err(Validate(c).value))
      && (Validate(c).None? ==> r == Ok(c))
    ensures r.Ok? ==> Valid(r.value)
    ensures r.Ok? ==>
      && r.value.requestTimeout > 0 && r.value.transcriptionTimeout > 0 && r.value.postProcessTimeout > 0
      && r.value.maxUploadBytes > 0
  {
    LoadWith(env, ReadLimitsCorrected(env))
  }

  /** The rest of a load once the limits have been read. */
  function LoadWith(env: Env, limits: Result<Limits, string>): (r: Result<Config, string>)
    ensures limits.Err? ==> r == Err(limits.error)
    ensures limits.Ok? ==> r == (if Valid(Assemble(env, limits.value)) then Ok(Assemble(env, limits.value))
                                 else Err(Validate(Assemble(env, limits.value)).value))
  {
    match limits
    case Err(e) => Err(e)
    case Ok(l) =>
      var c := Assemble(env, l);
      match Validate(c)
      case Some(message) => Err(message)
      case None => Ok(c)
  }

  /** Without an upstream key nothing loads, whatever else is set: the key
      is the one setting without a default. */
  lemma LoadNeedsUpstreamKey(env: Env)
    requires Text.AllSpace(Getenv(env, "UPSTREAM_API_KEY"))
    ensures Load(env).Err? && LoadCorrected(env).Err?
  {
  }

  /** No setting other than the upstream key and the request timeout is
      set. */
  predicate OthersUnset(env: Env) {
    && Getenv(env, "LISTEN_ADDR") == "" && Getenv(env, "UPSTREAM_BASE_URL") == ""
    && Getenv(env, "TRANSCRIPTION_MODEL") == "" && Getenv(env, "POSTPROCESS_MODEL") == ""
    && Getenv(env, "TRANSCRIPTION_TIMEOUT_SECONDS") == "" && Getenv(env, "POSTPROCESS_TIMEOUT_SECONDS") == ""
    && Getenv(env, "MAX_UPLOAD_BYTES") == "" && Getenv(env, "ENABLE_AUTH") == ""
    && Getenv(env, "API_BEARER_TOKEN") == "" && Getenv(env, "LOG_LEVEL") == ""
  }

  /** The finding at work: with only the upstream key and a request
      timeout of more than `MaxSeconds` seconds set, `Load` succeeds with
      a negative request timeout, while the corrected load refuses it. */
  lemma LoadAcceptsNegativeTimeout(env: Env, seconds: int)
    requires MaxSeconds < seconds <= 2 * MaxSeconds + 1
    requires Getenv(env, "REQUEST_TIMEOUT_SECONDS") == Numbers.FormatInt(seconds)
    requires OthersUnset(env) && !Text.AllSpace(Getenv(env, "UPSTREAM_API_KEY"))
    ensures Load(env).Ok? && Load(env).value.requestTimeout < 0
    ensures LoadCorrected(env).Err?
  {
    SecondsEnvAsWrittenWraps(env, "REQUEST_TIMEOUT_SECONDS", seconds, DefaultRequestTimeoutSeconds);
    var t := SecondsEnvAsWritten(env, "REQUEST_TIMEOUT_SECONDS", DefaultRequestTimeoutSeconds).value;
    LoadWithRequestTimeout(env, t);
    SecondsEnvRefusesWrap(env, "REQUEST_TIMEOUT_SECONDS", seconds, DefaultRequestTimeoutSeconds);
  }

  /** With only the upstream key and the request timeout set, `Load`
      returns the defaults with that timeout, whatever its sign. */
  lemma LoadWithRequestTimeout(env: Env, t: int)
    requires SecondsEnvAsWritten(env, "REQUEST_TIMEOUT_SECONDS", DefaultRequestTimeoutSeconds) == Ok(t)
    requires OthersUnset(env) && !Text.AllSpace(Getenv(env, "UPSTREAM_API_KEY"))
    ensures Load(env) == Ok(DefaultConfig(Text.TrimSpace(Getenv(env, "UPSTREAM_API_KEY"))).(requestTimeout := t))
  {
    var limits := Limits(t, DefaultTranscriptionTimeoutSeconds * Second,
      DefaultPostProcessTimeoutSeconds * Second, DefaultMaxUploadBytes, false);
    assert ReadLimits(env) == Ok(limits);
    AssembleDefaults(env, limits);
    assert Valid(Assemble(env, limits));
  }

  /** The corrected reader refuses every number of seconds past
      `MaxSeconds` that the code as written accepts. */
  lemma SecondsEnvRefusesWrap(env: Env, key: string, seconds: int, fallback: int)
    requires MaxSeconds < seconds <= Numbers.Int64Max && 0 < fallback <= MaxSeconds
    requires Getenv(env, key) == Numbers.FormatInt(seconds)
    ensures SecondsEnv(env, key, fallback).Err?
  {
    DigitsAreTrimmed(seconds);
    Numbers.ParseFormatInt(seconds);
  }

  /** With only the upstream key set, every other setting takes its
      default: port 8080, the Groq endpoint, the two default models,
      timeouts of 25, 20 and 20 seconds, 25 MiB uploads, authentication
      off and the "info" log level. The corrected load agrees. */
  lemma LoadDefaults(env: Env)
    requires OthersUnset(env) && Getenv(env, "REQUEST_TIMEOUT_SECONDS") == ""
    requires !Text.AllSpace(Getenv(env, "UPSTREAM_API_KEY"))
    ensures Load(env) == Ok(DefaultConfig(Text.TrimSpace(Getenv(env, "UPSTREAM_API_KEY"))))
    ensures LoadCorrected(env) == Load(env)
  {
    ReadLimitsDefaults(env);
    AssembleDefaults(env, DefaultLimits());
    var c := DefaultConfig(Text.TrimSpace(Getenv(env, "UPSTREAM_API_KEY")));
    assert Valid(c);
  }

  /** The limits `Load` reads from an environment that sets none of them. */
  function DefaultLimits(): Limits {
    Limits(
      DefaultRequestTimeoutSeconds * Second, DefaultTranscriptionTimeoutSeconds * Second,
      DefaultPostProcessTimeoutSeconds * Second, DefaultMaxUploadBytes, false)
  }

  /** The configuration `Load` returns when only the upstream key is set. */
  function DefaultConfig(upstreamAPIKey: string): Config {
    Config(
      DefaultListenAddr, DefaultUpstreamBaseURL, upstreamAPIKey,
      DefaultTranscriptionModel, DefaultPostProcessModel,
      DefaultRequestTimeoutSeconds * Second, DefaultTranscriptionTimeoutSeconds * Second,
      DefaultPostProcessTimeoutSeconds * Second, DefaultMaxUploadBytes, false, "", DefaultLogLevel)
  }

  /** Unset numeric variables read as their defaults. */
  lemma ReadLimitsDefaults(env: Env)
    requires Getenv(env, "REQUEST_TIMEOUT_SECONDS") == "" && Getenv(env, "TRANSCRIPTION_TIMEOUT_SECONDS") == ""
    requires Getenv(env, "POSTPROCESS_TIMEOUT_SECONDS") == ""
    requires Getenv(env, "MAX_UPLOAD_BYTES") == "" && Getenv(env, "ENABLE_AUTH") == ""
    ensures ReadLimits(env) == Ok(DefaultLimits())
    ensures ReadLimitsCorrected(env) == Ok(DefaultLimits())
  {
  }

  /** Unset text variables take their defaults, which need no trimming. */
  lemma AssembleDefaults(env: Env, limits: Limits)
    requires Getenv(env, "LISTEN_ADDR") == "" && Getenv(env, "UPSTREAM_BASE_URL") == ""
    requires Getenv(env, "TRANSCRIPTION_MODEL") == "" && Getenv(env, "POSTPROCESS_MODEL") == ""
    requires Getenv(env, "LOG_LEVEL") == "" && Getenv(env, "API_BEARER_TOKEN") == ""
    ensures Assemble(env, limits) == Config(
      DefaultListenAddr, DefaultUpstreamBaseURL, Text.TrimSpace(Getenv(env, "UPSTREAM_API_KEY")),
      DefaultTranscriptionModel, DefaultPostProcessModel,
      limits.requestTimeout, limits.transcriptionTimeout, limits.postProcessTimeout,
      limits.maxUploadBytes, limits.enableAuth, "", DefaultLogLevel)
  {
    DefaultsNeedNoCleaning();
  }

  lemma DefaultsNeedNoCleaning()
    ensures Text.TrimRightChar(DefaultUpstreamBaseURL, '/') == DefaultUpstreamBaseURL
    ensures Text.ToLower(DefaultLogLevel) == DefaultLogLevel
  {
  }
}
