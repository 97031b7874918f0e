/** The application configuration of `config/index.ts`: typed readers over
    the build-time environment, the configuration record built from it, and
    its validation. The environment is a map from variable names to their
    string values; a name that is not in the map is undefined. A console
    warning is modelled as the list of names it would be printed for. */
module Config {
  import opened Wrappers
  import opened Text
  import Sequences

  type Env = map<string, string>

  /** `getEnvVar(key, defaultValue)`: the value when it is non-empty, else the
      default when that is non-empty, else "". */
  function GetEnvVar(env: Env, key: string, default: Option<string>): (r: string)
    ensures key in env && env[key] != "" ==> r == env[key]
    ensures (key !in env || env[key] == "") && default.Some? ==> r == default.value
    ensures (key !in env || env[key] == "") && default.None? ==> r == ""
    ensures default.Some? && default.value != "" ==> r != ""
  {
    if key !in env && default.None? then ""
    else if key in env && env[key] != "" then env[key]
    else if default.Some? && default.value != "" then default.value
    else ""
  }

  /** `getEnvVar` warns exactly when the variable is undefined and no
      default was given. */
  predicate Warns(env: Env, key: string, default: Option<string>)
  {
    key !in env && default.None?
  }

  /** `getEnvBoolean`: the default for an empty or undefined variable,
      otherwise whether the lower-cased value is exactly "true". */
  function GetEnvBoolean(env: Env, key: string, default: bool): (r: bool)
    ensures (key !in env || env[key] == "") ==> r == default
    ensures key in env && env[key] != "" ==> (r <==> ToLower(env[key]) == "true")
  {
    var value := GetEnvVar(env, key, None);
    if value == "" then default else ToLower(value) == "true"
  }

  /** Only a spelling of "true" switches a flag on: "TRUE" does, "1" and
      "yes" do not. */
  lemma EnvBooleanExamples(env: Env, key: string, default: bool)
    ensures GetEnvBoolean(env[key := "TRUE"], key, false)
    ensures !GetEnvBoolean(env[key := "1"], key, true)
    ensures !GetEnvBoolean(env[key := "yes"], key, true)
    ensures GetEnvBoolean(env[key := ""], key, default) == default
  {
    assert ToLower("TRUE") == "true";
    assert ToLower("1") == "1";
    assert ToLower("yes") == "yes";
  }

  /** `getEnvNumber`: the default for an empty or undefined variable or one
      that does not start with a number, otherwise `parseInt(value, 10)`. */
  function GetEnvNumber(env: Env, key: string, default: int): (r: int)
    ensures (key !in env || env[key] == "") ==> r == default
    ensures key in env && env[key] != "" && ParseInt(env[key]).None? ==> r == default
    ensures key in env && env[key] != "" && ParseInt(env[key]).Some? ==> r == ParseInt(env[key]).value
  {
    var value := GetEnvVar(env, key, None);
    if value == "" then default
    else match ParseInt(value)
      case None => default
      case Some(n) => n
  }

  /** "300" reads as 300 and "abc" falls back to the default. */
  lemma EnvNumberExamples(env: Env, key: string, default: int)
    ensures GetEnvNumber(env[key := "300"], key, default) == 300
    ensures GetEnvNumber(env[key := "abc"], key, default) == default
  {
    ParsesThreeHundred();
    ParsesNoNumber();
  }

  lemma ParsesThreeHundred()
    ensures ParseInt("300") == Some(300)
  {
    assert IntToString(300) == "300" by {
      assert NatToString(300) == NatToString(30) + [DigitChar(0)];
      assert NatToString(30) == NatToString(3) + [DigitChar(0)];
    }
    ParseIntOfIntToString(300);
  }

  lemma ParsesNoNumber()
    ensures ParseInt("abc") == None
  {
    assert TrimStart("abc") == "abc";
    assert LeadingDigits("abc") == [];
  }

  /** Any integer written in decimal reads back as itself. */
  lemma EnvNumberRoundTrip(env: Env, key: string, n: int, default: int)
    ensures GetEnvNumber(env[key := IntToString(n)], key, default) == n
  {
    ParseIntOfIntToString(n);
  }

  function TrimAll(parts: seq<string>): (r: seq<string>)
    ensures |r| == |parts|
    ensures forall i :: 0 <= i < |r| ==> r[i] == Trim(parts[i])
  {
    seq(|parts|, i requires 0 <= i < |parts| => Trim(parts[i]))
  }

  /** Trimming pieces that hold no comma leaves no comma. */
  lemma TrimAllNoComma(pieces: seq<string>)
    requires forall k :: 0 <= k < |pieces| ==> ',' !in pieces[k]
    ensures forall k :: 0 <= k < |pieces| ==> ',' !in TrimAll(pieces)[k]
  {
    forall k | 0 <= k < |pieces| ensures ',' !in TrimAll(pieces)[k] {
      TrimInside(pieces[k]);
    }
  }

  predicate NonEmpty(s: string)
  {
    s != ""
  }

  /** `value.split(',').map(item => item.trim()).filter(Boolean)`. */
  function ListItems(value: string): (r: seq<string>)
    ensures forall i :: 0 <= i < |r| ==> r[i] != "" && IsTrimmed(r[i]) && ',' !in r[i]
    ensures Sequences.IsSubsequence(r, TrimAll(Split(value, ',')))
    ensures var pieces := TrimAll(Split(value, ','));
            forall k :: 0 <= k < |pieces| && pieces[k] != "" ==> pieces[k] in r
    ensures forall s :: multiset(r)[s] == if s == "" then 0 else multiset(TrimAll(Split(value, ',')))[s]
  {
    var pieces := TrimAll(Split(value, ','));
    TrimAllClean(Split(value, ','));
    Sequences.FilterMultiplicity(pieces, NonEmpty);
    Sequences.Filter(pieces, NonEmpty)
  }

  /** The trimmed pieces of a split at commas are trimmed and hold no
      comma. */
  lemma TrimAllClean(pieces: seq<string>)
    requires forall k :: 0 <= k < |pieces| ==> ',' !in pieces[k]
    ensures forall s :: s in TrimAll(pieces) ==> IsTrimmed(s) && ',' !in s
  {
    TrimAllNoComma(pieces);
  }

  /** `getEnvArray`: the default for an empty or undefined variable,
      otherwise the non-empty trimmed items between commas, in order. */
  function GetEnvArray(env: Env, key: string, default: seq<string>): (r: seq<string>)
    ensures (key !in env || env[key] == "") ==> r == default
    ensures key in env && env[key] != "" ==> r == ListItems(env[key])
  {
    var value := GetEnvVar(env, key, None);
    if value == "" then default else ListItems(value)
  }

  /** Items that are non-empty, trimmed and free of commas survive being
      joined with commas and read back. */
  lemma EnvArrayRoundTrip(env: Env, key: string, items: seq<string>, default: seq<string>)
    requires items != []
    requires forall i :: 0 <= i < |items| ==> items[i] != "" && IsTrimmed(items[i]) && ',' !in items[i]
    ensures GetEnvArray(env[key := Join(items, ",")], key, default) == items
  {
    var value := Join(items, ",");
    JoinStartsWithFirst(items, ",");
    var e := env[key := value];
    assert key in e && e[key] == value && value != "";
    assert GetEnvArray(e, key, default) == ListItems(value);
    ListItemsOfJoin(items);
  }

  lemma ListItemsOfJoin(items: seq<string>)
    requires items != []
    requires forall i :: 0 <= i < |items| ==> items[i] != "" && IsTrimmed(items[i]) && ',' !in items[i]
    ensures ListItems(Join(items, ",")) == items
  {
    SplitJoin(items, ',');
    TrimAllTrimmed(items);
    Sequences.FilterAll(items, NonEmpty);
  }

  lemma TrimAllTrimmed(items: seq<string>)
    requires forall i :: 0 <= i < |items| ==> IsTrimmed(items[i])
    ensures TrimAll(items) == items
  {
    forall i | 0 <= i < |items| ensures TrimAll(items)[i] == items[i] {
      TrimTrimmed(items[i]);
    }
  }

  lemma {:induction false} JoinStartsWithFirst(parts: seq<string>, sep: string)
    requires parts != []
    ensures |Join(parts, sep)| >= |parts[0]|
  {
  }

  /** A `'light' | 'dark'` or `'development' | 'production' | 'test'` cast is
      not checked in the source, so these are plain strings here. */
  datatype Features = Features(voiceRecording: bool, fileUpload: bool, analytics: bool, errorReporting: bool)
  datatype Analytics = Analytics(googleAnalyticsId: Option<string>, mixpanelToken: Option<string>)
  datatype ErrorReporting = ErrorReporting(sentryDsn: Option<string>, sentryEnvironment: Option<string>)
  datatype Storage = Storage(prefix: string, maxConversations: int, maxMessagesPerConversation: int)
  datatype Ui = Ui(defaultTheme: string, enableThemePersistence: bool, animationDuration: int)
  datatype Security = Security(enableCsp: bool, allowedOrigins: seq<string>)

  datatype AppConfig = AppConfig(
    nodeEnv: string, isDevelopment: bool, isProduction: bool,
    apiBaseUrl: string, apiTimeout: int, enableMockApi: bool,
    appName: string, appVersion: string, appDescription: string,
    features: Features, analytics: Analytics, errorReporting: ErrorReporting,
    storage: Storage, ui: Ui, security: Security)

  /** `getEnvVar(key) || undefined`. */
  function OptionalVar(env: Env, key: string): (r: Option<string>)
    ensures r.Some? <==> key in env && env[key] != ""
    ensures r.Some? ==> r.value == env[key]
  {
    var v := GetEnvVar(env, key, None);
    if v == "" then None else Some(v)
  }

  /** `VITE_NODE_ENV`, "development" when unset. */
  function NodeEnv(env: Env): (r: string)
    ensures r != ""
    ensures r == "production" <==> "VITE_NODE_ENV" in env && env["VITE_NODE_ENV"] == "production"
  {
    GetEnvVar(env, "VITE_NODE_ENV", Some("development"))
  }

  /** The exported `config` object. */
  function BuildConfig(env: Env): (c: AppConfig)
    ensures !(c.isDevelopment && c.isProduction)
    ensures c.isProduction <==> "VITE_NODE_ENV" in env && env["VITE_NODE_ENV"] == "production"
    ensures c.isDevelopment <==> c.nodeEnv == "development"
    ensures c.nodeEnv != "" && c.apiBaseUrl != "" && c.appName != ""
    ensures c.storage.prefix != "" && c.ui.defaultTheme != ""
  {
    var nodeEnv := NodeEnv(env);
    AppConfig(
      nodeEnv,
      nodeEnv == "development",
      nodeEnv == "production",
      GetEnvVar(env, "VITE_API_BASE_URL", Some("http://localhost:3001")),
      GetEnvNumber(env, "VITE_API_TIMEOUT", 10000),
      GetEnvBoolean(env, "VITE_ENABLE_MOCK_API", true),
      GetEnvVar(env, "VITE_APP_NAME", Some("Saast")),
      GetEnvVar(env, "VITE_APP_VERSION", Some("1.0.0")),
      GetEnvVar(env, "VITE_APP_DESCRIPTION", Some("Modern AI Chat SaaS Template")),
      Features(
        GetEnvBoolean(env, "VITE_ENABLE_VOICE_RECORDING", false),
        GetEnvBoolean(env, "VITE_ENABLE_FILE_UPLOAD", false),
        GetEnvBoolean(env, "VITE_ENABLE_ANALYTICS", false),
        GetEnvBoolean(env, "VITE_ENABLE_ERROR_REPORTING", false)),
      Analytics(
        OptionalVar(env, "VITE_GOOGLE_ANALYTICS_ID"),
        OptionalVar(env, "VITE_MIXPANEL_TOKEN")),
      ErrorReporting(
        OptionalVar(env, "VITE_SENTRY_DSN"),
        OptionalVar(env, "VITE_SENTRY_ENVIRONMENT")),
      Storage(
        GetEnvVar(env, "VITE_STORAGE_PREFIX", Some("saast_")),
        GetEnvNumber(env, "VITE_MAX_CONVERSATIONS", 100),
        GetEnvNumber(env, "VITE_MAX_MESSAGES_PER_CONVERSATION", 1000)),
      Ui(
        GetEnvVar(env, "VITE_DEFAULT_THEME", Some("light")),
        GetEnvBoolean(env, "VITE_ENABLE_THEME_PERSISTENCE", true),
        GetEnvNumber(env, "VITE_ANIMATION_DURATION", 300)),
      Security(
        GetEnvBoolean(env, "VITE_ENABLE_CSP", true),
        GetEnvArray(env, "VITE_ALLOWED_ORIGINS", ["http://localhost:5173"])))
  }

  /** With nothing set, every field takes its default. */
  lemma EmptyEnvDefaults()
    ensures var c := BuildConfig(map[]);
            && c.nodeEnv == "development" && c.isDevelopment && !c.isProduction
            && c.apiBaseUrl == "http://localhost:3001" && c.apiTimeout == 10000 && c.enableMockApi
            && c.appName == "Saast" && c.appVersion == "1.0.0"
            && c.appDescription == "Modern AI Chat SaaS Template"
            && c.features == Features(false, false, false, false)
            && c.analytics == Analytics(None, None)
            && c.errorReporting == ErrorReporting(None, None)
            && c.storage == Storage("saast_", 100, 1000)
            && c.ui == Ui("light", true, 300)
            && c.security == Security(true, ["http://localhost:5173"])
  {
  }

  /** The variables read through `getEnvVar` without a default, in the order
      the configuration reads them. */
  const UndefaultedKeys: seq<string> := [
    "VITE_API_TIMEOUT", "VITE_ENABLE_MOCK_API",
    "VITE_ENABLE_VOICE_RECORDING", "VITE_ENABLE_FILE_UPLOAD",
    "VITE_ENABLE_ANALYTICS", "VITE_ENABLE_ERROR_REPORTING",
    "VITE_GOOGLE_ANALYTICS_ID", "VITE_MIXPANEL_TOKEN",
    "VITE_SENTRY_DSN", "VITE_SENTRY_ENVIRONMENT",
    "VITE_MAX_CONVERSATIONS", "VITE_MAX_MESSAGES_PER_CONVERSATION",
    "VITE_ENABLE_THEME_PERSISTENCE", "VITE_ANIMATION_DURATION",
    "VITE_ENABLE_CSP", "VITE_ALLOWED_ORIGINS"]

  predicate Undefined(env: Env, key: string)
  {
    key !in env
  }

  /** The names a warning is printed for while the configuration is built:
      every variable read without a default that is undefined. */
  function ConfigWarnings(env: Env): (r: seq<string>)
    ensures forall k :: k in r <==> k in UndefaultedKeys && Warns(env, k, None)
    ensures Sequences.IsSubsequence(r, UndefaultedKeys)
  {
    Sequences.Filter(UndefaultedKeys, k => Undefined(env, k))
  }

  const ApiBaseUrlRequired := "API_BASE_URL is required"
  const AppNameRequired := "APP_NAME is required"
  const AnalyticsTokenMissing := "Analytics is enabled but no analytics tokens provided"
  const SentryDsnMissing := "Error reporting is enabled but no Sentry DSN provided"

  predicate AnalyticsMisconfigured(c: AppConfig)
  {
    c.features.analytics && c.analytics.googleAnalyticsId.None? && c.analytics.mixpanelToken.None?
  }

  predicate ErrorReportingMisconfigured(c: AppConfig)
  {
    c.features.errorReporting && c.errorReporting.sentryDsn.None?
  }

  /** The messages `validateConfig` collects, one per failed check, in the
      order the checks run. */
  function ValidationErrors(c: AppConfig): (r: seq<string>)
    ensures ApiBaseUrlRequired in r <==> c.apiBaseUrl == ""
    ensures AppNameRequired in r <==> c.appName == ""
    ensures AnalyticsTokenMissing in r <==> AnalyticsMisconfigured(c)
    ensures SentryDsnMissing in r <==> ErrorReportingMisconfigured(c)
    ensures forall i :: 0 <= i < |r| ==> r[i] in [ApiBaseUrlRequired, AppNameRequired, AnalyticsTokenMissing, SentryDsnMissing]
    ensures r == [] <==> !(c.apiBaseUrl == "" || c.appName == "" || AnalyticsMisconfigured(c) || ErrorReportingMisconfigured(c))
  {
    (if c.apiBaseUrl == "" then [ApiBaseUrlRequired] else [])
    + (if c.appName == "" then [AppNameRequired] else [])
    + (if AnalyticsMisconfigured(c) then [AnalyticsTokenMissing] else [])
    + (if ErrorReportingMisconfigured(c) then [SentryDsnMissing] else [])
  }

  /** `validateConfig`: the messages of the failed checks, pushed in the
      order the checks run, and the error thrown when there is any in
      production. The console output is left out. */
  method ValidateConfig(c: AppConfig) returns (errors: seq<string>, thrown: Option<string>)
    ensures errors == ValidationErrors(c)
    ensures thrown.Some? <==> errors != [] && c.isProduction
    ensures thrown.Some? ==> thrown.value == "Configuration validation failed: " + Join(errors, ", ")
  {
    ghost var e0 := if c.apiBaseUrl == "" then [ApiBaseUrlRequired] else [];
    ghost var e1 := if c.appName == "" then [AppNameRequired] else [];
    ghost var e2 := if AnalyticsMisconfigured(c) then [AnalyticsTokenMissing] else [];
    ghost var e3 := if ErrorReportingMisconfigured(c) then [SentryDsnMissing] else [];
    errors := [];
    if c.apiBaseUrl == "" {
      errors := errors + [ApiBaseUrlRequired];
    }
    assert errors == e0;
    if c.appName == "" {
      errors := errors + [AppNameRequired];
    }
    assert errors == e0 + e1;
    if AnalyticsMisconfigured(c) {
      errors := errors + [AnalyticsTokenMissing];
    }
    assert errors == e0 + e1 + e2;
    if ErrorReportingMisconfigured(c) {
      errors := errors + [SentryDsnMissing];
    }
    assert errors == e0 + e1 + e2 + e3;
    if errors != [] && c.isProduction {
      thrown := Some("Configuration validation failed: " + Join(errors, ", "));
    } else {
      thrown := None;
    }
  }

  /** The module's start-up: the configuration is built and, in production
      only, validated. Since the required fields always have non-empty
      defaults, only the analytics and error-reporting checks can make the
      start-up fail. */
  method Initialize(env: Env) returns (c: AppConfig, thrown: Option<string>)
    ensures c == BuildConfig(env)
    ensures thrown.Some? <==> c.isProduction && (AnalyticsMisconfigured(c) || ErrorReportingMisconfigured(c))
  {
    c := BuildConfig(env);
    thrown := None;
    if c.isProduction {
      var errors;
      errors, thrown := ValidateConfig(c);
    }
  }
}
