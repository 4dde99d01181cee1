/** Process-wide settings (`Settings` in app/core/config.py), read once at
    startup from the environment and the `.env` file and never changed. */
module Config {
  import opened Wrappers
  import opened Constraints

  datatype Settings = Settings(
    apiTitle: string,
    apiVersion: string,
    host: string,
    port: int,
    reload: bool,
    googleApiKey: string,
    googleAiModel: string,
    defaultTemperature: real,
    defaultMaxTokens: int)

  /** The values found for each field in the environment, already converted
      to the field's type; `None` where the variable is not set. */
  datatype SettingsSource = SettingsSource(
    apiTitle: Option<string>,
    apiVersion: Option<string>,
    host: Option<string>,
    port: Option<int>,
    reload: Option<bool>,
    googleApiKey: Option<string>,
    googleAiModel: Option<string>,
    defaultTemperature: Option<real>,
    defaultMaxTokens: Option<int>)

  /** Startup aborts either with the settings' validation error or with the
      module-level check for an empty API key. */
  datatype StartupError = InvalidSettings(errors: seq<FieldError>) | EmptyApiKey(message: string)

  const DefaultApiTitle := "Cherry AI - Google AI Studio LLM Server"
  const DefaultApiVersion := "1.0.0"
  const DefaultHost := "0.0.0.0"
  const DefaultPort := 8000
  const DefaultReload := true
  const DefaultModel := "gemini-1.5-flash"
  const DefaultTemperature := 0.7
  const DefaultMaxTokens := 1000

  const MinPort := 1024
  const MaxPort := 65535
  const MinTokens := 1
  const MaxTokens := 8000

  const SupportedModels: seq<string> := ["gemini-1.5-flash", "gemini-1.5-pro", "gemini-pro", "gemini-pro-vision"]

  const UnsupportedModelMessage := "지원하지 않는 모델입니다. 지원 모델: " + "['gemini-1.5-flash', 'gemini-1.5-pro', 'gemini-pro', 'gemini-pro-vision']"
  const PortRangeMessage := "포트 번호는 1024-65535 사이여야 합니다."
  const ApiKeyRequiredMessage := "GOOGLE_API_KEY environment variable is required"

  /** What a running service may assume about its settings. */
  predicate Valid(s: Settings)
  {
    && MinPort <= s.port <= MaxPort
    && s.googleApiKey != ""
    && s.googleAiModel in SupportedModels
    && 0.0 <= s.defaultTemperature <= 1.0
    && MinTokens <= s.defaultMaxTokens <= MaxTokens
  }

  /** `validate_google_ai_model`: the model name must be a supported one. */
  function ValidateGoogleAiModel(v: string): (r: Result<string, string>)
    ensures r.Ok? <==> v in SupportedModels
    ensures r.Ok? ==> r.value == v
    ensures r.Err? ==> r.error == UnsupportedModelMessage
  {
    if v !in SupportedModels then Err(UnsupportedModelMessage) else Ok(v)
  }

  /** `validate_port`. */
  function ValidatePort(v: int): (r: Result<int, string>)
    ensures r.Ok? <==> MinPort <= v <= MaxPort
    ensures r.Ok? ==> r.value == v
  {
    if v < MinPort || v > MaxPort then Err(PortRangeMessage) else Ok(v)
  }

  /** The `port` field: the value found, or the default 8000, goes through
      the `ge`/`le` bounds and then `validate_port` (the settings class
      validates its defaults too). The bounds reject every port the
      validator would, so the validator's own error is never reported. */
  function PortField(v: Option<int>): (c: Checked<int>)
    ensures c.Ok? <==> PortAcceptable(v)
    ensures c.Ok? ==> c.value == v.GetOr(DefaultPort)
    ensures c.Err? ==> |c.error| == 1 && c.error[0].loc == ["port"] && !c.error[0].kind.ValueError?
    ensures c.Err? ==> c.error[0].kind.GreaterThanEqual? || c.error[0].kind.LessThanEqual?
  {
    ThenValidate(["port"], IntInRange(["port"], v.GetOr(DefaultPort), MinPort, MaxPort), ValidatePort)
  }

  /** The `google_ai_model` field: the value found, or the default, goes
      through `validate_google_ai_model`. */
  function ModelField(v: Option<string>): (c: Checked<string>)
    ensures c.Ok? <==> ModelAcceptable(v)
    ensures c.Ok? ==> c.value == v.GetOr(DefaultModel)
    ensures c.Err? ==> c.error == [FieldError(["google_ai_model"], ValueError(UnsupportedModelMessage))]
  {
    ThenValidate(["google_ai_model"], Ok(v.GetOr(DefaultModel)), ValidateGoogleAiModel)
  }

  /** The `default_temperature` field: `ge=0.0, le=1.0` on the value found
      or on the default 0.7. */
  function TemperatureField(v: Option<real>): (c: Checked<real>)
    ensures c.Ok? <==> TemperatureAcceptable(v)
    ensures c.Ok? ==> c.value == v.GetOr(DefaultTemperature)
    ensures c.Err? ==> |c.error| == 1 && c.error[0].loc == ["default_temperature"]
  {
    InRange(["default_temperature"], v.GetOr(DefaultTemperature), 0.0, 1.0)
  }

  /** The `default_max_tokens` field: `ge=1, le=8000` on the value found or
      on the default 1000. */
  function MaxTokensField(v: Option<int>): (c: Checked<int>)
    ensures c.Ok? <==> MaxTokensAcceptable(v)
    ensures c.Ok? ==> c.value == v.GetOr(DefaultMaxTokens)
    ensures c.Err? ==> |c.error| == 1 && c.error[0].loc == ["default_max_tokens"]
  {
    IntInRange(["default_max_tokens"], v.GetOr(DefaultMaxTokens), MinTokens, MaxTokens)
  }

  predicate PortAcceptable(v: Option<int>) { v.None? || MinPort <= v.value <= MaxPort }

  predicate ModelAcceptable(v: Option<string>) { v.None? || v.value in SupportedModels }

  predicate TemperatureAcceptable(v: Option<real>) { v.None? || 0.0 <= v.value <= 1.0 }

  predicate MaxTokensAcceptable(v: Option<int>) { v.None? || MinTokens <= v.value <= MaxTokens }

  /** What the environment must hold for `Settings()` to validate. */
  predicate FieldsAcceptable(src: SettingsSource)
  {
    && PortAcceptable(src.port)
    && src.googleApiKey.Some?
    && ModelAcceptable(src.googleAiModel)
    && TemperatureAcceptable(src.defaultTemperature)
    && MaxTokensAcceptable(src.defaultMaxTokens)
  }

  /** What the environment must hold for startup to succeed. */
  predicate Acceptable(src: SettingsSource)
  {
    FieldsAcceptable(src) && src.googleApiKey.value != ""
  }

  /** `settings = Settings()` followed by the module-level API-key check.
      All field errors are reported together (`InvalidSettingsNameFailingFields`
      shows which fields they name); the empty-key check runs only on
      settings that validated. */
  function LoadSettings(src: SettingsSource): (r: Result<Settings, StartupError>)
    ensures r.Ok? <==> Acceptable(src)
    ensures r.Ok? ==> Valid(r.value)
    ensures r.Ok? ==> r.value == Settings(
      src.apiTitle.GetOr(DefaultApiTitle),
      src.apiVersion.GetOr(DefaultApiVersion),
      src.host.GetOr(DefaultHost),
      src.port.GetOr(DefaultPort),
      src.reload.GetOr(DefaultReload),
      src.googleApiKey.value,
      src.googleAiModel.GetOr(DefaultModel),
      src.defaultTemperature.GetOr(DefaultTemperature),
      src.defaultMaxTokens.GetOr(DefaultMaxTokens))
    ensures r.Err? && r.error.InvalidSettings? <==> !FieldsAcceptable(src)
    ensures r.Err? && r.error.InvalidSettings? ==> r.error.errors != []
    ensures r.Err? && r.error.EmptyApiKey? <==> FieldsAcceptable(src) && src.googleApiKey.value == ""
    ensures r.Err? && r.error.EmptyApiKey? ==> r.error.message == ApiKeyRequiredMessage
  {
    var port := PortField(src.port);
    var key := Required(["google_api_key"], src.googleApiKey);
    var model := ModelField(src.googleAiModel);
    var temperature := TemperatureField(src.defaultTemperature);
    var maxTokens := MaxTokensField(src.defaultMaxTokens);
    var errors := ErrorsOf(port) + ErrorsOf(key) + ErrorsOf(model) + ErrorsOf(temperature) + ErrorsOf(maxTokens);
    if errors != [] then Err(InvalidSettings(errors))
    else if key.value == "" then Err(EmptyApiKey(ApiKeyRequiredMessage))
    else Ok(Settings(
      src.apiTitle.GetOr(DefaultApiTitle),
      src.apiVersion.GetOr(DefaultApiVersion),
      src.host.GetOr(DefaultHost),
      port.value,
      src.reload.GetOr(DefaultReload),
      key.value,
      model.value,
      temperature.value,
      maxTokens.value))
  }

  /** When the settings fail validation, the error names each failing field,
      and only those. */
  lemma InvalidSettingsNameFailingFields(src: SettingsSource)
    requires LoadSettings(src).Err? && LoadSettings(src).error.InvalidSettings?
    ensures var errs := LoadSettings(src).error.errors;
      && (ReportsUnder(errs, ["port"]) <==> !PortAcceptable(src.port))
      && (ReportsUnder(errs, ["google_api_key"]) <==> src.googleApiKey.None?)
      && (ReportsUnder(errs, ["google_ai_model"]) <==> !ModelAcceptable(src.googleAiModel))
      && (ReportsUnder(errs, ["default_temperature"]) <==> !TemperatureAcceptable(src.defaultTemperature))
      && (ReportsUnder(errs, ["default_max_tokens"]) <==> !MaxTokensAcceptable(src.defaultMaxTokens))
  {
    var p := ErrorsOf(PortField(src.port));
    var k := ErrorsOf(Required(["google_api_key"], src.googleApiKey));
    var m := ErrorsOf(ModelField(src.googleAiModel));
    var t := ErrorsOf(TemperatureField(src.defaultTemperature));
    var x := ErrorsOf(MaxTokensField(src.defaultMaxTokens));
    assert LoadSettings(src).error.errors == p + k + m + t + x;
    SingleFieldErrors(PortField(src.port), "port");
    SingleFieldErrors(Required(["google_api_key"], src.googleApiKey), "google_api_key");
    SingleFieldErrors(ModelField(src.googleAiModel), "google_ai_model");
    SingleFieldErrors(TemperatureField(src.defaultTemperature), "default_temperature");
    SingleFieldErrors(MaxTokensField(src.defaultMaxTokens), "default_max_tokens");
    SettingsErrorsReport(p, k, m, t, x, "port");
    SettingsErrorsReport(p, k, m, t, x, "google_api_key");
    SettingsErrorsReport(p, k, m, t, x, "google_ai_model");
    SettingsErrorsReport(p, k, m, t, x, "default_temperature");
    SettingsErrorsReport(p, k, m, t, x, "default_max_tokens");
  }

  /** A field that fails with one error at its own name contributes errors
      exactly when it fails, all under that name. */
  lemma SingleFieldErrors<T>(c: Checked<T>, name: string)
    requires c.Err? ==> |c.error| == 1 && c.error[0].loc == [name]
    ensures AllUnder(ErrorsOf(c), [name])
    ensures ErrorsOf(c) != [] <==> c.Err?
  {
  }

  /** The settings' errors, gathered field by field in declaration order,
      lie under a field name exactly when that field contributed errors. */
  lemma SettingsErrorsReport(p: seq<FieldError>, k: seq<FieldError>, m: seq<FieldError>,
                             t: seq<FieldError>, x: seq<FieldError>, field: string)
    requires AllUnder(p, ["port"]) && AllUnder(k, ["google_api_key"]) && AllUnder(m, ["google_ai_model"])
    requires AllUnder(t, ["default_temperature"]) && AllUnder(x, ["default_max_tokens"])
    ensures ReportsUnder(p + k + m + t + x, [field]) <==>
      || (field == "port" && p != [])
      || (field == "google_api_key" && k != [])
      || (field == "google_ai_model" && m != [])
      || (field == "default_temperature" && t != [])
      || (field == "default_max_tokens" && x != [])
  {
    ReportsUnderConcat(p + k + m + t, x, [field]);
    ReportsUnderConcat(p + k + m, t, [field]);
    ReportsUnderConcat(p + k, m, [field]);
    ReportsUnderConcat(p, k, [field]);
    FieldReports(p, "port", field);
    FieldReports(k, "google_api_key", field);
    FieldReports(m, "google_ai_model", field);
    FieldReports(t, "default_temperature", field);
    FieldReports(x, "default_max_tokens", field);
  }

  /** Errors that all lie under one field name are reported under that name
      exactly when there are some, and never under another. */
  lemma FieldReports(errs: seq<FieldError>, own: string, field: string)
    requires AllUnder(errs, [own])
    ensures ReportsUnder(errs, [field]) <==> field == own && errs != []
  {
    if field != own {
      AllUnderExcludes(errs, own, field);
    } else if errs != [] {
      assert [field] <= errs[0].loc;
    }
  }

  /** With only a non-empty API key in the environment, every other field
      takes its default and the defaults satisfy all the constraints. */
  lemma DefaultsAreValid(key: string)
    requires key != ""
    ensures var r := LoadSettings(SettingsSource(None, None, None, None, None, Some(key), None, None, None));
      r.Ok? && r.value == Settings(DefaultApiTitle, DefaultApiVersion, DefaultHost, DefaultPort,
                                   DefaultReload, key, DefaultModel, DefaultTemperature, DefaultMaxTokens)
  {
  }

  /** A missing API key aborts startup with a `Missing` error on
      `google_api_key`, whatever else the environment holds. */
  lemma MissingKeyReported(src: SettingsSource)
    requires src.googleApiKey.None?
    ensures LoadSettings(src).Err? && LoadSettings(src).error.InvalidSettings?
    ensures FieldError(["google_api_key"], Missing) in LoadSettings(src).error.errors
  {
  }
}
