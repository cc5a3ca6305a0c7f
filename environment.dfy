/**
 * The environment-aware configuration manager: which deployment environment the
 * bot runs in, which settings that environment requires, and the validation
 * that collects errors and warnings over them.
 *
 * Django settings are a map from setting name to string; a name that is not in
 * the map reads as "" (`getattr(settings, key, '')`).
 */
module EnvironmentManager {
  import opened Wrappers
  import Text

  datatype Environment = DEVELOPMENT | STAGING | PRODUCTION | TESTING
  {
    /** The enum member's `.value`. */
    function Value(): string {
      match this
      case DEVELOPMENT => "development"
      case STAGING => "staging"
      case PRODUCTION => "production"
      case TESTING => "testing"
    }
  }

  /** `Environment(name)` for a name among the members' values, None otherwise. */
  function EnvironmentNamed(name: string): (r: Option<Environment>)
    ensures r.Some? <==> name in {"development", "staging", "production", "testing"}
    ensures r.Some? ==> r.value.Value() == name
  {
    if name == "development" then Some(DEVELOPMENT)
    else if name == "staging" then Some(STAGING)
    else if name == "production" then Some(PRODUCTION)
    else if name == "testing" then Some(TESTING)
    else None
  }

  /**
   * `_detect_environment`. `envVar` is `DJANGO_ENVIRONMENT` ("" when unset), `debug`
   * the truth of `settings.DEBUG`, `domain` the `CURRENT_DOMAIN` setting (None when
   * unset, which reads as 'localhost').
   */
  function DetectEnvironment(envVar: string, debug: bool, domain: Option<string>): (e: Environment)
    ensures EnvironmentNamed(Text.Lower(envVar)).Some? ==> e == EnvironmentNamed(Text.Lower(envVar)).value
    ensures EnvironmentNamed(Text.Lower(envVar)).None? && debug ==> e == DEVELOPMENT
    ensures EnvironmentNamed(Text.Lower(envVar)).None? && !debug ==>
              var d := domain.GetOr("localhost");
              (e == DEVELOPMENT <==> Text.Contains(d, "localhost") || Text.Contains(d, "127.0.0.1")) &&
              (e == STAGING <==> !Text.Contains(d, "localhost") && !Text.Contains(d, "127.0.0.1") &&
                                 (Text.Contains(d, "staging") || Text.Contains(d, "dev"))) &&
              (e == PRODUCTION <==> !Text.Contains(d, "localhost") && !Text.Contains(d, "127.0.0.1") &&
                                    !Text.Contains(d, "staging") && !Text.Contains(d, "dev")) &&
              e != TESTING
  {
    var named := EnvironmentNamed(Text.Lower(envVar));
    if named.Some? then named.value
    else if debug then DEVELOPMENT
    else
      var d := domain.GetOr("localhost");
      if Text.Contains(d, "localhost") || Text.Contains(d, "127.0.0.1") then DEVELOPMENT
      else if Text.Contains(d, "staging") || Text.Contains(d, "dev") then STAGING
      else PRODUCTION
  }

  /** Without an explicit name or DEBUG, an unset domain means development. */
  lemma UnsetDomainIsDevelopment(envVar: string)
    requires EnvironmentNamed(Text.Lower(envVar)).None?
    ensures DetectEnvironment(envVar, false, None) == DEVELOPMENT
  {
    Text.ContainsAt("localhost", "localhost", 0);
  }

  /** An explicit `DJANGO_ENVIRONMENT` wins over DEBUG and the domain, whatever its letter case. */
  lemma ExplicitNameWins(e: Environment, name: string, debug: bool, domain: Option<string>)
    requires Text.Lower(name) == e.Value()
    ensures DetectEnvironment(name, debug, domain) == e
  {
    assert EnvironmentNamed(e.Value()) == Some(e) by {
      match e
      case DEVELOPMENT =>
      case STAGING =>
      case PRODUCTION =>
      case TESTING =>
    }
  }

  // ---------------------------------------------------------------------------
  // Required settings

  datatype ConfigKey =
    | WHATSAPP_ACCESS_TOKEN
    | WHATSAPP_PHONE_NUMBER_ID
    | WHATSAPP_WEBHOOK_VERIFY_TOKEN
    | WHATSAPP_APP_SECRET
    | WHATSAPP_WEBHOOK_URL
  {
    /** The setting's name in Django settings. */
    function Name(): string {
      match this
      case WHATSAPP_ACCESS_TOKEN => "WHATSAPP_ACCESS_TOKEN"
      case WHATSAPP_PHONE_NUMBER_ID => "WHATSAPP_PHONE_NUMBER_ID"
      case WHATSAPP_WEBHOOK_VERIFY_TOKEN => "WHATSAPP_WEBHOOK_VERIFY_TOKEN"
      case WHATSAPP_APP_SECRET => "WHATSAPP_APP_SECRET"
      case WHATSAPP_WEBHOOK_URL => "WHATSAPP_WEBHOOK_URL"
    }
  }

  /** `get_required_configs`, in the dictionary's insertion order; every entry is required. */
  function RequiredConfigs(env: Environment): (r: seq<ConfigKey>)
    ensures |r| >= 3 && r[..3] == [WHATSAPP_ACCESS_TOKEN, WHATSAPP_PHONE_NUMBER_ID, WHATSAPP_WEBHOOK_VERIFY_TOKEN]
    ensures env == PRODUCTION ==> |r| == 5 && r[3..] == [WHATSAPP_APP_SECRET, WHATSAPP_WEBHOOK_URL]
    ensures env != PRODUCTION ==> |r| == 3
    ensures forall i, j :: 0 <= i < j < |r| ==> r[i] != r[j]
  {
    var base := [WHATSAPP_ACCESS_TOKEN, WHATSAPP_PHONE_NUMBER_ID, WHATSAPP_WEBHOOK_VERIFY_TOKEN];
    if env == PRODUCTION then base + [WHATSAPP_APP_SECRET, WHATSAPP_WEBHOOK_URL] else base
  }

  type Settings = map<string, string>

  /** `getattr(settings, key, '')` */
  function Setting(settings: Settings, name: string): string {
    if name in settings then settings[name] else ""
  }

  // ---------------------------------------------------------------------------
  // Validators

  /** What a validator or the whole validation collects. */
  datatype Findings = Findings(errors: seq<string>, warnings: seq<string>) {
    /** `len(errors) == 0` */
    predicate IsValid() {
      errors == []
    }
  }

  const TOKEN_PREFIX_ERROR: string := "Access token should start with 'EAA'"
  const TOKEN_SHORT_WARNING: string := "Access token seems unusually short"
  const PHONE_ID_ERROR: string := "Phone number ID must be numeric"
  const PHONE_ID_SHORT_WARNING: string := "Phone number ID seems unusually short"
  const VERIFY_TOKEN_WARNING: string := "Verify token should be at least 8 characters for security"
  const APP_SECRET_WARNING: string := "App secret seems unusually short"
  const URL_SCHEME_ERROR: string := "Webhook URL must use HTTPS in production"
  const URL_LOCAL_ERROR: string := "Webhook URL cannot be localhost in production"
  const PRODUCTION_LOCAL_ERROR: string := "Production environment cannot use localhost webhook URL"

  /** Whether a text names this machine: `'localhost' in s or '127.0.0.1' in s`. */
  predicate IsLocal(s: string) {
    Text.Contains(s, "localhost") || Text.Contains(s, "127.0.0.1")
  }

  /** `_validate_access_token` */
  function ValidateAccessToken(token: string): (r: Findings)
    ensures r.IsValid() <==> Text.StartsWith(token, "EAA")
    ensures r.warnings == (if |token| < 100 then [TOKEN_SHORT_WARNING] else [])
    ensures |r.errors| <= 1
  {
    Findings(if Text.StartsWith(token, "EAA") then [] else [TOKEN_PREFIX_ERROR],
             if |token| < 100 then [TOKEN_SHORT_WARNING] else [])
  }

  /** `_validate_phone_number_id` */
  function ValidatePhoneNumberId(phoneId: string): (r: Findings)
    ensures r.IsValid() <==> Text.PyIsDigit(phoneId)
    ensures r.warnings == (if |phoneId| < 10 then [PHONE_ID_SHORT_WARNING] else [])
    ensures |r.errors| <= 1
  {
    Findings(if Text.PyIsDigit(phoneId) then [] else [PHONE_ID_ERROR],
             if |phoneId| < 10 then [PHONE_ID_SHORT_WARNING] else [])
  }

  /** `_validate_verify_token`: a short token is only a warning. */
  function ValidateVerifyToken(token: string): (r: Findings)
    ensures r.IsValid()
    ensures r.warnings == (if |token| < 8 then [VERIFY_TOKEN_WARNING] else [])
  {
    Findings([], if |token| < 8 then [VERIFY_TOKEN_WARNING] else [])
  }

  /** `_validate_app_secret`: a short secret is only a warning. */
  function ValidateAppSecret(secret: string): (r: Findings)
    ensures r.IsValid()
    ensures r.warnings == (if |secret| < 16 then [APP_SECRET_WARNING] else [])
  {
    Findings([], if |secret| < 16 then [APP_SECRET_WARNING] else [])
  }

  /** `_validate_webhook_url`: the scheme check, then the local-host check; no warnings. */
  function ValidateWebhookUrl(url: string): (r: Findings)
    ensures r.IsValid() <==> Text.StartsWith(url, "https://") && !IsLocal(url)
    ensures (URL_SCHEME_ERROR in r.errors <==> !Text.StartsWith(url, "https://"))
    ensures (URL_LOCAL_ERROR in r.errors <==> IsLocal(url))
    ensures r.warnings == []
  {
    Findings((if Text.StartsWith(url, "https://") then [] else [URL_SCHEME_ERROR]) +
             (if IsLocal(url) then [URL_LOCAL_ERROR] else []),
             [])
  }

  /** The validator `get_required_configs` attaches to each key. */
  function Validator(key: ConfigKey, value: string): Findings {
    match key
    case WHATSAPP_ACCESS_TOKEN => ValidateAccessToken(value)
    case WHATSAPP_PHONE_NUMBER_ID => ValidatePhoneNumberId(value)
    case WHATSAPP_WEBHOOK_VERIFY_TOKEN => ValidateVerifyToken(value)
    case WHATSAPP_APP_SECRET => ValidateAppSecret(value)
    case WHATSAPP_WEBHOOK_URL => ValidateWebhookUrl(value)
  }

  /** The error for a missing required setting. */
  function RequiredError(key: ConfigKey, env: Environment): string {
    key.Name() + " is required for " + env.Value() + " environment"
  }

  /**
   * One turn of the loop of `validate_configuration`: a missing value is one error
   * and its validator is skipped; otherwise the validator's errors (when it fails)
   * and its warnings are collected.
   */
  function KeyFindings(env: Environment, key: ConfigKey, value: string): Findings {
    if value == "" then Findings([RequiredError(key, env)], [])
    else
      var v := Validator(key, value);
      Findings(if !v.IsValid() then v.errors else [], v.warnings)
  }

  /** The findings of the loop over `keys`, in order. */
  function KeysFindings(env: Environment, settings: Settings, keys: seq<ConfigKey>): Findings {
    if keys == [] then Findings([], [])
    else
      var prev := KeysFindings(env, settings, keys[..|keys| - 1]);
      var key := keys[|keys| - 1];
      var f := KeyFindings(env, key, Setting(settings, key.Name()));
      Findings(prev.errors + f.errors, prev.warnings + f.warnings)
  }

  /** The production-only check after the loop. */
  function ProductionFindings(env: Environment, settings: Settings): Findings {
    var url := Setting(settings, WHATSAPP_WEBHOOK_URL.Name());
    if env == PRODUCTION && url != "" && IsLocal(url) then Findings([PRODUCTION_LOCAL_ERROR], [])
    else Findings([], [])
  }

  datatype ConfigValidationResult = ConfigValidationResult(
    isValid: bool,
    errors: seq<string>,
    warnings: seq<string>,
    environment: Environment)

  /** What `validate_configuration` returns for the environment `env` and the settings `settings`. */
  function Validation(env: Environment, settings: Settings): ConfigValidationResult {
    var f := KeysFindings(env, settings, RequiredConfigs(env));
    var extra := ProductionFindings(env, settings);
    var errors := f.errors + extra.errors;
    ConfigValidationResult(|errors| == 0, errors, f.warnings, env)
  }

  /** One more turn of the loop appends that key's findings. */
  lemma KeysFindingsStep(env: Environment, settings: Settings, keys: seq<ConfigKey>, i: nat)
    requires i < |keys|
    ensures var prev := KeysFindings(env, settings, keys[..i]);
            var f := KeyFindings(env, keys[i], Setting(settings, keys[i].Name()));
            KeysFindings(env, settings, keys[..i + 1]) == Findings(prev.errors + f.errors, prev.warnings + f.warnings)
  {
    assert keys[..i + 1][..i] == keys[..i];
  }

  // ---------------------------------------------------------------------------
  // What the validation means

  /** Whether one required setting passes: present, and its validator finds no error. */
  predicate KeyPasses(key: ConfigKey, value: string) {
    value != "" &&
    match key
    case WHATSAPP_ACCESS_TOKEN => Text.StartsWith(value, "EAA")
    case WHATSAPP_PHONE_NUMBER_ID => Text.PyIsDigit(value)
    case WHATSAPP_WEBHOOK_VERIFY_TOKEN => true
    case WHATSAPP_APP_SECRET => true
    case WHATSAPP_WEBHOOK_URL => Text.StartsWith(value, "https://") && !IsLocal(value)
  }

  lemma KeyFindingsPass(env: Environment, key: ConfigKey, value: string)
    ensures KeyFindings(env, key, value).errors == [] <==> KeyPasses(key, value)
  {
  }

  /** Every key of `keys` passes with the values of `settings`. */
  predicate AllPass(settings: Settings, keys: seq<ConfigKey>) {
    forall i :: 0 <= i < |keys| ==> KeyPasses(keys[i], Setting(settings, keys[i].Name()))
  }

  lemma AllPassSnoc(settings: Settings, keys: seq<ConfigKey>)
    requires keys != []
    ensures AllPass(settings, keys) <==>
            AllPass(settings, keys[..|keys| - 1]) &&
            KeyPasses(keys[|keys| - 1], Setting(settings, keys[|keys| - 1].Name()))
  {
    var init := keys[..|keys| - 1];
    assert forall i :: 0 <= i < |init| ==> init[i] == keys[i];
  }

  /** The loop collects no error exactly when every key it visits passes. */
  lemma {:induction false} KeysFindingsPass(env: Environment, settings: Settings, keys: seq<ConfigKey>)
    ensures KeysFindings(env, settings, keys).errors == [] <==> AllPass(settings, keys)
  {
    if keys != [] {
      var init := keys[..|keys| - 1];
      var key := keys[|keys| - 1];
      var value := Setting(settings, key.Name());
      KeysFindingsPass(env, settings, init);
      KeyFindingsPass(env, key, value);
      AllPassSnoc(settings, keys);
      var prev := KeysFindings(env, settings, init);
      var f := KeyFindings(env, key, value);
      assert KeysFindings(env, settings, keys).errors == prev.errors + f.errors;
      assert prev.errors + f.errors == [] <==> prev.errors == [] && f.errors == [];
    }
  }

  /**
   * `is_valid` holds exactly when every required setting of the environment is
   * present and passes its validator; in production a local webhook URL already
   * fails its validator, so the extra production check never turns a valid result
   * into an invalid one on its own.
   */
  lemma ValidIffEveryRequiredKeyPasses(env: Environment, settings: Settings)
    ensures var r := Validation(env, settings);
            (r.isValid <==> r.errors == []) &&
            (r.isValid <==> AllPass(settings, RequiredConfigs(env)))
  {
    var keys := RequiredConfigs(env);
    KeysFindingsPass(env, settings, keys);
    if env == PRODUCTION && !AllPass(settings, keys) {
      assert KeysFindings(env, settings, keys).errors != [];
    }
  }

  /** Outside production only the three base settings matter. */
  lemma NonProductionValidity(env: Environment, settings: Settings)
    requires env != PRODUCTION
    ensures Validation(env, settings).isValid <==>
            Text.StartsWith(Setting(settings, "WHATSAPP_ACCESS_TOKEN"), "EAA") &&
            Text.PyIsDigit(Setting(settings, "WHATSAPP_PHONE_NUMBER_ID")) &&
            Setting(settings, "WHATSAPP_WEBHOOK_VERIFY_TOKEN") != ""
  {
    var keys := RequiredConfigs(env);
    KeysFindingsPass(env, settings, keys);
    assert keys == [WHATSAPP_ACCESS_TOKEN, WHATSAPP_PHONE_NUMBER_ID, WHATSAPP_WEBHOOK_VERIFY_TOKEN];
    assert AllPass(settings, keys) <==>
           KeyPasses(keys[0], Setting(settings, keys[0].Name())) &&
           KeyPasses(keys[1], Setting(settings, keys[1].Name())) &&
           KeyPasses(keys[2], Setting(settings, keys[2].Name()));
  }

  /** A missing required setting is reported once, by name, and its validator adds nothing. */
  lemma {:induction false} MissingKeyReported(env: Environment, settings: Settings, keys: seq<ConfigKey>, i: nat)
    requires i < |keys| && Setting(settings, keys[i].Name()) == ""
    ensures RequiredError(keys[i], env) in KeysFindings(env, settings, keys).errors
    ensures KeyFindings(env, keys[i], "") == Findings([RequiredError(keys[i], env)], [])
  {
    if i < |keys| - 1 {
      MissingKeyReported(env, settings, keys[..|keys| - 1], i);
    }
  }

  /** The verify token and the app secret can only ever add warnings. */
  lemma {:induction false} WarningOnlyKeys(env: Environment, settings: Settings, keys: seq<ConfigKey>)
    requires forall i :: 0 <= i < |keys| ==> keys[i] in {WHATSAPP_WEBHOOK_VERIFY_TOKEN, WHATSAPP_APP_SECRET}
    requires forall i :: 0 <= i < |keys| ==> Setting(settings, keys[i].Name()) != ""
    ensures KeysFindings(env, settings, keys).errors == []
  {
    if keys != [] {
      WarningOnlyKeys(env, settings, keys[..|keys| - 1]);
    }
  }

  /**
   * In production a webhook URL on this machine is reported twice: by its
   * validator and again by the production check.
   */
  lemma ProductionLocalUrlReportedTwice(settings: Settings)
    requires Setting(settings, "WHATSAPP_WEBHOOK_URL") != ""
    requires IsLocal(Setting(settings, "WHATSAPP_WEBHOOK_URL"))
    ensures var r := Validation(PRODUCTION, settings);
            URL_LOCAL_ERROR in r.errors && PRODUCTION_LOCAL_ERROR in r.errors && !r.isValid
  {
    var keys := RequiredConfigs(PRODUCTION);
    var url := Setting(settings, "WHATSAPP_WEBHOOK_URL");
    assert keys[..4] == keys[..|keys| - 1];
    var f := KeyFindings(PRODUCTION, WHATSAPP_WEBHOOK_URL, url);
    assert URL_LOCAL_ERROR in f.errors;
    assert KeysFindings(PRODUCTION, settings, keys).errors ==
           KeysFindings(PRODUCTION, settings, keys[..4]).errors + f.errors;
  }

  // ---------------------------------------------------------------------------
  // The manager

  datatype ConfigurationSummary = ConfigurationSummary(
    environment: string,
    isValid: bool,
    errorCount: nat,
    warningCount: nat,
    hasAccessToken: bool,
    hasPhoneNumberId: bool,
    hasAppSecret: bool,
    webhookUrlConfigured: bool)

  /** `WhatsAppEnvironmentManager`: the environment is detected once, at construction. */
  class WhatsAppEnvironmentManager {
    const environment: Environment

    constructor(envVar: string, debug: bool, domain: Option<string>)
      ensures environment == DetectEnvironment(envVar, debug, domain)
    {
      environment := DetectEnvironment(envVar, debug, domain);
    }

    /** `validate_configuration` */
    method ValidateConfiguration(settings: Settings) returns (result: ConfigValidationResult)
      ensures result == Validation(environment, settings)
      ensures result.isValid <==> result.errors == []
    {
      var errors: seq<string> := [];
      var warnings: seq<string> := [];
      var required := RequiredConfigs(environment);
      var i := 0;
      while i < |required|
        invariant i <= |required|
        invariant Findings(errors, warnings) == KeysFindings(environment, settings, required[..i])
      {
        var key := required[i];
        var value := Setting(settings, key.Name());
        KeysFindingsStep(environment, settings, required, i);
        if value == "" {
          errors := errors + [RequiredError(key, environment)];
        } else {
          var v := Validator(key, value);
          if !v.IsValid() {
            errors := errors + v.errors;
          }
          warnings := warnings + v.warnings;
        }
        i := i + 1;
      }
      assert required[..i] == required;
      if environment == PRODUCTION {
        var url := Setting(settings, "WHATSAPP_WEBHOOK_URL");
        if url != "" && IsLocal(url) {
          errors := errors + [PRODUCTION_LOCAL_ERROR];
        }
      }
      result := ConfigValidationResult(|errors| == 0, errors, warnings, environment);
    }

    /** `get_configuration_summary`: the counts are those of the validation result. */
    method GetConfigurationSummary(settings: Settings) returns (summary: ConfigurationSummary)
      ensures var v := Validation(environment, settings);
              summary.environment == environment.Value() &&
              summary.isValid == v.isValid &&
              summary.errorCount == |v.errors| && summary.warningCount == |v.warnings|
      ensures summary.hasAccessToken <==> Setting(settings, "WHATSAPP_ACCESS_TOKEN") != ""
      ensures summary.hasPhoneNumberId <==> Setting(settings, "WHATSAPP_PHONE_NUMBER_ID") != ""
      ensures summary.hasAppSecret <==> Setting(settings, "WHATSAPP_APP_SECRET") != ""
      ensures summary.webhookUrlConfigured <==> Setting(settings, "WHATSAPP_WEBHOOK_URL") != ""
    {
      var v := ValidateConfiguration(settings);
      summary := ConfigurationSummary(
        environment.Value(), v.isValid, |v.errors|, |v.warnings|,
        Setting(settings, "WHATSAPP_ACCESS_TOKEN") != "",
        Setting(settings, "WHATSAPP_PHONE_NUMBER_ID") != "",
        Setting(settings, "WHATSAPP_APP_SECRET") != "",
        Setting(settings, "WHATSAPP_WEBHOOK_URL") != "");
    }
  }
}
