/**
 * The plugin settings object: a setting is looked up in the plugin's entry of
 * Django's PLUGIN_CONFIGS, then in the process environment, then in the
 * defaults, and is cached on the object until `reload`. Setting values are
 * JSON-like Python values; the environment holds values already cast to the
 * default's type.
 */
module PluginSettingsModel {
  import opened Wrappers
  import opened PyJson

  const PLUGIN_NAME: string := "care_whatsapp_bot"

  type Values = map<string, Json>

  /** Django's `PLUGIN_CONFIGS` setting: None when the setting is absent. */
  type PluginConfigs = Option<map<string, Values>>

  /** The `user_settings` property: the plugin's entry of PLUGIN_CONFIGS, or `{}`. */
  function UserSettings(configs: PluginConfigs, pluginName: string): (r: Values)
    ensures configs.None? ==> r == map[]
    ensures configs.Some? && pluginName in configs.value ==> r == configs.value[pluginName]
    ensures configs.Some? && pluginName !in configs.value ==> r == map[]
  {
    match configs
    case None => map[]
    case Some(m) => if pluginName in m then m[pluginName] else map[]
  }

  /**
   * The value `__getattr__` computes for a known setting: the user's value,
   * else the environment's, else the default.
   */
  function Resolve(defaults: Values, user: Values, environ: Values, attr: string): (v: Json)
    requires attr in defaults
    ensures attr in user ==> v == user[attr]
    ensures attr !in user && attr in environ ==> v == environ[attr]
    ensures attr !in user && attr !in environ ==> v == defaults[attr]
  {
    if attr in user then user[attr]
    else if attr in environ then environ[attr]
    else defaults[attr]
  }

  /** How a lookup ends: the value, or AttributeError for a name without a default. */
  datatype Lookup = Value(value: Json) | InvalidSetting(attr: string)

  /** How `validate` ends: every required setting truthy, or the exception it raises. */
  datatype Validation =
    | AllSet
    | Improperly(setting: string, message: string)   // ImproperlyConfigured naming the first falsy setting
    | Unknown(attr: string)         // AttributeError for a required name without a default

  /** The message of the ImproperlyConfigured error for `setting`. */
  function RequiredMessage(setting: string): string {
    "The \"" + setting + "\" setting is required. " +
    "Please set the \"" + setting + "\" in the environment or the " + PLUGIN_NAME + " plugin config."
  }

  /** `validate` over the required settings in iteration order `required`. */
  function FirstFailure(defaults: Values, user: Values, environ: Values, required: seq<string>): (r: Validation)
    ensures r.AllSet? <==> forall i :: 0 <= i < |required| ==>
              required[i] in defaults && Truthy(Resolve(defaults, user, environ, required[i]))
    ensures r.Improperly? ==>
              r.setting in required && r.setting in defaults && !Truthy(Resolve(defaults, user, environ, r.setting))
    ensures r.Unknown? ==> r.attr in required && r.attr !in defaults
    ensures r.Improperly? ==> r.message == RequiredMessage(r.setting)
  {
    if required == [] then AllSet
    else if required[0] !in defaults then Unknown(required[0])
    else if !Truthy(Resolve(defaults, user, environ, required[0])) then Improperly(required[0], RequiredMessage(required[0]))
    else
      var rest := FirstFailure(defaults, user, environ, required[1..]);
      assert forall i :: 1 <= i < |required| ==> required[i] == required[1..][i - 1];
      rest
  }

  const REQUIRED_SETTINGS: set<string> := {
    "WHATSAPP_ACCESS_TOKEN", "WHATSAPP_PHONE_NUMBER_ID", "WHATSAPP_WEBHOOK_VERIFY_TOKEN", "WHATSAPP_WEBHOOK_SECRET"
  }

  const WELCOME_MESSAGE: string :=
    "Welcome to CARE! I'm here to help you with your healthcare needs. Type 'help' to see available commands."
  const HELP_MESSAGE: string :=
    "Available commands:\n- login: Authenticate with your credentials\n- records: View your medical records\n" +
    "- appointments: View your appointments\n- medications: View your medications\n" +
    "- help: Show this help message\n- logout: End your session"

  const DEFAULTS: Values := map[
    "WHATSAPP_API_VERSION" := JStr("v18.0"),
    "WHATSAPP_BASE_URL" := JStr("https://graph.facebook.com"),
    "BOT_NAME" := JStr("CARE Assistant"),
    "BOT_WELCOME_MESSAGE" := JStr(WELCOME_MESSAGE),
    "BOT_HELP_MESSAGE" := JStr(HELP_MESSAGE),
    "SESSION_TIMEOUT_MINUTES" := JNum(30),
    "MAX_RETRY_ATTEMPTS" := JNum(3),
    "RATE_LIMIT_MESSAGES_PER_MINUTE" := JNum(10),
    "ENABLE_MESSAGE_ENCRYPTION" := JBool(false),
    "LOG_SENSITIVE_DATA" := JBool(false),
    "REQUIRE_PHONE_VERIFICATION" := JBool(true),
    "MAX_FILE_SIZE_MB" := JNum(16),
    "ALLOWED_FILE_TYPES" := JArr([JStr("pdf"), JStr("jpg"), JStr("jpeg"), JStr("png"), JStr("doc"), JStr("docx")]),
    "MEDIA_STORAGE_PATH" := JStr("/tmp/whatsapp_media"),
    "ENABLE_APPOINTMENT_REMINDERS" := JBool(true),
    "ENABLE_MEDICATION_REMINDERS" := JBool(true),
    "REMINDER_ADVANCE_HOURS" := JNum(24),
    "DEBUG_WEBHOOK" := JBool(false),
    "MOCK_WHATSAPP_API" := JBool(false),
    "TEST_PHONE_NUMBERS" := JArr([]),
    "CARE_WHATSAPP_BOT_API_KEY" := JStr(""),
    "CARE_WHATSAPP_BOT_WEBHOOK_URL" := JStr(""),
    "CARE_WHATSAPP_BOT_VERIFY_TOKEN" := JStr("care_whatsapp_bot_verify"),
    "WHATSAPP_WEBHOOK_VERIFY_TOKEN" := JStr("care_whatsapp_bot_verify"),
    "WHATSAPP_ACCESS_TOKEN" := JStr(""),
    "WHATSAPP_PHONE_NUMBER_ID" := JStr(""),
    "WHATSAPP_WEBHOOK_SECRET" := JStr("")
  ]

  /** The three credentials whose shipped defaults are empty. */
  const EMPTY_CREDENTIALS: set<string> :=
    {"WHATSAPP_ACCESS_TOKEN", "WHATSAPP_PHONE_NUMBER_ID", "WHATSAPP_WEBHOOK_SECRET"}

  /** The shipped defaults of the required settings: three empty credentials and a verify token. */
  lemma RequiredDefaults()
    ensures REQUIRED_SETTINGS <= DEFAULTS.Keys
    ensures forall s :: s in EMPTY_CREDENTIALS ==> s in DEFAULTS && DEFAULTS[s] == JStr("")
    ensures "WHATSAPP_WEBHOOK_VERIFY_TOKEN" in DEFAULTS &&
            DEFAULTS["WHATSAPP_WEBHOOK_VERIFY_TOKEN"] == JStr("care_whatsapp_bot_verify")
  {
  }

  /**
   * With the shipped defaults and neither user settings nor environment values,
   * validation fails on an empty credential, whatever order the set of required
   * settings is visited in.
   */
  lemma ShippedDefaultsNeedCredentials(required: seq<string>)
    requires forall s :: s in required <==> s in REQUIRED_SETTINGS
    ensures FirstFailure(DEFAULTS, map[], map[], required).Improperly?
    ensures FirstFailure(DEFAULTS, map[], map[], required).setting in EMPTY_CREDENTIALS
  {
    RequiredDefaults();
    var r := FirstFailure(DEFAULTS, map[], map[], required);
    assert "WHATSAPP_ACCESS_TOKEN" in required;
    var i :| 0 <= i < |required| && required[i] == "WHATSAPP_ACCESS_TOKEN";
    assert !Truthy(Resolve(DEFAULTS, map[], map[], required[i]));
    assert !r.AllSet?;
  }

  /** Supplying the three credentials through PLUGIN_CONFIGS lets validation pass. */
  lemma SuppliedCredentialsPass(user: Values, environ: Values, required: seq<string>)
    requires forall s :: s in required ==> s in REQUIRED_SETTINGS
    requires forall s :: s in EMPTY_CREDENTIALS ==> s in user && Truthy(user[s])
    requires "WHATSAPP_WEBHOOK_VERIFY_TOKEN" !in user && "WHATSAPP_WEBHOOK_VERIFY_TOKEN" !in environ
    ensures FirstFailure(DEFAULTS, user, environ, required) == AllSet
  {
    RequiredDefaults();
  }

  /** `PluginSettings`: the cached attributes, the cached user settings, and the process environment. */
  class PluginSettings {
    const pluginName: string
    const defaults: Values
    const requiredSettings: seq<string>   // the required set, in its iteration order
    const environ: Values
    var attrs: Values                      // settings cached as instance attributes
    var cachedAttrs: set<string>
    var userSettingsCache: Option<Values>  // `_user_settings`, None when not yet read

    /**
     * Every cached attribute is a known setting, was recorded as cached, and
     * holds the value resolved against the cached user settings.
     */
    predicate Valid()
      reads this
    {
      attrs.Keys == cachedAttrs && cachedAttrs <= defaults.Keys &&
      (cachedAttrs != {} ==> userSettingsCache.Some?) &&
      forall a :: a in attrs ==> userSettingsCache.Some? && attrs[a] == Resolve(defaults, userSettingsCache.value, environ, a)
    }

    /** The user settings a lookup would use now, with PLUGIN_CONFIGS being `configs`. */
    function EffectiveUser(configs: PluginConfigs): Values
      reads this
    {
      if userSettingsCache.Some? then userSettingsCache.value else UserSettings(configs, pluginName)
    }

    /** The object before `validate` runs; `PluginSettingsFor` is the constructor call as a whole. */
    constructor(pluginName: string, defaults: Values, requiredSettings: seq<string>, environ: Values)
      ensures this.pluginName == pluginName && this.defaults == defaults
      ensures this.requiredSettings == requiredSettings && this.environ == environ
      ensures Valid() && attrs == map[] && cachedAttrs == {} && userSettingsCache == None
    {
      this.pluginName := pluginName;
      this.defaults := defaults;
      this.requiredSettings := requiredSettings;
      this.environ := environ;
      attrs := map[];
      cachedAttrs := {};
      userSettingsCache := None;
    }

    /** The `user_settings` property: read PLUGIN_CONFIGS once and keep it. */
    method ReadUserSettings(configs: PluginConfigs) returns (user: Values)
      requires Valid()
      modifies this
      ensures Valid()
      ensures user == old(EffectiveUser(configs)) && userSettingsCache == Some(user)
      ensures attrs == old(attrs) && cachedAttrs == old(cachedAttrs)
    {
      if userSettingsCache.None? {
        userSettingsCache := Some(UserSettings(configs, pluginName));
      }
      user := userSettingsCache.value;
    }

    /**
     * Reading `plugin_settings.<attr>`: a cached attribute is returned as cached
     * (even if PLUGIN_CONFIGS changed since); otherwise `__getattr__` refuses an
     * unknown name, or resolves the value and caches it.
     */
    method Get(attr: string, configs: PluginConfigs) returns (r: Lookup)
      requires Valid()
      modifies this
      ensures Valid()
      ensures EffectiveUser(configs) == old(EffectiveUser(configs))
      ensures attr in old(attrs) ==> r == Value(old(attrs)[attr]) && attrs == old(attrs) &&
                                     userSettingsCache == old(userSettingsCache)
      ensures attr !in defaults ==> r == InvalidSetting(attr) && attrs == old(attrs) &&
                                    userSettingsCache == old(userSettingsCache)
      ensures attr in defaults ==> r == Value(Resolve(defaults, old(EffectiveUser(configs)), environ, attr)) &&
                                   attr in cachedAttrs && cachedAttrs == old(cachedAttrs) + {attr}
    {
      if attr in attrs {
        return Value(attrs[attr]);
      }
      if attr !in defaults {
        return InvalidSetting(attr);
      }
      var user := ReadUserSettings(configs);
      var val := defaults[attr];
      if attr in user {
        val := user[attr];
      } else if attr in environ {
        val := environ[attr];
      }
      cachedAttrs := cachedAttrs + {attr};
      attrs := attrs[attr := val];
      r := Value(val);
    }

    /** `validate`: every required setting must be truthy; looking them up caches them. */
    method Validate(configs: PluginConfigs) returns (outcome: Validation)
      requires Valid()
      modifies this
      ensures Valid()
      ensures outcome == FirstFailure(defaults, old(EffectiveUser(configs)), environ, requiredSettings)
    {
      ghost var user := EffectiveUser(configs);
      var i := 0;
      while i < |requiredSettings|
        invariant i <= |requiredSettings| && Valid()
        invariant EffectiveUser(configs) == user
        invariant FirstFailure(defaults, user, environ, requiredSettings) ==
                  FirstFailure(defaults, user, environ, requiredSettings[i..])
      {
        var setting := requiredSettings[i];
        var value := Get(setting, configs);
        assert requiredSettings[i..][1..] == requiredSettings[i + 1..];
        if value.InvalidSetting? {
          return Unknown(setting);
        }
        if !Truthy(value.value) {
          return Improperly(setting, RequiredMessage(setting));
        }
        i := i + 1;
      }
      outcome := AllSet;
    }

    /** `reload`: forget every cached attribute and the cached user settings. */
    method Reload()
      modifies this
      ensures Valid()
      ensures attrs == map[] && cachedAttrs == {} && userSettingsCache == None
    {
      attrs := map[];
      cachedAttrs := {};
      userSettingsCache := None;
    }

    /** The `setting_changed` receiver: only a change of PLUGIN_CONFIGS reloads. */
    method ReloadPluginSettings(setting: string)
      requires Valid()
      modifies this
      ensures Valid()
      ensures setting == "PLUGIN_CONFIGS" ==> attrs == map[] && cachedAttrs == {} && userSettingsCache == None
      ensures setting != "PLUGIN_CONFIGS" ==>
                attrs == old(attrs) && cachedAttrs == old(cachedAttrs) && userSettingsCache == old(userSettingsCache)
    {
      if setting == "PLUGIN_CONFIGS" {
        Reload();
      }
    }
  }

  /** How constructing `PluginSettings` ends. */
  datatype Construction =
    | Built(settings: PluginSettings)
    | NoPluginName          // ValueError("Plugin name must be provided")
    | Rejected(failure: Validation)

  /**
   * `PluginSettings(plugin_name, defaults, required_settings)`: refuses an empty
   * plugin name, then runs `validate` against PLUGIN_CONFIGS `configs`.
   */
  method NewPluginSettings(pluginName: string, defaults: Values, requiredSettings: seq<string>,
                           environ: Values, configs: PluginConfigs) returns (r: Construction)
    ensures pluginName == "" <==> r == NoPluginName
    ensures pluginName != "" ==>
              var v := FirstFailure(defaults, UserSettings(configs, pluginName), environ, requiredSettings);
              (v.AllSet? <==> r.Built?) && (!v.AllSet? ==> r == Rejected(v))
    ensures r.Built? ==> r.settings.Valid() && r.settings.pluginName == pluginName && fresh(r.settings)
  {
    if pluginName == "" {
      return NoPluginName;
    }
    var s := new PluginSettings(pluginName, defaults, requiredSettings, environ);
    var outcome := s.Validate(configs);
    if outcome.AllSet? {
      r := Built(s);
    } else {
      r := Rejected(outcome);
    }
  }
}
