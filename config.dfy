/**
 * The runtime configuration table: one record per configuration key, the
 * guarded update, and the view that masks secret values.
 */
module Config {
  import opened Wrappers
  import Admin

  /** One row of the configuration table (without its id and time stamps). */
  datatype AppConfig = AppConfig(
    configKey: string,
    configValue: Option<string>,
    category: Option<string>,
    description: Option<string>,
    isSecret: bool,
    isEditable: bool)

  /** The two exceptions `updateConfig` throws. */
  datatype ConfigError = IllegalArgument(message: string) | IllegalState(message: string)

  /** `maskValue`: "****" for a missing or short value, else the first and last four characters around "****". */
  function MaskValue(value: Option<string>): (r: string)
    ensures r == Admin.MaskSensitive(value)
  {
    if value.None? || |value.value| < 8 then "****"
    else value.value[..4] + "****" + value.value[|value.value| - 4..]
  }

  /** `configToMap` without the update time stamp. */
  datatype ConfigView = ConfigView(
    key: string,
    value: Option<string>,
    category: Option<string>,
    description: Option<string>,
    isSecret: bool,
    isEditable: bool)

  function ConfigToMap(c: AppConfig): (v: ConfigView)
  {
    ConfigView(c.configKey, if c.isSecret then Some(MaskValue(c.configValue)) else c.configValue,
      c.category, c.description, c.isSecret, c.isEditable)
  }

  /**
   * A secret value is shown masked: it always holds '*', and two secrets
   * that agree on their first and last four characters look the same; any
   * other value is shown as stored.
   */
  lemma ConfigToMapMasksSecrets(c: AppConfig, d: AppConfig)
    ensures !c.isSecret ==> ConfigToMap(c).value == c.configValue
    ensures c.isSecret ==> ConfigToMap(c).value.Some? && '*' in ConfigToMap(c).value.value
    ensures c.isSecret && d.isSecret && c.configValue.Some? && d.configValue.Some?
      && |c.configValue.value| >= 8 && |d.configValue.value| >= 8
      && c.configValue.value[..4] == d.configValue.value[..4]
      && c.configValue.value[|c.configValue.value| - 4..] == d.configValue.value[|d.configValue.value| - 4..]
      ==> ConfigToMap(c).value == ConfigToMap(d).value
  {
    if c.isSecret && d.isSecret && c.configValue.Some? && d.configValue.Some?
      && |c.configValue.value| >= 8 && |d.configValue.value| >= 8
      && c.configValue.value[..4] == d.configValue.value[..4]
      && c.configValue.value[|c.configValue.value| - 4..] == d.configValue.value[|d.configValue.value| - 4..]
    {
      Admin.MaskHidesMiddle(c.configValue.value, d.configValue.value);
    }
  }

  /** The table is keyed by each record's own key. */
  ghost predicate KeyedByOwnKey(configs: map<string, AppConfig>)
  {
    forall k :: k in configs ==> configs[k].configKey == k
  }

  /**
   * `updateConfig` on the table: an unknown key is an
   * IllegalArgumentException, a read-only record an IllegalStateException;
   * otherwise only that record's value is replaced.
   */
  function Updated(configs: map<string, AppConfig>, key: string, value: Option<string>)
    : Result<map<string, AppConfig>, ConfigError>
  {
    if key !in configs then Err(IllegalArgument("Config not found: " + key))
    else if !configs[key].isEditable then Err(IllegalState("Config is not editable: " + key))
    else Ok(configs[key := configs[key].(configValue := value)])
  }

  /**
   * The update fails exactly for an unknown or read-only key; when it
   * succeeds the key reads back the new value, every other field and every
   * other record stay as they were, the table stays keyed by its own keys,
   * and repeating the update changes nothing more.
   */
  lemma UpdatedRules(configs: map<string, AppConfig>, key: string, value: Option<string>)
    ensures var u := Updated(configs, key, value);
      && (u.Err? && u.error.IllegalArgument? <==> key !in configs)
      && (u.Err? && u.error.IllegalState? <==> key in configs && !configs[key].isEditable)
      && (u.Ok? ==>
            && u.value.Keys == configs.Keys
            && u.value[key].configValue == value
            && u.value[key] == configs[key].(configValue := value)
            && (forall k :: k in configs && k != key ==> u.value[k] == configs[k])
            && (KeyedByOwnKey(configs) ==> KeyedByOwnKey(u.value))
            && Updated(u.value, key, value) == u)
  {
    var u := Updated(configs, key, value);
    if u.Ok? {
      assert u.value[key := u.value[key].(configValue := value)] == u.value;
    }
  }

  /** A read-only record can never change, whatever is submitted. */
  lemma ReadOnlyNeverChanges(configs: map<string, AppConfig>, key: string, value: Option<string>)
    requires key in configs && !configs[key].isEditable
    ensures Updated(configs, key, value) == Err(IllegalState("Config is not editable: " + key))
  {
  }

  /**
   * The value `findByConfigKey(key).map(AppConfig::getConfigValue)` yields:
   * `Optional.map` turns a null value into an empty result, like a missing key.
   */
  function ValueOf(configs: map<string, AppConfig>, key: string): (r: Option<string>)
    ensures r.Some? <==> key in configs && configs[key].configValue.Some?
    ensures r.Some? ==> Some(r.value) == configs[key].configValue
  {
    if key in configs then configs[key].configValue else None
  }

  /**
   * After a successful update the key reads back as the submitted value (empty
   * when a null was submitted), and every other key reads as before.
   */
  lemma ValueAfterUpdate(configs: map<string, AppConfig>, key: string, value: Option<string>, other: string)
    requires Updated(configs, key, value).Ok?
    ensures ValueOf(Updated(configs, key, value).value, key) == value
    ensures other != key ==> ValueOf(Updated(configs, key, value).value, other) == ValueOf(configs, other)
  {
    UpdatedRules(configs, key, value);
  }

  /** The configuration repository with the service's update on it. */
  class ConfigRepository {
    var configs: map<string, AppConfig>

    ghost predicate Valid()
      reads this
    {
      KeyedByOwnKey(configs)
    }

    constructor(initial: map<string, AppConfig>)
      requires KeyedByOwnKey(initial)
      ensures configs == initial && Valid()
    {
      configs := initial;
    }

    /** `getConfigValue`: the stored value, empty for an unknown key or a null value. */
    function GetConfigValue(key: string): (r: Option<string>)
      reads this
      ensures r.Some? <==> key in configs && configs[key].configValue.Some?
      ensures r.Some? ==> Some(r.value) == configs[key].configValue
    {
      ValueOf(configs, key)
    }

    /** `updateConfig`: the updated record's view, or the exception. */
    method UpdateConfig(key: string, value: Option<string>) returns (r: Result<ConfigView, ConfigError>)
      requires Valid()
      modifies this
      ensures Valid()
      ensures var u := Updated(old(configs), key, value);
        && (u.Ok? ==> configs == u.value && r == Ok(ConfigToMap(configs[key])))
        && (u.Err? ==> configs == old(configs) && r == Err(u.error))
    {
      if key !in configs {
        return Err(IllegalArgument("Config not found: " + key));
      }
      var config := configs[key];
      if !config.isEditable {
        return Err(IllegalState("Config is not editable: " + key));
      }
      config := config.(configValue := value);
      configs := configs[key := config];
      UpdatedRules(old(configs), key, value);
      r := Ok(ConfigToMap(config));
    }
  }
}
