// The older runtime's plugin secrets file: a version number and, per plugin id, a record of
// string secrets. Every operation reads the file first; `set` and `remove` change the record
// in place and write it back.
//
// When the file is missing (or holds something that is not an object), `read` returns a
// shallow copy of the module-level default configuration: its `secrets` object is the
// default's own. A `set` or `remove` that follows then changes the defaults themselves, and
// every later read of a missing file, by any store, sees the change. The defaults are
// therefore an object of their own, shared by the stores that use them.

module Secrets {
  import opened Wrappers

  /** `SecretsConfig`. */
  datatype Config = Config(version: int, secrets: map<string, map<string, string>>)

  /** What reading and parsing the file gives: a missing file; an I/O error other than a missing
      file, or a parse error, both rethrown; a value that is not an object; or an object whose
      fields may be absent. */
  datatype Stored =
    | Missing
    | Unreadable(error: Thrown)
    | NotObject
    | Stored(version: Option<int>, secrets: Option<map<string, map<string, string>>>)

  const DefaultVersion := 1

  /** The read of a missing or non-object file shares the defaults' `secrets` object. */
  predicate SharesDefaults(file: Stored)
  {
    file.Missing? || file.NotObject?
  }

  /** `read`: the defaults for a missing or non-object file, missing fields defaulted for an
      object, and the error for anything else. */
  function Loaded(file: Stored, defaults: map<string, map<string, string>>): (r: Result<Config>)
    ensures SharesDefaults(file) ==> r == Ok(Config(DefaultVersion, defaults))
    ensures file.Unreadable? ==> r == Err(file.error)
    ensures file.Stored? ==> (r.Ok? && r.value.version == file.version.GetOr(DefaultVersion)
      && r.value.secrets == file.secrets.GetOr(map[]))
  {
    match file
    case Missing => Ok(Config(DefaultVersion, defaults))
    case NotObject => Ok(Config(DefaultVersion, defaults))
    case Unreadable(e) => Err(e)
    case Stored(v, s) => Ok(Config(v.GetOr(DefaultVersion), s.GetOr(map[])))
  }

  /** `config.secrets[pluginId]?.[key] ?? null`. */
  function SecretOf(secrets: map<string, map<string, string>>, pluginId: string, key: string): Option<string>
  {
    if pluginId in secrets && key in secrets[pluginId] then Some(secrets[pluginId][key]) else None
  }

  /** The secrets after `set`: the plugin's record (a new one if absent) gains the key. */
  function WithSecret(secrets: map<string, map<string, string>>, pluginId: string, key: string, value: string): (r: map<string, map<string, string>>)
    ensures SecretOf(r, pluginId, key) == Some(value)
    ensures forall p, k :: (p, k) != (pluginId, key) ==> SecretOf(r, p, k) == SecretOf(secrets, p, k)
    ensures r.Keys == secrets.Keys + {pluginId}
  {
    var plugin := if pluginId in secrets then secrets[pluginId] else map[];
    secrets[pluginId := plugin[key := value]]
  }

  /** The secrets after `remove` of a present plugin: its record loses the key. */
  function WithoutSecret(secrets: map<string, map<string, string>>, pluginId: string, key: string): (r: map<string, map<string, string>>)
    requires pluginId in secrets
    ensures SecretOf(r, pluginId, key) == None
    ensures forall p, k :: (p, k) != (pluginId, key) ==> SecretOf(r, p, k) == SecretOf(secrets, p, k)
    ensures r.Keys == secrets.Keys
  {
    secrets[pluginId := secrets[pluginId] - {key}]
  }

  /** Setting a key and then removing it leaves no secret under that key. */
  lemma SetThenRemove(secrets: map<string, map<string, string>>, pluginId: string, key: string, value: string)
    ensures var r := WithoutSecret(WithSecret(secrets, pluginId, key, value), pluginId, key);
      && SecretOf(r, pluginId, key) == None
      && forall p, k :: (p, k) != (pluginId, key) ==> SecretOf(r, p, k) == SecretOf(secrets, p, k)
  {
  }

  /** `DEFAULT_CONFIG`: version 1 and a `secrets` object that starts empty. */
  class DefaultConfig {
    var secrets: map<string, map<string, string>>

    constructor ()
      ensures secrets == map[]
    {
      secrets := map[];
    }
  }

  class SecretsStore {
    var file: Stored
    const defaults: DefaultConfig

    constructor (file: Stored, defaults: DefaultConfig)
      ensures this.file == file && this.defaults == defaults
    {
      this.file := file;
      this.defaults := defaults;
    }

    /** The configuration `read` would return now. */
    function Current(): Result<Config>
      reads this, defaults
    {
      Loaded(file, defaults.secrets)
    }

    /** `read`. */
    method Read() returns (r: Result<Config>)
      ensures r == Current()
    {
      match file
      case Missing => r := Ok(Config(DefaultVersion, defaults.secrets));
      case NotObject => r := Ok(Config(DefaultVersion, defaults.secrets));
      case Unreadable(e) => r := Err(e);
      case Stored(v, s) => r := Ok(Config(v.GetOr(DefaultVersion), s.GetOr(map[])));
    }

    /** `get`: the stored value, or null. */
    method Get(pluginId: string, key: string) returns (r: Result<Option<string>>)
      ensures Current().Err? ==> r == Err(Current().error)
      ensures Current().Ok? ==> r == Ok(SecretOf(Current().value.secrets, pluginId, key))
    {
      var config := Read();
      if config.Err? {
        return Err(config.error);
      }
      var secrets := config.value.secrets;
      if pluginId in secrets && key in secrets[pluginId] {
        r := Ok(Some(secrets[pluginId][key]));
      } else {
        r := Ok(None);
      }
    }

    /** `set`: the key is stored in the plugin's record and the file is written; when the
        read shared the defaults, the defaults change with it. */
    method Set(pluginId: string, key: string, value: string) returns (r: Outcome)
      modifies this, defaults
      ensures old(Current()).Err? ==> r == Failed(old(Current()).error) && file == old(file) && defaults.secrets == old(defaults.secrets)
      ensures old(Current()).Ok? ==>
        var config := old(Current()).value;
        var next := WithSecret(config.secrets, pluginId, key, value);
        && r == Done
        && file == Stored(Some(config.version), Some(next))
        && (old(SharesDefaults(file)) ==> defaults.secrets == next)
        && (!old(SharesDefaults(file)) ==> defaults.secrets == old(defaults.secrets))
    {
      var config := Read();
      if config.Err? {
        return Failed(config.error);
      }
      var secrets := config.value.secrets;
      var plugin := if pluginId in secrets then secrets[pluginId] else map[];
      plugin := plugin[key := value];
      secrets := secrets[pluginId := plugin];
      if SharesDefaults(file) {
        defaults.secrets := secrets;
      }
      file := Stored(Some(config.value.version), Some(secrets));
      r := Done;
    }

    /** `remove`: nothing is written when the plugin has no record; otherwise the key is
        deleted from it and the file is written. */
    method Remove(pluginId: string, key: string) returns (r: Outcome)
      modifies this, defaults
      ensures old(Current()).Err? ==> r == Failed(old(Current()).error) && file == old(file) && defaults.secrets == old(defaults.secrets)
      ensures old(Current()).Ok? && pluginId !in old(Current()).value.secrets ==>
        r == Done && file == old(file) && defaults.secrets == old(defaults.secrets)
      ensures old(Current()).Ok? && pluginId in old(Current()).value.secrets ==>
        var config := old(Current()).value;
        var next := WithoutSecret(config.secrets, pluginId, key);
        && r == Done
        && file == Stored(Some(config.version), Some(next))
        && (old(SharesDefaults(file)) ==> defaults.secrets == next)
        && (!old(SharesDefaults(file)) ==> defaults.secrets == old(defaults.secrets))
    {
      var config := Read();
      if config.Err? {
        return Failed(config.error);
      }
      var secrets := config.value.secrets;
      if pluginId !in secrets {
        return Done;
      }
      secrets := secrets[pluginId := secrets[pluginId] - {key}];
      if SharesDefaults(file) {
        defaults.secrets := secrets;
      }
      file := Stored(Some(config.value.version), Some(secrets));
      r := Done;
    }

    /** `listPluginSecrets`: a copy of the plugin's record, or {} when it has none. */
    method ListPluginSecrets(pluginId: string) returns (r: Result<map<string, string>>)
      ensures Current().Err? ==> r == Err(Current().error)
      ensures Current().Ok? ==> r.Ok? && forall k :: k in r.value <==> SecretOf(Current().value.secrets, pluginId, k).Some?
      ensures Current().Ok? ==> forall k :: k in r.value ==> SecretOf(Current().value.secrets, pluginId, k) == Some(r.value[k])
    {
      var config := Read();
      if config.Err? {
        return Err(config.error);
      }
      r := Ok(if pluginId in config.value.secrets then config.value.secrets[pluginId] else map[]);
    }
  }

  /** Two stores over missing files share the defaults: a secret set through one is read by
      the other, although nothing was written to the second store's file. */
  method DefaultsShared() returns (seen: Result<Option<string>>)
    ensures seen == Ok(Some("token"))
  {
    var defaults := new DefaultConfig();
    var first := new SecretsStore(Missing, defaults);
    var second := new SecretsStore(Missing, defaults);
    var _ := first.Set("plugin", "apiKey", "token");
    seen := second.Get("plugin", "apiKey");
  }
}
