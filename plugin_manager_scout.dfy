// The older runtime's plugin manager. Plugins are keyed by their id; each id names a factory
// in a fixed table. Loading creates a registrar, runs the plugin's `load` hook and only then
// records the plugin; unloading runs the `unload` hook and, in a `finally`, tears the
// registrar down and forgets the plugin.
//
// What a plugin's hooks do is an oracle: a function from the plugin's configuration to a
// `Behaviour`. The registrar is represented by the calls made on it: `Teardown(id)` is
// `registrar.unregisterAll()`, whose effect on the registries is proved in `PluginRegistrars`.
// Unlike the newer manager, a load whose hook throws does not tear its registrar down.

module ScoutPlugins {
  import opened Wrappers
  import JsMap
  import Settings

  /** What the plugin's hooks do for one configuration. */
  datatype Behaviour = Behaviour(loadHook: Outcome, unloadHook: Outcome)

  /** A call the manager makes on a plugin or on the registrar it created for it. */
  datatype Call = LoadHook(id: string) | UnloadHook(id: string) | Teardown(id: string)

  /** The manager's state: the `loaded` map (id to configuration) and the calls made so far. */
  datatype Lifecycle = Lifecycle(loaded: JsMap.Map<string, Settings.PluginSettings>, calls: seq<Call>)

  /** The state after an operation, and whether it returned or threw. */
  datatype Step = Step(after: Lifecycle, outcome: Outcome)

  /** `load(config)`: a loaded id is left alone, an id without a factory throws, and otherwise
      the plugin is recorded only once its `load` hook has returned. */
  function LoadStep(s: Lifecycle, factories: set<string>, behave: Settings.PluginSettings -> Behaviour, config: Settings.PluginSettings): (r: Step)
    requires s.loaded.Valid()
    ensures r.after.loaded.Valid()
    ensures config.id in s.loaded.entries ==> r == Step(s, Done)
    ensures config.id !in s.loaded.entries && config.id !in factories ==>
      r == Step(s, Failed(Error("Unknown plugin: " + config.id)))
    ensures r.outcome.Done? <==> config.id in s.loaded.entries || (config.id in factories && behave(config).loadHook.Done?)
    ensures r.outcome.Failed? ==> r.after.loaded == s.loaded
    ensures r.outcome.Done? ==> config.id in r.after.loaded.entries
  {
    var id := config.id;
    if id in s.loaded.entries then Step(s, Done)
    else if id !in factories then Step(s, Failed(Error("Unknown plugin: " + id)))
    else match behave(config).loadHook
      case Failed(e) => Step(Lifecycle(s.loaded, s.calls + [LoadHook(id)]), Failed(e))
      case Done => Step(Lifecycle(s.loaded.Set(id, config), s.calls + [LoadHook(id)]), Done)
  }

  /** A load whose hook throws rethrows and leaves `loaded` as it was, but makes no call on the
      registrar it created: whatever the hook registered before throwing stays registered. */
  lemma LoadDoesNotRollBack(s: Lifecycle, factories: set<string>, behave: Settings.PluginSettings -> Behaviour, config: Settings.PluginSettings)
    requires s.loaded.Valid()
    requires config.id !in s.loaded.entries && config.id in factories && behave(config).loadHook.Failed?
    ensures LoadStep(s, factories, behave, config) == Step(Lifecycle(s.loaded, s.calls + [LoadHook(config.id)]), behave(config).loadHook)
    ensures Teardown(config.id) !in LoadStep(s, factories, behave, config).after.calls[|s.calls|..]
  {
    assert LoadStep(s, factories, behave, config).after.calls[|s.calls|..] == [LoadHook(config.id)];
  }

  /** Loading twice is loading once when the first load succeeded. */
  lemma LoadIdempotent(s: Lifecycle, factories: set<string>, behave: Settings.PluginSettings -> Behaviour, config: Settings.PluginSettings)
    requires s.loaded.Valid() && LoadStep(s, factories, behave, config).outcome.Done?
    ensures LoadStep(LoadStep(s, factories, behave, config).after, factories, behave, config) == LoadStep(s, factories, behave, config)
  {
  }

  /** `unload(id)`: an absent id is a no-op. Otherwise the unload hook runs and, whether it
      returns or throws, the registrar is torn down and the plugin forgotten; its error is rethrown. */
  function UnloadStep(s: Lifecycle, behave: Settings.PluginSettings -> Behaviour, id: string): (r: Step)
    requires s.loaded.Valid()
    ensures r.after.loaded.Valid()
    ensures id !in s.loaded.entries ==> r == Step(s, Done)
    ensures id in s.loaded.entries ==>
      && r.after.loaded == s.loaded.Delete(id)
      && r.after.calls == s.calls + [UnloadHook(id), Teardown(id)]
      && r.outcome == behave(s.loaded.entries[id]).unloadHook
  {
    if id !in s.loaded.entries then Step(s, Done)
    else Step(Lifecycle(s.loaded.Delete(id), s.calls + [UnloadHook(id), Teardown(id)]), behave(s.loaded.entries[id]).unloadHook)
  }

  /** Unloading twice is unloading once, whatever the hook did. */
  lemma UnloadIdempotent(s: Lifecycle, behave: Settings.PluginSettings -> Behaviour, id: string)
    requires s.loaded.Valid()
    ensures UnloadStep(UnloadStep(s, behave, id).after, behave, id) == Step(UnloadStep(s, behave, id).after, Done)
  {
  }

  /** Loading the plugins in order, stopping at the first that throws. */
  function LoadEach(s: Lifecycle, factories: set<string>, behave: Settings.PluginSettings -> Behaviour, plugins: seq<Settings.PluginSettings>): (r: Step)
    requires s.loaded.Valid()
    ensures r.after.loaded.Valid()
    decreases |plugins|
  {
    if plugins == [] then Step(s, Done)
    else
      var first := LoadStep(s, factories, behave, plugins[0]);
      if first.outcome.Failed? then first else LoadEach(first.after, factories, behave, plugins[1..])
  }

  /** The `load` hooks a run of loads calls: one per plugin whose id is not loaded yet, in order. */
  function FirstLoads(loaded: set<string>, plugins: seq<Settings.PluginSettings>): seq<Call>
    decreases |plugins|
  {
    if plugins == [] then []
    else if plugins[0].id in loaded then FirstLoads(loaded, plugins[1..])
    else [LoadHook(plugins[0].id)] + FirstLoads(loaded + {plugins[0].id}, plugins[1..])
  }

  /** When every load succeeds, the hook of each listed plugin not yet loaded runs once, in list
      order, and afterwards every listed plugin is loaded. */
  lemma {:induction false} LoadEachInOrder(s: Lifecycle, factories: set<string>, behave: Settings.PluginSettings -> Behaviour, plugins: seq<Settings.PluginSettings>)
    requires s.loaded.Valid() && LoadEach(s, factories, behave, plugins).outcome.Done?
    ensures LoadEach(s, factories, behave, plugins).after.calls == s.calls + FirstLoads(s.loaded.entries.Keys, plugins)
    ensures forall i :: 0 <= i < |plugins| ==> plugins[i].id in LoadEach(s, factories, behave, plugins).after.loaded.entries
    decreases |plugins|
  {
    LoadEachCalls(s, factories, behave, plugins);
    if plugins != [] {
      var first := LoadStep(s, factories, behave, plugins[0]);
      LoadEachInOrder(first.after, factories, behave, plugins[1..]);
      LoadEachKeeps(first.after, factories, behave, plugins[1..], plugins[0].id);
      forall i | 0 <= i < |plugins| ensures plugins[i].id in LoadEach(s, factories, behave, plugins).after.loaded.entries {
        if i > 0 {
          assert plugins[i] == plugins[1..][i - 1];
        }
      }
    }
  }

  /** The calls half of `LoadEachInOrder`. */
  lemma {:induction false} LoadEachCalls(s: Lifecycle, factories: set<string>, behave: Settings.PluginSettings -> Behaviour, plugins: seq<Settings.PluginSettings>)
    requires s.loaded.Valid() && LoadEach(s, factories, behave, plugins).outcome.Done?
    ensures LoadEach(s, factories, behave, plugins).after.calls == s.calls + FirstLoads(s.loaded.entries.Keys, plugins)
    decreases |plugins|
  {
    if plugins != [] {
      var first := LoadStep(s, factories, behave, plugins[0]);
      assert first.outcome.Done?;
      LoadStepCalls(s, factories, behave, plugins[0]);
      FirstLoadsStep(s.loaded.entries.Keys, plugins);
      LoadEachCalls(first.after, factories, behave, plugins[1..]);
      var hook := NewLoad(s.loaded.entries.Keys, plugins[0].id);
      var rest := FirstLoads(first.after.loaded.entries.Keys, plugins[1..]);
      assert s.calls + (hook + rest) == (s.calls + hook) + rest;
    }
  }

  /** The `load` hook a plugin's load adds when its id is not yet among `loaded`. */
  function NewLoad(loaded: set<string>, id: string): seq<Call>
  {
    if id in loaded then [] else [LoadHook(id)]
  }

  /** A successful load adds its id to the loaded ones and calls at most its own hook. */
  lemma LoadStepCalls(s: Lifecycle, factories: set<string>, behave: Settings.PluginSettings -> Behaviour, config: Settings.PluginSettings)
    requires s.loaded.Valid() && LoadStep(s, factories, behave, config).outcome.Done?
    ensures LoadStep(s, factories, behave, config).after.calls == s.calls + NewLoad(s.loaded.entries.Keys, config.id)
    ensures LoadStep(s, factories, behave, config).after.loaded.entries.Keys == s.loaded.entries.Keys + {config.id}
  {
    if config.id in s.loaded.entries {
      assert s.loaded.entries.Keys + {config.id} == s.loaded.entries.Keys;
    }
  }

  /** One step of `FirstLoads`. */
  lemma FirstLoadsStep(loaded: set<string>, plugins: seq<Settings.PluginSettings>)
    requires plugins != []
    ensures FirstLoads(loaded, plugins) == NewLoad(loaded, plugins[0].id) + FirstLoads(loaded + {plugins[0].id}, plugins[1..])
  {
    if plugins[0].id in loaded {
      assert loaded + {plugins[0].id} == loaded;
    }
  }

  /** A run of loads never forgets a loaded plugin. */
  lemma {:induction false} LoadEachKeeps(s: Lifecycle, factories: set<string>, behave: Settings.PluginSettings -> Behaviour, plugins: seq<Settings.PluginSettings>, id: string)
    requires s.loaded.Valid() && id in s.loaded.entries
    ensures id in LoadEach(s, factories, behave, plugins).after.loaded.entries
    decreases |plugins|
  {
    if plugins != [] {
      var first := LoadStep(s, factories, behave, plugins[0]);
      LoadEachKeeps(first.after, factories, behave, plugins[1..], id);
    }
  }

  /** Unloading the ids in order, stopping at the first whose hook throws. */
  function UnloadEach(s: Lifecycle, behave: Settings.PluginSettings -> Behaviour, ids: seq<string>): (r: Step)
    requires s.loaded.Valid()
    ensures r.after.loaded.Valid()
    decreases |ids|
  {
    if ids == [] then Step(s, Done)
    else
      var first := UnloadStep(s, behave, ids[0]);
      if first.outcome.Failed? then first else UnloadEach(first.after, behave, ids[1..])
  }

  /** `unloadAll` over a snapshot of the loaded ids leaves nothing loaded unless a hook throws. */
  lemma {:induction false} UnloadEachEmpties(s: Lifecycle, behave: Settings.PluginSettings -> Behaviour, ids: seq<string>)
    requires s.loaded.Valid() && forall k :: k in s.loaded.entries ==> k in ids
    ensures UnloadEach(s, behave, ids).outcome.Done? ==> UnloadEach(s, behave, ids).after.loaded.entries == map[]
    decreases |ids|
  {
    if ids != [] {
      var first := UnloadStep(s, behave, ids[0]);
      assert forall k :: k in first.after.loaded.entries ==> k in ids[1..] by {
        forall k | k in first.after.loaded.entries ensures k in ids[1..] {
          assert k != ids[0] && k in ids;
          var j :| 0 <= j < |ids| && ids[j] == k;
          assert ids[1..][j - 1] == k;
        }
      }
      UnloadEachEmpties(first.after, behave, ids[1..]);
    } else {
      assert forall k :: k !in s.loaded.entries;
    }
  }

  class PluginManager {
    const factories: set<string>                         // ids with a plugin factory
    const behave: Settings.PluginSettings -> Behaviour   // what each plugin's hooks do
    var settings: Settings.SettingsConfig
    var loaded: JsMap.Map<string, Settings.PluginSettings>
    var calls: seq<Call>

    ghost predicate Valid()
      reads this
    {
      loaded.Valid()
    }

    function Current(): Lifecycle
      reads this
    {
      Lifecycle(loaded, calls)
    }

    constructor (settings: Settings.SettingsConfig, factories: set<string>, behave: Settings.PluginSettings -> Behaviour)
      ensures Valid() && loaded.keys == [] && calls == []
      ensures this.settings == settings && this.factories == factories && this.behave == behave
    {
      this.settings := settings;
      this.factories := factories;
      this.behave := behave;
      loaded := JsMap.Empty();
      calls := [];
    }

    /** `listLoaded`: the loaded ids in load order. */
    function ListLoaded(): (ids: seq<string>)
      reads this
      requires Valid()
      ensures forall id :: id in ids <==> id in loaded.entries
      ensures JsMap.Distinct(ids)
    {
      loaded.keys
    }

    /** `getConfig`: the configuration of a loaded plugin, or null. */
    function GetConfig(id: string): (r: Option<Settings.PluginSettings>)
      reads this
      ensures r.Some? <==> id in loaded.entries
      ensures r.Some? ==> r.value == loaded.entries[id]
    {
      loaded.Get(id)
    }

    /** `updateSettings`: replaces the settings and nothing else. */
    method UpdateSettings(settings: Settings.SettingsConfig)
      modifies this`settings
      ensures this.settings == settings
    {
      this.settings := settings;
    }

    method Load(config: Settings.PluginSettings) returns (r: Outcome)
      requires Valid()
      modifies this`loaded, this`calls
      ensures Valid()
      ensures Step(Current(), r) == LoadStep(old(Current()), factories, behave, config)
    {
      var id := config.id;
      if loaded.Has(id) {
        return Done;
      }
      if id !in factories {
        return Failed(Error("Unknown plugin: " + id));
      }
      calls := calls + [LoadHook(id)];
      r := behave(config).loadHook;
      if r.Failed? {
        return;
      }
      loaded := loaded.Set(id, config);
    }

    method Unload(id: string) returns (r: Outcome)
      requires Valid()
      modifies this`loaded, this`calls
      ensures Valid()
      ensures Step(Current(), r) == UnloadStep(old(Current()), behave, id)
    {
      var entry := loaded.Get(id);
      if entry.None? {
        return Done;
      }
      calls := calls + [UnloadHook(id)];
      r := behave(entry.value).unloadHook;
      // `finally`: runs whether the hook returned or threw
      calls := calls + [Teardown(id)];
      loaded := loaded.Delete(id);
    }

    /** `loadEnabled`: stores the settings and loads each plugin whose `enabled` is not `false`,
        in settings order. */
    method LoadEnabled(settings: Settings.SettingsConfig) returns (r: Outcome)
      requires Valid()
      modifies this
      ensures Valid() && this.settings == settings
      ensures Step(Current(), r) == LoadEach(old(Current()), factories, behave, Settings.ListEnabledPlugins(settings))
    {
      this.settings := settings;
      var enabled := Settings.Enabled(settings.plugins.GetOr([]));
      var i := 0;
      while i < |enabled|
        invariant 0 <= i <= |enabled|
        invariant Valid() && this.settings == settings
        invariant LoadEach(Current(), factories, behave, enabled[i..]) == LoadEach(old(Current()), factories, behave, enabled)
      {
        assert enabled[i..][0] == enabled[i] && enabled[i..][1..] == enabled[i + 1..];
        var out := Load(enabled[i]);
        if out.Failed? {
          return out;
        }
        i := i + 1;
      }
      r := Done;
    }

    /** `unloadAll`: unloads every id loaded at the call, in load order. */
    method UnloadAll() returns (r: Outcome)
      requires Valid()
      modifies this`loaded, this`calls
      ensures Valid()
      ensures Step(Current(), r) == UnloadEach(old(Current()), behave, old(loaded.keys))
    {
      var ids := loaded.keys;
      var i := 0;
      while i < |ids|
        invariant 0 <= i <= |ids|
        invariant Valid()
        invariant UnloadEach(Current(), behave, ids[i..]) == UnloadEach(old(Current()), behave, ids)
      {
        assert ids[i..][0] == ids[i] && ids[i..][1..] == ids[i + 1..];
        var out := Unload(ids[i]);
        if out.Failed? {
          return out;
        }
        i := i + 1;
      }
      r := Done;
    }
  }
}
