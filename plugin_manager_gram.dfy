// The newer runtime's plugin manager. It keeps the loaded plugin instances, keyed by
// instance id, in a JavaScript `Map`, loads and unloads them through the plugin's hooks,
// and reconciles the loaded set with the settings file.
//
// What a plugin's code does when it is driven (importing its module, parsing its settings,
// `create`, and the `load`/`unload` hooks) is an oracle: a function from the instance's
// configuration to a `Behaviour`. The registrar each load creates is represented by the
// calls made on it: `Teardown(id)` is `registrar.unregisterAll()`, whose effect on the
// registries is proved in `PluginRegistrars`.

module GramPlugins {
  import opened Wrappers
  import JsMap
  import Json

  /** A configured plugin instance: `instanceId`, `pluginId`, optional `enabled` and `settings`. */
  datatype InstanceSettings = InstanceSettings(instanceId: string, pluginId: string, enabled: Option<bool>, settings: Option<Json.Value>)

  /** The part of the settings file the manager reads. */
  datatype SettingsConfig = SettingsConfig(plugins: Option<seq<InstanceSettings>>)

  /** The configured instances whose `enabled` is not `false`, in settings order. */
  function EnabledInstances(plugins: seq<InstanceSettings>): (r: seq<InstanceSettings>)
    ensures forall p :: p in r <==> p in plugins && p.enabled != Some(false)
  {
    if plugins == [] then []
    else (if plugins[0].enabled != Some(false) then [plugins[0]] else []) + EnabledInstances(plugins[1..])
  }

  function ListEnabledPlugins(settings: SettingsConfig): seq<InstanceSettings>
  {
    EnabledInstances(settings.plugins.GetOr([]))
  }

  /** `settingsEqual`: the two settings serialise alike, an absent value counting as `{}`. */
  predicate SettingsEqual(a: Option<Json.Value>, b: Option<Json.Value>)
  {
    a.GetOr(Json.EmptyObject) == b.GetOr(Json.EmptyObject)
  }

  /** What the plugin's code does for one configuration: importing the module, parsing the
      settings and `create` either throw or give the parsed settings; then the hooks. */
  datatype Behaviour = Behaviour(prepare: Result<Json.Value>, loadHook: Outcome, unloadHook: Outcome)

  /** A loaded instance: the configuration it was loaded or last updated with, and its settings. */
  datatype Entry = Entry(config: InstanceSettings, settings: Json.Value)

  /** A call the manager makes on a plugin or on the registrar it created for it. */
  datatype Call = LoadHook(instanceId: string) | UnloadHook(instanceId: string) | Teardown(instanceId: string)

  /** The manager's state: the `loaded` map and the calls made so far. */
  datatype Lifecycle = Lifecycle(loaded: JsMap.Map<string, Entry>, calls: seq<Call>)

  /** The state after an operation, and whether it returned or threw. */
  datatype Step = Step(after: Lifecycle, outcome: Outcome)

  /** `load(config)`. */
  function LoadStep(s: Lifecycle, catalog: set<string>, behave: InstanceSettings -> Behaviour, config: InstanceSettings): (r: Step)
    requires s.loaded.Valid()
    ensures r.after.loaded.Valid()
    ensures config.instanceId in s.loaded.entries ==> r == Step(s, Done)
    ensures config.instanceId !in s.loaded.entries && config.pluginId !in catalog ==>
      r == Step(s, Failed(Error("Unknown plugin: " + config.pluginId)))
    ensures r.outcome.Done? <==>
      config.instanceId in s.loaded.entries || (config.pluginId in catalog && behave(config).prepare.Ok? && behave(config).loadHook.Done?)
    ensures r.outcome.Failed? ==> r.after.loaded == s.loaded
    ensures r.outcome.Done? ==> config.instanceId in r.after.loaded.entries
  {
    var id := config.instanceId;
    if id in s.loaded.entries then Step(s, Done)
    else if config.pluginId !in catalog then Step(s, Failed(Error("Unknown plugin: " + config.pluginId)))
    else match behave(config).prepare
      case Err(e) => Step(s, Failed(e))
      case Ok(parsed) =>
        match behave(config).loadHook
        case Failed(e) => Step(Lifecycle(s.loaded, s.calls + [LoadHook(id), Teardown(id)]), Failed(e))
        case Done => Step(Lifecycle(s.loaded.Set(id, Entry(config, parsed)), s.calls + [LoadHook(id)]), Done)
  }

  /** A load whose hook throws tears down the registrar it created, leaves `loaded` as it was
      and rethrows the hook's error; a successful one records the instance, hooking nothing else. */
  lemma LoadRollsBack(s: Lifecycle, catalog: set<string>, behave: InstanceSettings -> Behaviour, config: InstanceSettings)
    requires s.loaded.Valid()
    requires config.instanceId !in s.loaded.entries && config.pluginId in catalog && behave(config).prepare.Ok?
    ensures behave(config).loadHook.Failed? ==>
      LoadStep(s, catalog, behave, config) ==
      Step(Lifecycle(s.loaded, s.calls + [LoadHook(config.instanceId), Teardown(config.instanceId)]), behave(config).loadHook)
    ensures behave(config).loadHook.Done? ==>
      && LoadStep(s, catalog, behave, config).after.loaded.entries ==
         s.loaded.entries[config.instanceId := Entry(config, behave(config).prepare.value)]
      && LoadStep(s, catalog, behave, config).after.loaded.keys == s.loaded.keys + [config.instanceId]
      && LoadStep(s, catalog, behave, config).after.calls == s.calls + [LoadHook(config.instanceId)]
  {
  }

  /** Loading twice is loading once when the first load succeeded. */
  lemma LoadIdempotent(s: Lifecycle, catalog: set<string>, behave: InstanceSettings -> Behaviour, config: InstanceSettings)
    requires s.loaded.Valid() && LoadStep(s, catalog, behave, config).outcome.Done?
    ensures LoadStep(LoadStep(s, catalog, behave, config).after, catalog, behave, config) == LoadStep(s, catalog, behave, config)
  {
  }

  /** `unload(id)`: an absent id is a no-op. Otherwise the unload hook runs and, whether it
      returns or throws, the registrar is torn down and the entry removed; its error is rethrown. */
  function UnloadStep(s: Lifecycle, behave: InstanceSettings -> Behaviour, id: string): (r: Step)
    requires s.loaded.Valid()
    ensures r.after.loaded.Valid()
    ensures id !in s.loaded.entries ==> r == Step(s, Done)
    ensures id in s.loaded.entries ==>
      && r.after.loaded == s.loaded.Delete(id)
      && r.after.calls == s.calls + [UnloadHook(id), Teardown(id)]
      && r.outcome == behave(s.loaded.entries[id].config).unloadHook
  {
    if id !in s.loaded.entries then Step(s, Done)
    else Step(Lifecycle(s.loaded.Delete(id), s.calls + [UnloadHook(id), Teardown(id)]), behave(s.loaded.entries[id].config).unloadHook)
  }

  /** Unloading twice is unloading once, whatever the hook did. */
  lemma UnloadIdempotent(s: Lifecycle, behave: InstanceSettings -> Behaviour, id: string)
    requires s.loaded.Valid()
    ensures UnloadStep(UnloadStep(s, behave, id).after, behave, id) == Step(UnloadStep(s, behave, id).after, Done)
  {
  }

  /** Loading the plugins in order, stopping at the first that throws. */
  function LoadEach(s: Lifecycle, catalog: set<string>, behave: InstanceSettings -> Behaviour, plugins: seq<InstanceSettings>): (r: Step)
    requires s.loaded.Valid()
    ensures r.after.loaded.Valid()
    decreases |plugins|
  {
    if plugins == [] then Step(s, Done)
    else
      var first := LoadStep(s, catalog, behave, plugins[0]);
      if first.outcome.Failed? then first else LoadEach(first.after, catalog, behave, plugins[1..])
  }

  /** When every load succeeds, every listed instance is loaded and nothing loaded before is lost. */
  lemma {:induction false} LoadEachLoadsAll(s: Lifecycle, catalog: set<string>, behave: InstanceSettings -> Behaviour, plugins: seq<InstanceSettings>)
    requires s.loaded.Valid() && LoadEach(s, catalog, behave, plugins).outcome.Done?
    ensures forall id :: id in LoadEach(s, catalog, behave, plugins).after.loaded.entries <==>
      id in s.loaded.entries || exists p :: p in plugins && p.instanceId == id
    decreases |plugins|
  {
    if plugins != [] {
      var first := LoadStep(s, catalog, behave, plugins[0]);
      LoadEachLoadsAll(first.after, catalog, behave, plugins[1..]);
      assert forall id :: id in first.after.loaded.entries <==> id in s.loaded.entries || id == plugins[0].instanceId;
      IdsThenRest(s.loaded.entries, first.after.loaded.entries, LoadEach(s, catalog, behave, plugins).after.loaded.entries, plugins);
    }
  }

  /** Loading the first instance and then the rest loads all of them. */
  lemma IdsThenRest(before: map<string, Entry>, next: map<string, Entry>, after: map<string, Entry>, plugins: seq<InstanceSettings>)
    requires plugins != []
    requires forall id :: id in next <==> id in before || id == plugins[0].instanceId
    requires forall id :: id in after <==> id in next || exists p :: p in plugins[1..] && p.instanceId == id
    ensures forall id :: id in after <==> id in before || exists p :: p in plugins && p.instanceId == id
  {
    assert forall p :: p in plugins ==> p == plugins[0] || p in plugins[1..] by {
      assert plugins == [plugins[0]] + plugins[1..];
    }
  }

  /** Unloading the ids in order, stopping at the first whose hook throws. */
  function UnloadEach(s: Lifecycle, behave: InstanceSettings -> Behaviour, ids: seq<string>): (r: Step)
    requires s.loaded.Valid()
    ensures r.after.loaded.Valid()
    decreases |ids|
  {
    if ids == [] then Step(s, Done)
    else
      var first := UnloadStep(s, behave, ids[0]);
      if first.outcome.Failed? then first else UnloadEach(first.after, behave, ids[1..])
  }

  /** `unloadAll` over a snapshot of the loaded ids leaves nothing loaded unless a hook throws. */
  lemma {:induction false} UnloadEachEmpties(s: Lifecycle, behave: InstanceSettings -> Behaviour, ids: seq<string>)
    requires s.loaded.Valid() && forall k :: k in s.loaded.entries ==> k in ids
    ensures UnloadEach(s, behave, ids).outcome.Done? ==> UnloadEach(s, behave, ids).after.loaded.entries == map[]
    decreases |ids|
  {
    if ids != [] {
      var first := UnloadStep(s, behave, ids[0]);
      assert forall k :: k in first.after.loaded.entries ==> k in ids[1..] by {
        forall k | k in first.after.loaded.entries ensures k in ids[1..] {
          assert k != ids[0] && k in ids;
          var j :| 0 <= j < |ids| && ids[j] == k;
          assert ids[1..][j - 1] == k;
        }
      }
      UnloadEachEmpties(first.after, behave, ids[1..]);
    } else {
      assert forall k :: k !in s.loaded.entries;
    }
  }

  /** The entry a `new Map(desired.map(p => [p.instanceId, p]))` holds for `id`: the last one. */
  function LastWith(plugins: seq<InstanceSettings>, id: string): (r: Option<InstanceSettings>)
    ensures r.Some? ==> r.value in plugins && r.value.instanceId == id
    ensures r.None? <==> forall p :: p in plugins ==> p.instanceId != id
    decreases |plugins|
  {
    if plugins == [] then None
    else
      var later := LastWith(plugins[1..], id);
      if later.Some? then later
      else if plugins[0].instanceId == id then Some(plugins[0])
      else None
  }

  /** A loaded configuration is reloaded by a sync when its instance is no longer desired or its
      plugin id or settings differ from the desired ones. */
  predicate Stale(config: InstanceSettings, next: Option<InstanceSettings>)
  {
    next.None? || next.value.pluginId != config.pluginId || !SettingsEqual(next.value.settings, config.settings)
  }

  /** First loop of `syncWithSettings`: visits the loaded ids and unloads each stale one. */
  function Reconcile(s: Lifecycle, behave: InstanceSettings -> Behaviour, desired: seq<InstanceSettings>, ids: seq<string>): (r: Step)
    requires s.loaded.Valid()
    ensures r.after.loaded.Valid()
    decreases |ids|
  {
    if ids == [] then Step(s, Done)
    else if ids[0] in s.loaded.entries && Stale(s.loaded.entries[ids[0]].config, LastWith(desired, ids[0])) then
      var first := UnloadStep(s, behave, ids[0]);
      if first.outcome.Failed? then first else Reconcile(first.after, behave, desired, ids[1..])
    else Reconcile(s, behave, desired, ids[1..])
  }

  /** Second loop of `syncWithSettings`: a desired instance already loaded gets its config and
      settings replaced; any other is loaded. The first load that throws stops the loop. */
  function Apply(s: Lifecycle, catalog: set<string>, behave: InstanceSettings -> Behaviour, desired: seq<InstanceSettings>): (r: Step)
    requires s.loaded.Valid()
    ensures r.after.loaded.Valid()
    decreases |desired|
  {
    if desired == [] then Step(s, Done)
    else if desired[0].instanceId in s.loaded.entries then
      var updated := s.loaded.Set(desired[0].instanceId, Entry(desired[0], desired[0].settings.GetOr(Json.EmptyObject)));
      Apply(Lifecycle(updated, s.calls), catalog, behave, desired[1..])
    else
      var first := LoadStep(s, catalog, behave, desired[0]);
      if first.outcome.Failed? then first else Apply(first.after, catalog, behave, desired[1..])
  }

  /** `syncWithSettings(settings)`. */
  function Sync(s: Lifecycle, catalog: set<string>, behave: InstanceSettings -> Behaviour, settings: SettingsConfig): (r: Step)
    requires s.loaded.Valid()
    ensures r.after.loaded.Valid()
  {
    var desired := ListEnabledPlugins(settings);
    var reconciled := Reconcile(s, behave, desired, s.loaded.keys);
    if reconciled.outcome.Failed? then reconciled else Apply(reconciled.after, catalog, behave, desired)
  }

  /** After a completed first loop no loaded instance is stale, and every surviving entry is the
      one loaded before. */
  lemma {:induction false} ReconcileLeavesCurrent(s: Lifecycle, behave: InstanceSettings -> Behaviour, desired: seq<InstanceSettings>, ids: seq<string>)
    requires s.loaded.Valid()
    requires forall k :: k in s.loaded.entries ==> k in ids || !Stale(s.loaded.entries[k].config, LastWith(desired, k))
    ensures var r := Reconcile(s, behave, desired, ids);
      r.outcome.Done? ==>
        forall k :: k in r.after.loaded.entries ==>
          && k in s.loaded.entries && r.after.loaded.entries[k] == s.loaded.entries[k]
          && !Stale(r.after.loaded.entries[k].config, LastWith(desired, k))
    decreases |ids|
  {
    if ids != [] {
      if ids[0] in s.loaded.entries && Stale(s.loaded.entries[ids[0]].config, LastWith(desired, ids[0])) {
        var first := UnloadStep(s, behave, ids[0]);
        if first.outcome.Done? {
          forall k | k in first.after.loaded.entries
            ensures k in ids[1..] || !Stale(first.after.loaded.entries[k].config, LastWith(desired, k))
          {
            if k in ids {
              var j :| 0 <= j < |ids| && ids[j] == k;
              assert j != 0;
              assert ids[1..][j - 1] == k;
            }
          }
          ReconcileLeavesCurrent(first.after, behave, desired, ids[1..]);
        }
      } else {
        forall k | k in s.loaded.entries
          ensures k in ids[1..] || !Stale(s.loaded.entries[k].config, LastWith(desired, k))
        {
          if k in ids && k != ids[0] {
            var j :| 0 <= j < |ids| && ids[j] == k;
            assert ids[1..][j - 1] == k;
          }
        }
        ReconcileLeavesCurrent(s, behave, desired, ids[1..]);
      }
    }
  }

  /** Every call in `calls` unloads, or tears down, an instance loaded in `s` that is stale. */
  predicate UnloadsOnlyStale(s: Lifecycle, desired: seq<InstanceSettings>, calls: seq<Call>)
  {
    forall c :: c in calls ==>
      && !c.LoadHook? && c.instanceId in s.loaded.entries
      && Stale(s.loaded.entries[c.instanceId].config, LastWith(desired, c.instanceId))
  }

  /** The first loop, whether it completes or throws, keeps every loaded instance that is not
      stale with its entry untouched, and the only calls it makes unload stale instances. */
  lemma ReconcileKeepsCurrent(s: Lifecycle, behave: InstanceSettings -> Behaviour, desired: seq<InstanceSettings>, ids: seq<string>)
    requires s.loaded.Valid()
    ensures var r := Reconcile(s, behave, desired, ids);
      && (forall k :: k in s.loaded.entries && !Stale(s.loaded.entries[k].config, LastWith(desired, k)) ==>
            k in r.after.loaded.entries && r.after.loaded.entries[k] == s.loaded.entries[k])
      && s.calls <= r.after.calls
      && UnloadsOnlyStale(s, desired, r.after.calls[|s.calls|..])
  {
    ReconcileKeepsEntries(s, behave, desired, ids);
    ReconcileCallsStale(s, behave, desired, ids);
  }

  /** The entry half of `ReconcileKeepsCurrent`. */
  lemma {:induction false} ReconcileKeepsEntries(s: Lifecycle, behave: InstanceSettings -> Behaviour, desired: seq<InstanceSettings>, ids: seq<string>)
    requires s.loaded.Valid()
    ensures var r := Reconcile(s, behave, desired, ids);
      forall k :: k in s.loaded.entries && !Stale(s.loaded.entries[k].config, LastWith(desired, k)) ==>
        k in r.after.loaded.entries && r.after.loaded.entries[k] == s.loaded.entries[k]
    decreases |ids|
  {
    if ids != [] {
      if ids[0] in s.loaded.entries && Stale(s.loaded.entries[ids[0]].config, LastWith(desired, ids[0])) {
        var first := UnloadStep(s, behave, ids[0]);
        if first.outcome.Done? {
          ReconcileKeepsEntries(first.after, behave, desired, ids[1..]);
          forall k | k in s.loaded.entries && !Stale(s.loaded.entries[k].config, LastWith(desired, k))
            ensures k in first.after.loaded.entries && first.after.loaded.entries[k] == s.loaded.entries[k]
          {
            assert k != ids[0];
          }
        }
      } else {
        ReconcileKeepsEntries(s, behave, desired, ids[1..]);
      }
    }
  }

  /** The call half of `ReconcileKeepsCurrent`. */
  lemma {:induction false} ReconcileCallsStale(s: Lifecycle, behave: InstanceSettings -> Behaviour, desired: seq<InstanceSettings>, ids: seq<string>)
    requires s.loaded.Valid()
    ensures var r := Reconcile(s, behave, desired, ids);
      s.calls <= r.after.calls && UnloadsOnlyStale(s, desired, r.after.calls[|s.calls|..])
    decreases |ids|
  {
    if ids != [] {
      if ids[0] in s.loaded.entries && Stale(s.loaded.entries[ids[0]].config, LastWith(desired, ids[0])) {
        var first := UnloadStep(s, behave, ids[0]);
        var head := [UnloadHook(ids[0]), Teardown(ids[0])];
        assert UnloadsOnlyStale(s, desired, head);
        if first.outcome.Done? {
          ReconcileCallsStale(first.after, behave, desired, ids[1..]);
          var rest := Reconcile(first.after, behave, desired, ids[1..]).after.calls;
          StaleCallsOfSmaller(s, first.after, desired, rest[|first.after.calls|..]);
          StaleCallsJoin(s, desired, s.calls, head, rest);
        } else {
          StaleCallsJoin(s, desired, s.calls, head, s.calls + head);
        }
      } else {
        ReconcileCallsStale(s, behave, desired, ids[1..]);
      }
    }
  }

  /** Calls that unload stale instances of a state whose entries all come from `s` unload stale
      instances of `s`. */
  lemma StaleCallsOfSmaller(s: Lifecycle, t: Lifecycle, desired: seq<InstanceSettings>, calls: seq<Call>)
    requires forall k :: k in t.loaded.entries ==> k in s.loaded.entries && t.loaded.entries[k] == s.loaded.entries[k]
    requires UnloadsOnlyStale(t, desired, calls)
    ensures UnloadsOnlyStale(s, desired, calls)
  {
  }

  /** Joins the first unload's calls to those of the rest of the loop. */
  lemma StaleCallsJoin(s: Lifecycle, desired: seq<InstanceSettings>, before: seq<Call>, head: seq<Call>, rest: seq<Call>)
    requires before + head <= rest
    requires UnloadsOnlyStale(s, desired, head)
    requires UnloadsOnlyStale(s, desired, rest[|before + head|..])
    ensures before <= rest && UnloadsOnlyStale(s, desired, rest[|before|..])
  {
    assert rest[|before|..] == head + rest[|before + head|..];
  }

  /** A completed second loop leaves loaded every desired instance and the instances loaded
      before; a desired instance's config is the last desired entry with its id, and any other
      entry is untouched. */
  lemma {:induction false} ApplyLoadsDesired(s: Lifecycle, catalog: set<string>, behave: InstanceSettings -> Behaviour, desired: seq<InstanceSettings>)
    requires s.loaded.Valid()
    ensures var r := Apply(s, catalog, behave, desired);
      r.outcome.Done? ==>
        && (forall k :: k in r.after.loaded.entries <==> k in s.loaded.entries || LastWith(desired, k).Some?)
        && (forall k :: k in r.after.loaded.entries && LastWith(desired, k).Some? ==>
              r.after.loaded.entries[k].config == LastWith(desired, k).value)
        && (forall k :: k in r.after.loaded.entries && LastWith(desired, k).None? ==>
              r.after.loaded.entries[k] == s.loaded.entries[k])
    decreases |desired|
  {
    if desired != [] {
      var p := desired[0];
      var next: Lifecycle;
      if p.instanceId in s.loaded.entries {
        next := Lifecycle(s.loaded.Set(p.instanceId, Entry(p, p.settings.GetOr(Json.EmptyObject))), s.calls);
      } else {
        var first := LoadStep(s, catalog, behave, p);
        if first.outcome.Failed? {
          return;
        }
        next := first.after;
      }
      assert Apply(s, catalog, behave, desired) == Apply(next, catalog, behave, desired[1..]);
      assert forall k :: k in next.loaded.entries <==> k in s.loaded.entries || k == p.instanceId;
      assert next.loaded.entries[p.instanceId].config == p;
      assert forall k :: k in next.loaded.entries && k != p.instanceId ==> next.loaded.entries[k] == s.loaded.entries[k];
      ApplyLoadsDesired(next, catalog, behave, desired[1..]);
      var r := Apply(next, catalog, behave, desired[1..]);
      if r.outcome.Done? {
        LoadedThenRest(s.loaded.entries, next.loaded.entries, r.after.loaded.entries, desired);
      }
    }
  }

  /** Loading the first desired instance and then the rest loads all of them. */
  lemma LoadedThenRest(before: map<string, Entry>, next: map<string, Entry>, after: map<string, Entry>, desired: seq<InstanceSettings>)
    requires desired != []
    requires forall k :: k in next <==> k in before || k == desired[0].instanceId
    requires desired[0].instanceId in next && next[desired[0].instanceId].config == desired[0]
    requires forall k :: k in next && k != desired[0].instanceId ==> next[k] == before[k]
    requires forall k :: k in after <==> k in next || LastWith(desired[1..], k).Some?
    requires forall k :: k in after && LastWith(desired[1..], k).Some? ==> after[k].config == LastWith(desired[1..], k).value
    requires forall k :: k in after && LastWith(desired[1..], k).None? ==> after[k] == next[k]
    ensures forall k :: k in after <==> k in before || LastWith(desired, k).Some?
    ensures forall k :: k in after && LastWith(desired, k).Some? ==> after[k].config == LastWith(desired, k).value
    ensures forall k :: k in after && LastWith(desired, k).None? ==> after[k] == before[k]
  {
  }

  /** After a successful `syncWithSettings`, the loaded instances are exactly the desired ones,
      each holding the last desired configuration with its id. */
  lemma SyncLoadsExactlyDesired(s: Lifecycle, catalog: set<string>, behave: InstanceSettings -> Behaviour, settings: SettingsConfig)
    requires s.loaded.Valid() && Sync(s, catalog, behave, settings).outcome.Done?
    ensures var r := Sync(s, catalog, behave, settings);
      && (forall k :: k in r.after.loaded.entries <==> exists p :: p in ListEnabledPlugins(settings) && p.instanceId == k)
      && (forall k :: k in r.after.loaded.entries ==>
            r.after.loaded.entries[k].config == LastWith(ListEnabledPlugins(settings), k).value)
  {
    var desired := ListEnabledPlugins(settings);
    var reconciled := Reconcile(s, behave, desired, s.loaded.keys);
    ReconcileLeavesCurrent(s, behave, desired, s.loaded.keys);
    ApplyLoadsDesired(reconciled.after, catalog, behave, desired);
  }

  /** The first loop changes nothing when no loaded instance is stale. */
  lemma {:induction false} ReconcileNothingStale(s: Lifecycle, behave: InstanceSettings -> Behaviour, desired: seq<InstanceSettings>, ids: seq<string>)
    requires s.loaded.Valid()
    requires forall k :: k in s.loaded.entries ==> !Stale(s.loaded.entries[k].config, LastWith(desired, k))
    ensures Reconcile(s, behave, desired, ids) == Step(s, Done)
    decreases |ids|
  {
    if ids != [] {
      ReconcileNothingStale(s, behave, desired, ids[1..]);
    }
  }

  /** The second loop makes no call and keeps the loaded ids when every desired instance is loaded. */
  lemma {:induction false} ApplyAllLoaded(s: Lifecycle, catalog: set<string>, behave: InstanceSettings -> Behaviour, desired: seq<InstanceSettings>)
    requires s.loaded.Valid()
    requires forall p :: p in desired ==> p.instanceId in s.loaded.entries
    ensures var r := Apply(s, catalog, behave, desired);
      r.outcome.Done? && r.after.calls == s.calls && r.after.loaded.keys == s.loaded.keys
      && r.after.loaded.entries.Keys == s.loaded.entries.Keys
    decreases |desired|
  {
    if desired != [] {
      var p := desired[0];
      assert p in desired;
      var next := Lifecycle(s.loaded.Set(p.instanceId, Entry(p, p.settings.GetOr(Json.EmptyObject))), s.calls);
      assert next.loaded.entries.Keys == s.loaded.entries.Keys;
      ApplyAllLoaded(next, catalog, behave, desired[1..]);
    }
  }

  /** A second `syncWithSettings` with the same settings loads and unloads nothing. */
  lemma SyncTwiceIsQuiet(s: Lifecycle, catalog: set<string>, behave: InstanceSettings -> Behaviour, settings: SettingsConfig)
    requires s.loaded.Valid() && Sync(s, catalog, behave, settings).outcome.Done?
    ensures var once := Sync(s, catalog, behave, settings).after;
      var twice := Sync(once, catalog, behave, settings);
      twice.outcome.Done? && twice.after.calls == once.calls && twice.after.loaded.keys == once.loaded.keys
  {
    var desired := ListEnabledPlugins(settings);
    var once := Sync(s, catalog, behave, settings).after;
    SyncLoadsExactlyDesired(s, catalog, behave, settings);
    ReconcileNothingStale(once, behave, desired, once.loaded.keys);
    forall p | p in desired ensures p.instanceId in once.loaded.entries {
    }
    ApplyAllLoaded(once, catalog, behave, desired);
  }

  class PluginManager {
    const catalog: set<string>                      // plugin ids of the catalog
    const behave: InstanceSettings -> Behaviour     // what each plugin's code does
    var settings: SettingsConfig
    var loaded: JsMap.Map<string, Entry>
    var calls: seq<Call>

    ghost predicate Valid()
      reads this
    {
      loaded.Valid()
    }

    function Current(): Lifecycle
      reads this
    {
      Lifecycle(loaded, calls)
    }

    constructor (settings: SettingsConfig, catalog: set<string>, behave: InstanceSettings -> Behaviour)
      ensures Valid() && loaded.keys == [] && calls == []
      ensures this.settings == settings && this.catalog == catalog && this.behave == behave
    {
      this.settings := settings;
      this.catalog := catalog;
      this.behave := behave;
      loaded := JsMap.Empty();
      calls := [];
    }

    /** `listLoaded`: the loaded instance ids in load order. */
    function ListLoaded(): (ids: seq<string>)
      reads this
      requires Valid()
      ensures forall id :: id in ids <==> id in loaded.entries
      ensures JsMap.Distinct(ids)
    {
      loaded.keys
    }

    /** `getConfig`: the configuration of a loaded instance, or null. */
    function GetConfig(instanceId: string): (r: Option<InstanceSettings>)
      reads this
      ensures r.Some? <==> instanceId in loaded.entries
      ensures r.Some? ==> r.value == loaded.entries[instanceId].config
    {
      if instanceId in loaded.entries then Some(loaded.entries[instanceId].config) else None
    }

    /** `updateSettings`: replaces the settings and nothing else. */
    method UpdateSettings(settings: SettingsConfig)
      modifies this`settings
      ensures this.settings == settings
    {
      this.settings := settings;
    }

    method Load(config: InstanceSettings) returns (r: Outcome)
      requires Valid()
      modifies this`loaded, this`calls
      ensures Valid()
      ensures Step(Current(), r) == LoadStep(old(Current()), catalog, behave, config)
    {
      var id := config.instanceId;
      if loaded.Has(id) {
        return Done;
      }
      if config.pluginId !in catalog {
        return Failed(Error("Unknown plugin: " + config.pluginId));
      }
      var prepared := behave(config).prepare;
      if prepared.Err? {
        return Failed(prepared.error);
      }
      calls := calls + [LoadHook(id)];
      var hook := behave(config).loadHook;
      if hook.Failed? {
        calls := calls + [Teardown(id)];
        return hook;
      }
      loaded := loaded.Set(id, Entry(config, prepared.value));
      r := Done;
    }

    method Unload(instanceId: string) returns (r: Outcome)
      requires Valid()
      modifies this`loaded, this`calls
      ensures Valid()
      ensures Step(Current(), r) == UnloadStep(old(Current()), behave, instanceId)
    {
      var entry := loaded.Get(instanceId);
      if entry.None? {
        return Done;
      }
      calls := calls + [UnloadHook(instanceId)];
      r := behave(entry.value.config).unloadHook;
      // `finally`: runs whether the hook returned or threw
      calls := calls + [Teardown(instanceId)];
      loaded := loaded.Delete(instanceId);
    }

    /** `loadEnabled`: stores the settings and loads each enabled instance in order. */
    method LoadEnabled(settings: SettingsConfig) returns (r: Outcome)
      requires Valid()
      modifies this
      ensures Valid() && this.settings == settings
      ensures Step(Current(), r) == LoadEach(old(Current()), catalog, behave, ListEnabledPlugins(settings))
    {
      this.settings := settings;
      var enabled := ListEnabledPlugins(settings);
      var i := 0;
      while i < |enabled|
        invariant 0 <= i <= |enabled|
        invariant Valid() && this.settings == settings
        invariant LoadEach(Current(), catalog, behave, enabled[i..]) == LoadEach(old(Current()), catalog, behave, enabled)
      {
        assert enabled[i..][0] == enabled[i] && enabled[i..][1..] == enabled[i + 1..];
        var out := Load(enabled[i]);
        if out.Failed? {
          return out;
        }
        i := i + 1;
      }
      r := Done;
    }

    /** `unloadAll`: unloads every id loaded at the call, in load order. */
    method UnloadAll() returns (r: Outcome)
      requires Valid()
      modifies this`loaded, this`calls
      ensures Valid()
      ensures Step(Current(), r) == UnloadEach(old(Current()), behave, old(loaded.keys))
    {
      var ids := loaded.keys;
      var i := 0;
      while i < |ids|
        invariant 0 <= i <= |ids|
        invariant Valid()
        invariant UnloadEach(Current(), behave, ids[i..]) == UnloadEach(old(Current()), behave, ids)
      {
        assert ids[i..][0] == ids[i] && ids[i..][1..] == ids[i + 1..];
        var out := Unload(ids[i]);
        if out.Failed? {
          return out;
        }
        i := i + 1;
      }
      r := Done;
    }

    /** `syncWithSettings`: unload the stale instances, then load or refresh the desired ones. */
    method SyncWithSettings(settings: SettingsConfig) returns (r: Outcome)
      requires Valid()
      modifies this
      ensures Valid() && this.settings == settings
      ensures Step(Current(), r) == Sync(old(Current()), catalog, behave, settings)
    {
      this.settings := settings;
      var desired := ListEnabledPlugins(settings);
      r := UnloadStale(desired, loaded.keys);
      if r.Failed? {
        return;
      }
      r := LoadDesired(desired);
    }

    /** The first loop of `syncWithSettings`. It walks the loaded map while deleting only the
        entry it is at, which visits exactly the ids present when it started. */
    method UnloadStale(desired: seq<InstanceSettings>, ids: seq<string>) returns (r: Outcome)
      requires Valid()
      modifies this`loaded, this`calls
      ensures Valid()
      ensures Step(Current(), r) == Reconcile(old(Current()), behave, desired, ids)
    {
      var i := 0;
      while i < |ids|
        invariant 0 <= i <= |ids|
        invariant Valid()
        invariant Reconcile(Current(), behave, desired, ids[i..]) == Reconcile(old(Current()), behave, desired, ids)
      {
        assert ids[i..][0] == ids[i] && ids[i..][1..] == ids[i + 1..];
        var id := ids[i];
        if loaded.Has(id) && Stale(loaded.entries[id].config, LastWith(desired, id)) {
          var out := Unload(id);
          if out.Failed? {
            return out;
          }
        }
        i := i + 1;
      }
      r := Done;
    }

    /** The second loop of `syncWithSettings`: a loaded instance gets the desired config and
        settings in place; any other is loaded. */
    method LoadDesired(desired: seq<InstanceSettings>) returns (r: Outcome)
      requires Valid()
      modifies this`loaded, this`calls
      ensures Valid()
      ensures Step(Current(), r) == Apply(old(Current()), catalog, behave, desired)
    {
      var j := 0;
      while j < |desired|
        invariant 0 <= j <= |desired|
        invariant Valid()
        invariant Apply(Current(), catalog, behave, desired[j..]) == Apply(old(Current()), catalog, behave, desired)
      {
        assert desired[j..][0] == desired[j] && desired[j..][1..] == desired[j + 1..];
        var plugin := desired[j];
        if loaded.Has(plugin.instanceId) {
          loaded := loaded.Set(plugin.instanceId, Entry(plugin, plugin.settings.GetOr(Json.EmptyObject)));
        } else {
          var out := Load(plugin);
          if out.Failed? {
            return out;
          }
        }
        j := j + 1;
      }
      r := Done;
    }
  }
}
