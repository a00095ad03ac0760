// The list helpers over the older runtime's settings file: which plugins are configured and
// enabled, inserting or replacing a plugin entry, removing one, and the configured inference
// providers. Reading and writing the file itself is not modelled; settings are values here.

module Settings {
  import opened Wrappers
  import Json

  /** A configured plugin: its id, an optional `enabled` flag and an optional config record. */
  datatype PluginSettings = PluginSettings(id: string, enabled: Option<bool>, config: Option<map<string, Json.Value>>)

  /** A configured inference provider: id, optional model and optional options record. */
  datatype ProviderSettings = ProviderSettings(id: string, model: Option<string>, options: Option<map<string, Json.Value>>)

  /** The `inference` section: an optional provider list. */
  datatype InferenceSection = InferenceSection(providers: Option<seq<ProviderSettings>>)

  /** The parts of the settings file these helpers read. */
  datatype SettingsConfig = SettingsConfig(plugins: Option<seq<PluginSettings>>, inference: Option<InferenceSection>)

  /** `plugin.enabled !== false`: an absent flag counts as enabled. */
  predicate IsEnabled(p: PluginSettings)
  {
    p.enabled != Some(false)
  }

  /** `listPlugins`: the plugin list, or [] when absent. */
  function ListPlugins(settings: SettingsConfig): (r: seq<PluginSettings>)
    ensures settings.plugins.None? ==> r == []
    ensures settings.plugins.Some? ==> r == settings.plugins.value
  {
    settings.plugins.GetOr([])
  }

  /** The enabled entries of a list, in order. */
  function Enabled(plugins: seq<PluginSettings>): (r: seq<PluginSettings>)
    ensures forall p :: p in r <==> p in plugins && IsEnabled(p)
    ensures |r| <= |plugins|
  {
    if plugins == [] then []
    else (if IsEnabled(plugins[0]) then [plugins[0]] else []) + Enabled(plugins[1..])
  }

  /** `listEnabledPlugins`: the configured plugins with `enabled !== false`, in settings order. */
  function ListEnabledPlugins(settings: SettingsConfig): (r: seq<PluginSettings>)
  {
    Enabled(ListPlugins(settings))
  }

  /** Filtering twice keeps what filtering once kept. */
  lemma {:induction false} EnabledIdempotent(plugins: seq<PluginSettings>)
    ensures Enabled(Enabled(plugins)) == Enabled(plugins)
  {
    if plugins != [] {
      EnabledIdempotent(plugins[1..]);
      EnabledAppend(if IsEnabled(plugins[0]) then [plugins[0]] else [], Enabled(plugins[1..]));
    }
  }

  /** An all-enabled list is kept whole. */
  lemma {:induction false} EnabledAllEnabled(plugins: seq<PluginSettings>)
    requires forall i :: 0 <= i < |plugins| ==> IsEnabled(plugins[i])
    ensures Enabled(plugins) == plugins
  {
    if plugins != [] {
      EnabledAllEnabled(plugins[1..]);
    }
  }

  lemma {:induction false} EnabledAppend(a: seq<PluginSettings>, b: seq<PluginSettings>)
    ensures Enabled(a + b) == Enabled(a) + Enabled(b)
  {
    if a != [] {
      assert (a + b)[1..] == a[1..] + b;
      EnabledAppend(a[1..], b);
    } else {
      assert a + b == b;
    }
  }

  /** The entries of a list whose id differs from `id`, in order. */
  function DropId(plugins: seq<PluginSettings>, id: string): (r: seq<PluginSettings>)
    ensures forall p :: p in r <==> p in plugins && p.id != id
    ensures |r| <= |plugins|
  {
    if plugins == [] then []
    else (if plugins[0].id != id then [plugins[0]] else []) + DropId(plugins[1..], id)
  }

  lemma {:induction false} DropIdAppend(a: seq<PluginSettings>, b: seq<PluginSettings>, id: string)
    ensures DropId(a + b, id) == DropId(a, id) + DropId(b, id)
  {
    if a != [] {
      assert (a + b)[1..] == a[1..] + b;
      DropIdAppend(a[1..], b, id);
    } else {
      assert a + b == b;
    }
  }

  /** Dropping an id a second time changes nothing. */
  lemma {:induction false} DropIdTwice(plugins: seq<PluginSettings>, id: string)
    ensures DropId(DropId(plugins, id), id) == DropId(plugins, id)
  {
    if plugins != [] {
      DropIdTwice(plugins[1..], id);
      DropIdAppend(if plugins[0].id != id then [plugins[0]] else [], DropId(plugins[1..], id), id);
    }
  }

  /** The number of entries with the given id. */
  function CountId(plugins: seq<PluginSettings>, id: string): nat
  {
    if plugins == [] then 0 else (if plugins[0].id == id then 1 else 0) + CountId(plugins[1..], id)
  }

  lemma {:induction false} CountIdAppend(a: seq<PluginSettings>, b: seq<PluginSettings>, id: string)
    ensures CountId(a + b, id) == CountId(a, id) + CountId(b, id)
  {
    if a != [] {
      assert (a + b)[1..] == a[1..] + b;
      CountIdAppend(a[1..], b, id);
    } else {
      assert a + b == b;
    }
  }

  lemma {:induction false} CountIdDropped(plugins: seq<PluginSettings>, id: string)
    ensures CountId(DropId(plugins, id), id) == 0
  {
    if plugins != [] {
      CountIdDropped(plugins[1..], id);
      CountIdAppend(if plugins[0].id != id then [plugins[0]] else [], DropId(plugins[1..], id), id);
    }
  }

  /** `upsertPlugin`: every entry with the new entry's id is dropped, the rest keep their order,
      and the new entry goes last. */
  function UpsertPlugin(plugins: Option<seq<PluginSettings>>, entry: PluginSettings): (r: seq<PluginSettings>)
    ensures |r| >= 1 && r[|r| - 1] == entry
    ensures r[..|r| - 1] == DropId(plugins.GetOr([]), entry.id)
  {
    DropId(plugins.GetOr([]), entry.id) + [entry]
  }

  /** `removePlugin`: every entry with the id is dropped, the rest keep their order. */
  function RemovePlugin(plugins: Option<seq<PluginSettings>>, id: string): (r: seq<PluginSettings>)
    ensures forall p :: p in r <==> p in plugins.GetOr([]) && p.id != id
  {
    DropId(plugins.GetOr([]), id)
  }

  /** After an upsert exactly one entry carries the id. */
  lemma UpsertLeavesOne(plugins: Option<seq<PluginSettings>>, entry: PluginSettings)
    ensures CountId(UpsertPlugin(plugins, entry), entry.id) == 1
  {
    CountIdDropped(plugins.GetOr([]), entry.id);
    CountIdAppend(DropId(plugins.GetOr([]), entry.id), [entry], entry.id);
  }

  /** Upserting the same entry twice is upserting it once. */
  lemma UpsertIdempotent(plugins: Option<seq<PluginSettings>>, entry: PluginSettings)
    ensures UpsertPlugin(Some(UpsertPlugin(plugins, entry)), entry) == UpsertPlugin(plugins, entry)
  {
    var kept := DropId(plugins.GetOr([]), entry.id);
    DropIdAppend(kept, [entry], entry.id);
    DropIdTwice(plugins.GetOr([]), entry.id);
    assert DropId([entry], entry.id) == [];
  }

  /** Removing what was just upserted is removing it from the original list. */
  lemma RemoveAfterUpsert(plugins: Option<seq<PluginSettings>>, entry: PluginSettings)
    ensures RemovePlugin(Some(UpsertPlugin(plugins, entry)), entry.id) == RemovePlugin(plugins, entry.id)
  {
    var kept := DropId(plugins.GetOr([]), entry.id);
    DropIdAppend(kept, [entry], entry.id);
    DropIdTwice(plugins.GetOr([]), entry.id);
    assert DropId([entry], entry.id) == [];
  }

  /** `listInferenceProviders`: `inference.providers`, or [] when either level is absent. */
  function ListInferenceProviders(settings: SettingsConfig): (r: seq<ProviderSettings>)
    ensures settings.inference.None? ==> r == []
    ensures settings.inference.Some? && settings.inference.value.providers.None? ==> r == []
    ensures settings.inference.Some? && settings.inference.value.providers.Some? ==> r == settings.inference.value.providers.value
  {
    match settings.inference
    case None => []
    case Some(section) => section.providers.GetOr([])
  }
}
