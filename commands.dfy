// The settings updates of the newer runtime's `add` and `remove` commands, without their
// prompt sequences: cleaning collected options, inserting a provider first or last,
// upserting the plugin instance behind it, and removing a provider or plugin chosen through
// a "provider:<index>" or "plugin:<instanceId>" selection string.

module GramCommands {
  import opened Wrappers
  import Json
  import JsBuiltins
  import GramPlugins

  /** One configured inference provider of the newer settings file. */
  datatype ProviderEntry = ProviderEntry(id: string, model: Option<string>, options: Option<map<string, Json.Value>>)

  datatype InferenceSection = InferenceSection(providers: Option<seq<ProviderEntry>>)

  /** The parts of the settings file the commands update; every other field is kept as is. */
  datatype Settings = Settings(plugins: Option<seq<GramPlugins.InstanceSettings>>, inference: Option<InferenceSection>)

  function ProvidersOf(settings: Settings): seq<ProviderEntry>
  {
    if settings.inference.Some? then settings.inference.value.providers.GetOr([]) else []
  }

  // ---------------------------------------------------------------- cleanOptions

  /** A collected option value; `undefined` is the absence of an answer. */
  datatype OptionValue = Undefined | Given(value: Json.Value)

  predicate Kept(v: OptionValue)
  {
    v.Given? && v.value != Json.Str("")
  }

  /** `cleanOptions`: the entries whose value is neither `undefined` nor "". */
  function CleanOptions(options: map<string, OptionValue>): (r: map<string, Json.Value>)
    ensures forall k :: k in r <==> k in options && Kept(options[k])
    ensures forall k :: k in r ==> options[k] == Given(r[k])
  {
    map k | k in options && Kept(options[k]) :: options[k].value
  }

  // ---------------------------------------------------------------- plugin list updates

  /** The instances with another instance id, in order. */
  function WithoutInstance(plugins: seq<GramPlugins.InstanceSettings>, instanceId: string): (r: seq<GramPlugins.InstanceSettings>)
    ensures forall p :: p in r <==> p in plugins && p.instanceId != instanceId
    ensures |r| <= |plugins|
  {
    if plugins == [] then []
    else
      assert plugins == [plugins[0]] + plugins[1..];
      (if plugins[0].instanceId != instanceId then [plugins[0]] else []) + WithoutInstance(plugins[1..], instanceId)
  }

  /** `upsertPlugin`: the entries with the new entry's instance id are dropped and it goes last. */
  function UpsertPlugin(plugins: Option<seq<GramPlugins.InstanceSettings>>, entry: GramPlugins.InstanceSettings): (r: seq<GramPlugins.InstanceSettings>)
    ensures |r| >= 1 && r[|r| - 1] == entry
    ensures r[..|r| - 1] == WithoutInstance(plugins.GetOr([]), entry.instanceId)
  {
    WithoutInstance(plugins.GetOr([]), entry.instanceId) + [entry]
  }

  /** `removePlugin`: the entries with the instance id are dropped, the rest keep their order. */
  function RemovePlugin(plugins: Option<seq<GramPlugins.InstanceSettings>>, instanceId: string): (r: seq<GramPlugins.InstanceSettings>)
    ensures forall p :: p in r <==> p in plugins.GetOr([]) && p.instanceId != instanceId
  {
    WithoutInstance(plugins.GetOr([]), instanceId)
  }

  // ---------------------------------------------------------------- add

  /** The providers with another id, in order. */
  function WithoutProvider(providers: seq<ProviderEntry>, id: string): (r: seq<ProviderEntry>)
    ensures forall p :: p in r <==> p in providers && p.id != id
    ensures |r| <= |providers|
  {
    if providers == [] then []
    else
      assert providers == [providers[0]] + providers[1..];
      (if providers[0].id != id then [providers[0]] else []) + WithoutProvider(providers[1..], id)
  }

  /** The provider entry `addProvider` writes: its options only when there are some. */
  function NewProvider(id: string, model: string, options: map<string, Json.Value>): (p: ProviderEntry)
    ensures p.id == id && p.model == Some(model)
    ensures p.options.Some? <==> |options| > 0
    ensures p.options.Some? ==> p.options.value == options
  {
    ProviderEntry(id, Some(model), if |options| > 0 then Some(options) else None)
  }

  /** The settings updater of `addProvider`: the provider replaces every same-id entry, first
      when it is made the primary one, else last; its plugin is upserted, enabled, with
      instance id and plugin id both the provider id. */
  function AddProvider(current: Settings, id: string, model: string, options: map<string, Json.Value>, setMain: bool): (r: Settings)
    ensures var kept := WithoutProvider(ProvidersOf(current), id);
      && r.inference.Some? && r.inference.value.providers.Some?
      && (setMain ==> r.inference.value.providers.value == [NewProvider(id, model, options)] + kept)
      && (!setMain ==> r.inference.value.providers.value == kept + [NewProvider(id, model, options)])
    ensures r.plugins == Some(UpsertPlugin(current.plugins, GramPlugins.InstanceSettings(id, id, Some(true), None)))
  {
    var filtered := WithoutProvider(ProvidersOf(current), id);
    var updated := NewProvider(id, model, options);
    var next := if setMain then [updated] + filtered else filtered + [updated];
    Settings(Some(UpsertPlugin(current.plugins, GramPlugins.InstanceSettings(id, id, Some(true), None))), Some(InferenceSection(Some(next))))
  }

  /** After `addProvider`'s update the provider id occurs exactly once in the list. */
  lemma AddProviderLeavesOne(current: Settings, id: string, model: string, options: map<string, Json.Value>, setMain: bool)
    ensures var providers := AddProvider(current, id, model, options, setMain).inference.value.providers.value;
      exists k :: 0 <= k < |providers| && providers[k].id == id && forall i :: 0 <= i < |providers| && i != k ==> providers[i].id != id
  {
    var kept := WithoutProvider(ProvidersOf(current), id);
    var providers := AddProvider(current, id, model, options, setMain).inference.value.providers.value;
    var k := if setMain then 0 else |kept|;
    forall i | 0 <= i < |providers| && i != k ensures providers[i].id != id {
      if setMain {
        assert providers[i] == kept[i - 1] && kept[i - 1] in kept;
      } else {
        assert providers[i] == kept[i] && kept[i] in kept;
      }
    }
    assert providers[k].id == id;
  }

  /** The settings updater of `addPlugin`: the instance is upserted, enabled, with its settings
      stored only when there are some. */
  function AddPlugin(current: Settings, instanceId: string, pluginId: string, settings: map<string, Json.Value>): (r: Settings)
    ensures r.inference == current.inference
    ensures r.plugins.Some? && |r.plugins.value| >= 1
    ensures var entry := r.plugins.value[|r.plugins.value| - 1];
      && entry.instanceId == instanceId && entry.pluginId == pluginId && entry.enabled == Some(true)
      && (entry.settings.Some? <==> |settings| > 0)
      && (entry.settings.Some? ==> entry.settings.value == Json.Obj(settings))
    ensures r.plugins.value[..|r.plugins.value| - 1] == WithoutInstance(current.plugins.GetOr([]), instanceId)
  {
    var next := if |settings| > 0 then Some(Json.Obj(settings)) else None;
    current.(plugins := Some(UpsertPlugin(current.plugins, GramPlugins.InstanceSettings(instanceId, pluginId, Some(true), next))))
  }

  // ---------------------------------------------------------------- promptValue

  /** How a prompt settles: with an answer, or by rejecting with a thrown value and its `name`. */
  datatype Prompt<T> = Answered(answer: T) | Rejected(error: Thrown, name: string)

  /** `isPromptCancelled`: an `Error` named "ExitPromptError". */
  predicate IsPromptCancelled<T>(p: Prompt<T>)
  {
    p.Rejected? && p.error.Error? && p.name == "ExitPromptError"
  }

  /** `promptValue`: the answer; null when the prompt was cancelled; any other rejection is
      rethrown unchanged. */
  function PromptValue<T>(p: Prompt<T>): (r: Result<Option<T>>)
    ensures p.Answered? ==> r == Ok(Some(p.answer))
    ensures r == Ok(None) <==> IsPromptCancelled(p)
    ensures r.Err? <==> p.Rejected? && !IsPromptCancelled(p)
    ensures r.Err? ==> r.error == p.error
  {
    match p
    case Answered(v) => Ok(Some(v))
    case Rejected(e, name) => if e.Error? && name == "ExitPromptError" then Ok(None) else Err(e)
  }

  // ---------------------------------------------------------------- remove

  const ProviderPrefix := "provider:"
  const PluginPrefix := "plugin:"

  /** The choice value of the provider at `index`. */
  function ProviderChoice(index: nat): string
  {
    ProviderPrefix + JsBuiltins.NatToString(index)
  }

  /** The choice value of a plugin instance. */
  function PluginChoice(instanceId: string): string
  {
    PluginPrefix + instanceId
  }

  /** Every choice the `remove` prompt offers, providers first, then plugins. */
  function Choices(settings: Settings): (r: seq<string>)
    ensures |r| == |ProvidersOf(settings)| + |settings.plugins.GetOr([])|
    ensures forall i :: 0 <= i < |ProvidersOf(settings)| ==> r[i] == ProviderChoice(i)
    ensures forall j :: 0 <= j < |settings.plugins.GetOr([])| ==>
      r[|ProvidersOf(settings)| + j] == PluginChoice(settings.plugins.GetOr([])[j].instanceId)
  {
    var plugins := settings.plugins.GetOr([]);
    seq(|ProvidersOf(settings)|, i requires 0 <= i => ProviderChoice(i)) + seq(|plugins|, j requires 0 <= j < |plugins| => PluginChoice(plugins[j].instanceId))
  }

  /** What a selection string names: a provider by `Number` of the rest (None for a string
      that is not a plain decimal number), a plugin by instance id, or nothing. */
  datatype Selection = ProviderAt(index: Option<nat>) | PluginNamed(instanceId: string) | NoSelection

  /** The branch taken on a selection: "provider:" is tried first, then "plugin:"; the
      prefix test makes `replace` remove exactly the prefix. */
  function Decode(selection: string): (r: Selection)
    ensures r.PluginNamed? ==> selection == PluginPrefix + r.instanceId
  {
    if JsBuiltins.StartsWith(selection, ProviderPrefix) then
      var rest := selection[|ProviderPrefix|..];
      ProviderAt(if JsBuiltins.AllDigits(rest) then Some(JsBuiltins.ParseDigits(rest)) else None)
    else if JsBuiltins.StartsWith(selection, PluginPrefix) then
      assert selection == selection[..|PluginPrefix|] + selection[|PluginPrefix|..];
      PluginNamed(selection[|PluginPrefix|..])
    else NoSelection
  }

  /** A provider choice decodes to its own index. */
  lemma ProviderChoiceRoundTrip(index: nat)
    ensures Decode(ProviderChoice(index)) == ProviderAt(Some(index))
  {
    var s := ProviderChoice(index);
    assert s[..|ProviderPrefix|] == ProviderPrefix;
    assert s[|ProviderPrefix|..] == JsBuiltins.NatToString(index);
    JsBuiltins.ParseNatToString(index);
  }

  /** A plugin choice decodes to its own instance id. */
  lemma PluginChoiceRoundTrip(instanceId: string)
    ensures Decode(PluginChoice(instanceId)) == PluginNamed(instanceId)
  {
    var s := PluginChoice(instanceId);
    assert s[..|PluginPrefix|] == PluginPrefix;
    assert s[1] != ProviderPrefix[1];
    assert s[|PluginPrefix|..] == instanceId;
  }

  /** The providers without the one at `index`, the others in order. */
  function RemoveAt(providers: seq<ProviderEntry>, index: nat): (r: seq<ProviderEntry>)
    requires index < |providers|
    ensures |r| == |providers| - 1
    ensures forall i :: 0 <= i < index ==> r[i] == providers[i]
    ensures forall i :: index <= i < |r| ==> r[i] == providers[i + 1]
  {
    providers[..index] + providers[index + 1..]
  }

  predicate HasProvider(providers: seq<ProviderEntry>, id: string)
  {
    exists p :: p in providers && p.id == id
  }

  /** The settings updater for a removed provider: an index past the end changes nothing;
      otherwise the entry goes, and its plugin instance goes too unless another provider
      still has that id. */
  function RemoveProvider(current: Settings, index: nat): (r: Settings)
    ensures index >= |ProvidersOf(current)| ==> r == current
    ensures index < |ProvidersOf(current)| ==>
      var providers := ProvidersOf(current);
      var removed := providers[index];
      && r.inference == Some(InferenceSection(Some(RemoveAt(providers, index))))
      && (HasProvider(RemoveAt(providers, index), removed.id) ==> r.plugins == current.plugins)
      && (!HasProvider(RemoveAt(providers, index), removed.id) ==> r.plugins == Some(RemovePlugin(current.plugins, removed.id)))
  {
    var providers := ProvidersOf(current);
    if index >= |providers| then current
    else
      var removed := providers[index];
      var next := RemoveAt(providers, index);
      var nextPlugins := if HasProvider(next, removed.id) then current.plugins else Some(RemovePlugin(current.plugins, removed.id));
      Settings(nextPlugins, Some(InferenceSection(Some(next))))
  }

  /** Removing a provider leaves no plugin instance named by its id unless a provider with that
      id remains, and leaves every other instance in place. */
  lemma RemoveProviderPlugins(current: Settings, index: nat)
    requires index < |ProvidersOf(current)|
    ensures var id := ProvidersOf(current)[index].id;
      var r := RemoveProvider(current, index);
      && (forall p :: p in r.plugins.GetOr([]) && p.instanceId == id ==> HasProvider(ProvidersOf(r), id))
      && (forall p :: p in current.plugins.GetOr([]) && p.instanceId != id ==> p in r.plugins.GetOr([]))
  {
  }

  /** The settings updater for a removed plugin: the instance goes by id; providers stay. */
  function RemovePluginInstance(current: Settings, instanceId: string): (r: Settings)
    ensures r.inference == current.inference
    ensures forall p :: p in r.plugins.GetOr([]) <==> p in current.plugins.GetOr([]) && p.instanceId != instanceId
  {
    current.(plugins := Some(RemovePlugin(current.plugins, instanceId)))
  }

  /** What the `remove` command does with the selected choice. */
  datatype Removal = Updated(settings: Settings) | UnknownProvider | UnknownPlugin | NoChange

  /** The command after the prompt: a decoded provider index must name a listed provider and a
      plugin id a listed instance; the settings are then updated as above. */
  function ApplySelection(current: Settings, selection: string): (r: Removal)
  {
    match Decode(selection)
    case ProviderAt(index) =>
      if index.Some? && index.value < |ProvidersOf(current)| then Updated(RemoveProvider(current, index.value)) else UnknownProvider
    case PluginNamed(id) =>
      if exists p :: p in current.plugins.GetOr([]) && p.instanceId == id then Updated(RemovePluginInstance(current, id)) else UnknownPlugin
    case NoSelection => NoChange
  }

  /** Every offered choice is understood: it removes exactly the provider or the instance it was
      built from. */
  lemma ChoicesSelectTheirEntry(current: Settings, k: nat)
    requires k < |Choices(current)|
    ensures var n := |ProvidersOf(current)|;
      && (k < n ==> ApplySelection(current, Choices(current)[k]) == Updated(RemoveProvider(current, k)))
      && (k >= n ==> ApplySelection(current, Choices(current)[k]) == Updated(RemovePluginInstance(current, current.plugins.GetOr([])[k - n].instanceId)))
  {
    var n := |ProvidersOf(current)|;
    if k < n {
      ProviderSelection(current, k, Choices(current)[k]);
    } else {
      var p := current.plugins.GetOr([])[k - n];
      PluginSelection(current, p, Choices(current)[k]);
    }
  }

  /** Selecting a provider's choice removes that provider. */
  lemma ProviderSelection(current: Settings, k: nat, choice: string)
    requires k < |ProvidersOf(current)| && choice == ProviderChoice(k)
    ensures ApplySelection(current, choice) == Updated(RemoveProvider(current, k))
  {
    ProviderChoiceRoundTrip(k);
  }

  /** Selecting an instance's choice removes that instance. */
  lemma PluginSelection(current: Settings, p: GramPlugins.InstanceSettings, choice: string)
    requires p in current.plugins.GetOr([]) && choice == PluginChoice(p.instanceId)
    ensures ApplySelection(current, choice) == Updated(RemovePluginInstance(current, p.instanceId))
  {
    PluginChoiceRoundTrip(p.instanceId);
  }
}
