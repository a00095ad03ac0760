// The newer runtime's plugins for providers served by the pi-ai library, in their two
// versions. The per-provider plugin checks that it is instantiated as its own plugin,
// registers itself under the provider's id, and picks the default model from the model list
// sorted by `ModelRanking`. The instance-keyed plugin registers under the instance's id and
// keeps the library's model order.
//
// What the library knows is a parameter: the provider's models (`getModels`), the ids
// `getModel` finds, the provider's auth-store entry and the result of refreshing OAuth
// credentials.

module PiAiProviders {
  import opened Wrappers
  import Json
  import ModelRanking
  import ProviderClients
  import GramRegistrar

  /** `PiAiProviderConfig` (and, without the flag, the older `PiAiProviderSpec`). */
  datatype ProviderConfig = ProviderConfig(id: string, title: string, auth: ProviderClients.AuthMode, optionalApiKey: bool)

  /** What pi-ai offers for a provider: its models, and the ids `getModel` resolves. */
  datatype Library = Library(models: seq<ModelInfo>, known: set<string>)

  type ModelInfo = ModelRanking.ModelInfo

  /** The client `createClient` returns: the model it talks to and the key its calls use. */
  datatype ClientSetup = ClientSetup(modelId: string, apiKey: Option<string>)

  /** The client (or the error thrown), and the OAuth credentials written back on the way. */
  datatype ClientOutcome = ClientOutcome(client: Result<ClientSetup>, savedCredentials: Option<Json.Value>)

  function Ids(models: seq<ModelInfo>): (r: seq<string>)
    ensures |r| == |models|
    ensures forall i :: 0 <= i < |models| ==> r[i] == models[i].id
  {
    if models == [] then [] else [models[0].id] + Ids(models[1..])
  }

  /** The steps after the model id is chosen, shared by both versions: `getModel` must know
      the id, and only then is the key resolved. */
  function ClientFor(providerId: string, resolved: Result<string>, known: set<string>, key: ProviderClients.KeyResolution): (r: ClientOutcome)
    ensures resolved.Err? ==> r == ClientOutcome(Err(resolved.error), None)
    ensures resolved.Ok? && resolved.value !in known ==> r == ClientOutcome(Err(Error("Unknown " + providerId + " model: " + resolved.value)), None)
    ensures resolved.Ok? && resolved.value in known ==>
      (&& r.savedCredentials == key.savedCredentials
       && (key.key.Err? ==> r.client == Err(key.key.error))
       && (key.key.Ok? ==> r.client == Ok(ClientSetup(resolved.value, key.key.value))))
  {
    match resolved
    case Err(e) => ClientOutcome(Err(e), None)
    case Ok(modelId) =>
      if modelId !in known then ClientOutcome(Err(Error("Unknown " + providerId + " model: " + modelId)), None)
      else
        match key.key
        case Err(e) => ClientOutcome(Err(e), key.savedCredentials)
        case Ok(apiKey) => ClientOutcome(Ok(ClientSetup(modelId, apiKey)), key.savedCredentials)
  }

  // ---------------------------------------------------------------- per-provider plugin

  /** `create`: the instance must be of the plugin configured for this provider. */
  function CheckInstance(config: ProviderConfig, pluginId: string): (r: Outcome)
    ensures r == Done <==> pluginId == config.id
    ensures r.Failed? ==> r.error == Error("Provider plugin mismatch: expected " + config.id + ", got " + pluginId)
  {
    if pluginId != config.id then Failed(Error("Provider plugin mismatch: expected " + config.id + ", got " + pluginId)) else Done
  }

  /** `createClient`: the model id is resolved over the sorted models, `getModel` must know
      it, and then the API key is resolved (with the provider's optional-key flag). */
  function CreateClient(config: ProviderConfig, library: Library, preferred: Option<string>,
                        entry: Option<ProviderClients.AuthEntry>, grant: Result<Option<ProviderClients.OAuthGrant>>): (r: ClientOutcome)
    ensures library.models == [] ==> r == ClientOutcome(Err(Error("No models available for provider " + config.id)), None)
    ensures r.client.Ok? ==> r.client.value.modelId in library.known && r.client.value.modelId in Ids(library.models)
    ensures r.savedCredentials.Some? ==> r.client.Ok?
    ensures r.client.Ok? && ProviderClients.PreferredListed(Ids(library.models), preferred) ==> r.client.value.modelId == preferred.value
    ensures r.client.Ok? ==>
      var key := ProviderClients.ResolveApiKey(config.id, config.auth, config.optionalApiKey, entry, grant).key;
      key.Ok? && r.client.value.apiKey == key.value
  {
    ClientFor(config.id, ProviderClients.ResolveModelId(config.id, SortedIds(library.models), preferred), library.known,
              ProviderClients.ResolveApiKey(config.id, config.auth, config.optionalApiKey, entry, grant))
  }

  /** The ids of `getSortedModels`: the same ids, ranked. */
  function SortedIds(models: seq<ModelInfo>): (r: seq<string>)
    ensures |r| == |models|
    ensures forall id :: id in r <==> id in Ids(models)
  {
    var sorted := ModelRanking.SortModels(models);
    PermutedIds(models, sorted);
    assert |sorted| == |models| by { assert |multiset(sorted)| == |multiset(models)|; }
    Ids(sorted)
  }

  /** Sorting keeps the set of ids. */
  lemma PermutedIds(models: seq<ModelInfo>, sorted: seq<ModelInfo>)
    requires multiset(sorted) == multiset(models)
    ensures forall id :: id in Ids(sorted) <==> id in Ids(models)
  {
    forall id | id in Ids(sorted)
      ensures id in Ids(models)
    {
      var k :| 0 <= k < |sorted| && Ids(sorted)[k] == id;
      assert sorted[k] in multiset(models);
      var j :| 0 <= j < |models| && models[j] == sorted[k];
      assert Ids(models)[j] == id;
    }
    forall id | id in Ids(models)
      ensures id in Ids(sorted)
    {
      var k :| 0 <= k < |models| && Ids(models)[k] == id;
      assert models[k] in multiset(sorted);
      var j :| 0 <= j < |sorted| && sorted[j] == models[k];
      assert Ids(sorted)[j] == id;
    }
  }

  /** Without a listed preference and without a "latest" model, the default model is the
      first of the sorted list: a model that no other model ranks ahead of. In particular it
      reasons whenever any of the provider's models does. */
  lemma DefaultModelIsBest(config: ProviderConfig, library: Library, preferred: Option<string>,
                           entry: Option<ProviderClients.AuthEntry>, grant: Result<Option<ProviderClients.OAuthGrant>>)
    requires !ProviderClients.PreferredListed(Ids(library.models), preferred)
    requires forall m :: m in library.models ==> !ProviderClients.MentionsLatest(m.id)
    requires CreateClient(config, library, preferred, entry, grant).client.Ok?
    ensures exists best :: (&& best in library.models
                            && best.id == CreateClient(config, library, preferred, entry, grant).client.value.modelId
                            && (forall m :: m in library.models ==> ModelRanking.Precedes(best, m))
                            && ((exists m :: m in library.models && m.reasoning) ==> best.reasoning))
  {
    DefaultIsFirstSorted(config, library, preferred, entry, grant);
    ModelRanking.SortedFirstIsBest(library.models);
    var best := ModelRanking.SortModels(library.models)[0];
    if m :| m in library.models && m.reasoning {
      if !best.reasoning {
        ModelRanking.ReasoningFirst(m, best);
      }
    }
  }

  /** Under the same conditions the chosen id is the id of the first sorted model. */
  lemma DefaultIsFirstSorted(config: ProviderConfig, library: Library, preferred: Option<string>,
                             entry: Option<ProviderClients.AuthEntry>, grant: Result<Option<ProviderClients.OAuthGrant>>)
    requires !ProviderClients.PreferredListed(Ids(library.models), preferred)
    requires forall m :: m in library.models ==> !ProviderClients.MentionsLatest(m.id)
    requires CreateClient(config, library, preferred, entry, grant).client.Ok?
    ensures ModelRanking.SortModels(library.models) != []
    ensures CreateClient(config, library, preferred, entry, grant).client.value.modelId == ModelRanking.SortModels(library.models)[0].id
  {
    var ids := SortedIds(library.models);
    SortedIdsAreSortedModels(library.models);
    NoLatestAmongSortedIds(library.models);
    assert !ProviderClients.PreferredListed(ids, preferred);
    assert ProviderClients.ResolveModelId(config.id, ids, preferred) == Ok(ids[0]);
  }

  /** Sorting brings no "latest" id in. */
  lemma NoLatestAmongSortedIds(models: seq<ModelInfo>)
    requires forall m :: m in models ==> !ProviderClients.MentionsLatest(m.id)
    ensures forall i :: 0 <= i < |SortedIds(models)| ==> !ProviderClients.MentionsLatest(SortedIds(models)[i])
  {
    var ids := SortedIds(models);
    forall i | 0 <= i < |ids|
      ensures !ProviderClients.MentionsLatest(ids[i])
    {
      assert ids[i] in Ids(models);
      var k :| 0 <= k < |models| && Ids(models)[k] == ids[i];
      assert models[k] in models;
    }
  }

  lemma SortedIdsAreSortedModels(models: seq<ModelInfo>)
    ensures SortedIds(models) == Ids(ModelRanking.SortModels(models))
  {
  }

  /** `load` registers the provider under the configured provider id. */
  method Load(registrar: GramRegistrar.Registrar, config: ProviderConfig)
    modifies registrar
    ensures registrar.providers == old(registrar.providers)[config.id := config.title]
    ensures registrar.tools == old(registrar.tools)
  {
    registrar.RegisterInferenceProvider(config.id, config.title);
  }

  /** `unload` unregisters that same id. */
  method Unload(registrar: GramRegistrar.Registrar, config: ProviderConfig)
    modifies registrar
    ensures registrar.providers == old(registrar.providers) - {config.id}
    ensures registrar.tools == old(registrar.tools)
  {
    registrar.UnregisterInferenceProvider(config.id);
  }

  // ---------------------------------------------------------------- instance-keyed plugin

  /** `createClient` of the instance-keyed plugin: the model id is resolved over the models in
      the library's order, and a missing key in API-key mode always throws. */
  function CreateInstanceClient(spec: ProviderConfig, library: Library, preferred: Option<string>,
                                entry: Option<ProviderClients.AuthEntry>, grant: Result<Option<ProviderClients.OAuthGrant>>): (r: ClientOutcome)
    ensures library.models == [] ==> r == ClientOutcome(Err(Error("No models available for provider " + spec.id)), None)
    ensures r.client.Ok? ==> r.client.value.modelId in library.known && r.client.value.modelId in Ids(library.models)
    ensures r.client.Ok? && spec.auth == ProviderClients.ApiKeyAuth ==> ProviderClients.TruthyKey(r.client.value.apiKey)
    ensures (&& r.client.Ok? && !ProviderClients.PreferredListed(Ids(library.models), preferred)
             && (forall m :: m in library.models ==> !ProviderClients.MentionsLatest(m.id))) ==>
      r.client.value.modelId == library.models[0].id
  {
    ClientFor(spec.id, ProviderClients.ResolveModelId(spec.id, Ids(library.models), preferred), library.known,
              ProviderClients.ResolveApiKey(spec.id, spec.auth, false, entry, grant))
  }

  /** `load` of the instance-keyed plugin registers under the instance id, with the spec's
      label; the spec's id only selects the library's provider. */
  method LoadInstance(registrar: GramRegistrar.Registrar, instanceId: string, spec: ProviderConfig)
    modifies registrar
    ensures registrar.providers == old(registrar.providers)[instanceId := spec.title]
    ensures registrar.tools == old(registrar.tools)
  {
    registrar.RegisterInferenceProvider(instanceId, spec.title);
  }

  method UnloadInstance(registrar: GramRegistrar.Registrar, instanceId: string)
    modifies registrar
    ensures registrar.providers == old(registrar.providers) - {instanceId}
    ensures registrar.tools == old(registrar.tools)
  {
    registrar.UnregisterInferenceProvider(instanceId);
  }

  /** Two instances of one pi-ai provider coexist: each is registered under its own id, and
      unloading one leaves exactly the other. */
  method TwoInstances(spec: ProviderConfig, kept: string, dropped: string) returns (registrar: GramRegistrar.Registrar)
    requires kept != dropped
    ensures registrar.providers == map[kept := spec.title]
  {
    registrar := new GramRegistrar.Registrar();
    LoadInstance(registrar, kept, spec);
    LoadInstance(registrar, dropped, spec);
    assert registrar.providers == map[kept := spec.title, dropped := spec.title];
    UnloadInstance(registrar, dropped);
    assert registrar.providers == map[kept := spec.title, dropped := spec.title] - {dropped};
  }
}
