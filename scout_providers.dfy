// The older runtime's two inference-provider plugins backed by the pi-ai library, OpenAI
// Codex and Anthropic. They are the same code under two names: the API key comes from the
// secrets store and is checked before anything else, the model id is chosen over the
// library's models in the library's order, and every call of the client sends that key
// unless the call brings its own.
//
// What the library knows is a parameter, as in `PiAiProviders`: the provider's model ids
// (`getModels`) and the ids `getModel` finds.

module ScoutProviders {
  import opened Wrappers
  import Json
  import ProviderClients
  import Capabilities
  import PluginRegistrars
  import JsMap

  datatype Provider = OpenAiCodex | Anthropic
  {
    /** The plugin id, which is also the provider id, the secrets-store scope and the
        library's provider name. */
    function Id(): string
    {
      match this
      case OpenAiCodex => "openai-codex"
      case Anthropic => "anthropic"
    }

    function Title(): string
    {
      match this
      case OpenAiCodex => "OpenAI Codex"
      case Anthropic => "Anthropic Claude"
    }
  }

  /** The two providers are registered under different ids. */
  lemma IdsDiffer()
    ensures OpenAiCodex.Id() != Anthropic.Id()
  {
    assert OpenAiCodex.Id()[0] != Anthropic.Id()[0];
  }

  /** The client `createClient` returns: the model it talks to and the key from the secrets store. */
  datatype Client = Client(modelId: string, apiKey: string)

  function MissingSecret(p: Provider): Thrown
  {
    Error("Missing " + p.Id() + " apiKey in secrets store")
  }

  function UnknownModel(p: Provider, modelId: string): Thrown
  {
    Error("Unknown " + p.Id() + " model: " + modelId)
  }

  /** `createClient`, given the stored secret, the library's model ids in its order, the ids
      `getModel` knows and the call's preferred model. */
  function CreateClient(p: Provider, secret: Option<string>, ids: seq<string>, known: set<string>, preferred: Option<string>): (r: Result<Client>)
    ensures !ProviderClients.TruthyKey(secret) ==> r == Err(MissingSecret(p))
    ensures ProviderClients.TruthyKey(secret) && ids == [] ==> r == Err(Error("No models available for provider " + p.Id()))
    ensures r.Ok? ==> ProviderClients.TruthyKey(secret) && r.value.apiKey == secret.value
    ensures r.Ok? ==> r.value.modelId in ids && r.value.modelId in known
    ensures r.Ok? <==>
      (&& ProviderClients.TruthyKey(secret) && ids != []
       && ProviderClients.ResolveModelId(p.Id(), ids, preferred).value in known)
    ensures ProviderClients.TruthyKey(secret) && ProviderClients.PreferredListed(ids, preferred) ==>
      r == (if preferred.value in known then Ok(Client(preferred.value, secret.value)) else Err(UnknownModel(p, preferred.value)))
  {
    if !ProviderClients.TruthyKey(secret) then Err(MissingSecret(p))
    else
      match ProviderClients.ResolveModelId(p.Id(), ids, preferred)
      case Err(e) => Err(e)
      case Ok(modelId) =>
        if modelId !in known then Err(UnknownModel(p, modelId)) else Ok(Client(modelId, secret.value))
  }

  /** The secret is checked first: without it the call fails the same way whatever the library
      offers and whatever model is asked for. */
  lemma SecretCheckedFirst(p: Provider, ids1: seq<string>, known1: set<string>, preferred1: Option<string>,
                           ids2: seq<string>, known2: set<string>, preferred2: Option<string>)
    ensures CreateClient(p, None, ids1, known1, preferred1) == CreateClient(p, Some(""), ids2, known2, preferred2)
  {
  }

  /** The options of one client call: the configured options overridden by the call's, and
      `apiKey` always set, to the call's own key if it has one, else to the stored secret. */
  function CallOptions(secret: string, config: Option<ProviderClients.Options>, runtime: Option<ProviderClients.Options>): (r: ProviderClients.Options)
    ensures "apiKey" in r
    ensures r["apiKey"] == Json.Str(secret) <==>
      ("apiKey" !in ProviderClients.OrEmpty(runtime) || ProviderClients.OrEmpty(runtime)["apiKey"] in {Json.Null, Json.Str(secret)})
    ensures forall k :: k != "apiKey" ==> (k in r <==> k in ProviderClients.OrEmpty(config) || k in ProviderClients.OrEmpty(runtime))
  {
    (ProviderClients.OrEmpty(config) + ProviderClients.OrEmpty(runtime))["apiKey" := ProviderClients.RuntimeApiKey(runtime).GetOr(Json.Str(secret))]
  }

  /** The older option merge agrees with the newer runtime's `buildOptions` whenever there is a
      key, which `createClient` guarantees. */
  lemma CallOptionsAgreeWithBuildOptions(secret: string, config: Option<ProviderClients.Options>, runtime: Option<ProviderClients.Options>)
    requires secret != ""
    ensures CallOptions(secret, config, runtime) == ProviderClients.BuildOptions(Some(secret), config, runtime)
  {
    var a := CallOptions(secret, config, runtime);
    var b := ProviderClients.BuildOptions(Some(secret), config, runtime);
    assert a.Keys == b.Keys;
  }

  /** `load` registers the provider under its id and title. */
  method Load(registrar: PluginRegistrars.PluginRegistrar, p: Provider)
    requires registrar.Valid()
    modifies registrar`providerIds, registrar.inference
    ensures registrar.Valid()
    ensures registrar.inference.entries
      == old(registrar.inference.entries).Set(p.Id(), Capabilities.Owned(registrar.pluginId, Capabilities.InferenceProvider(p.Id(), p.Title())))
    ensures registrar.providerIds == JsMap.SetAdd(old(registrar.providerIds), p.Id())
  {
    registrar.RegisterInferenceProvider(Capabilities.InferenceProvider(p.Id(), p.Title()));
  }

  /** `unload` unregisters that same id. */
  method Unload(registrar: PluginRegistrars.PluginRegistrar, p: Provider)
    requires registrar.Valid()
    modifies registrar`providerIds, registrar.inference
    ensures registrar.Valid()
    ensures registrar.inference.entries == old(registrar.inference.entries).Delete(p.Id())
    ensures registrar.providerIds == JsMap.SetDelete(old(registrar.providerIds), p.Id())
  {
    registrar.UnregisterInferenceProvider(p.Id());
  }
}
