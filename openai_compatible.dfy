// The newer runtime's plugin for OpenAI-compatible endpoints, in its two versions: one
// registered under the instance's id, and one that must be instantiated as the
// "openai-compatible" plugin and registers under that id. Both build the model description
// from the instance's configuration, filling every field it leaves out with a fixed default;
// the second also infers the endpoint's API style during onboarding.

module OpenAiCompatible {
  import opened Wrappers
  import Json
  import JsBuiltins
  import ProviderClients
  import GramRegistrar

  const ProviderId := "openai-compatible"
  const ProviderTitle := "OpenAI-compatible"
  const CompletionsApi := "openai-completions"
  const ResponsesApi := "openai-responses"
  const DefaultContextWindow := 8192
  const DefaultMaxTokens := 2048

  datatype Cost = Cost(input: int, output: int, cacheRead: int, cacheWrite: int)

  /** `OpenAiCompatibleConfig`: every field may be missing. */
  datatype CompatConfig = CompatConfig(
    baseUrl: Option<string>, api: Option<string>, provider: Option<string>, modelId: Option<string>,
    name: Option<string>, reasoning: Option<bool>, input: Option<seq<string>>,
    contextWindow: Option<int>, maxTokens: Option<int>, cost: Option<Cost>,
    compat: Option<Json.Value>, headers: Option<map<string, string>>)

  /** The pi-ai model description the plugin builds. */
  datatype Model = Model(
    id: string, name: string, api: string, provider: string, baseUrl: string, reasoning: bool,
    input: seq<string>, cost: Cost, contextWindow: int, maxTokens: int,
    compat: Option<Json.Value>, headers: Option<map<string, string>>)

  /** The client: the model it talks to and the key from the auth store. */
  datatype Client = Client(model: Model, apiKey: Option<string>)

  predicate Truthy(s: Option<string>)
  {
    s.Some? && s.value != ""
  }

  const MissingBaseUrl := Error("Missing baseUrl for openai-compatible provider")
  const MissingModelId := Error("Missing model id for openai-compatible provider")

  /** `createClient` (the same in both versions): the base URL is checked before the model id,
      which is the call's model, else the configured one; the key is what the auth store holds
      for the registered id. */
  function CreateClient(config: Option<CompatConfig>, model: Option<string>, apiKey: Option<string>): (r: Result<Client>)
    ensures var c := config.GetOr(EmptyConfig);
      (&& (!Truthy(c.baseUrl) ==> r == Err(MissingBaseUrl))
       && (Truthy(c.baseUrl) && !Truthy(model.OrElse(c.modelId)) ==> r == Err(MissingModelId))
       && (r.Ok? <==> Truthy(c.baseUrl) && Truthy(model.OrElse(c.modelId))))
    ensures r.Ok? ==>
      var c := config.GetOr(EmptyConfig);
      var m := r.value.model;
      (&& m.id == model.OrElse(c.modelId).value && m.baseUrl == c.baseUrl.value
       && m.name == c.name.GetOr(m.id)
       && m.api == c.api.GetOr(CompletionsApi) && m.provider == c.provider.GetOr(ProviderId)
       && m.reasoning == c.reasoning.GetOr(false) && m.input == c.input.GetOr(["text"])
       && m.cost == c.cost.GetOr(Cost(0, 0, 0, 0))
       && m.contextWindow == c.contextWindow.GetOr(DefaultContextWindow) && m.maxTokens == c.maxTokens.GetOr(DefaultMaxTokens)
       && m.compat == c.compat && m.headers == c.headers
       && r.value.apiKey == apiKey)
  {
    var c := config.GetOr(EmptyConfig);
    var modelId := model.OrElse(c.modelId);
    if !Truthy(c.baseUrl) then Err(MissingBaseUrl)
    else if !Truthy(modelId) then Err(MissingModelId)
    else
      Ok(Client(Model(modelId.value, c.name.GetOr(modelId.value), c.api.GetOr(CompletionsApi), c.provider.GetOr(ProviderId),
                      c.baseUrl.value, c.reasoning.GetOr(false), c.input.GetOr(["text"]), c.cost.GetOr(Cost(0, 0, 0, 0)),
                      c.contextWindow.GetOr(DefaultContextWindow), c.maxTokens.GetOr(DefaultMaxTokens), c.compat, c.headers),
                apiKey))
  }

  /** `options.config ?? {}`. */
  const EmptyConfig := CompatConfig(None, None, None, None, None, None, None, None, None, None, None, None)

  /** With only a base URL and a model configured, the model takes every default. */
  lemma DefaultModel(baseUrl: string, modelId: string, apiKey: Option<string>)
    requires baseUrl != "" && modelId != ""
    ensures CreateClient(Some(EmptyConfig.(baseUrl := Some(baseUrl))), Some(modelId), apiKey)
      == Ok(Client(Model(modelId, modelId, "openai-completions", "openai-compatible", baseUrl, false, ["text"], Cost(0, 0, 0, 0),
                         8192, 2048, None, None), apiKey))
  {
  }

  /** An empty model id given by the call is not replaced by the configured one: `??` only
      skips a missing value, so the call fails. */
  lemma EmptyCallModelIsNotReplaced(config: CompatConfig, apiKey: Option<string>)
    requires Truthy(config.baseUrl)
    ensures CreateClient(Some(config), Some(""), apiKey) == Err(MissingModelId)
  {
  }

  /** `inferApi`: the Responses API exactly when the lower-cased base URL mentions it. */
  function InferApi(baseUrl: string): (r: string)
    ensures r == ResponsesApi <==> JsBuiltins.Contains(JsBuiltins.ToLower(baseUrl), "responses")
    ensures r == ResponsesApi || r == CompletionsApi
  {
    if JsBuiltins.Contains(JsBuiltins.ToLower(baseUrl), "responses") then ResponsesApi else CompletionsApi
  }

  /** `create` of the provider-keyed version. */
  function CheckInstance(pluginId: string): (r: Outcome)
    ensures r == Done <==> pluginId == ProviderId
    ensures r.Failed? ==> r.error == Error("Provider plugin mismatch: expected " + ProviderId + ", got " + pluginId)
  {
    if pluginId != ProviderId then Failed(Error("Provider plugin mismatch: expected " + ProviderId + ", got " + pluginId)) else Done
  }

  // ---------------------------------------------------------------- onboarding

  /** The inference entry onboarding proposes: provider id, default model and options. */
  datatype InferenceChoice = InferenceChoice(id: string, model: string, options: ProviderClients.Options)

  /** What onboarding does: its result (or the error thrown), the API key it stores, and the
      notes it shows. */
  datatype Onboarded = Onboarded(result: Result<Option<InferenceChoice>>, storedKey: Option<string>, notes: seq<string>)

  /** `onboarding`, given the answers to its three prompts (`None` for a cancelled prompt).
      A prompt after a cancelled or empty answer is never shown, so its answer is ignored. */
  function Onboarding(pluginId: string, baseUrl: Option<string>, modelId: Option<string>, apiKey: Option<string>): (r: Onboarded)
    ensures pluginId != ProviderId ==> r.result.Err? && r.storedKey.None?
    ensures pluginId == ProviderId ==> r.result.Ok?
    ensures r.result.Ok? && r.result.value.Some? <==>
      pluginId == ProviderId && Truthy(baseUrl) && Truthy(modelId) && apiKey.Some?
    ensures r.storedKey.Some? <==> r.result.Ok? && r.result.value.Some? && apiKey.value != ""
    ensures r.storedKey.Some? ==> r.storedKey == apiKey
    ensures r.result.Ok? && r.result.value.Some? ==>
      r.result.value.value == InferenceChoice(ProviderId, modelId.value,
        map["baseUrl" := Json.Str(baseUrl.value), "modelId" := Json.Str(modelId.value), "api" := Json.Str(InferApi(baseUrl.value))])
    ensures r.notes != [] <==> pluginId == ProviderId && (baseUrl == Some("") || (Truthy(baseUrl) && modelId == Some("")))
  {
    if pluginId != ProviderId then Onboarded(Err(Error("Provider plugin mismatch: expected " + ProviderId + ", got " + pluginId)), None, [])
    else if baseUrl.None? then Onboarded(Ok(None), None, [])
    else if baseUrl.value == "" then Onboarded(Ok(None), None, ["Base URL is required to continue."])
    else if modelId.None? then Onboarded(Ok(None), None, [])
    else if modelId.value == "" then Onboarded(Ok(None), None, ["Model is required to continue."])
    else if apiKey.None? then Onboarded(Ok(None), None, [])
    else
      Onboarded(Ok(Some(InferenceChoice(ProviderId, modelId.value,
                  map["baseUrl" := Json.Str(baseUrl.value), "modelId" := Json.Str(modelId.value), "api" := Json.Str(InferApi(baseUrl.value))]))),
                if apiKey.value != "" then apiKey else None, [])
  }

  // ---------------------------------------------------------------- registration

  /** `load` of the instance-keyed version: the provider is registered under the instance id,
      which is also its label. */
  method LoadInstance(registrar: GramRegistrar.Registrar, instanceId: string)
    modifies registrar
    ensures registrar.providers == old(registrar.providers)[instanceId := instanceId]
    ensures registrar.tools == old(registrar.tools)
  {
    registrar.RegisterInferenceProvider(instanceId, instanceId);
  }

  method UnloadInstance(registrar: GramRegistrar.Registrar, instanceId: string)
    modifies registrar
    ensures registrar.providers == old(registrar.providers) - {instanceId}
    ensures registrar.tools == old(registrar.tools)
  {
    registrar.UnregisterInferenceProvider(instanceId);
  }

  /** `load` of the provider-keyed version. */
  method Load(registrar: GramRegistrar.Registrar)
    modifies registrar
    ensures registrar.providers == old(registrar.providers)[ProviderId := ProviderTitle]
    ensures registrar.tools == old(registrar.tools)
  {
    registrar.RegisterInferenceProvider(ProviderId, ProviderTitle);
  }

  method Unload(registrar: GramRegistrar.Registrar)
    modifies registrar
    ensures registrar.providers == old(registrar.providers) - {ProviderId}
    ensures registrar.tools == old(registrar.tools)
  {
    registrar.UnregisterInferenceProvider(ProviderId);
  }
}
