// The per-plugin registrar: a plugin registers its connectors, inference providers, image
// providers and tools through it. Each registration is forwarded to the shared registry and
// its id remembered in one of four per-kind sets, so that unloading the plugin can remove
// exactly what it registered.

module PluginRegistrars {
  import opened Wrappers
  import JsMap
  import opened Connectors
  import opened Capabilities

  /** The reason the registrar passes to a connector's `shutdown`. */
  const PluginUnload := "plugin-unload"

  class PluginRegistrar {
    const pluginId: string
    const connectorRegistry: ConnectorRegistry
    const inference: Registry<InferenceProvider>
    const images: Registry<ImageProvider>
    const tools: Registry<ToolDefinition>
    var connectorIds: seq<string>
    var providerIds: seq<string>
    var imageIds: seq<string>
    var toolNames: seq<string>

    ghost predicate Valid()
      reads this, connectorRegistry, inference, images, tools
    {
      && connectorRegistry.Valid() && inference.Valid() && images.Valid() && tools.Valid()
      && inference.keyOf == InferenceKey && images.keyOf == ImageKey && tools.keyOf == ToolKey
      && JsMap.Distinct(connectorIds) && JsMap.Distinct(providerIds)
      && JsMap.Distinct(imageIds) && JsMap.Distinct(toolNames)
    }

    constructor (pluginId: string, connectorRegistry: ConnectorRegistry, inference: Registry<InferenceProvider>,
                 images: Registry<ImageProvider>, tools: Registry<ToolDefinition>)
      requires connectorRegistry.Valid() && inference.Valid() && images.Valid() && tools.Valid()
      requires inference.keyOf == InferenceKey && images.keyOf == ImageKey && tools.keyOf == ToolKey
      ensures Valid()
      ensures this.pluginId == pluginId && this.connectorRegistry == connectorRegistry
      ensures this.inference == inference && this.images == images && this.tools == tools
      ensures connectorIds == [] && providerIds == [] && imageIds == [] && toolNames == []
    {
      this.pluginId := pluginId;
      this.connectorRegistry := connectorRegistry;
      this.inference := inference;
      this.images := images;
      this.tools := tools;
      connectorIds := [];
      providerIds := [];
      imageIds := [];
      toolNames := [];
    }

    /** `registerConnector`: forwards to the connector registry and tracks the id, even when
        the registry already held that id for someone else. */
    method RegisterConnector(id: string, connector: Connector)
      requires Valid()
      modifies this`connectorIds, connectorRegistry
      ensures Valid()
      ensures old(connectorRegistry.Has(id)) ==> unchanged(connectorRegistry)
      ensures !old(connectorRegistry.Has(id)) ==>
        && connectorRegistry.connectors == old(connectorRegistry.connectors).Set(id, connector)
        && connectorRegistry.subscriptions == old(connectorRegistry.subscriptions) + multiset{id}
        && connectorRegistry.shutdowns == old(connectorRegistry.shutdowns)
        && connectorRegistry.delivered == old(connectorRegistry.delivered)
      ensures connectorIds == JsMap.SetAdd(old(connectorIds), id)
    {
      var _ := connectorRegistry.Register(id, connector);
      connectorIds := JsMap.SetAdd(connectorIds, id);
    }

    /** `unregisterConnector`: unregisters the id (whoever registered it) with the reason
        "plugin-unload", so its handler is detached and its `shutdown`, if any, is called with
        that reason; then stops tracking the id. */
    method UnregisterConnector(id: string)
      requires Valid()
      modifies this`connectorIds, connectorRegistry
      ensures Valid()
      ensures old(connectorRegistry.Has(id)) ==>
        && connectorRegistry.connectors == old(connectorRegistry.connectors).Delete(id)
        && connectorRegistry.subscriptions == old(connectorRegistry.subscriptions) - multiset{id}
        && (CallsShutdown(id, old(connectorRegistry.connectors.entries)) ==>
              connectorRegistry.shutdowns == old(connectorRegistry.shutdowns) + [(id, PluginUnload)])
        && (!CallsShutdown(id, old(connectorRegistry.connectors.entries)) ==>
              connectorRegistry.shutdowns == old(connectorRegistry.shutdowns))
        && connectorRegistry.delivered == old(connectorRegistry.delivered)
      ensures !old(connectorRegistry.Has(id)) ==> unchanged(connectorRegistry)
      ensures connectorIds == JsMap.SetDelete(old(connectorIds), id)
    {
      var _ := connectorRegistry.Unregister(id, PluginUnload);
      connectorIds := JsMap.SetDelete(connectorIds, id);
    }

    /** `registerInferenceProvider`: stored under its id, tagged with this plugin. */
    method RegisterInferenceProvider(provider: InferenceProvider)
      requires Valid()
      modifies this`providerIds, inference
      ensures Valid()
      ensures inference.entries == old(inference.entries).Set(provider.id, Owned(pluginId, provider))
      ensures providerIds == JsMap.SetAdd(old(providerIds), provider.id)
    {
      inference.Register(pluginId, provider);
      providerIds := JsMap.SetAdd(providerIds, provider.id);
    }

    method UnregisterInferenceProvider(id: string)
      requires Valid()
      modifies this`providerIds, inference
      ensures Valid()
      ensures inference.entries == old(inference.entries).Delete(id)
      ensures providerIds == JsMap.SetDelete(old(providerIds), id)
    {
      inference.Unregister(id);
      providerIds := JsMap.SetDelete(providerIds, id);
    }

    /** `registerTool`: stored under the tool's name, tagged with this plugin. */
    method RegisterTool(definition: ToolDefinition)
      requires Valid()
      modifies this`toolNames, tools
      ensures Valid()
      ensures tools.entries == old(tools.entries).Set(definition.tool.name, Owned(pluginId, definition))
      ensures toolNames == JsMap.SetAdd(old(toolNames), definition.tool.name)
    {
      tools.Register(pluginId, definition);
      toolNames := JsMap.SetAdd(toolNames, definition.tool.name);
    }

    method UnregisterTool(name: string)
      requires Valid()
      modifies this`toolNames, tools
      ensures Valid()
      ensures tools.entries == old(tools.entries).Delete(name)
      ensures toolNames == JsMap.SetDelete(old(toolNames), name)
    {
      tools.Unregister(name);
      toolNames := JsMap.SetDelete(toolNames, name);
    }

    /** `registerImageProvider`: stored under its id, tagged with this plugin. */
    method RegisterImageProvider(provider: ImageProvider)
      requires Valid()
      modifies this`imageIds, images
      ensures Valid()
      ensures images.entries == old(images.entries).Set(provider.id, Owned(pluginId, provider))
      ensures imageIds == JsMap.SetAdd(old(imageIds), provider.id)
    {
      images.Register(pluginId, provider);
      imageIds := JsMap.SetAdd(imageIds, provider.id);
    }

    method UnregisterImageProvider(id: string)
      requires Valid()
      modifies this`imageIds, images
      ensures Valid()
      ensures images.entries == old(images.entries).Delete(id)
      ensures imageIds == JsMap.SetDelete(old(imageIds), id)
    {
      images.Unregister(id);
      imageIds := JsMap.SetDelete(imageIds, id);
    }

    /** `unregisterAll`: removes every tracked id from its registry, in tracking order, then
        empties the four sets. No other entry of any registry is touched. */
    method UnregisterAll()
      requires Valid()
      modifies this`connectorIds, this`providerIds, this`imageIds, this`toolNames
      modifies connectorRegistry, inference, images, tools
      ensures Valid()
      ensures connectorIds == [] && providerIds == [] && imageIds == [] && toolNames == []
      ensures connectorRegistry.connectors.keys == JsMap.Except(old(connectorRegistry.connectors.keys), JsMap.Elements(old(connectorIds)))
      ensures connectorRegistry.connectors.entries == old(connectorRegistry.connectors.entries) - JsMap.Elements(old(connectorIds))
      ensures connectorRegistry.shutdowns
           == ShutdownLog(old(connectorRegistry.shutdowns), old(connectorIds), old(connectorRegistry.connectors.entries), PluginUnload)
      ensures inference.entries.keys == JsMap.Except(old(inference.entries.keys), JsMap.Elements(old(providerIds)))
      ensures inference.entries.entries == old(inference.entries.entries) - JsMap.Elements(old(providerIds))
      ensures images.entries.keys == JsMap.Except(old(images.entries.keys), JsMap.Elements(old(imageIds)))
      ensures images.entries.entries == old(images.entries.entries) - JsMap.Elements(old(imageIds))
      ensures tools.entries.keys == JsMap.Except(old(tools.entries.keys), JsMap.Elements(old(toolNames)))
      ensures tools.entries.entries == old(tools.entries.entries) - JsMap.Elements(old(toolNames))
    {
      UnregisterConnectors(connectorRegistry, connectorIds, PluginUnload);
      UnregisterEach(inference, providerIds);
      UnregisterEach(images, imageIds);
      UnregisterEach(tools, toolNames);
      connectorIds := [];
      providerIds := [];
      imageIds := [];
      toolNames := [];
    }
  }

  /** The registrar's first loop: unregisters each tracked connector id in turn. */
  method UnregisterConnectors(registry: ConnectorRegistry, ids: seq<string>, reason: string)
    requires registry.Valid()
    modifies registry
    ensures registry.Valid()
    ensures registry.connectors.keys == JsMap.Except(old(registry.connectors.keys), JsMap.Elements(ids))
    ensures registry.connectors.entries == old(registry.connectors.entries) - JsMap.Elements(ids)
    ensures registry.shutdowns == ShutdownLog(old(registry.shutdowns), ids, old(registry.connectors.entries), reason)
    ensures registry.delivered == old(registry.delivered)
  {
    ghost var keys := registry.connectors.keys;
    ghost var before := registry.connectors.entries;
    ghost var log := ShutdownLog(registry.shutdowns, ids, before, reason);
    ghost var delivered := registry.delivered;
    ghost var gone: set<string> := {};
    JsMap.ExceptNothing(keys);
    var i := 0;
    while i < |ids|
      invariant 0 <= i <= |ids|
      invariant gone == JsMap.Elements(ids[..i])
      invariant registry.Valid()
      invariant registry.connectors.keys == JsMap.Except(keys, gone)
      invariant registry.connectors.entries == before - gone
      invariant ShutdownLog(registry.shutdowns, ids[i..], registry.connectors.entries, reason) == log
      invariant registry.delivered == delivered
    {
      UnregisterTracked(registry, ids, i, keys, before, gone, reason);
      ElementsStep(ids, i);
      gone := gone + {ids[i]};
      i := i + 1;
    }
    assert ids[..|ids|] == ids && ids[i..] == [];
  }

  /** The ids handled after one more round. */
  lemma ElementsStep(ids: seq<string>, i: nat)
    requires i < |ids|
    ensures JsMap.Elements(ids[..i + 1]) == JsMap.Elements(ids[..i]) + {ids[i]}
  {
    assert ids[..i + 1] == ids[..i] + [ids[i]];
  }

  /** One round of that loop: the next tracked id joins the removed ones. */
  method UnregisterTracked(registry: ConnectorRegistry, ids: seq<string>, i: nat, ghost keys: seq<string>,
                           ghost before: map<string, Connector>, ghost gone: set<string>, reason: string)
    requires i < |ids|
    requires registry.Valid()
    requires registry.connectors.keys == JsMap.Except(keys, gone)
    requires registry.connectors.entries == before - gone
    modifies registry
    ensures registry.Valid()
    ensures registry.connectors.keys == JsMap.Except(keys, gone + {ids[i]})
    ensures registry.connectors.entries == before - (gone + {ids[i]})
    ensures ShutdownLog(registry.shutdowns, ids[i + 1..], registry.connectors.entries, reason)
         == ShutdownLog(old(registry.shutdowns), ids[i..], old(registry.connectors.entries), reason)
    ensures registry.delivered == old(registry.delivered)
  {
    ShutdownLogNext(registry.shutdowns, ids, i, registry.connectors.entries, reason);
    JsMap.WithoutExcept(keys, gone, ids[i]);
    JsMap.MinusOneMore(before, gone, ids[i]);
    if !registry.Has(ids[i]) {
      JsMap.WithoutAbsent(registry.connectors.keys, ids[i]);
      assert registry.connectors.entries - {ids[i]} == registry.connectors.entries;
    }
    var _ := registry.Unregister(ids[i], reason);
  }

  /** One of the registrar's other loops: unregisters each tracked key of one registry. */
  method UnregisterEach<T>(registry: Registry<T>, ids: seq<string>)
    requires registry.Valid()
    modifies registry
    ensures registry.Valid()
    ensures registry.entries.keys == JsMap.Except(old(registry.entries.keys), JsMap.Elements(ids))
    ensures registry.entries.entries == old(registry.entries.entries) - JsMap.Elements(ids)
  {
    ghost var keys := registry.entries.keys;
    ghost var before := registry.entries.entries;
    ghost var gone: set<string> := {};
    JsMap.ExceptNothing(keys);
    var i := 0;
    while i < |ids|
      invariant 0 <= i <= |ids|
      invariant gone == JsMap.Elements(ids[..i])
      invariant registry.Valid()
      invariant registry.entries.keys == JsMap.Except(keys, gone)
      invariant registry.entries.entries == before - gone
    {
      JsMap.WithoutExcept(keys, gone, ids[i]);
      JsMap.MinusOneMore(before, gone, ids[i]);
      registry.Unregister(ids[i]);
      ElementsStep(ids, i);
      gone := gone + {ids[i]};
      i := i + 1;
    }
    assert ids[..|ids|] == ids;
  }

  /** The shared registries a plugin's registrar forwards to. */
  class PluginRegistry {
    const connectorRegistry: ConnectorRegistry
    const inference: Registry<InferenceProvider>
    const images: Registry<ImageProvider>
    const tools: Registry<ToolDefinition>

    ghost predicate Valid()
      reads this, connectorRegistry, inference, images, tools
    {
      && connectorRegistry.Valid() && inference.Valid() && images.Valid() && tools.Valid()
      && inference.keyOf == InferenceKey && images.keyOf == ImageKey && tools.keyOf == ToolKey
    }

    constructor (connectorRegistry: ConnectorRegistry, inference: Registry<InferenceProvider>,
                 images: Registry<ImageProvider>, tools: Registry<ToolDefinition>)
      ensures this.connectorRegistry == connectorRegistry && this.inference == inference
      ensures this.images == images && this.tools == tools
    {
      this.connectorRegistry := connectorRegistry;
      this.inference := inference;
      this.images := images;
      this.tools := tools;
    }

    /** `createRegistrar`: a fresh registrar for the plugin, over these registries, tracking nothing. */
    method CreateRegistrar(pluginId: string) returns (r: PluginRegistrar)
      requires Valid()
      ensures fresh(r) && r.Valid() && r.pluginId == pluginId
      ensures r.connectorRegistry == connectorRegistry && r.inference == inference
      ensures r.images == images && r.tools == tools
      ensures r.connectorIds == [] && r.providerIds == [] && r.imageIds == [] && r.toolNames == []
    {
      r := new PluginRegistrar(pluginId, connectorRegistry, inference, images, tools);
    }
  }
}
