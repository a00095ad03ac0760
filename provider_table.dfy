// The newer runtime's table of the inference providers it offers to set up: each one's id,
// label, how it authenticates, which plugin family serves it, and whether its API key may
// be left out.

module ProviderTable {
  import opened Wrappers
  import ProviderClients

  /** `ProviderKind`: served by the pi-ai library, or by the OpenAI-compatible plugin. */
  datatype Kind = PiAi | OpenAiCompatible

  /** `ProviderDefinition` (its `label` is `title` here); a missing `optionalApiKey` is `false`. */
  datatype Definition = Definition(id: string, title: string, auth: ProviderClients.AuthMode, kind: Kind, optionalApiKey: bool)

  /** `PROVIDER_DEFINITIONS`, in order. */
  const Definitions: seq<Definition> := [
    Definition("openai", "OpenAI", ProviderClients.ApiKeyAuth, PiAi, false),
    Definition("anthropic", "Anthropic", ProviderClients.MixedAuth, PiAi, false),
    Definition("google", "Google", ProviderClients.ApiKeyAuth, PiAi, false),
    Definition("azure-openai-responses", "Azure OpenAI (Responses)", ProviderClients.ApiKeyAuth, PiAi, false),
    Definition("openai-compatible", "OpenAI-compatible", ProviderClients.ApiKeyAuth, OpenAiCompatible, true),
    Definition("openrouter", "OpenRouter", ProviderClients.ApiKeyAuth, PiAi, false)
  ]

  /** The first definition of `defs` with the given id. */
  function Find(defs: seq<Definition>, id: string): (r: Option<Definition>)
    ensures r.Some? <==> exists i :: 0 <= i < |defs| && defs[i].id == id
    ensures r.Some? ==> r.value in defs && r.value.id == id
  {
    if defs == [] then None
    else if defs[0].id == id then Some(defs[0])
    else Find(defs[1..], id)
  }

  /** `getProviderDefinition`: the definition with that id, or nothing. */
  function GetProviderDefinition(id: string): (r: Option<Definition>)
    ensures r.Some? <==> exists d :: d in Definitions && d.id == id
    ensures r.Some? ==> r.value in Definitions && r.value.id == id
  {
    Find(Definitions, id)
  }

  /** Every id appears once, so the lookup can miss no later entry. */
  lemma IdsDistinct()
    ensures forall i, j :: 0 <= i < j < |Definitions| ==> Definitions[i].id != Definitions[j].id
  {
    // Only "openai" and "google" have the same length, and they differ in their first letter.
    var lengths := [6, 9, 6, 22, 17, 10];
    forall k | 0 <= k < |Definitions|
      ensures |Definitions[k].id| == lengths[k]
    {
    }
    assert Definitions[0].id[0] != Definitions[2].id[0];
  }

  /** The OpenAI-compatible provider is the only one of its kind, and the only one whose key
      is optional. */
  lemma OptionalKeyOnlyForCompatible()
    ensures forall d :: d in Definitions ==> (d.optionalApiKey <==> d.kind == OpenAiCompatible)
    ensures forall d :: d in Definitions && d.kind == OpenAiCompatible ==> d.id == "openai-compatible"
  {
  }

  /** Anthropic accepts an API key or OAuth credentials; every other provider needs a key,
      and none is OAuth-only or keyless. */
  lemma AuthModes()
    ensures GetProviderDefinition("anthropic") == Some(Definitions[1]) && Definitions[1].auth == ProviderClients.MixedAuth
    ensures forall d :: d in Definitions && d.auth != ProviderClients.ApiKeyAuth ==> d == Definitions[1]
  {
    LookupFindsEachEntry(1);
    forall d | d in Definitions && d.auth != ProviderClients.ApiKeyAuth
      ensures d == Definitions[1]
    {
      var k :| 0 <= k < |Definitions| && Definitions[k] == d;
      assert k == 1;
    }
  }

  /** Looking up an id listed in the table finds its own entry. */
  lemma {:induction false} FindListed(defs: seq<Definition>, i: nat)
    requires i < |defs|
    requires forall j :: 0 <= j < i ==> defs[j].id != defs[i].id
    ensures Find(defs, defs[i].id) == Some(defs[i])
  {
    if i > 0 {
      FindListed(defs[1..], i - 1);
    }
  }

  /** Every entry of the table is what the lookup returns for its id. */
  lemma LookupFindsEachEntry(i: nat)
    requires i < |Definitions|
    ensures GetProviderDefinition(Definitions[i].id) == Some(Definitions[i])
  {
    IdsDistinct();
    FindListed(Definitions, i);
  }
}
