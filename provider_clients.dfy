// The helpers every inference-provider plugin of the runtime uses when it builds a client:
// choosing the model id, merging the options of one call, and (in the newer runtime)
// deciding which API key the client uses. Each provider file carries its own copy of these
// helpers; the copies agree, so they are stated once here and each plugin's module says
// how it uses them.

module ProviderClients {
  import opened Wrappers
  import Json
  import JsBuiltins

  // ---------------------------------------------------------------- model id

  /** The index of the first id satisfying `p`. */
  function FirstWhere(ids: seq<string>, p: string -> bool): (r: Option<nat>)
    ensures r.Some? ==> r.value < |ids| && p(ids[r.value]) && forall j :: 0 <= j < r.value ==> !p(ids[j])
    ensures r.None? ==> forall j :: 0 <= j < |ids| ==> !p(ids[j])
  {
    if ids == [] then None
    else if p(ids[0]) then Some(0)
    else
      var rest := FirstWhere(ids[1..], p);
      if rest.None? then None else Some(rest.value + 1)
  }

  /** `id` is the first of `ids` satisfying `p`. */
  predicate FirstWith(ids: seq<string>, id: string, p: string -> bool)
  {
    exists k :: 0 <= k < |ids| && ids[k] == id && p(id) && forall j :: 0 <= j < k ==> !p(ids[j])
  }

  predicate EndsLatest(id: string)
  {
    JsBuiltins.EndsWith(id, "-latest")
  }

  predicate MentionsLatest(id: string)
  {
    JsBuiltins.Contains(id, "latest")
  }

  /** A preferred model id was given (and is not empty) and is one of the provider's. */
  predicate PreferredListed(ids: seq<string>, preferred: Option<string>)
  {
    preferred.Some? && preferred.value != "" && preferred.value in ids
  }

  /** `resolveModelId` over the ids `getModels` lists (sorted first, in the plugins that sort). */
  function ResolveModelId(providerId: string, ids: seq<string>, preferred: Option<string>): (r: Result<string>)
    ensures r.Err? <==> ids == []
    ensures ids == [] ==> r == Err(Error("No models available for provider " + providerId))
    ensures r.Ok? ==> r.value in ids
    ensures PreferredListed(ids, preferred) ==> r == Ok(preferred.value)
    ensures ids != [] && !PreferredListed(ids, preferred) ==>
      (&& ((exists i :: 0 <= i < |ids| && EndsLatest(ids[i])) ==> FirstWith(ids, r.value, EndsLatest))
       && ((forall i :: 0 <= i < |ids| ==> !EndsLatest(ids[i])) && (exists i :: 0 <= i < |ids| && MentionsLatest(ids[i])) ==>
             FirstWith(ids, r.value, MentionsLatest))
       && ((forall i :: 0 <= i < |ids| ==> !MentionsLatest(ids[i])) ==> r.value == ids[0]))
  {
    if ids == [] then Err(Error("No models available for provider " + providerId))
    else if PreferredListed(ids, preferred) then Ok(preferred.value)
    else
      var alias := FirstWhere(ids, EndsLatest);
      if alias.Some? then
        AliasMentionsLatest(ids[alias.value]);
        Ok(ids[alias.value])
      else
        var latest := FirstWhere(ids, MentionsLatest);
        if latest.Some? then
          assert ids[latest.value] == ids[latest.value];
          Ok(ids[latest.value])
        else Ok(ids[0])
  }

  /** An id ending in "-latest" mentions "latest", so a provider with such an alias never
      falls back to its first model. */
  lemma AliasMentionsLatest(id: string)
    requires EndsLatest(id)
    ensures MentionsLatest(id)
  {
    assert JsBuiltins.OccursAt(id, "latest", |id| - 6) by {
      assert id[|id| - 7..][1..] == id[|id| - 6..];
    }
    JsBuiltins.ContainsIffOccurs(id, "latest");
  }

  // ---------------------------------------------------------------- call options

  /** A record of options, as `Record<string, unknown>`. */
  type Options = map<string, Json.Value>

  function OrEmpty(o: Option<Options>): Options
  {
    o.GetOr(map[])
  }

  /** `runtimeOptions?.apiKey`, when it is neither absent nor null. */
  function RuntimeApiKey(runtime: Option<Options>): Option<Json.Value>
  {
    if "apiKey" in OrEmpty(runtime) && OrEmpty(runtime)["apiKey"] != Json.Null then Some(OrEmpty(runtime)["apiKey"]) else None
  }

  predicate TruthyKey(key: Option<string>)
  {
    key.Some? && key.value != ""
  }

  /** `buildOptions`: the configured options overridden by the call's own; with a truthy
      resolved key, `apiKey` is the call's own key if it has one, else the resolved key. */
  function BuildOptions(apiKey: Option<string>, config: Option<Options>, runtime: Option<Options>): (r: Options)
    ensures forall k :: k != "apiKey" ==> (k in r <==> k in OrEmpty(config) || k in OrEmpty(runtime))
    ensures forall k :: k != "apiKey" && k in OrEmpty(runtime) ==> r[k] == OrEmpty(runtime)[k]
    ensures forall k :: k != "apiKey" && k in OrEmpty(config) && k !in OrEmpty(runtime) ==> r[k] == OrEmpty(config)[k]
    ensures TruthyKey(apiKey) ==> "apiKey" in r && r["apiKey"] == RuntimeApiKey(runtime).GetOr(Json.Str(apiKey.value))
    ensures !TruthyKey(apiKey) ==> ("apiKey" in r <==> "apiKey" in OrEmpty(config) || "apiKey" in OrEmpty(runtime))
    ensures !TruthyKey(apiKey) && "apiKey" in OrEmpty(runtime) ==> r["apiKey"] == OrEmpty(runtime)["apiKey"]
    ensures !TruthyKey(apiKey) && "apiKey" in OrEmpty(config) && "apiKey" !in OrEmpty(runtime) ==> r["apiKey"] == OrEmpty(config)["apiKey"]
  {
    var merged := OrEmpty(config) + OrEmpty(runtime);
    if TruthyKey(apiKey) then merged["apiKey" := RuntimeApiKey(runtime).GetOr(Json.Str(apiKey.value))]
    else merged
  }

  /** Without a resolved key and without options of the call, a call uses exactly the
      configured options, including any `apiKey` written there. */
  lemma NoKeyKeepsConfig(config: Option<Options>)
    ensures BuildOptions(None, config, None) == OrEmpty(config)
  {
    var r := BuildOptions(None, config, None);
    assert r.Keys == OrEmpty(config).Keys;
  }

  // ---------------------------------------------------------------- API key

  /** `ProviderAuth`. */
  datatype AuthMode = ApiKeyAuth | OAuthAuth | MixedAuth | NoAuth

  /** The auth store's entry for a provider: its `type` and its `apiKey`. */
  datatype AuthEntry = AuthEntry(kind: Option<string>, apiKey: Option<string>)

  /** What `getOAuthApiKey` returns for stored credentials: a key and refreshed credentials. */
  datatype OAuthGrant = OAuthGrant(apiKey: string, newCredentials: Json.Value)

  /** The key a client gets (or the error thrown), and the credentials written back with
      `setOAuth`, if any. */
  datatype KeyResolution = KeyResolution(key: Result<Option<string>>, savedCredentials: Option<Json.Value>)

  /** The entry holds OAuth credentials and the provider accepts them. */
  predicate UsesOAuth(auth: AuthMode, entry: Option<AuthEntry>)
  {
    (auth == OAuthAuth || auth == MixedAuth) && entry.Some? && entry.value.kind == Some("oauth")
  }

  function StoredKey(entry: Option<AuthEntry>): Option<string>
  {
    if entry.Some? then entry.value.apiKey else None
  }

  function MissingOAuth(providerId: string): Thrown
  {
    Error("Missing OAuth credentials for " + providerId)
  }

  function MissingApiKey(providerId: string): Thrown
  {
    Error("Missing " + providerId + " apiKey in auth store")
  }

  /** `resolveApiKey`. `grant` is what `getOAuthApiKey` gives for the stored credentials (or
      the error it rejects with); it is consulted only when those credentials are used. The older copy of this function has no
      optional-key flag: it is this one with `optionalApiKey` false. */
  function ResolveApiKey(providerId: string, auth: AuthMode, optionalApiKey: bool, entry: Option<AuthEntry>, grant: Result<Option<OAuthGrant>>): (r: KeyResolution)
    ensures auth == NoAuth ==> r == KeyResolution(Ok(None), None)
    ensures UsesOAuth(auth, entry) && grant.Err? ==> r == KeyResolution(Err(grant.error), None)
    ensures UsesOAuth(auth, entry) && grant.Ok? && grant.value.Some? ==>
      r == KeyResolution(Ok(Some(grant.value.value.apiKey)), Some(grant.value.value.newCredentials))
    ensures UsesOAuth(auth, entry) && grant == Ok(None) ==>
      r == KeyResolution(if auth == OAuthAuth then Err(MissingOAuth(providerId)) else Ok(None), None)
    ensures auth != NoAuth && !UsesOAuth(auth, entry) ==>
      var key := StoredKey(entry);
      (&& r.savedCredentials.None?
       && (TruthyKey(key) ==> r.key == Ok(key))
       && (!TruthyKey(key) && auth == OAuthAuth ==> r.key == Err(MissingOAuth(providerId)))
       && (!TruthyKey(key) && auth == ApiKeyAuth && !optionalApiKey ==> r.key == Err(MissingApiKey(providerId)))
       && (!TruthyKey(key) && (auth == MixedAuth || (auth == ApiKeyAuth && optionalApiKey)) ==> r.key == Ok(key)))
  {
    if auth == NoAuth then KeyResolution(Ok(None), None)
    else if UsesOAuth(auth, entry) then
      match grant
      case Err(e) => KeyResolution(Err(e), None)
      case Ok(None) => KeyResolution(if auth == OAuthAuth then Err(MissingOAuth(providerId)) else Ok(None), None)
      case Ok(Some(g)) => KeyResolution(Ok(Some(g.apiKey)), Some(g.newCredentials))
    else
      var key := StoredKey(entry);
      if !TruthyKey(key) && auth == OAuthAuth then KeyResolution(Err(MissingOAuth(providerId)), None)
      else if !TruthyKey(key) && auth == ApiKeyAuth && !optionalApiKey then KeyResolution(Err(MissingApiKey(providerId)), None)
      else KeyResolution(Ok(key), None)
  }

  /** A provider that requires an API key never gets a client without a truthy one. */
  lemma RequiredKeyIsTruthy(providerId: string, entry: Option<AuthEntry>, grant: Result<Option<OAuthGrant>>)
    ensures ResolveApiKey(providerId, ApiKeyAuth, false, entry, grant).key.Ok? ==>
      TruthyKey(ResolveApiKey(providerId, ApiKeyAuth, false, entry, grant).key.value)
  {
  }

  /** Credentials are written back only when stored OAuth credentials were used and refreshed. */
  lemma SavesOnlyRefreshedOAuth(providerId: string, auth: AuthMode, optionalApiKey: bool, entry: Option<AuthEntry>, grant: Result<Option<OAuthGrant>>)
    ensures ResolveApiKey(providerId, auth, optionalApiKey, entry, grant).savedCredentials.Some? <==> UsesOAuth(auth, entry) && grant.Ok? && grant.value.Some?
  {
  }

  /** The optional-key flag matters only for an API-key provider with no truthy stored key:
      there it turns the error into the stored (falsy) key. */
  lemma OptionalKeyOnlyRelaxes(providerId: string, auth: AuthMode, entry: Option<AuthEntry>, grant: Result<Option<OAuthGrant>>)
    ensures var strict := ResolveApiKey(providerId, auth, false, entry, grant);
      var relaxed := ResolveApiKey(providerId, auth, true, entry, grant);
      (&& (strict != relaxed <==> auth == ApiKeyAuth && !TruthyKey(StoredKey(entry)))
       && (strict != relaxed ==> strict.key == Err(MissingApiKey(providerId)) && relaxed.key == Ok(StoredKey(entry))))
  {
  }
}
