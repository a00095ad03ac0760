// The Brave Search plugin of both runtimes: it registers one tool that sends the query to
// the Brave web-search endpoint with the stored subscription key and answers with the first
// results, numbered, one paragraph each. The two generations differ only in where the key is
// kept (the secrets store, or the auth store under the plugin instance's id) and in the
// tool's name, which the newer one takes from its settings.
//
// The HTTP request is an oracle from the query parameters and the key to the response, or to
// the error a rejected `fetch` throws; the response carries what `response.json()` yields,
// its `web.results` or the error it rejects with.

module BraveSearch {
  import opened Wrappers
  import opened Messages
  import Json
  import JsBuiltins
  import Capabilities
  import PluginRegistrars
  import GramRegistrar
  import JsMap
  import Tools

  const DefaultToolName := "web_search"
  const Description := "Search the web using Brave Search and return concise results."
  const NoResults := "No results found."
  const DefaultLimit := 5

  /** The tool's arguments. `count` is whatever number the call passed, fractions aside. */
  datatype SearchArgs = SearchArgs(query: string, count: Option<int>, country: Option<string>, language: Option<string>, safeSearch: Option<bool>)

  /** One entry of `web.results`; every field may be missing. */
  datatype SearchResult = SearchResult(title: Option<string>, url: Option<string>, description: Option<string>)

  /** The response: whether it was `ok`, its status, and what reading its body as JSON gives:
      `web.results` (`None` when `web` or its `results` is missing), or the error thrown. */
  datatype Response = Response(ok: bool, status: int, data: Result<Option<seq<SearchResult>>>)

  /** Where the key comes from, which also names it in the error. */
  datatype KeyStore = SecretsStore | AuthStore
  {
    function MissingKey(): Thrown
    {
      match this
      case SecretsStore => Error("Missing brave-search apiKey in secrets store")
      case AuthStore => Error("Missing brave-search apiKey in auth store")
    }
  }

  /** The search parameters the tool can set, and their names in the URL. */
  datatype ParamKey = Query | Count | Country | Language | SafeSearch
  {
    function Name(): string
    {
      match this
      case Query => "q"
      case Count => "count"
      case Country => "country"
      case Language => "language"
      case SafeSearch => "safesearch"
    }
  }

  /** The search parameters, in the order they are set. */
  type Params = seq<(ParamKey, string)>

  /** The value of a search parameter, if set. */
  function Param(params: Params, key: ParamKey): Option<string>
  {
    if params == [] then None
    else if params[0].0 == key then Some(params[0].1)
    else Param(params[1..], key)
  }

  predicate Truthy(s: Option<string>)
  {
    s.Some? && s.value != ""
  }

  /** The search parameters, in the order `searchParams.set` adds them. */
  function QueryParams(args: SearchArgs): Params
  {
    [(Query, args.query)]
    + (if args.count.Some? && args.count.value != 0 then [(Count, JsBuiltins.IntToString(args.count.value))] else [])
    + (if Truthy(args.country) then [(Country, args.country.value)] else [])
    + (if Truthy(args.language) then [(Language, args.language.value)] else [])
    + (if args.safeSearch.Some? then [(SafeSearch, if args.safeSearch.value then "moderate" else "off")] else [])
  }

  /** The query is always sent, first; a count only when it is truthy (not zero); a country
      and a language only when given and not empty; a safe-search level whenever the flag is
      given. */
  lemma QueryParamsSent(args: SearchArgs)
    ensures var r := QueryParams(args);
      (&& r != [] && r[0] == (Query, args.query)
       && Param(r, Count) == (if args.count.Some? && args.count.value != 0 then Some(JsBuiltins.IntToString(args.count.value)) else None)
       && Param(r, Country) == (if Truthy(args.country) then args.country else None)
       && Param(r, Language) == (if Truthy(args.language) then args.language else None)
       && Param(r, SafeSearch) == (if args.safeSearch.Some? then Some(if args.safeSearch.value then "moderate" else "off") else None))
  {
    var q := [(Query, args.query)];
    var count := if args.count.Some? && args.count.value != 0 then [(Count, JsBuiltins.IntToString(args.count.value))] else [];
    var country := if Truthy(args.country) then [(Country, args.country.value)] else [];
    var language := if Truthy(args.language) then [(Language, args.language.value)] else [];
    var safe := if args.safeSearch.Some? then [(SafeSearch, if args.safeSearch.value then "moderate" else "off")] else [];
    var r := q + count + country + language + safe;
    assert r == QueryParams(args);
    ParamOfParts(q, count, country, language, safe, Count);
    ParamOfParts(q, count, country, language, safe, Country);
    ParamOfParts(q, count, country, language, safe, Language);
    ParamOfParts(q, count, country, language, safe, SafeSearch);
  }

  /** A parameter's value in a list made of five parts is its value in the first part that
      sets it. */
  lemma ParamOfParts(a: Params, b: Params, c: Params, d: Params, e: Params, key: ParamKey)
    ensures Param(a + b + c + d + e, key) == Param(a, key).OrElse(Param(b, key).OrElse(Param(c, key).OrElse(Param(d, key).OrElse(Param(e, key)))))
  {
    ParamAppend(a + b + c + d, e, key);
    ParamAppend(a + b + c, d, key);
    ParamAppend(a + b, c, key);
    ParamAppend(a, b, key);
  }

  /** No parameter is set twice, so each appears once in the URL. */
  lemma QueryParamsDistinct(args: SearchArgs)
    ensures var r := QueryParams(args);
      forall i, j :: 0 <= i < j < |r| ==> r[i].0 != r[j].0
  {
    var r := QueryParams(args);
    var rank := map[Query := 0, Count := 1, Country := 2, Language := 3, SafeSearch := 4];
    assert forall i :: 0 <= i < |r| ==> r[i].0 in rank;
    assert forall i, j :: 0 <= i < j < |r| ==> rank[r[i].0] < rank[r[j].0];
  }

  lemma {:induction false} ParamAppend(a: Params, b: Params, key: ParamKey)
    ensures Param(a + b, key) == if Param(a, key).Some? then Param(a, key) else Param(b, key)
  {
    if a == [] {
      assert a + b == b;
    } else {
      assert (a + b)[0] == a[0];
      assert (a + b)[1..] == a[1..] + b;
      ParamAppend(a[1..], b, key);
    }
  }

  /** `results.slice(0, count ?? 5)`. */
  function Limit(results: seq<SearchResult>, count: Option<int>): (r: seq<SearchResult>)
    ensures count.None? ==> r == results[..if |results| < DefaultLimit then |results| else DefaultLimit]
    ensures count.Some? && count.value >= 0 ==> r == results[..if |results| < count.value then |results| else count.value]
    ensures count.Some? && count.value < 0 ==> r == results[..if |results| + count.value < 0 then 0 else |results| + count.value]
  {
    JsBuiltins.SlicePrefix(results, count.GetOr(DefaultLimit));
    JsBuiltins.Slice(results, 0, count.GetOr(DefaultLimit))
  }

  /** A count of zero is not sent to the endpoint, yet it limits the answer to nothing. */
  lemma ZeroCountAnswersNothing(args: SearchArgs, results: seq<SearchResult>)
    requires args.count == Some(0)
    ensures Param(QueryParams(args), Count).None?
    ensures Limit(results, args.count) == []
  {
    QueryParamsSent(args);
  }

  /** The paragraph of the result at `index`: number, title, URL and description on three
      lines, trimmed. */
  function ResultParagraph(index: nat, item: SearchResult): string
  {
    JsBuiltins.Trim(JsBuiltins.NatToString(index + 1) + Lines(item))
  }

  function Lines(item: SearchResult): (r: string)
    ensures r != [] && r[0] == '.'
  {
    ". " + item.title.GetOr("Untitled") + "\n" + item.url.GetOr("") + "\n" + item.description.GetOr("")
  }

  /** A paragraph starts with its result's number, counted from one, and a dot, whatever the
      result leaves out. */
  lemma ParagraphNumbered(index: nat, item: SearchResult)
    ensures var number := JsBuiltins.NatToString(index + 1);
      |ResultParagraph(index, item)| > |number| && ResultParagraph(index, item)[..|number| + 1] == number + "."
  {
    NumberedAs(index, item, JsBuiltins.NatToString(index + 1));
  }

  lemma NumberedAs(index: nat, item: SearchResult, number: string)
    requires number == JsBuiltins.NatToString(index + 1)
    ensures |ResultParagraph(index, item)| > |number| && ResultParagraph(index, item)[..|number| + 1] == number + "."
  {
    TrimKeepsNumber(number, Lines(item));
  }

  /** Trimming a paragraph that starts with a number and a dot keeps both. */
  lemma TrimKeepsNumber(number: string, rest: string)
    requires |number| >= 1 && JsBuiltins.AllDigits(number)
    requires rest != [] && rest[0] == '.'
    ensures |JsBuiltins.Trim(number + rest)| > |number| && JsBuiltins.Trim(number + rest)[..|number| + 1] == number + "."
  {
    var s := number + rest;
    var n := |number|;
    assert s[0] == number[0] && s[n] == '.';
    assert !JsBuiltins.IsJsWhitespace(s[0]);
    assert JsBuiltins.TrimStart(s) == s;
    assert !JsBuiltins.IsJsWhitespace(s[n]);
    var t := JsBuiltins.Trim(s);
    assert |t| > n;
    assert t[..n + 1] == s[..n + 1];
    assert s[..n + 1] == number + "." by {
      forall k | 0 <= k < n + 1 ensures s[k] == (number + ".")[k] {
      }
    }
  }

  /** The paragraphs of the listed results, numbered from one. */
  function Paragraphs(limited: seq<SearchResult>): (r: seq<string>)
    ensures |r| == |limited|
    ensures forall i :: 0 <= i < |r| ==> r[i] == ResultParagraph(i, limited[i])
  {
    seq(|limited|, i requires 0 <= i < |limited| => ResultParagraph(i, limited[i]))
  }

  /** The answer's text: a fixed line when there is nothing to list, else the paragraphs
      separated by blank lines. A list starts with its first result's number, so it can never
      be taken for the no-results line. */
  function AnswerText(limited: seq<SearchResult>): (r: string)
    ensures r == NoResults <==> limited == []
    ensures limited != [] ==> |r| >= 2 && r[..2] == "1."
  {
    if |limited| == 0 then NoResults
    else
      var r := JsBuiltins.Join(Paragraphs(limited), "\n\n");
      ListOpensWithOne(limited);
      assert r[0] == '1' && NoResults[0] == 'N';
      r
  }

  /** The joined paragraphs start with the first one's number, "1.". */
  lemma ListOpensWithOne(limited: seq<SearchResult>)
    requires limited != []
    ensures |JsBuiltins.Join(Paragraphs(limited), "\n\n")| >= 2 && JsBuiltins.Join(Paragraphs(limited), "\n\n")[..2] == "1."
  {
    FirstParagraphOpens(limited[0]);
    JoinOpensWith(Paragraphs(limited), "\n\n", ResultParagraph(0, limited[0]), "1.");
  }

  lemma FirstParagraphOpens(item: SearchResult)
    ensures |ResultParagraph(0, item)| >= 2 && ResultParagraph(0, item)[..2] == "1."
  {
    assert JsBuiltins.NatToString(1) == "1";
    NumberedAs(0, item, "1");
  }

  /** A join opens with whatever its first part opens with. */
  lemma JoinOpensWith(parts: seq<string>, sep: string, first: string, opening: string)
    requires parts != [] && parts[0] == first
    requires |first| >= |opening| && first[..|opening|] == opening
    ensures |JsBuiltins.Join(parts, sep)| >= |opening| && JsBuiltins.Join(parts, sep)[..|opening|] == opening
  {
    JoinPrefix(parts, sep);
    var r := JsBuiltins.Join(parts, sep);
    assert r[..|opening|] == r[..|first|][..|opening|];
  }

  /** A join starts with its first part. */
  lemma {:induction false} JoinPrefix(parts: seq<string>, sep: string)
    requires parts != []
    ensures |JsBuiltins.Join(parts, sep)| >= |parts[0]|
    ensures JsBuiltins.Join(parts, sep)[..|parts[0]|] == parts[0]
  {
    if |parts| > 1 {
      assert JsBuiltins.Join(parts, sep) == parts[0] + (sep + JsBuiltins.Join(parts[1..], sep));
    }
  }

  /** The whole `execute`: without a truthy key nothing is fetched; a rejected `fetch` is
      rethrown; a response that is not ok is an error naming its status; a body that is not
      JSON is rethrown; otherwise the result lists the limited results and counts them in its
      details. */
  function Outcome(store: KeyStore, key: Option<string>, fetch: (Params, string) -> Result<Response>, args: SearchArgs, call: ToolCall): (r: Tools.ToolOutcome)
    ensures !Truthy(key) ==> r == Tools.Throws(store.MissingKey())
    ensures Truthy(key) && fetch(QueryParams(args), key.value).Err? ==>
      r == Tools.Throws(fetch(QueryParams(args), key.value).error)
    ensures Truthy(key) && fetch(QueryParams(args), key.value).Ok? ==>
      var response := fetch(QueryParams(args), key.value).value;
      (&& (!response.ok ==> r == Tools.Throws(Error("Brave search failed: " + JsBuiltins.IntToString(response.status))))
       && (response.ok && response.data.Err? ==> r == Tools.Throws(response.data.error))
       && (response.ok && response.data.Ok? ==>
             var limited := Limit(response.data.value.GetOr([]), args.count);
             && r.Returns? && r.result.files.None?
             && r.result.toolMessage.toolCallId == call.id && r.result.toolMessage.toolName == call.name
             && !r.result.toolMessage.isError
             && r.result.toolMessage.content == [TextBlock(AnswerText(limited))]
             && r.result.toolMessage.details == Some(Json.Obj(map["count" := Json.Num(|limited|)]))))
  {
    if !Truthy(key) then Tools.Throws(store.MissingKey())
    else match fetch(QueryParams(args), key.value)
      case Err(e) => Tools.Throws(e)
      case Ok(response) =>
        if !response.ok then Tools.Throws(Error("Brave search failed: " + JsBuiltins.IntToString(response.status)))
        else if response.data.Err? then Tools.Throws(response.data.error)
        else
          var limited := Limit(response.data.value.GetOr([]), args.count);
          Tools.Returns(ToolExecutionResult(
            ToolResult(call.id, call.name, [TextBlock(AnswerText(limited))], false, Some(Json.Obj(map["count" := Json.Num(|limited|)]))),
            None))
  }

  /** Within the schema's bounds (a count from 1 to 10, or none), the answer lists at most that
      many results (five by default), and exactly that many when the endpoint returned enough. */
  lemma AnswerBounded(store: KeyStore, key: Option<string>, fetch: (Params, string) -> Result<Response>, args: SearchArgs, call: ToolCall)
    requires args.count.None? || 1 <= args.count.value <= 10
    requires Truthy(key) && fetch(QueryParams(args), key.value).Ok?
    requires fetch(QueryParams(args), key.value).value.ok && fetch(QueryParams(args), key.value).value.data.Ok?
    ensures var limit := args.count.GetOr(DefaultLimit);
      var results := fetch(QueryParams(args), key.value).value.data.value.GetOr([]);
      var r := Outcome(store, key, fetch, args, call);
      (&& r.Returns? && r.result.toolMessage.details.Some? && r.result.toolMessage.details.value.Obj?
       && "count" in r.result.toolMessage.details.value.fields
       && r.result.toolMessage.details.value.fields["count"] == Json.Num(if |results| < limit then |results| else limit))
  {
  }

  // ---------------------------------------------------------------- registration

  /** The tool's parameter schema, as JSON Schema. */
  const SearchSchema: Json.Value :=
    Json.Obj(map[
      "type" := Json.Str("object"),
      "additionalProperties" := Json.Bool(false),
      "required" := Json.Arr([Json.Str("query")]),
      "properties" := Json.Obj(map[
        "query" := Json.Obj(map["type" := Json.Str("string"), "minLength" := Json.Num(1)]),
        "count" := Json.Obj(map["type" := Json.Str("number"), "minimum" := Json.Num(1), "maximum" := Json.Num(10)]),
        "country" := Json.Obj(map["type" := Json.Str("string"), "minLength" := Json.Num(2)]),
        "language" := Json.Obj(map["type" := Json.Str("string"), "minLength" := Json.Num(2)]),
        "safeSearch" := Json.Obj(map["type" := Json.Str("boolean")])])])

  function Definition(name: string): Capabilities.ToolDefinition
  {
    Capabilities.ToolDefinition(Capabilities.Tool(name, Description, SearchSchema))
  }

  /** The older plugin's `load`: the tool is always called `web_search`. */
  method ScoutLoad(registrar: PluginRegistrars.PluginRegistrar)
    requires registrar.Valid()
    modifies registrar`toolNames, registrar.tools
    ensures registrar.Valid()
    ensures registrar.tools.entries == old(registrar.tools.entries).Set(DefaultToolName, Capabilities.Owned(registrar.pluginId, Definition(DefaultToolName)))
    ensures registrar.toolNames == JsMap.SetAdd(old(registrar.toolNames), DefaultToolName)
  {
    registrar.RegisterTool(Definition(DefaultToolName));
  }

  method ScoutUnload(registrar: PluginRegistrars.PluginRegistrar)
    requires registrar.Valid()
    modifies registrar`toolNames, registrar.tools
    ensures registrar.Valid()
    ensures registrar.tools.entries == old(registrar.tools.entries).Delete(DefaultToolName)
    ensures registrar.toolNames == JsMap.SetDelete(old(registrar.toolNames), DefaultToolName)
  {
    registrar.UnregisterTool(DefaultToolName);
  }

  /** The newer plugin's tool name: the configured one, else `web_search`. The settings schema
      refuses an empty configured name. */
  function ToolName(configured: Option<string>): (r: string)
    ensures configured.Some? ==> r == configured.value
    ensures configured.None? ==> r == DefaultToolName
  {
    configured.GetOr(DefaultToolName)
  }

  /** The newer plugin's `load` registers the tool under its name ... */
  method GramLoad(registrar: GramRegistrar.Registrar, configured: Option<string>)
    modifies registrar
    ensures registrar.tools == old(registrar.tools) + {ToolName(configured)}
    ensures registrar.providers == old(registrar.providers)
  {
    registrar.RegisterTool(ToolName(configured));
  }

  /** ... and `unload` removes that same name. */
  method GramUnload(registrar: GramRegistrar.Registrar, configured: Option<string>)
    modifies registrar
    ensures registrar.tools == old(registrar.tools) - {ToolName(configured)}
    ensures registrar.providers == old(registrar.providers)
  {
    registrar.UnregisterTool(ToolName(configured));
  }

  /** Loading and then unloading an instance leaves the registrar as it found it, unless the
      tool's name was already registered. */
  method GramLoadUnload(registrar: GramRegistrar.Registrar, configured: Option<string>)
    requires ToolName(configured) !in registrar.tools
    modifies registrar
    ensures registrar.tools == old(registrar.tools) && registrar.providers == old(registrar.providers)
  {
    GramLoad(registrar, configured);
    GramUnload(registrar, configured);
  }

  /** The newer plugin's onboarding: an empty or cancelled key prompt ends it with nothing
      stored; otherwise the key is stored for the instance and the settings start empty. */
  function Onboarding(apiKey: Option<string>): (r: (Option<map<string, Json.Value>>, Option<string>))
    ensures r.0.Some? <==> Truthy(apiKey)
    ensures r.1 == (if Truthy(apiKey) then apiKey else None)
    ensures r.0.Some? ==> r.0.value == map[]
  {
    if Truthy(apiKey) then (Some(map[]), apiKey) else (None, None)
  }
}
