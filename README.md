# A verified model of the scout / gram agent runtime

This project models in Dafny the core of a chat-agent runtime that exists in two
generations: `scout` (the older) and `gram` (the newer). A message arrives from a connector
such as Telegram. The runtime routes it to a configured inference provider, runs the tools
the model asks for, and sends the reply back. Plugins supply the providers, tools and
connectors; settings, secrets and auth records say which plugins and providers are enabled.

The modules follow the program's structure:

- **Runtime core**
  - `Cron`: the cron scheduler class (task ids, start/stop, the timer map and the timers still running, dispatch of a firing task).
  - `CronTool`: the `add_cron` tool and its `send-message` action.
  - `Engine`: the tool loop of `handleSessionMessage`, the reply decision and the restore/recovery of sessions.
  - `SessionStore`: the session log and its restoration.
  - `Router`: provider fallback in order.
- **Registries**
  - `Capabilities`: the inference and image-generation registries. These are one generic registry class; its rows cite `inference/registry.ts`, and `images/registry.ts` is the same code over image providers.
  - `Connectors`: the connector registry.
  - `Tools`: the tool registry and `execute`.
  - `PluginRegistrars`: the older per-plugin registrar.
  - `GramRegistrar`: the newer runtime's provider and tool registration, as the plugins use it.
- **Plugin management**
  - `ScoutPlugins` and `GramPlugins`: the two plugin managers, as classes over their `loaded` maps.
  - `PluginEvents`: the newer plugin event bus.
- **Configuration**
  - `Settings`, `Auth`, `Secrets`: the settings list helpers, the auth-file provider order and token getters, and the secrets store.
  - `GramCommands`: the provider and plugin updates of the `add-codex`, `add` and `remove` commands.
- **Memory**
  - `Memory`: the memory log, its query and the `memory_search` tool.
  - `GramMemory`: the memory plugin's event handling.
- **Providers**
  - `ProviderClients`, `ModelRanking`, `PiAiProviders`: the pi-ai provider plugins (model choice, option merge, API-key resolution, model ranking).
  - `OpenAiCompatible`: the OpenAI-compatible plugin in both versions.
  - `ScoutProviders`: the older OpenAI Codex and Anthropic plugins. These two files are the same code under two ids; the rows cite `openai-codex.ts`, and `anthropic.ts` differs only in its id and title.
  - `ProviderTable`: the provider definition table.
- **Tools and utilities**
  - `BraveSearch`: both web-search plugins.
  - `ImageTool`: the image-generation tool.
  - `Filename`: `sanitizeFilename`.
- **Shared definitions**
  - `Wrappers`, `Json`, `JsMap`, `JsBuiltins`, `Messages`.
  - `JsMap` models JavaScript's insertion-ordered `Map`/`Set`.
  - `JsBuiltins` models the string built-ins the source uses: trim, lower-casing, `includes`, number formatting.

Code that changes state in place (registries, managers, the scheduler, the event bus, the
secrets and memory stores, sessions) is modelled as classes with `modifies` frames. Each
method is tied to a function of the old state that specifies it, and the properties are proved
about those functions. Pure code (settings helpers, provider updates, model ranking,
formatting) is modelled as functions with lemmas.

Everything outside the process is a parameter of the model:

- what the pi-ai library knows (`getModels`, `getModel`, `getOAuthApiKey`);
- inference results;
- tool outcomes and send outcomes;
- HTTP responses;
- plugin module loading;
- clocks and generated ids.

Where the model departs from the source, "## Left out" says so. Cases that may surprise a
reader are kept as written, and each is proved as a lemma:

- The constructor of the cron scheduler names id-less tasks `task-N` from their position.
  This can repeat an id already given (`Cron.NormalizeTasksMayCollide`). `addTask` itself
  always picks a free id.
- Arming a task whose id already has a timer replaces the map entry without clearing that
  timer, so both run and `stop` clears only the second (`Cron.RearmLeaks`,
  `Cron.SharedIdLeaksInterval`); a spent one-shot timer then deletes whatever is filed under
  its id (`Cron.OverwrittenTimeoutUnfilesOther`).
- A listener of the plugin event bus that throws stops the fan-out after the event was queued,
  and `emit` rethrows (`PluginEvents.FanoutStopsAtThrow`).
- The reply falls back to "Generated files." only when the response is not the assistant's,
  because an assistant response's text is "" rather than null (`Engine.NoFallbackForAssistant`).
- A memory query with a limit of 0 returns every match, as `slice(-0)` does (`Memory.QueryNewest`).
- A web search with a negative count drops results from the end (`BraveSearch.Limit`).
- Model-size keywords match as substrings, so "gemini" counts as "mini"
  (`ModelRanking.GeminiProIsNotLarge`).
- The older plugin manager does not tear down a plugin whose `load` throws
  (`ScoutPlugins.LoadDoesNotRollBack`); the newer one does (`GramPlugins.LoadRollsBack`).
- A secrets store over a missing file shares one default record with every other such store
  (`Secrets.DefaultsShared`).

## Model

| member | source | states |
|---|---|---|
| Auth.GetCodexToken | packages/scout/sources/auth.ts:73-75 | the `codex` token when there is one, otherwise the `openai-codex` token, otherwise none |
| Auth.GetClaudeCodeToken | packages/scout/sources/auth.ts:77-79 | the `claude-code` token when there is one, otherwise the `claude` token, otherwise none |
| Auth.Mains | packages/scout/sources/auth.ts:89 | every kept entry is marked main, and none is added |
| Auth.Others | packages/scout/sources/auth.ts:96 | every kept entry is not marked main, and none is added |
| Auth.GetInferenceProviders | packages/scout/sources/auth.ts:81-98 | a missing list gives []; with no main entry, the list itself; otherwise the main entries, then the others |
| Auth.PartitionIsPermutation | packages/scout/sources/auth.ts:89-97 | the main and the other entries together are a permutation of the list |
| Auth.ProvidersReordered | packages/scout/sources/auth.ts:81-98 | the provider order is a permutation of the configured list, with every main entry before every other entry; when some entry is main the list is the main entries at their increasing configured positions followed by the others at theirs, and otherwise it is the configured list |
| Auth.GroupsKeepOrder | packages/scout/sources/auth.ts:89-97 | the main entries are the configured list read at the strictly increasing positions of its main entries, and the other entries likewise: each group keeps the configured order |
| Auth.Demoted | packages/scout/sources/commands/add-codex.ts:80 | the same entries, each with `main` set to false |
| Auth.WithoutId | packages/scout/sources/commands/add-codex.ts:78 | exactly the entries whose id differs from the given one |
| Auth.UpdateProviders | packages/scout/sources/commands/add-codex.ts:74-83 | a main entry goes first, with all the others demoted; otherwise it goes last with `main` false; earlier entries with its id are dropped |
| Auth.UpdateLeavesOne | packages/scout/sources/commands/add-codex.ts:74-83 | after the update exactly one entry carries the new entry's id, and it is that entry |
| Auth.UpdateIdempotent | packages/scout/sources/commands/add-codex.ts:74-83 | running the update twice with the same entry gives the same list as running it once |
| Auth.WithoutIdAppend | packages/scout/sources/commands/add-codex.ts:78 | dropping an id distributes over concatenation |
| Auth.WithoutIdNone | packages/scout/sources/commands/add-codex.ts:78 | a list without the id is left unchanged |
| Auth.WithoutIdDemoted | packages/scout/sources/commands/add-codex.ts:78-80 | a demoted list without the id is left unchanged |
| Auth.DemotedTwice | packages/scout/sources/commands/add-codex.ts:80 | demoting twice is demoting once |
| BraveSearch.QueryParamsSent | packages/gram/sources/plugins/brave-search/index.ts:69-82 | the query is always sent; the count only when it is non-zero; country and language only when non-empty; safe search as "moderate" or "off" whenever it is given |
| BraveSearch.ParamOfParts | packages/gram/sources/plugins/brave-search/index.ts:70-82 | a parameter's value in the assembled list is its value in the first part that sets it |
| BraveSearch.QueryParamsDistinct | packages/gram/sources/plugins/brave-search/index.ts:70-82 | no parameter is set twice |
| BraveSearch.ParamAppend | packages/gram/sources/plugins/brave-search/index.ts:70-82 | a parameter's value in two lists joined is the first list's value if it sets one, else the second's |
| BraveSearch.Limit | packages/gram/sources/plugins/brave-search/index.ts:95 | without a count at most five results are kept; a count of zero or more keeps at most that many from the start; a negative count drops that many from the end |
| BraveSearch.ZeroCountAnswersNothing | packages/gram/sources/plugins/brave-search/index.ts:71-95 | a count of zero is not sent to the endpoint, yet it limits the answer to no results |
| BraveSearch.Lines | packages/gram/sources/plugins/brave-search/index.ts:104 | the part of a paragraph after its number starts with the dot |
| BraveSearch.ParagraphNumbered | packages/gram/sources/plugins/brave-search/index.ts:100-105 | a paragraph starts with its result's number counted from one and a dot, whatever the result leaves out |
| BraveSearch.TrimKeepsNumber | packages/gram/sources/plugins/brave-search/index.ts:104 | trimming a paragraph that starts with a number and a dot keeps both |
| BraveSearch.Paragraphs | packages/gram/sources/plugins/brave-search/index.ts:99-106 | one paragraph per kept result, in order, numbered by position |
| BraveSearch.AnswerText | packages/gram/sources/plugins/brave-search/index.ts:96-106 | the text is "No results found." exactly when no result is kept, and otherwise starts with "1." |
| BraveSearch.JoinPrefix | packages/gram/sources/plugins/brave-search/index.ts:106 | a join starts with its first part |
| BraveSearch.Outcome | packages/gram/sources/plugins/brave-search/index.ts:62-119 | without a truthy key the tool throws the store's missing-key error before fetching; a rejected `fetch` is rethrown; a response that is not ok throws "Brave search failed: <status>"; a body `response.json()` cannot read is rethrown; otherwise the tool answers the call with the text and the number of kept results in its details |
| BraveSearch.AnswerBounded | packages/gram/sources/plugins/brave-search/index.ts:16-113 | with a count from 1 to 10 or none, the answer counts at most that many results (five by default), and exactly that many when the endpoint returned enough |
| BraveSearch.ScoutLoad | packages/scout/sources/plugins/brave-search.ts:35-41 | the older plugin registers its tool under "web_search", owned by the plugin |
| BraveSearch.ScoutUnload | packages/scout/sources/plugins/brave-search.ts:101-103 | the older plugin unregisters "web_search" |
| BraveSearch.ToolName | packages/gram/sources/plugins/brave-search/index.ts:51 | the configured tool name, else "web_search" |
| BraveSearch.GramLoad | packages/gram/sources/plugins/brave-search/index.ts:55-61 | the newer plugin registers its tool under its name and changes nothing else |
| BraveSearch.GramUnload | packages/gram/sources/plugins/brave-search/index.ts:122-124 | the newer plugin unregisters that same name and changes nothing else |
| BraveSearch.GramLoadUnload | packages/gram/sources/plugins/brave-search/index.ts:55-124 | loading and then unloading an instance leaves the registrar as it was when the name was free |
| BraveSearch.Onboarding | packages/gram/sources/plugins/brave-search/index.ts:40-49 | onboarding stores a truthy key for the instance and returns empty settings, and stores nothing and returns null for an empty or cancelled key |
| Capabilities.UnownedMembers | packages/scout/sources/inference/registry.ts:16-22 | the walk that deletes one plugin's entries keeps exactly the keys that plugin does not own |
| Capabilities.Registry.constructor | packages/scout/sources/inference/registry.ts:6 | a new registry (inference, image or tool) is empty |
| Capabilities.Registry.Register | packages/scout/sources/inference/registry.ts:8-10 | the item is stored under its key (provider id or tool name), tagged with the plugin; an earlier entry with that key is replaced in place |
| Capabilities.Registry.Unregister | packages/scout/sources/inference/registry.ts:12-14 | only that key is removed |
| Capabilities.Registry.UnregisterByPlugin | packages/scout/sources/inference/registry.ts:16-22 | exactly the plugin's entries are removed; every other entry keeps its value and its place in the order |
| Capabilities.Registry.Get | packages/scout/sources/inference/registry.ts:24-26 | the item stored under the key, or none exactly when the key is absent |
| Capabilities.Registry.List | packages/scout/sources/inference/registry.ts:28-30 | one item per key, in insertion order, each the item `Get` returns for that key |
| GramCommands.CleanOptions | packages/gram/sources/commands/add.ts:560-564 | keeps exactly the options whose value is neither undefined nor the empty string, with their values |
| GramCommands.UpsertPlugin | packages/gram/sources/commands/add.ts:144-148 | the new instance goes last, and every earlier instance with its instance id is dropped |
| GramCommands.RemovePlugin | packages/gram/sources/commands/remove.ts:140 | exactly the instances with another instance id remain |
| GramCommands.WithoutProvider | packages/gram/sources/commands/add.ts:140 | exactly the providers with another id remain |
| GramCommands.NewProvider | packages/gram/sources/commands/add.ts:134-138 | the entry has the provider id and model, and options only when at least one option was collected |
| GramCommands.AddProvider | packages/gram/sources/commands/add.ts:133-154 | the provider replaces every entry with its id, first when it is made primary and last otherwise; its plugin instance is upserted, enabled, with instance id and plugin id both the provider id |
| GramCommands.AddProviderLeavesOne | packages/gram/sources/commands/add.ts:139-141 | after the update exactly one provider entry has the id |
| GramCommands.AddPlugin | packages/gram/sources/commands/add.ts:240-252 | the instance is upserted last and enabled, with settings only when there are some; the provider list is untouched |
| GramCommands.PromptValue | packages/gram/sources/commands/add.ts:497-510 | an answer is returned; null exactly when the prompt was cancelled (an Error named ExitPromptError); any other rejection is rethrown unchanged |
| GramCommands.Choices | packages/gram/sources/commands/remove.ts:63-75 | one `provider:<index>` choice per provider in order, then one `plugin:<instanceId>` choice per plugin instance |
| GramCommands.Decode | packages/gram/sources/commands/remove.ts:95-131 | a plugin selection is `plugin:` followed by the instance id it names |
| GramCommands.ProviderChoiceRoundTrip | packages/gram/sources/commands/remove.ts:65-96 | a provider choice decodes back to its own index |
| GramCommands.PluginChoiceRoundTrip | packages/gram/sources/commands/remove.ts:70-131 | a plugin choice decodes back to its own instance id |
| GramCommands.RemoveAt | packages/gram/sources/commands/remove.ts:109 | the list without the entry at the index, the others in order |
| GramCommands.RemoveProvider | packages/gram/sources/commands/remove.ts:103-121 | an index past the end changes nothing; otherwise the entry goes, and its plugin instance goes too unless another provider still has its id |
| GramCommands.RemoveProviderPlugins | packages/gram/sources/commands/remove.ts:109-113 | after removing a provider, an instance named by its id remains only when a provider with that id remains, and every other instance is kept |
| GramCommands.RemovePluginInstance | packages/gram/sources/commands/remove.ts:137-141 | exactly the instances with another id remain; the providers are untouched |
| GramCommands.ChoicesSelectTheirEntry | packages/gram/sources/commands/remove.ts:63-141 | every offered choice removes exactly the provider or the plugin instance it was built from |
| Connectors.ConnectorRegistry.constructor | packages/scout/sources/connectors/registry.ts:35-38 | a new registry holds no connector and has sent and delivered nothing |
| Connectors.ConnectorRegistry.List | packages/scout/sources/connectors/registry.ts:40-42 | the registered ids, each once, exactly those `has` answers yes for |
| Connectors.ConnectorRegistry.Get | packages/scout/sources/connectors/registry.ts:55-57 | the stored connector, or none exactly when the id is not registered |
| Connectors.ConnectorRegistry.Register | packages/scout/sources/connectors/registry.ts:59-72 | a registered id gives `already-loaded` and changes nothing; a new id gives `loaded`, is stored last and gets the message handler attached once |
| Connectors.ConnectorRegistry.Unregister | packages/scout/sources/connectors/registry.ts:74-89 | an absent id gives `not-loaded` and changes nothing; otherwise the handler is detached, `shutdown(reason)` is called when the connector has one (its failure is swallowed), the entry is removed and the result is `unloaded` |
| Connectors.ConnectorRegistry.UnregisterAll | packages/scout/sources/connectors/registry.ts:91-96 | afterwards no connector and no handler is left, and the `shutdown` calls are those of unregistering every id present at the call, in registration order |
| Connectors.ConnectorRegistry.Receive | packages/scout/sources/connectors/registry.ts:98-103 | a message a connector emits reaches `onMessage`, tagged with its id, exactly when that id is registered |
| Cron.TaskIdRoundTrip | packages/scout/sources/modules/runtime/cron.ts:199-221 | every generated `task-N` id matches the `^task-(\d+)$` pattern with its own number |
| Cron.MaxTaskNumber | packages/scout/sources/modules/runtime/cron.ts:218-228 | the largest `N` among the task ids of the form `task-N` (0 when there is none): every such number is at most it, and it is one of them |
| Cron.TakenNumberBounded | packages/scout/sources/modules/runtime/cron.ts:201-204 | a taken generated id has a number no larger than the seed maximum, which is why the search for a free id ends |
| Cron.SeedTaskCounter | packages/scout/sources/modules/runtime/cron.ts:218-230 | the counter is the larger of the task count and the largest `task-N` number |
| Cron.NormalizeTasks | packages/scout/sources/modules/runtime/cron.ts:210-216 | each task keeps its fields and its id, and a task without an id is named `task-<position from 1>` |
| Cron.NormalizeTasksMayCollide | packages/scout/sources/modules/runtime/cron.ts:210-216 | the constructor's naming does not look at the given ids: a task `task-2` followed by one without an id gives two tasks called `task-2` |
| Cron.DispatchRouting | packages/scout/sources/modules/runtime/cron.ts:106-153 | one run makes at most one callback: none once stopped; only its handler for a known action; only `onError` (when set) for an unknown action or a missing message; otherwise `onMessage` with the task's text, its user and the channel id, session id or `cron:<id>` |
| Cron.ScheduleKeeps | packages/scout/sources/modules/runtime/cron.ts:155-183 | arming a task keeps every filed handle naming a running timer of the task with that id, and every timer already running runs on unchanged: the one a new entry replaces is not cleared |
| Cron.RearmLeaks | packages/scout/sources/modules/runtime/cron.ts:175-181 | arming a task whose id already has a timer filed leaves that earlier timer running but filed under no id, so `stop` will not clear it |
| Cron.ScheduleArms | packages/scout/sources/modules/runtime/cron.ts:155-187 | an invalid interval (not finite or not positive) arms nothing and only reports; a one-shot task that runs on start arms nothing; another one-shot task starts a timeout, a repeating task an interval, under the next handle and filed under its id; a run on start is dispatched at once; nothing else changes |
| Cron.StartAllKeeps | packages/scout/sources/modules/runtime/cron.ts:65-71 | arming the tasks in list order keeps every filed handle naming a running timer of that task id, and every timer already running runs on unchanged |
| Cron.StartArmsOnlyEnabled | packages/scout/sources/modules/runtime/cron.ts:65-71 | every timer `start` starts runs one of the listed tasks, and that task is not disabled |
| Cron.StopClearsFiled | packages/scout/sources/modules/runtime/cron.ts:74-84 | `stop` clears exactly the filed timers and empties the map; a timer no longer filed runs on |
| Cron.SharedIdLeaksInterval | packages/scout/sources/modules/runtime/cron.ts:58-84 | two repeating tasks that share an id both run after `start`, only the second is filed, and after `stop` the first still runs |
| Cron.FireKeeps | packages/scout/sources/modules/runtime/cron.ts:168-181 | a timer going off adds its task's dispatch (nothing once stopped); an interval runs on; a spent timeout stops running and deletes whatever is filed under its task's id |
| Cron.OverwrittenTimeoutUnfilesOther | packages/scout/sources/modules/runtime/cron.ts:168-176 | a timeout whose entry a later task with the same id overwrote still dispatches its own task, and its clean-up unfiles that later task's timer, which runs on |
| Cron.CronScheduler.constructor | packages/scout/sources/modules/runtime/cron.ts:50-56 | the tasks are normalized, the counter is seeded from them, and nothing is started, stopped, armed, running or called |
| Cron.CronScheduler.ScheduleTask | packages/scout/sources/modules/runtime/cron.ts:155-183 | the timer map, the running timers and the callback log become what `Schedule` gives |
| Cron.CronScheduler.Start | packages/scout/sources/modules/runtime/cron.ts:58-72 | a second call, or a call after `stop`, changes nothing; otherwise the scheduler is started and every enabled task is armed in list order |
| Cron.CronScheduler.Stop | packages/scout/sources/modules/runtime/cron.ts:74-84 | a second call changes nothing; otherwise the scheduler is stopped and its timers become what `StopTimers` gives: the filed ones cleared, the map emptied, the rest running on; the tasks and the counter are kept |
| Cron.CronScheduler.Fire | packages/scout/sources/modules/runtime/cron.ts:168-181 | the timer with the given handle goes off and the state becomes what `FireTimer` gives |
| Cron.CronScheduler.NextTaskId | packages/scout/sources/modules/runtime/cron.ts:197-208 | the first `task-N` above the counter that no task uses; every id skipped on the way is taken; the counter becomes N |
| Cron.CronScheduler.AddTask | packages/scout/sources/modules/runtime/cron.ts:86-100 | a taken id is rejected with "Cron task already exists", changing nothing; otherwise the task (its id given, or generated fresh) is appended and armed exactly when the scheduler runs and the task is not disabled |
| CronTool.TaskConfig | packages/scout/sources/tools/cron.ts:52-63 | a `send-message` task for the given period and message, addressed to the requested chat or else the caller's, through the requested connector or else the caller's, one-shot unless `once` is false |
| CronTool.Reply | packages/scout/sources/tools/cron.ts:66-79 | a successful tool result with the scheduling text and the task id in the details |
| CronTool.OnceMarked | packages/scout/sources/tools/cron.ts:73 | a one-shot task's text is the repeating one with " (once)" inserted before the final dot |
| CronTool.Execute | packages/scout/sources/tools/cron.ts:37-82 | a missing scheduler, a missing registry and an unloaded connector fail in that order and change nothing; a taken id fails with "Cron task already exists"; otherwise exactly one task (`TaskConfig` with its id) is appended, `onTaskAdded` gets it when set, and the reply names it |
| CronTool.SendMessageAction | packages/scout/sources/engine/runtime.ts:194-213 | a message is sent exactly when the task's connector (Telegram by default) is loaded and its message is non-empty, to the task's channel |
| CronTool.ScheduledTaskSendsBack | packages/scout/sources/engine/runtime.ts:194-225 | a task the tool scheduled runs only the `send-message` action when it fires, and that sends the tool's message to the requested chat, or else the caller's |
| Engine.ToolCallsOfMembers | packages/scout/sources/engine/runtime.ts:578-580 | exactly the tool-call blocks, none added |
| Engine.ExtractToolCallsMembers | packages/scout/sources/engine/runtime.ts:574-581 | the tool calls of an assistant message, and none for any other message |
| Engine.TextsOf | packages/scout/sources/engine/runtime.ts:567-570 | exactly the non-empty texts of the text blocks |
| Engine.ExtractAssistantText | packages/scout/sources/engine/runtime.ts:563-572 | null for a message that is not the assistant's; otherwise a text that is "" (not null) exactly when no text block is non-empty |
| Engine.NormalizeSessionState | packages/scout/sources/engine/runtime.ts:583-591 | the result's messages are always an array; a stored context whose messages are an array is kept as it is |
| Engine.NormalizeIdempotent | packages/scout/sources/engine/runtime.ts:583-591 | normalizing a normalized state changes nothing |
| Engine.FileBlocks | packages/scout/sources/engine/runtime.ts:512-526 | one block per received file, in order |
| Engine.UserMessageShape | packages/scout/sources/engine/runtime.ts:494-533 | the plain text alone when there are no files; otherwise the text (when non-empty) followed by one block per file |
| Engine.ReadFailureMembers | packages/scout/sources/engine/runtime.ts:512-526 | building the user message fails exactly when some image attachment cannot be read, and then with the error of the first such image in file order, every earlier image having been read |
| Engine.ReadFileBlocks | packages/scout/sources/engine/runtime.ts:512-526 | the `for` loop over the files yields one block per file in order, or the error of the first image whose read throws |
| Engine.BuildUserMessage | packages/scout/sources/engine/runtime.ts:494-533 | the error of the first image attachment whose `fs.readFile` throws; otherwise the message `UserMessageShape` describes |
| Engine.ToolMessagesInOrder | packages/scout/sources/engine/runtime.ts:419-434 | one tool-result message per call, in call order |
| Engine.IterateBounded | packages/scout/sources/engine/runtime.ts:384-439 | the loop makes at most one inference call per remaining iteration, and at least one |
| Engine.IterateExtends | packages/scout/sources/engine/runtime.ts:384-439 | the loop only appends to the conversation and to the generated files |
| Engine.IterateGrows | packages/scout/sources/engine/runtime.ts:384-439 | an iteration that ends without an error always leaves a longer conversation |
| Engine.IterateEnds | packages/scout/sources/engine/runtime.ts:384-439 | the loop ends with an error or a response; `toolLoopExceeded` is set exactly when the last response still asked for tools, and then every iteration made its call |
| Engine.ToolLoopBounded | packages/scout/sources/engine/runtime.ts:379-439 | one message costs between one and five inference calls, the conversation only grows, and the loop ends with an error, with a response that asks for no tools, or after the fifth round of tools, which alone sets `toolLoopExceeded` |
| Engine.InferenceErrorText | packages/scout/sources/engine/runtime.ts:442-445 | "No inference provider available." exactly for the router's no-provider error, "Inference failed." for every other error |
| Engine.UnroutableReportsNoProvider | packages/scout/sources/engine/runtime.ts:440-446 | when no configured provider is registered, the user is told "No inference provider available." |
| Engine.LimitReplyOnlyAtLimit | packages/scout/sources/engine/runtime.ts:457-470 | "Tool execution limit reached." is sent exactly when the fifth response still asked for tools and there is neither reply text nor a generated file |
| Engine.DecideLimit | packages/scout/sources/engine/runtime.ts:452-470 | the same decision for every state the loop can end in |
| Engine.NoFallbackForAssistant | packages/scout/sources/engine/runtime.ts:472 | an assistant response is answered with its own text, "" included: the "Generated files." fallback is never taken for it |
| Engine.EmptyTextWithFilesIsSentEmpty | packages/scout/sources/engine/runtime.ts:457-478 | an assistant response with no text and a generated file is sent as "" with the file |
| Engine.ReplyEffects | packages/scout/sources/engine/runtime.ts:440-491 | the handler throws only when the error notice cannot be sent; a silent end only records the state; every other reply first sends to the message's channel; the state is recorded last unless the handler throws |
| Engine.Unanswered | packages/scout/sources/engine/runtime.ts:321-347 | exactly the restored sessions whose last entry was incoming and whose connector is loaded |
| Engine.RecoveryNotifiesUnanswered | packages/scout/sources/engine/runtime.ts:301-354 | recovery sends exactly one "Internal error." to each unanswered session's channel, in order |
| Engine.Session.constructor | packages/scout/sources/engine/runtime.ts:356-360 | a session with its id and its conversation |
| Engine.Runtime.constructor | packages/scout/sources/engine/runtime.ts:62 | a runtime of the given generation over its connector registry that has done nothing yet |
| Engine.Runtime.HandleSessionMessage | packages/scout/sources/engine/runtime.ts:356-491 | a message without text or files, or from a source whose connector is not loaded, changes nothing; an image attachment that cannot be read throws out of the handler, before its `try`, with the conversation and the effects unchanged; otherwise the conversation grows by the user message and the tool loop, and the effects are those of the reply |
| Engine.Runtime.Converse | packages/gram/sources/engine/engine.ts:437-557 | the built user message joins the conversation, the loop runs inside the typing indicator (newer engine, whose `finally` runs after the error notice), then the reply follows |
| Engine.Runtime.Reply | packages/gram/sources/engine/engine.ts:500-557 | the effects after the loop are `ReplyEffects` of the decision, with the bus event "session.outgoing" in the newer engine and the memory record in the older |
| Engine.Runtime.RunToolLoop | packages/scout/sources/engine/runtime.ts:384-439 | the `for` loop over the session's own messages computes `Iterate`, and the session's messages are the loop's conversation |
| Engine.Runtime.RunTools | packages/scout/sources/engine/runtime.ts:419-434 | every call's result message joins the conversation in call order, and the files are collected in that order |
| Engine.Runtime.RestoreSessions | packages/scout/sources/engine/runtime.ts:301-333 | one normalized state per restored session, and the notices owed to the sessions left waiting |
| Engine.Runtime.SendPendingInternalErrors | packages/scout/sources/engine/runtime.ts:335-354 | one "Internal error." per pending session whose connector is loaded; a failed send does not stop the ones after it |
| PluginEvents.Fanout | packages/gram/sources/plugins/events.ts:41-43 | one call per registered listener, in registration order, each with the event |
| PluginEvents.FanoutReaches | packages/gram/sources/plugins/events.ts:39-44 | a listener receives an event exactly when it is registered at the time of the enqueue |
| PluginEvents.UnsubscribedHearsNothing | packages/gram/sources/plugins/events.ts:59-64 | once its unsubscribe function has run, a listener is called by no later enqueue |
| PluginEvents.FanoutStopsAtThrow | packages/gram/sources/plugins/events.ts:39-44 | the loop reaches every listener exactly when none throws; otherwise it calls every listener up to the first that throws, stops there and rethrows that listener's error |
| PluginEvents.PluginEventQueue.constructor | packages/gram/sources/plugins/events.ts:22-24 | a new queue holds no event and no listener |
| PluginEvents.PluginEventQueue.Emit | packages/gram/sources/plugins/events.ts:26-37 | the returned event carries the source's plugin and instance ids and the input's type and payload; it is queued last, then the listeners are called in order until one throws, and that error is what `emit` throws |
| PluginEvents.PluginEventQueue.Enqueue | packages/gram/sources/plugins/events.ts:39-44 | the event is queued last even when a listener throws; the registered listeners are called with it in order, up to and including the first that throws, whose error `enqueue` rethrows |
| PluginEvents.PluginEventQueue.Drain | packages/gram/sources/plugins/events.ts:46-53 | every queued event is returned in emission order, and the queue is left empty |
| PluginEvents.PluginEventQueue.Size | packages/gram/sources/plugins/events.ts:55-57 | the number of queued events not yet drained |
| PluginEvents.PluginEventQueue.OnEvent | packages/gram/sources/plugins/events.ts:59-60 | the listener is added to the set, once |
| PluginEvents.PluginEventQueue.Unsubscribe | packages/gram/sources/plugins/events.ts:61-63 | the listener is removed from the set |
| Filename.DropUnsafe | packages/scout/sources/util/filename.ts:1 | the input minus its leading run of characters outside `[a-zA-Z0-9._-]`, so the rest starts with a safe character or is empty |
| Filename.ReplaceUnsafeRuns | packages/scout/sources/util/filename.ts:1-5 | the result holds only safe characters and is no longer than the input |
| Filename.SanitizeFilename | packages/scout/sources/util/filename.ts:3-7 | the file name is never empty and holds only characters of `[a-zA-Z0-9._-]` |
| Filename.ReplaceKeepsSafe | packages/scout/sources/util/filename.ts:5 | a string of safe characters passes the replacement unchanged |
| Filename.UnsafeRunBecomesOneUnderscore | packages/scout/sources/util/filename.ts:1-5 | a maximal run of unsafe characters becomes exactly one "_" |
| Filename.DropUnsafeRun | packages/scout/sources/util/filename.ts:1 | dropping the leading unsafe run stops at the first safe character |
| Filename.SafeCharKept | packages/scout/sources/util/filename.ts:5 | a safe character is kept in place |
| Filename.BlankIsFile | packages/scout/sources/util/filename.ts:4-6 | an input that is blank after trimming gives "file" |
| Filename.SafeIsNotWhitespace | packages/scout/sources/util/filename.ts:1-4 | a safe character is never whitespace, so trimming leaves a safe name alone |
| Filename.SafeNameUnchanged | packages/scout/sources/util/filename.ts:3-7 | a non-empty name of safe characters is its own file name |
| Filename.SanitizeIdempotent | packages/scout/sources/util/filename.ts:3-7 | sanitizing twice gives the same name as sanitizing once |
| Memory.EntriesOf | packages/scout/sources/memory/engine.ts:91-101 | exactly the entries of the lines that parse, in file order |
| Memory.EntriesOfAppend | packages/scout/sources/memory/engine.ts:91-101 | reading a log split in two gives the entries of both parts, in order |
| Memory.LinesOf | packages/scout/sources/memory/engine.ts:111 | one line per entry, in order |
| Memory.EntriesOfLinesOf | packages/scout/sources/memory/engine.ts:104-113 | rewriting entries as lines and reading them back gives the same entries |
| Memory.ReadEntries | packages/scout/sources/memory/engine.ts:81-102 | a missing file gives no entries; another read failure is rethrown; otherwise the parsed entries |
| Memory.Matching | packages/scout/sources/memory/engine.ts:59-61 | exactly the entries whose lower-cased text contains the needle, in log order |
| Memory.QueryNewest | packages/scout/sources/memory/engine.ts:53-63 | a query returns the newest `limit` entries of its pool in log order (the whole pool for a limit of 0, as `slice(-0)` does), and with a non-blank text every result matches it |
| Memory.PruneKeepsNewest | packages/scout/sources/memory/engine.ts:104-113 | with a positive bound, pruning leaves at most that many entries, the newest ones, and exactly that many when there were more |
| Memory.MemoryEngine.constructor | packages/scout/sources/memory/engine.ts:33-37 | the engine holds the given log and bound |
| Memory.MemoryEngine.Record | packages/scout/sources/memory/engine.ts:39-51 | the entry gets its id and timestamp and is appended as the last line; the log is then pruned when the bound is set and non-zero; a log that cannot be read gives its error |
| Memory.MemoryEngine.Prune | packages/scout/sources/memory/engine.ts:104-113 | the log becomes the pruned log |
| Memory.MemoryEngine.Query | packages/scout/sources/memory/engine.ts:53-63 | a read error is rethrown; otherwise the newest matching entries `QueryNewest` describes |
| Memory.RecordedIsNewest | packages/scout/sources/memory/engine.ts:39-51 | with a positive bound, a recorded entry is the newest in the log and the log holds at most the bound |
| Memory.ResultLine | packages/scout/sources/tools/memory.ts:33-36 | a result line starts with "[" (the session id in brackets) |
| Memory.ResultLines | packages/scout/sources/tools/memory.ts:32-37 | one result line per entry, in order |
| Memory.SearchText | packages/scout/sources/tools/memory.ts:30-37 | "No memory matches." exactly when there are no results, otherwise the result lines joined by newlines |
| Memory.SearchTool | packages/scout/sources/tools/memory.ts:24-53 | no engine throws "Memory engine unavailable"; a failed query is rethrown; otherwise a successful result with the text and the result count, for the query with a default limit of 10 |
| GramMemory.HandleEvent | packages/gram/sources/plugins/memory/index.ts:52-93 | a "session.updated" or "session.outgoing" event whose message has a non-empty text or a file is recorded, as the user's or the assistant's, with its session, source, string text and files (only when there are some); every other event records nothing |
| GramMemory.OtherEventsIgnored | packages/gram/sources/plugins/memory/index.ts:52-93 | events of any other type record nothing |
| GramMemory.MemoryOptions | packages/gram/sources/plugins/memory/index.ts:46-49 | the plugin's own base path and bound come first, then the data directory's `memory` folder and the engine's bound |
| GramMemory.MemoryPlugin.constructor | packages/gram/sources/plugins/memory/index.ts:50 | a new instance holds no subscription and has made no call |
| GramMemory.MemoryPlugin.Load | packages/gram/sources/plugins/memory/index.ts:96-101 | registers `memory_search`, and subscribes to the engine's events only when there is an event stream |
| GramMemory.MemoryPlugin.Unload | packages/gram/sources/plugins/memory/index.ts:102-106 | unsubscribes when subscribed, clears the handle, and unregisters `memory_search` |
| GramRegistrar.Registrar.constructor | packages/gram/sources/engine/plugins/types.ts:18 | a plugin starts with nothing registered through its registrar |
| GramRegistrar.Registrar.RegisterInferenceProvider | packages/gram/sources/plugins/providers/openai-compatible/plugin.ts:38-40 | the provider is registered under its id with its label; the tools are untouched |
| GramRegistrar.Registrar.UnregisterInferenceProvider | packages/gram/sources/plugins/providers/openai-compatible/plugin.ts:85 | only that provider id is removed; the tools are untouched |
| GramRegistrar.Registrar.RegisterTool | packages/gram/sources/plugins/brave-search/index.ts:56 | the tool name is added; the providers are untouched |
| GramRegistrar.Registrar.UnregisterTool | packages/gram/sources/plugins/brave-search/index.ts:123 | only that tool name is removed; the providers are untouched |
| ImageTool.SelectProvider | packages/scout/sources/tools/image-generation.ts:31-44 | no provider gives "No image generation providers available"; a requested provider is used when registered and otherwise gives "Unknown image provider"; without a request the only provider is used, and several give "Multiple image providers available; specify provider" |
| ImageTool.ImageBlocksMembers | packages/scout/sources/tools/image-generation.ts:66-76 | exactly one image block per generated file whose MIME type starts with "image/", and no more blocks than files |
| ImageTool.ImageBlocksAppend | packages/scout/sources/tools/image-generation.ts:66-76 | the image blocks of two file lists joined are the blocks of each, in order |
| ImageTool.FileDetails | packages/scout/sources/tools/image-generation.ts:85-90 | one entry per generated file with its id, name, MIME type and size |
| ImageTool.Outcome | packages/scout/sources/tools/image-generation.ts:29-100 | a selection error or a `generate` error is thrown; otherwise a successful result with the summary line, then the image blocks, returning every generated file |
| ImageTool.Content | packages/scout/sources/tools/image-generation.ts:60-76 | the `for` loop over the generated files yields the summary line followed by exactly the image blocks, in file order |
| ImageTool.Execute | packages/scout/sources/tools/image-generation.ts:29-100 | the whole `execute` agrees with `Outcome`: the same errors thrown, the same result returned |
| OpenAiCompatible.CreateClient | packages/gram/sources/plugins/openai-compatible.ts:37-76 | the base URL is checked before the model id (the call's model, else the configured one); the model takes every configured field and a fixed default for each missing one (name = id, "openai-completions", "openai-compatible", no reasoning, text input, zero cost, 8192, 2048); the key is the auth store's |
| OpenAiCompatible.DefaultModel | packages/gram/sources/plugins/openai-compatible.ts:47-66 | with only a base URL and a model the description takes every default |
| OpenAiCompatible.EmptyCallModelIsNotReplaced | packages/gram/sources/plugins/openai-compatible.ts:39-46 | an empty model id from the call is not replaced by the configured one, so the call fails with the missing-model error |
| OpenAiCompatible.InferApi | packages/gram/sources/plugins/providers/openai-compatible/plugin.ts:155-161 | the Responses API exactly when the lower-cased base URL contains "responses", the Completions API otherwise |
| OpenAiCompatible.CheckInstance | packages/gram/sources/plugins/providers/openai-compatible/plugin.ts:33-35 | creation succeeds exactly for the "openai-compatible" plugin id, and fails with the mismatch message otherwise |
| OpenAiCompatible.Onboarding | packages/gram/sources/plugins/providers/openai-compatible/plugin.ts:89-137 | a plugin-id mismatch throws; a cancelled or empty answer ends the flow with no result, with a note for an empty base URL or model; the key is stored only when non-empty; the result names the provider, the model and the options base URL, model id and inferred API |
| OpenAiCompatible.LoadInstance | packages/gram/sources/plugins/openai-compatible.ts:33-36 | the provider is registered under the instance id, which is also its label |
| OpenAiCompatible.UnloadInstance | packages/gram/sources/plugins/openai-compatible.ts:80-82 | the instance id is unregistered |
| OpenAiCompatible.Load | packages/gram/sources/plugins/providers/openai-compatible/plugin.ts:37-41 | the provider is registered as "openai-compatible" with the label "OpenAI-compatible" |
| OpenAiCompatible.Unload | packages/gram/sources/plugins/providers/openai-compatible/plugin.ts:84-86 | "openai-compatible" is unregistered |
| GramPlugins.EnabledInstances | packages/gram/sources/engine/plugins/manager.ts:76 | the enabled instances are exactly the configured ones whose enabled is not false |
| GramPlugins.LoadStep | packages/gram/sources/engine/plugins/manager.ts:119-183 | a loaded instance id returns at once; a plugin id missing from the catalog throws "Unknown plugin: <pluginId>"; otherwise the load succeeds exactly when preparing the module and the load hook do, a failure leaves the loaded instances as they were, and success records the instance |
| GramPlugins.LoadRollsBack | packages/gram/sources/engine/plugins/manager.ts:163-182 | a load whose hook throws tears down the registrar it created, records nothing and rethrows; a successful one records the instance last in load order with its parsed settings |
| GramPlugins.LoadIdempotent | packages/gram/sources/engine/plugins/manager.ts:119-123 | loading again after a successful load changes nothing |
| GramPlugins.UnloadStep | packages/gram/sources/engine/plugins/manager.ts:185-203 | an absent id is a no-op; otherwise the hook runs, then the registrar is torn down and the entry removed whether or not the hook threw, and the hook's outcome is the result |
| GramPlugins.UnloadIdempotent | packages/gram/sources/engine/plugins/manager.ts:185-189 | unloading again after an unload does nothing and returns |
| GramPlugins.LoadEachLoadsAll | packages/gram/sources/engine/plugins/manager.ts:205-211 | when every load succeeds, the loaded instances are those loaded before plus every listed one |
| GramPlugins.UnloadEachEmpties | packages/gram/sources/engine/plugins/manager.ts:213-218 | unloading a snapshot of every loaded id leaves nothing loaded unless a hook throws |
| GramPlugins.LastWith | packages/gram/sources/engine/plugins/manager.ts:77 | the desired map holds, for an id, a desired configuration with that id, and nothing exactly when no desired configuration has it |
| GramPlugins.ReconcileLeavesCurrent | packages/gram/sources/engine/plugins/manager.ts:79-96 | after the first loop completes, no loaded instance is stale and every surviving entry is the one loaded before |
| GramPlugins.ReconcileKeepsCurrent | packages/gram/sources/engine/plugins/manager.ts:79-96 | whether the first loop completes or throws, every loaded instance that is not stale is still loaded with its entry untouched, and every call the loop makes is an unload hook or teardown of a loaded instance that was stale |
| GramPlugins.ApplyLoadsDesired | packages/gram/sources/engine/plugins/manager.ts:98-112 | after the second loop completes, the loaded ids are those loaded before plus every desired one, a desired entry holds the last desired configuration, and any other entry is untouched |
| GramPlugins.SyncLoadsExactlyDesired | packages/gram/sources/engine/plugins/manager.ts:74-113 | after a successful sync the loaded instances are exactly the enabled ones, each holding the last enabled configuration with its id |
| GramPlugins.ReconcileNothingStale | packages/gram/sources/engine/plugins/manager.ts:79-96 | the first loop changes nothing when no loaded instance is stale |
| GramPlugins.ApplyAllLoaded | packages/gram/sources/engine/plugins/manager.ts:98-106 | the second loop makes no call and keeps the loaded ids when every desired instance is loaded |
| GramPlugins.SyncTwiceIsQuiet | packages/gram/sources/engine/plugins/manager.ts:74-113 | a second sync with the same settings succeeds and loads and unloads nothing |
| GramPlugins.PluginManager.constructor | packages/gram/sources/engine/plugins/manager.ts:50-60 | a new manager has the given settings and catalog and nothing loaded |
| GramPlugins.PluginManager.ListLoaded | packages/gram/sources/engine/plugins/manager.ts:62-64 | the listed ids are exactly the loaded ones, each once |
| GramPlugins.PluginManager.GetConfig | packages/gram/sources/engine/plugins/manager.ts:115-117 | a loaded instance's configuration, and null exactly for an id not loaded |
| GramPlugins.PluginManager.UpdateSettings | packages/gram/sources/engine/plugins/manager.ts:70-72 | the settings are replaced and nothing else changes |
| GramPlugins.PluginManager.Load | packages/gram/sources/engine/plugins/manager.ts:119-183 | the new state and outcome are those of the load step |
| GramPlugins.PluginManager.Unload | packages/gram/sources/engine/plugins/manager.ts:185-203 | the new state and outcome are those of the unload step |
| GramPlugins.PluginManager.LoadEnabled | packages/gram/sources/engine/plugins/manager.ts:205-211 | the settings are stored, then every enabled instance is loaded in order, stopping at the first that throws |
| GramPlugins.PluginManager.UnloadAll | packages/gram/sources/engine/plugins/manager.ts:213-218 | every id loaded at the call is unloaded in load order, stopping at the first hook that throws |
| GramPlugins.PluginManager.SyncWithSettings | packages/gram/sources/engine/plugins/manager.ts:74-113 | the settings are stored and the new state and outcome are those of the sync, whose two loops are proved above: the first unloads exactly the stale instances (`ReconcileKeepsCurrent`, `ReconcileLeavesCurrent`), the second loads or refreshes the desired ones |
| GramPlugins.PluginManager.UnloadStale | packages/gram/sources/engine/plugins/manager.ts:79-95 | the first loop, over the ids loaded when it starts, computes `Reconcile`: it unloads each disabled or changed instance, and no other (`ReconcileKeepsCurrent`), and stops at the first unload that throws |
| GramPlugins.PluginManager.LoadDesired | packages/gram/sources/engine/plugins/manager.ts:97-111 | the second loop computes `Apply`: a loaded desired instance takes the new config and settings in place, any other is loaded, stopping at the first load that fails |
| ProviderClients.FirstWhere | packages/gram/sources/plugins/providers/_common/pi-ai-provider/plugin.ts:139-141 | the index found is the first whose id satisfies the test, and none means no id does |
| ProviderClients.ResolveModelId | packages/gram/sources/plugins/providers/_common/pi-ai-provider/plugin.ts:126-144 | it fails with "No models available" exactly when there are no models; otherwise it returns a listed id: the preferred one when that is listed, else the first "-latest" alias, else the first id mentioning "latest", else the first id |
| ProviderClients.AliasMentionsLatest | packages/gram/sources/plugins/providers/_common/pi-ai-provider/plugin.ts:139-141 | an id ending in "-latest" mentions "latest" |
| ProviderClients.BuildOptions | packages/gram/sources/plugins/providers/_common/pi-ai-provider/plugin.ts:146-159 | the call's options override the configured ones key by key; with a truthy key, apiKey is the call's own non-null key or else the resolved key; without one, apiKey is left as merged |
| ProviderClients.NoKeyKeepsConfig | packages/gram/sources/plugins/providers/_common/pi-ai-provider/plugin.ts:146-159 | without a key and without call options, a call uses exactly the configured options |
| ProviderClients.ResolveApiKey | packages/gram/sources/plugins/providers/_common/pi-ai-provider/plugin.ts:161-197 | no key for a keyless provider; stored OAuth credentials give the refreshed key and are saved back, a rejection of `getOAuthApiKey` is rethrown, and no grant throws only for an OAuth-only provider; otherwise the stored key, throwing "Missing OAuth credentials" or "Missing <id> apiKey in auth store" when it is falsy and the provider requires it |
| ProviderClients.RequiredKeyIsTruthy | packages/gram/sources/plugins/providers/_common/pi-ai-provider/plugin.ts:193-195 | an API-key provider without the optional flag never resolves to a falsy key |
| ProviderClients.SavesOnlyRefreshedOAuth | packages/gram/sources/plugins/providers/_common/pi-ai-provider/plugin.ts:174-187 | credentials are written back exactly when stored OAuth credentials were used and refreshed |
| ProviderClients.OptionalKeyOnlyRelaxes | packages/gram/sources/plugins/providers/_common/pi-ai-provider/plugin.ts:193-195 | the optional-key flag changes the outcome only for an API-key provider with no truthy stored key, turning the error into the stored key |
| PiAiProviders.Ids | packages/gram/sources/plugins/providers/_common/pi-ai-provider/plugin.ts:288-291 | the ids are the models' ids, in order |
| PiAiProviders.ClientFor | packages/gram/sources/plugins/providers/_common/pi-ai-provider/plugin.ts:44-49 | a failed model lookup is rethrown; an id getModel does not know throws "Unknown <id> model"; otherwise the client uses that id and the resolved key, or the key's error |
| PiAiProviders.CheckInstance | packages/gram/sources/plugins/providers/_common/pi-ai-provider/plugin.ts:33-36 | creation succeeds exactly when the instance is of this provider's plugin, else throws the mismatch error |
| PiAiProviders.CreateClient | packages/gram/sources/plugins/providers/_common/pi-ai-provider/plugin.ts:44-49 | no models throws "No models available"; a client's model is known and listed, a listed preference is used, and its key is the resolved one; credentials are saved only on success |
| PiAiProviders.SortedIds | packages/gram/sources/plugins/providers/_common/pi-ai-provider/plugin.ts:288-291 | the sorted ids are the same ids |
| PiAiProviders.PermutedIds | packages/gram/sources/plugins/providers/_common/pi-ai-provider/plugin.ts:288-291 | a permutation of the models has the same ids |
| PiAiProviders.DefaultModelIsBest | packages/gram/sources/plugins/providers/_common/pi-ai-provider/plugin.ts:126-144 | without a listed preference and without a "latest" model, the default is a model that precedes all others, and it reasons whenever any model does |
| PiAiProviders.SortedIdsAreSortedModels | packages/gram/sources/plugins/providers/_common/pi-ai-provider/plugin.ts:288-291 | the sorted ids are the ids of the sorted models |
| PiAiProviders.Load | packages/gram/sources/plugins/providers/_common/pi-ai-provider/plugin.ts:39-59 | load registers the provider under the configured id and label and nothing else |
| PiAiProviders.Unload | packages/gram/sources/plugins/providers/_common/pi-ai-provider/plugin.ts:60-62 | unload removes that id and nothing else |
| PiAiProviders.CreateInstanceClient | packages/gram/sources/plugins/pi-ai-provider.ts:33-55 | no models throws; a client's model is known and listed; an API-key provider's client always has a truthy key; without a preference or "latest" model the first model in the library's order is used |
| PiAiProviders.LoadInstance | packages/gram/sources/plugins/pi-ai-provider.ts:29-57 | load registers under the instance id with the spec's label |
| PiAiProviders.UnloadInstance | packages/gram/sources/plugins/pi-ai-provider.ts:58-60 | unload removes the instance id |
| PiAiProviders.TwoInstances | packages/gram/sources/plugins/pi-ai-provider.ts:27-60 | for any two distinct instance ids, both are registered under their own ids, and unloading one leaves exactly the other |
| ScoutProviders.IdsDiffer | packages/scout/sources/plugins/openai-codex.ts:14-18 | the two older provider plugins register under different ids |
| ScoutProviders.CreateClient | packages/scout/sources/plugins/openai-codex.ts:20-45 | without a truthy secret it throws "Missing <id> apiKey in secrets store" whatever else holds; with one, no models throws, a listed preference is used when getModel knows it, and a client exists exactly when the resolved model is known, using the secret |
| ScoutProviders.SecretCheckedFirst | packages/scout/sources/plugins/openai-codex.ts:21-24 | a missing and an empty secret fail alike, whatever the library offers and whatever model is asked for |
| ScoutProviders.CallOptions | packages/scout/sources/plugins/openai-codex.ts:32-43 | a call's options always carry apiKey, which is the secret exactly when the call brings no non-null key of its own or brings the secret, and carry every other configured or call key |
| ScoutProviders.CallOptionsAgreeWithBuildOptions | packages/scout/sources/plugins/openai-codex.ts:32-43 | with a non-empty secret, the older option merge equals the newer buildOptions |
| ScoutProviders.Load | packages/scout/sources/plugins/openai-codex.ts:16-19 | load registers the provider under its id and title, owned by the plugin, and tracks the id |
| ScoutProviders.Unload | packages/scout/sources/plugins/openai-codex.ts:48-50 | unload removes that id and stops tracking it |
| ProviderTable.Find | packages/gram/sources/plugins/providers.ts:32-34 | the lookup finds an entry exactly when some entry has the id, and what it finds is such an entry |
| ProviderTable.GetProviderDefinition | packages/gram/sources/plugins/providers.ts:32-34 | a definition is found exactly for the ids in the table, and it has that id |
| ProviderTable.IdsDistinct | packages/gram/sources/plugins/providers.ts:12-30 | no two definitions share an id |
| ProviderTable.OptionalKeyOnlyForCompatible | packages/gram/sources/plugins/providers.ts:12-30 | the key is optional exactly for the OpenAI-compatible kind, whose only entry is "openai-compatible" |
| ProviderTable.AuthModes | packages/gram/sources/plugins/providers.ts:12-30 | Anthropic accepts a key or OAuth, and every other provider needs a key |
| ProviderTable.FindListed | packages/gram/sources/plugins/providers.ts:33 | an entry whose id no earlier entry has is what the lookup returns for it |
| ProviderTable.LookupFindsEachEntry | packages/gram/sources/plugins/providers.ts:32-34 | every entry of the table is what the lookup returns for its id |
| ScoutPlugins.LoadStep | packages/scout/sources/plugins/manager.ts:60-86 | a loaded id returns at once; an id without a factory throws "Unknown plugin: <id>"; otherwise the load succeeds exactly when the hook does, a failure leaves the loaded plugins as they were, and success records the plugin |
| ScoutPlugins.LoadDoesNotRollBack | packages/scout/sources/plugins/manager.ts:70-84 | a load whose hook throws rethrows and records nothing, and makes no teardown call on the registrar it created |
| ScoutPlugins.LoadIdempotent | packages/scout/sources/plugins/manager.ts:60-64 | loading again after a successful load changes nothing |
| ScoutPlugins.UnloadStep | packages/scout/sources/plugins/manager.ts:88-110 | an absent id is a no-op; otherwise the hook runs, then the registrar is torn down and the plugin forgotten whether or not the hook threw, and the hook's outcome is the result |
| ScoutPlugins.UnloadIdempotent | packages/scout/sources/plugins/manager.ts:88-92 | unloading again after an unload does nothing and returns |
| ScoutPlugins.LoadEachInOrder | packages/scout/sources/plugins/manager.ts:112-120 | when every load succeeds, the hook of each listed plugin not yet loaded runs once in list order, and every listed plugin ends up loaded |
| ScoutPlugins.LoadEachKeeps | packages/scout/sources/plugins/manager.ts:117-119 | a run of loads never forgets a loaded plugin |
| ScoutPlugins.UnloadEachEmpties | packages/scout/sources/plugins/manager.ts:122-127 | unloading a snapshot of every loaded id leaves nothing loaded unless a hook throws |
| ScoutPlugins.PluginManager.constructor | packages/scout/sources/plugins/manager.ts:39-46 | a new manager has the given settings and factories and nothing loaded |
| ScoutPlugins.PluginManager.ListLoaded | packages/scout/sources/plugins/manager.ts:48-50 | the listed ids are exactly the loaded ones, each once |
| ScoutPlugins.PluginManager.GetConfig | packages/scout/sources/plugins/manager.ts:56-58 | a loaded plugin's configuration, and null exactly for an id not loaded |
| ScoutPlugins.PluginManager.UpdateSettings | packages/scout/sources/plugins/manager.ts:52-54 | the settings are replaced and nothing else changes |
| ScoutPlugins.PluginManager.Load | packages/scout/sources/plugins/manager.ts:60-86 | the new state and outcome are those of the load step |
| ScoutPlugins.PluginManager.Unload | packages/scout/sources/plugins/manager.ts:88-110 | the new state and outcome are those of the unload step |
| ScoutPlugins.PluginManager.LoadEnabled | packages/scout/sources/plugins/manager.ts:112-120 | the settings are stored, then every plugin whose enabled is not false is loaded in settings order, stopping at the first that throws |
| ScoutPlugins.PluginManager.UnloadAll | packages/scout/sources/plugins/manager.ts:122-127 | every id loaded at the call is unloaded in load order, stopping at the first hook that throws |
| ModelRanking.ModelTier | packages/gram/sources/plugins/providers/_common/pi-ai-provider/plugin.ts:316-329 | the tier lies in -2..3; a label with a large-size keyword and no small one is in tier 2 or above, one with only a small keyword is below 0, and one with neither is 1 exactly when it has a medium keyword |
| ModelRanking.SmallKeywordCapsTier | packages/gram/sources/plugins/providers/_common/pi-ai-provider/plugin.ts:316-329 | a small-size keyword anywhere in the lower-cased label keeps the model below tier 2 |
| ModelRanking.GeminiProIsNotLarge | packages/gram/sources/plugins/providers/_common/pi-ai-provider/plugin.ts:319-327 | keywords match as substrings, so "gemini-pro" counts "mini" and stays below tier 2 |
| ModelRanking.TwoDigits | packages/gram/sources/plugins/providers/_common/pi-ai-provider/plugin.ts:341-343 | two decimal digits read as a number below 100 |
| ModelRanking.MatchAt | packages/gram/sources/plugins/providers/_common/pi-ai-provider/plugin.ts:336 | a date match at one offset has a year in 2000..2099 and month and day below 100 |
| ModelRanking.FirstMatchLeftmost | packages/gram/sources/plugins/providers/_common/pi-ai-provider/plugin.ts:336 | the match found is the one at the leftmost offset where the date pattern matches, and none means no offset matches |
| ModelRanking.ParseDateScore | packages/gram/sources/plugins/providers/_common/pi-ai-provider/plugin.ts:331-347 | "latest" in any case scores 99999999, a label with no date match scores 0, and every other score is 0 or a date between 20000100 and 20999999 |
| ModelRanking.FirstMatchSkips | packages/gram/sources/plugins/providers/_common/pi-ai-provider/plugin.ts:336 | offsets where the pattern does not match are skipped by the leftmost match |
| ModelRanking.TwoDigitsOf | packages/gram/sources/plugins/providers/_common/pi-ai-provider/plugin.ts:341-343 | the two digits of a number below 100 read back as that number |
| ModelRanking.MatchOfDate | packages/gram/sources/plugins/providers/_common/pi-ai-provider/plugin.ts:336-343 | a full year-month-day date with separators matches where it starts, with its year, month and day |
| ModelRanking.DatedLabel | packages/gram/sources/plugins/providers/_common/pi-ai-provider/plugin.ts:336 | a label whose first digits form a full date matches that date |
| ModelRanking.DatedLabelScore | packages/gram/sources/plugins/providers/_common/pi-ai-provider/plugin.ts:331-347 | such a label without "latest" scores year * 10000 + month * 100 + day |
| ModelRanking.IdOrder | packages/gram/sources/plugins/providers/_common/pi-ai-provider/plugin.ts:313 | the id order is -1, 0 or 1 |
| ModelRanking.IdOrderAntisymmetric | packages/gram/sources/plugins/providers/_common/pi-ai-provider/plugin.ts:313 | swapping the ids negates the order, which is 0 only for equal ids |
| ModelRanking.IdOrderTransitive | packages/gram/sources/plugins/providers/_common/pi-ai-provider/plugin.ts:313 | the id order is transitive |
| ModelRanking.CompareAntisymmetric | packages/gram/sources/plugins/providers/_common/pi-ai-provider/plugin.ts:293-314 | swapping the models flips the comparator's sign, and it is 0 only for models with the same id |
| ModelRanking.PrecedesTotal | packages/gram/sources/plugins/providers/_common/pi-ai-provider/plugin.ts:293-314 | any two models are ordered one way or the other |
| ModelRanking.PrecedesTransitive | packages/gram/sources/plugins/providers/_common/pi-ai-provider/plugin.ts:293-314 | the order is transitive, so it is a total preorder the sort can use |
| ModelRanking.ReasoningFirst | packages/gram/sources/plugins/providers/_common/pi-ai-provider/plugin.ts:294-296 | a reasoning model sorts strictly before a model that does not reason |
| ModelRanking.Insert | packages/gram/sources/plugins/providers/_common/pi-ai-provider/plugin.ts:288-291 | inserting adds exactly the one model to the list's contents |
| ModelRanking.SortModels | packages/gram/sources/plugins/providers/_common/pi-ai-provider/plugin.ts:288-291 | the sorted list is a permutation of the models |
| ModelRanking.InsertSorted | packages/gram/sources/plugins/providers/_common/pi-ai-provider/plugin.ts:288-291 | inserting into a sorted list keeps it sorted |
| ModelRanking.SortModelsSorted | packages/gram/sources/plugins/providers/_common/pi-ai-provider/plugin.ts:288-291 | the sorted list is ordered by the comparator |
| ModelRanking.SortedFirstIsBest | packages/gram/sources/plugins/providers/_common/pi-ai-provider/plugin.ts:288-291 | the first of the sorted list is one of the models and precedes every one of them |
| PluginRegistrars.PluginRegistrar.constructor | packages/scout/sources/plugins/registry.ts:25-43 | a new registrar belongs to its plugin, forwards to the given registries and tracks nothing |
| PluginRegistrars.PluginRegistrar.RegisterConnector | packages/scout/sources/plugins/registry.ts:45-48 | the connector is registered, with the registry's handler attached and no shutdown or delivery, unless its id is taken, in which case the registry is unchanged; the id is tracked either way |
| PluginRegistrars.PluginRegistrar.UnregisterConnector | packages/scout/sources/plugins/registry.ts:50-53 | the id is removed from the connector registry, whoever registered it: its handler is detached and its `shutdown`, if it has one, is called with "plugin-unload"; an absent id leaves the registry unchanged; the id is no longer tracked |
| PluginRegistrars.PluginRegistrar.RegisterInferenceProvider | packages/scout/sources/plugins/registry.ts:55-58 | the provider is stored under its id, owned by this plugin, and its id tracked |
| PluginRegistrars.PluginRegistrar.UnregisterInferenceProvider | packages/scout/sources/plugins/registry.ts:60-63 | the id is removed from the inference registry and no longer tracked |
| PluginRegistrars.PluginRegistrar.RegisterTool | packages/scout/sources/plugins/registry.ts:65-68 | the tool is stored under its name, owned by this plugin, and its name tracked |
| PluginRegistrars.PluginRegistrar.UnregisterTool | packages/scout/sources/plugins/registry.ts:70-73 | the name is removed from the tool registry and no longer tracked |
| PluginRegistrars.PluginRegistrar.RegisterImageProvider | packages/scout/sources/plugins/registry.ts:75-78 | the image provider is stored under its id, owned by this plugin, and its id tracked |
| PluginRegistrars.PluginRegistrar.UnregisterImageProvider | packages/scout/sources/plugins/registry.ts:80-83 | the id is removed from the image registry and no longer tracked |
| PluginRegistrars.PluginRegistrar.UnregisterAll | packages/scout/sources/plugins/registry.ts:85-102 | every tracked id leaves its registry, each tracked connector is shut down with "plugin-unload" in tracking order, no other entry changes, and nothing stays tracked |
| PluginRegistrars.UnregisterConnectors | packages/scout/sources/plugins/registry.ts:86-88 | the loop removes exactly the tracked connector ids and logs their shutdowns in order |
| PluginRegistrars.UnregisterEach | packages/scout/sources/plugins/registry.ts:89-97 | the loop removes exactly the tracked keys of one registry |
| PluginRegistrars.PluginRegistry.constructor | packages/scout/sources/plugins/registry.ts:111-121 | the registry holds the four shared registries |
| PluginRegistrars.PluginRegistry.CreateRegistrar | packages/scout/sources/plugins/registry.ts:123-131 | a fresh registrar for the plugin over the shared registries, tracking nothing |
| Router.Exhausted | packages/scout/sources/inference/router.ts:79-82 | the last construction error is rethrown when it is an Error, and otherwise "No inference provider available" is thrown |
| Router.FirstBuilt | packages/scout/sources/inference/router.ts:47-66 | the provider found is listed, registered, and its client can be built |
| Router.RouteDecidedByFirstBuilt | packages/scout/sources/inference/router.ts:40-83 | the first registered provider whose client is built decides the result by its completion alone; when there is none, the exhausted error is thrown |
| Router.RouteCompletesAtMostOnce | packages/scout/sources/inference/router.ts:47-77 | at most one client is tried, and every callback names a registered provider of the list |
| Router.InferenceRouter.constructor | packages/scout/sources/inference/router.ts:30-34 | the router holds the given providers and registry |
| Router.InferenceRouter.UpdateProviders | packages/scout/sources/inference/router.ts:36-38 | later calls walk the new provider list |
| Router.InferenceRouter.Complete | packages/scout/sources/inference/router.ts:40-83 | the result and the callbacks made are those of the walk over the providers |
| Secrets.Loaded | packages/scout/sources/secrets/store.ts:23-41 | a missing or non-object file reads as version 1 with the shared default secrets, an object has its missing fields defaulted, and any other read or parse error is rethrown |
| Secrets.WithSecret | packages/scout/sources/secrets/store.ts:58-62 | after set, the key holds the new value in the plugin's record (created if absent) and every other secret is unchanged |
| Secrets.WithoutSecret | packages/scout/sources/secrets/store.ts:66-71 | after remove, the key is gone from the plugin's record and every other secret is unchanged |
| Secrets.SetThenRemove | packages/scout/sources/secrets/store.ts:58-72 | setting a key and then removing it leaves no secret under that key and every other secret as before |
| Secrets.DefaultConfig.constructor | packages/scout/sources/secrets/store.ts:11-14 | the default secrets start empty |
| Secrets.SecretsStore.constructor | packages/scout/sources/secrets/store.ts:19-21 | a store reads its own file and shares the defaults |
| Secrets.SecretsStore.Read | packages/scout/sources/secrets/store.ts:23-41 | read returns the file's configuration as stated by Loaded |
| Secrets.SecretsStore.Get | packages/scout/sources/secrets/store.ts:53-56 | the stored value, null when the plugin or key is absent, or the read error |
| Secrets.SecretsStore.Set | packages/scout/sources/secrets/store.ts:58-64 | the file is written with the key set and the version kept; when the read shared the defaults, the defaults change too; a read error changes nothing |
| Secrets.SecretsStore.Remove | packages/scout/sources/secrets/store.ts:66-73 | nothing is written when the plugin has no record; otherwise the file is written without the key, and shared defaults change too |
| Secrets.SecretsStore.ListPluginSecrets | packages/scout/sources/secrets/store.ts:75-78 | exactly the plugin's secrets with their values, empty when it has none, or the read error |
| Secrets.DefaultsShared | packages/scout/sources/secrets/store.ts:29-37 | a secret set through one store over a missing file is read back through another store over a missing file |
| Settings.ListPlugins | packages/scout/sources/settings.ts:95-97 | the configured plugin list, or empty when there is none |
| Settings.Enabled | packages/scout/sources/settings.ts:99-101 | the kept entries are exactly those whose enabled is not false, and there are no more of them than entries |
| Settings.EnabledIdempotent | packages/scout/sources/settings.ts:99-101 | filtering the enabled plugins again keeps them all |
| Settings.EnabledAllEnabled | packages/scout/sources/settings.ts:99-101 | a list whose every entry is enabled is kept whole |
| Settings.EnabledAppend | packages/scout/sources/settings.ts:99-101 | filtering distributes over concatenation, so settings order is kept |
| Settings.DropId | packages/scout/sources/settings.ts:108 | the kept entries are exactly those with another id |
| Settings.DropIdAppend | packages/scout/sources/settings.ts:108 | dropping an id distributes over concatenation |
| Settings.DropIdTwice | packages/scout/sources/settings.ts:108 | dropping an id twice is dropping it once |
| Settings.CountIdAppend | packages/scout/sources/settings.ts:108-109 | the count of entries with an id adds over concatenation |
| Settings.CountIdDropped | packages/scout/sources/settings.ts:108 | after dropping an id no entry carries it |
| Settings.UpsertPlugin | packages/scout/sources/settings.ts:103-110 | the new entry is last, and before it are the old entries with other ids in their order |
| Settings.RemovePlugin | packages/scout/sources/settings.ts:112-117 | the kept entries are exactly the old ones with another id |
| Settings.UpsertLeavesOne | packages/scout/sources/settings.ts:103-110 | after an upsert exactly one entry carries the id |
| Settings.UpsertIdempotent | packages/scout/sources/settings.ts:103-110 | upserting the same entry twice is upserting it once |
| Settings.RemoveAfterUpsert | packages/scout/sources/settings.ts:103-117 | removing what was just upserted is removing it from the original list |
| Settings.ListInferenceProviders | packages/scout/sources/settings.ts:119-123 | the configured providers, or empty when the inference section or its list is absent |
| SessionStore.LastWhere | packages/scout/sources/sessions/store.ts:189-231 | the entry found is a line of the log with a string session id whose kind passes the test |
| SessionStore.ReplayKeepsLatest | packages/scout/sources/sessions/store.ts:181-231 | the replay ends with the session id of the last counting line, the source and context of the last created, incoming or outgoing line, the state of the last state line, and the kind of the last incoming or outgoing line; what no line sets keeps its starting value |
| SessionStore.ReplaySkipsNoise | packages/scout/sources/sessions/store.ts:190-203 | lines that do not parse or have no string session id change nothing |
| SessionStore.Restore | packages/scout/sources/sessions/store.ts:233-250 | a restored session has the file's storage id and a non-empty session id and source |
| SessionStore.RestoreLastEntry | packages/scout/sources/sessions/store.ts:213-250 | a restored session's last entry type is incoming exactly when the last incoming or outgoing line of its log is incoming |
| SessionStore.LastDot | packages/scout/sources/sessions/store.ts:167 | the dot found is the last one after the first character, and none means there is no such dot |
| SessionStore.StemOfLogFile | packages/scout/sources/sessions/store.ts:167 | the log file of a storage id without dots is restored under that same storage id |
| SessionStore.Parsed | packages/scout/sources/sessions/store.ts:294-304 | the entries are exactly the lines that parsed |
| SessionStore.LastMessageEntry | packages/scout/sources/sessions/store.ts:261-263 | the entry found is an incoming or outgoing one among the entries, and none means there is none |
| SessionStore.RestoreAll | packages/scout/sources/sessions/store.ts:164-253 | at most one session per listed file |
| SessionStore.SessionStore.constructor | packages/scout/sources/sessions/store.ts:70-72 | the store starts over the given directory |
| SessionStore.SessionStore.AppendEntry | packages/scout/sources/sessions/store.ts:307-315 | exactly one line, the entry, is added at the end of the session's log, which is created if missing |
| SessionStore.SessionStore.RecordSessionCreated | packages/scout/sources/sessions/store.ts:82-96 | a session-created line with the session's ids, source, context and creation time is appended to its log |
| SessionStore.SessionStore.RecordIncoming | packages/scout/sources/sessions/store.ts:98-115 | an incoming line with the message's id, context, text, files and receive time is appended |
| SessionStore.SessionStore.RecordOutgoing | packages/scout/sources/sessions/store.ts:117-137 | an outgoing line with the given id, source, context, text and files is appended |
| SessionStore.SessionStore.RecordState | packages/scout/sources/sessions/store.ts:139-148 | a state line with the session's state and update time is appended |
| SessionStore.SessionStore.LoadSessions | packages/scout/sources/sessions/store.ts:150-254 | a failed directory read gives no sessions; otherwise every listed file whose log restores a session gives it, in listing order |
| SessionStore.SessionStore.ReadSessionEntries | packages/scout/sources/sessions/store.ts:282-305 | a missing log gives no entries; otherwise exactly the lines that parsed |
| SessionStore.SessionStore.Summary | packages/scout/sources/sessions/store.ts:259-278 | the summary names the session and carries the text and files of its last incoming or outgoing entry, or neither when there is none |
| SessionStore.SessionStore.ListSessions | packages/scout/sources/sessions/store.ts:256-280 | one summary per restored session, in the same order |
| Tools.BuildToolError | packages/scout/sources/tools/registry.ts:64-76 | the error result answers the call by id and name, carries exactly the given text, and is flagged as an error |
| Tools.FillIds | packages/scout/sources/tools/registry.ts:48-53 | a missing call id or tool name is filled from the call, and the rest of the result is kept |
| Tools.Execute | packages/scout/sources/tools/registry.ts:34-61 | an unknown tool gives an "Unknown tool: <name>" error result; a thrown failure gives an error result with the Error's message or "Tool execution failed."; a returned result has its ids filled |
| Tools.ExecuteIdentifiesCall | packages/scout/sources/tools/registry.ts:34-61 | every result of a call with an id and a name carries a non-empty id and name |
| Tools.ExecuteErrorTagged | packages/scout/sources/tools/registry.ts:38-60 | for an unknown tool or a thrown failure the result is flagged as an error, has one content block and no files |
| Tools.ListTools | packages/scout/sources/tools/registry.ts:30-32 | one schema per registered tool, in registration order, each the registered definition's schema |
| Tools.Schemas | packages/scout/sources/tools/registry.ts:31 | the schemas are the definitions' tools, in order |

## Left out

- **Files that are not part of this model:**
  - the newer runtime's `settings.ts`: its `listEnabledPlugins` and plugin upsert/remove are taken to behave like the older runtime's;
  - the newer `engine/plugins/registry.ts`: `GramRegistrar` stands in for the registration it offers;
  - the newer sessions manager and memory engine, and `sessions/manager.ts` with its per-session serialisation.
- **Interactive flows:**
  - prompt sequences, OAuth login and every `onboarding` except the OpenAI-compatible one, including the pi-ai plugin's onboarding and `resolveAuthMode`;
  - `selectDefaultModel`, a prompt flow.
- **Telegram:** the Telegram connector and plugin wrappers: network clients with timers, signals, floating-point backoff and random jitter.
- **Front ends:** HTTP and socket servers and clients, the dashboard, the CLI entry points and `status`.
- **Plugin discovery:**
  - catalogs, descriptors and dynamic imports: the catalog is a given map, and loading a module is one oracle result;
  - schema validation (zod, typebox) is part of that oracle result or of the tool outcome.
- **Image-generation provider plugins:** HTTP wrappers with base64 decoding and file writes. Reading generated image files is not modelled either.
- **Storage I/O:**
  - the file read/write halves of the settings, auth, secrets, memory and session stores: their contents are in-memory values;
  - `ensurePluginDir`/`mkdir`;
  - I/O errors other than a missing file and an unreadable image attachment (the `read` parameter of `Engine.BuildUserMessage`);
  - an image attachment's bytes: its block holds the file's path in place of the base64 data read from it;
  - JSON parse failures: a malformed line is an input that parses to nothing.
- **The scout `EngineEventBus`:** a wrapper over Node's EventEmitter.
- **Concurrency:** fire-and-forget persistence and interleavings; every `async` method is sequential.
- **Logging:** its effects are not modelled.
- **Provider stub files:** constant configuration only.
- **Library calls:**
  - `getModels`, `getModel`, `complete` and `getOAuthApiKey` are parameters;
  - `createId` and `Date` are parameters;
  - HTTP `fetch` is a parameter.
- **Numbers:**
  - JavaScript numbers are modelled as integers;
  - fractional counts, `everyMs` values that are not whole and NaN arithmetic are not modelled, except the `NotFinite` period of a cron task.
- ModelRanking.IdOrder: `localeCompare` is modelled as code-unit order, which agrees with it on ASCII ids but not on every locale.
- JsBuiltins.ToLower: lower-cases ASCII letters only; `toLowerCase` also maps other scripts.
- GramPlugins.SettingsEqual: `JSON.stringify` equality is modelled as equality of JSON values, so two settings objects that differ only in key order count as equal here.
- Memory.SearchTool: the `details.entries` array is not modelled; only `details.count` is.
- Memory.MemoryEngine.Record: a log whose read fails is modelled as refusing the append, whereas the source appends and fails on the later read.
- ProviderClients.ResolveApiKey: a failing `auth.read()` or `auth.setOAuth` write is not modelled; `entry` is what a successful read gives, and `savedCredentials` is the write.
- GramMemory.MemoryOptions: `path.join` is modelled as joining with "/", without normalisation.
