// The newer runtime's memory plugin: it records the user's and the assistant's messages from
// the engine's event stream into a memory log, and registers the `memory_search` tool. Its
// memory engine is the plugin's own and is not part of this model; a `record` call is kept
// as the draft it is given.

module GramMemory {
  import opened Wrappers
  import opened Messages
  import Memory

  /** A message's `text` field: absent, a string, or a value of another type. */
  datatype TextField = NoText | TextValue(s: string) | OtherText

  /** The message carried by an event payload. */
  datatype PayloadMessage = PayloadMessage(text: TextField, files: Option<seq<FileReference>>)

  /** `session.updated` carries the message under `entry.message`; `session.outgoing` under
      `message`. Either may be missing. */
  datatype IncomingEntry = IncomingEntry(id: string, message: Option<PayloadMessage>)

  datatype Payload = Payload(sessionId: string, source: string, entry: Option<IncomingEntry>, message: Option<PayloadMessage>)

  /** An engine event: its type and its payload, which may be null. */
  datatype EngineEvent = EngineEvent(kind: string, payload: Option<Payload>)

  /** The message an event would be recorded from, by its type. */
  function CarriedMessage(event: EngineEvent): Option<PayloadMessage>
  {
    if event.payload.None? then None
    else if event.kind == "session.updated" then
      (if event.payload.value.entry.Some? then event.payload.value.entry.value.message else None)
    else if event.kind == "session.outgoing" then event.payload.value.message
    else None
  }

  /** `typeof text === "string" ? text : null`. */
  function TextOf(m: PayloadMessage): Option<string>
  {
    if m.text.TextValue? then Some(m.text.s) else None
  }

  /** The message has a non-empty text or at least one file. */
  predicate Recordable(m: PayloadMessage)
  {
    (TextOf(m).Some? && TextOf(m).value != "") || |m.files.GetOr([])| > 0
  }

  /** `handleEvent`: the `record` call an event causes, if any. */
  function HandleEvent(event: EngineEvent): (r: Option<Memory.Draft>)
    ensures r.Some? <==> ((event.kind == "session.updated" || event.kind == "session.outgoing")
      && CarriedMessage(event).Some? && Recordable(CarriedMessage(event).value))
    ensures r.Some? ==>
      var m := CarriedMessage(event).value;
      && r.value.sessionId == event.payload.value.sessionId && r.value.source == event.payload.value.source
      && r.value.role == (if event.kind == "session.updated" then Memory.User else Memory.Assistant)
      && r.value.text == TextOf(m)
      && (r.value.files.Some? <==> |m.files.GetOr([])| > 0)
      && (r.value.files.Some? ==> r.value.files.value == m.files.value)
  {
    if event.kind != "session.updated" && event.kind != "session.outgoing" then None
    else
      match CarriedMessage(event)
      case None => None
      case Some(m) =>
        var text := TextOf(m);
        var files := m.files.GetOr([]);
        if (text.None? || text.value == "") && |files| == 0 then None
        else
          var p := event.payload.value;
          var role := if event.kind == "session.updated" then Memory.User else Memory.Assistant;
          Some(Memory.Draft(p.sessionId, p.source, role, text, if |files| > 0 then Some(files) else None))
  }

  /** Events of any other type are ignored, as are messages with neither text nor files. */
  lemma OtherEventsIgnored(event: EngineEvent)
    requires event.kind != "session.updated" && event.kind != "session.outgoing"
    ensures HandleEvent(event).None?
  {
  }

  /** The options the plugin's memory engine gets: the plugin's own settings first, then the
      engine's memory settings and the data directory. */
  datatype EngineOptions = EngineOptions(basePath: string, maxEntries: Option<int>)

  function MemoryOptions(basePath: Option<string>, maxEntries: Option<int>, engineMaxEntries: Option<int>, dataDir: string): (r: EngineOptions)
    ensures basePath.Some? ==> r.basePath == basePath.value
    ensures basePath.None? ==> r.basePath == dataDir + "/memory"
    ensures maxEntries.Some? ==> r.maxEntries == maxEntries
    ensures maxEntries.None? ==> r.maxEntries == engineMaxEntries
  {
    EngineOptions(basePath.GetOr(dataDir + "/memory"), maxEntries.OrElse(engineMaxEntries))
  }

  /** A call the plugin makes on its registrar or on the engine's event stream. */
  datatype Call = RegisterTool(name: string) | Subscribe | Unsubscribe | UnregisterTool(name: string)

  const ToolName := "memory_search"

  /** One created plugin instance: whether it holds an unsubscribe function, and its calls. */
  class MemoryPlugin {
    var subscribed: bool
    var calls: seq<Call>

    constructor ()
      ensures !subscribed && calls == []
    {
      subscribed := false;
      calls := [];
    }

    /** `load`: registers the tool, and subscribes only when the engine has an event stream. */
    method Load(hasEngineEvents: bool)
      modifies this
      ensures calls == old(calls) + [RegisterTool(ToolName)] + (if hasEngineEvents then [Subscribe] else [])
      ensures subscribed == (hasEngineEvents || old(subscribed))
    {
      calls := calls + [RegisterTool(ToolName)];
      if hasEngineEvents {
        calls := calls + [Subscribe];
        subscribed := true;
      }
    }

    /** `unload`: unsubscribes if subscribed, clears the handle and unregisters the tool. */
    method Unload()
      modifies this
      ensures calls == old(calls) + (if old(subscribed) then [Unsubscribe] else []) + [UnregisterTool(ToolName)]
      ensures !subscribed
    {
      if subscribed {
        calls := calls + [Unsubscribe];
      }
      subscribed := false;
      calls := calls + [UnregisterTool(ToolName)];
    }
  }
}
