// The session store of the older runtime: one append-only JSON-lines log per session, named
// `<storageId>.jsonl`. Recording appends one entry; restoring replays each log, keeping the
// latest session id, source, context and state it finds.
//
// The directory is a map from file name to the lines of that file, each line already parsed:
// `None` is a line `JSON.parse` rejects. Directory listing order, timestamps and the session
// object are given by the caller.

module SessionStore {
  import opened Wrappers
  import Json
  import opened Messages

  /** The `type` of a log entry; any other string is kept as `OtherKind`. */
  datatype Kind = SessionCreated | Incoming | Outgoing | StateKind | OtherKind(name: string)

  /** A parsed log entry. Fields a JSON line may lack are optional; `sessionId` is present only
      when it is a string; `at` is the entry's timestamp (`createdAt`, `receivedAt`, `sentAt` or
      `updatedAt`, as its kind has). */
  datatype LogEntry = LogEntry(
    kind: Kind, sessionId: Option<string>, storageId: string, source: Option<string>, messageId: Option<string>,
    context: Option<MessageContext>, text: Option<string>, files: Option<seq<FileReference>>,
    state: Option<Json.Value>, at: Option<string>)

  /** The session fields a record call reads. */
  datatype SessionView = SessionView(id: string, storageId: string, createdAt: string, updatedAt: string, state: Json.Value)

  /** A session rebuilt from its log. */
  datatype RestoredSession = RestoredSession(
    sessionId: string, storageId: string, source: string, context: MessageContext, state: Json.Value,
    createdAt: Option<string>, updatedAt: Option<string>, lastEntryType: Option<Kind>)

  /** What `listSessions` reports for one session. */
  datatype SessionSummary = SessionSummary(
    sessionId: string, storageId: string, source: string, context: MessageContext,
    createdAt: Option<string>, updatedAt: Option<string>, lastMessage: Option<string>, lastFiles: Option<seq<FileReference>>)

  /** The locals of the replay loop. */
  datatype Replay = Replay(
    sessionId: Option<string>, source: Option<string>, context: Option<MessageContext>, state: Option<Json.Value>,
    createdAt: Option<string>, updatedAt: Option<string>, lastEntryType: Option<Kind>)

  const Start := Replay(None, None, None, None, None, None, None)

  /** A line the replay takes into account: it parsed and has a string `sessionId`. */
  predicate Counts(line: Option<LogEntry>)
  {
    line.Some? && line.value.sessionId.Some?
  }

  predicate Conversational(k: Kind)
  {
    k == SessionCreated || k == Incoming || k == Outgoing
  }

  predicate Directional(k: Kind)
  {
    k == Incoming || k == Outgoing
  }

  /** One turn of the replay loop. */
  function ReplayLine(acc: Replay, line: Option<LogEntry>): Replay
  {
    if !Counts(line) then acc
    else
      var e := line.value;
      var a := acc.(sessionId := e.sessionId);
      match e.kind
      case SessionCreated => a.(source := e.source, context := e.context, createdAt := e.at)
      case Incoming => a.(source := e.source, context := e.context, lastEntryType := Some(Incoming), updatedAt := e.at)
      case Outgoing => a.(source := e.source, context := e.context, lastEntryType := Some(Outgoing), updatedAt := e.at)
      case StateKind => a.(state := e.state, updatedAt := e.at)
      case OtherKind(_) => a
  }

  /** The replay loop over a log, from the first line to the last. */
  function ReplayLog(acc: Replay, lines: seq<Option<LogEntry>>): Replay
    decreases |lines|
  {
    if lines == [] then acc else ReplayLine(ReplayLog(acc, lines[..|lines| - 1]), lines[|lines| - 1])
  }

  /** The last line that counts and whose kind satisfies `which`, searching from the end. */
  function LastWhere(lines: seq<Option<LogEntry>>, which: Kind -> bool): (r: Option<LogEntry>)
    ensures r.Some? ==> Some(r.value) in lines && r.value.sessionId.Some? && which(r.value.kind)
    decreases |lines|
  {
    if lines == [] then None
    else
      var last := lines[|lines| - 1];
      if Counts(last) && which(last.value.kind) then last else LastWhere(lines[..|lines| - 1], which)
  }

  /** Replay, stated without the loop: the session id of the last counting line, the source and
      context of the last creation or message line, the state of the last state line, and the
      kind of the last message line; what no line sets keeps its starting value. */
  lemma {:induction false} ReplayKeepsLatest(acc: Replay, lines: seq<Option<LogEntry>>)
    ensures var r := ReplayLog(acc, lines);
      && r.sessionId == (match LastWhere(lines, k => true) case None => acc.sessionId case Some(e) => e.sessionId)
      && r.source == (match LastWhere(lines, Conversational) case None => acc.source case Some(e) => e.source)
      && r.context == (match LastWhere(lines, Conversational) case None => acc.context case Some(e) => e.context)
      && r.state == (match LastWhere(lines, k => k == StateKind) case None => acc.state case Some(e) => e.state)
      && r.lastEntryType == (match LastWhere(lines, Directional) case None => acc.lastEntryType case Some(e) => Some(e.kind))
    decreases |lines|
  {
    if lines != [] {
      ReplayKeepsLatest(acc, lines[..|lines| - 1]);
    }
  }

  /** Lines that do not count change nothing. */
  lemma {:induction false} ReplaySkipsNoise(acc: Replay, lines: seq<Option<LogEntry>>)
    requires forall i :: 0 <= i < |lines| ==> !Counts(lines[i])
    ensures ReplayLog(acc, lines) == acc
    decreases |lines|
  {
    if lines != [] {
      ReplaySkipsNoise(acc, lines[..|lines| - 1]);
    }
  }

  /** The session a log restores: none without a non-empty session id and source and a context;
      a missing or falsy state becomes `{}`. */
  function Restore(storageId: string, lines: seq<Option<LogEntry>>): (r: Option<RestoredSession>)
    ensures r.Some? ==> r.value.storageId == storageId && r.value.sessionId != "" && r.value.source != ""
  {
    var fin := ReplayLog(Start, lines);
    if fin.sessionId.None? || fin.sessionId.value == "" || fin.source.None? || fin.source.value == "" || fin.context.None? then None
    else
      var state := if fin.state.Some? && Json.Truthy(fin.state.value) then fin.state.value else Json.EmptyObject;
      Some(RestoredSession(fin.sessionId.value, storageId, fin.source.value, fin.context.value, state,
                           fin.createdAt, fin.updatedAt, fin.lastEntryType))
  }

  /** A restored session is unanswered (its last message line is incoming) exactly when the
      last message line of its log is an incoming one. */
  lemma RestoreLastEntry(storageId: string, lines: seq<Option<LogEntry>>)
    requires Restore(storageId, lines).Some?
    ensures Restore(storageId, lines).value.lastEntryType == Some(Incoming) <==>
      LastWhere(lines, Directional).Some? && LastWhere(lines, Directional).value.kind == Incoming
  {
    ReplayKeepsLatest(Start, lines);
  }

  /** The index of the last '.' after the first character, if any. */
  function LastDot(file: string): (r: Option<nat>)
    ensures r.Some? ==> 0 < r.value < |file| && file[r.value] == '.' && '.' !in file[r.value + 1..]
    ensures r.None? ==> forall i :: 0 < i < |file| ==> file[i] != '.'
    decreases |file|
  {
    if |file| <= 1 then None
    else if file[|file| - 1] == '.' then Some(|file| - 1)
    else
      var r := LastDot(file[..|file| - 1]);
      if r.Some? then
        assert file[r.value + 1..] == file[..|file| - 1][r.value + 1..] + [file[|file| - 1]];
        r
      else None
  }

  /** `path.parse(file).name || file`: the file name without its last extension. */
  function FileStem(file: string): string
  {
    match LastDot(file)
    case None => file
    case Some(k) => if k == 0 then file else file[..k]
  }

  const LogSuffix := ".jsonl"

  /** The log of a session is found again under its storage id. */
  lemma StemOfLogFile(storageId: string)
    requires storageId != [] && '.' !in storageId
    ensures FileStem(storageId + LogSuffix) == storageId
  {
    var file := storageId + LogSuffix;
    assert file[|storageId|] == '.';
    assert file[|storageId| + 1..] == "jsonl";
    assert forall k :: 0 <= k < |storageId| ==> file[k] == storageId[k];
    assert LastDot(file) == Some(|storageId|);
    assert file[..|storageId|] == storageId;
  }

  /** The counting-agnostic entries of a log: every line that parsed, in order. */
  function Parsed(lines: seq<Option<LogEntry>>): (r: seq<LogEntry>)
    ensures forall e :: e in r <==> Some(e) in lines
    decreases |lines|
  {
    if lines == [] then []
    else (if lines[0].Some? then [lines[0].value] else []) + Parsed(lines[1..])
  }

  /** The last incoming or outgoing entry among parsed entries. */
  function LastMessageEntry(entries: seq<LogEntry>): (r: Option<LogEntry>)
    ensures r.Some? ==> r.value in entries && Directional(r.value.kind)
    ensures r.None? ==> forall e :: e in entries ==> !Directional(e.kind)
    decreases |entries|
  {
    if entries == [] then None
    else if Directional(entries[|entries| - 1].kind) then Some(entries[|entries| - 1])
    else LastMessageEntry(entries[..|entries| - 1])
  }

  /** Restores, in listing order, every listed file that exists and whose log restores a session. */
  function RestoreAll(listing: seq<string>, files: map<string, seq<Option<LogEntry>>>): (r: seq<RestoredSession>)
    ensures |r| <= |listing|
    decreases |listing|
  {
    if listing == [] then []
    else
      var rest := RestoreAll(listing[..|listing| - 1], files);
      var file := listing[|listing| - 1];
      if file !in files then rest
      else match Restore(FileStem(file), files[file])
        case None => rest
        case Some(s) => rest + [s]
  }

  class SessionStore {
    var files: map<string, seq<Option<LogEntry>>>

    constructor (files: map<string, seq<Option<LogEntry>>>)
      ensures this.files == files
    {
      this.files := files;
    }

    /** `appendEntry`: one more line at the end of `<storageId>.jsonl`, created if missing. */
    method AppendEntry(storageId: string, entry: LogEntry)
      modifies this
      ensures files == old(files)[storageId + LogSuffix := Lines(old(files), storageId) + [Some(entry)]]
    {
      var name := storageId + LogSuffix;
      var lines := if name in files then files[name] else [];
      files := files[name := lines + [Some(entry)]];
    }

    /** The lines of a session's log; none when the file is missing. */
    static function Lines(files: map<string, seq<Option<LogEntry>>>, storageId: string): seq<Option<LogEntry>>
    {
      var name := storageId + LogSuffix;
      if name in files then files[name] else []
    }

    method RecordSessionCreated(session: SessionView, source: string, context: MessageContext)
      modifies this
      ensures files == old(files)[session.storageId + LogSuffix := Lines(old(files), session.storageId) +
        [Some(LogEntry(SessionCreated, Some(session.id), session.storageId, Some(source), None, Some(context), None, None, None, Some(session.createdAt)))]]
    {
      AppendEntry(session.storageId, LogEntry(SessionCreated, Some(session.id), session.storageId, Some(source), None, Some(context), None, None, None, Some(session.createdAt)));
    }

    method RecordIncoming(session: SessionView, messageId: string, message: ConnectorMessage, context: MessageContext, receivedAt: string, source: string)
      modifies this
      ensures files == old(files)[session.storageId + LogSuffix := Lines(old(files), session.storageId) +
        [Some(LogEntry(Incoming, Some(session.id), session.storageId, Some(source), Some(messageId), Some(context), message.text, message.files, None, Some(receivedAt)))]]
    {
      AppendEntry(session.storageId, LogEntry(Incoming, Some(session.id), session.storageId, Some(source), Some(messageId), Some(context), message.text, message.files, None, Some(receivedAt)));
    }

    method RecordOutgoing(session: SessionView, messageId: string, source: string, context: MessageContext, text: Option<string>, files: Option<seq<FileReference>>, now: string)
      modifies this
      ensures this.files == old(this.files)[session.storageId + LogSuffix := Lines(old(this.files), session.storageId) +
        [Some(LogEntry(Outgoing, Some(session.id), session.storageId, Some(source), Some(messageId), Some(context), text, files, None, Some(now)))]]
    {
      AppendEntry(session.storageId, LogEntry(Outgoing, Some(session.id), session.storageId, Some(source), Some(messageId), Some(context), text, files, None, Some(now)));
    }

    method RecordState(session: SessionView)
      modifies this
      ensures files == old(files)[session.storageId + LogSuffix := Lines(old(files), session.storageId) +
        [Some(LogEntry(StateKind, Some(session.id), session.storageId, None, None, None, None, None, Some(session.state), Some(session.updatedAt)))]]
    {
      AppendEntry(session.storageId, LogEntry(StateKind, Some(session.id), session.storageId, None, None, None, None, None, Some(session.state), Some(session.updatedAt)));
    }

    /** `loadSessions`: `listing` is what reading the directory gave, `None` when it failed. */
    method LoadSessions(listing: Option<seq<string>>) returns (restored: seq<RestoredSession>)
      ensures listing.None? ==> restored == []
      ensures listing.Some? ==> restored == RestoreAll(listing.value, files)
    {
      if listing.None? {
        return [];
      }
      var names := listing.value;
      restored := [];
      var i := 0;
      while i < |names|
        invariant 0 <= i <= |names|
        invariant restored == RestoreAll(names[..i], files)
      {
        assert names[..i + 1][..i] == names[..i];
        var file := names[i];
        if file !in files {
          i := i + 1;
          continue;
        }
        var lines := files[file];
        var acc := Start;
        var j := 0;
        while j < |lines|
          invariant 0 <= j <= |lines|
          invariant acc == ReplayLog(Start, lines[..j])
        {
          assert lines[..j + 1][..j] == lines[..j];
          acc := ReplayLine(acc, lines[j]);
          j := j + 1;
        }
        assert lines[..j] == lines;
        if acc.sessionId.Some? && acc.sessionId.value != "" && acc.source.Some? && acc.source.value != "" && acc.context.Some? {
          var state := if acc.state.Some? && Json.Truthy(acc.state.value) then acc.state.value else Json.EmptyObject;
          restored := restored + [RestoredSession(acc.sessionId.value, FileStem(file), acc.source.value, acc.context.value,
                                                  state, acc.createdAt, acc.updatedAt, acc.lastEntryType)];
        }
        i := i + 1;
      }
      assert names[..i] == names;
    }

    /** `readSessionEntries`: the parsed lines of `<storageId>.jsonl`; [] when it is missing. */
    function ReadSessionEntries(storageId: string): (r: seq<LogEntry>)
      reads this
      ensures storageId + LogSuffix !in files ==> r == []
      ensures forall e :: e in r <==> Some(e) in Lines(files, storageId)
    {
      Parsed(Lines(files, storageId))
    }

    /** The summary of a restored session: its last message line's text and files, if any. */
    function Summary(session: RestoredSession): (r: SessionSummary)
      reads this
      ensures r.sessionId == session.sessionId && r.storageId == session.storageId
      ensures var last := LastMessageEntry(ReadSessionEntries(session.storageId));
        && (last.None? ==> r.lastMessage.None? && r.lastFiles.None?)
        && (last.Some? ==> r.lastMessage == last.value.text && r.lastFiles == last.value.files)
    {
      var last := LastMessageEntry(ReadSessionEntries(session.storageId));
      SessionSummary(session.sessionId, session.storageId, session.source, session.context, session.createdAt, session.updatedAt,
                     if last.Some? then last.value.text else None,
                     if last.Some? then last.value.files else None)
    }

    /** `listSessions`: one summary per restored session, in the same order. */
    method ListSessions(listing: Option<seq<string>>) returns (summaries: seq<SessionSummary>)
      ensures listing.None? ==> summaries == []
      ensures listing.Some? ==> |summaries| == |RestoreAll(listing.value, files)|
      ensures listing.Some? ==> forall i :: 0 <= i < |summaries| ==> summaries[i] == Summary(RestoreAll(listing.value, files)[i])
    {
      var restored := LoadSessions(listing);
      summaries := [];
      var i := 0;
      while i < |restored|
        invariant 0 <= i <= |restored|
        invariant |summaries| == i
        invariant forall k :: 0 <= k < i ==> summaries[k] == Summary(restored[k])
      {
        summaries := summaries + [Summary(restored[i])];
        i := i + 1;
      }
    }
  }
}
