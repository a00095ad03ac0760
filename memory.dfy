// The older runtime's memory: an append-only log of conversation entries, one JSON line each,
// pruned to the newest `maxEntries` after every record when that option is set, and searched
// by a case-insensitive substring; and the `memory_search` tool that formats a search.
//
// The log file is a sequence of lines already parsed: a line that is blank, does not parse or
// parses to a falsy value is `Dropped`. Entry ids and timestamps come from outside.

module Memory {
  import opened Wrappers
  import opened Messages
  import Json
  import JsBuiltins
  import Tools

  datatype Role = User | Assistant | ToolRole | System

  /** What `record` is given: an entry without its id and timestamp. */
  datatype Draft = Draft(sessionId: string, source: string, role: Role, text: Option<string>, files: Option<seq<FileReference>>)

  /** `MemoryEntry`. */
  datatype MemoryEntry = MemoryEntry(id: string, sessionId: string, source: string, role: Role, text: Option<string>, files: Option<seq<FileReference>>, createdAt: string)

  datatype Line = Parsed(entry: MemoryEntry) | Dropped

  /** The log file: missing, unreadable for another reason, or its lines. */
  datatype LogFile = Absent | Unreadable(error: Thrown) | Lines(lines: seq<Line>)

  /** The entries of the parsed lines, in file order. */
  function EntriesOf(lines: seq<Line>): (r: seq<MemoryEntry>)
    ensures |r| <= |lines|
    ensures forall e :: e in r <==> Parsed(e) in lines
  {
    if lines == [] then []
    else
      assert lines == [lines[0]] + lines[1..];
      (if lines[0].Parsed? then [lines[0].entry] else []) + EntriesOf(lines[1..])
  }

  lemma {:induction false} EntriesOfAppend(a: seq<Line>, b: seq<Line>)
    ensures EntriesOf(a + b) == EntriesOf(a) + EntriesOf(b)
  {
    if a == [] {
      assert a + b == b;
    } else {
      assert (a + b)[0] == a[0] && (a + b)[1..] == a[1..] + b;
      EntriesOfAppend(a[1..], b);
    }
  }

  /** One line per entry, as `prune` rewrites the file. */
  function LinesOf(entries: seq<MemoryEntry>): (r: seq<Line>)
    ensures |r| == |entries|
    ensures forall i :: 0 <= i < |entries| ==> r[i] == Parsed(entries[i])
  {
    if entries == [] then [] else [Parsed(entries[0])] + LinesOf(entries[1..])
  }

  /** Rewriting entries as lines and reading them back gives the same entries. */
  lemma {:induction false} EntriesOfLinesOf(entries: seq<MemoryEntry>)
    ensures EntriesOf(LinesOf(entries)) == entries
  {
    if entries != [] {
      assert LinesOf(entries)[1..] == LinesOf(entries[1..]);
      EntriesOfLinesOf(entries[1..]);
    }
  }

  /** `readEntries`: [] for a missing file; the error for another read failure. */
  function ReadEntries(log: LogFile): (r: Result<seq<MemoryEntry>>)
    ensures log.Absent? ==> r == Ok([])
    ensures log.Unreadable? ==> r == Err(log.error)
    ensures log.Lines? ==> r == Ok(EntriesOf(log.lines))
  {
    match log
    case Absent => Ok([])
    case Unreadable(e) => Err(e)
    case Lines(lines) => Ok(EntriesOf(lines))
  }

  // ---------------------------------------------------------------- query

  /** The entry's text, lower-cased, contains the needle. */
  predicate Matches(entry: MemoryEntry, needle: string)
  {
    JsBuiltins.Contains(JsBuiltins.ToLower(entry.text.GetOr("")), needle)
  }

  /** The matching entries, in log order. */
  function Matching(entries: seq<MemoryEntry>, needle: string): (r: seq<MemoryEntry>)
    ensures |r| <= |entries|
    ensures forall e :: e in r <==> e in entries && Matches(e, needle)
  {
    if entries == [] then []
    else
      assert entries == [entries[0]] + entries[1..];
      (if Matches(entries[0], needle) then [entries[0]] else []) + Matching(entries[1..], needle)
  }

  /** What `query` searches: every entry for a blank text, else the matching ones. */
  function Pool(entries: seq<MemoryEntry>, text: string): seq<MemoryEntry>
  {
    var needle := JsBuiltins.ToLower(JsBuiltins.Trim(text));
    if needle == [] then entries else Matching(entries, needle)
  }

  /** `query(text, limit)`: the last `limit` entries of the pool, as `slice(-limit)` takes them. */
  function QueryOf(entries: seq<MemoryEntry>, text: string, limit: int): seq<MemoryEntry>
  {
    JsBuiltins.Slice(Pool(entries, text), -limit, |Pool(entries, text)|)
  }

  /** A query returns the newest `limit` entries of its pool, in log order; a limit of 0 returns
      the whole pool, as `slice(-0)` does; with a non-blank text every result matches it. */
  lemma QueryNewest(entries: seq<MemoryEntry>, text: string, limit: int)
    ensures var pool := Pool(entries, text);
      var r := QueryOf(entries, text, limit);
      && (limit > 0 ==> |r| == (if limit < |pool| then limit else |pool|) && r == pool[|pool| - |r|..])
      && (limit == 0 ==> r == pool)
      && (JsBuiltins.ToLower(JsBuiltins.Trim(text)) != [] ==>
            forall e :: e in r ==> e in entries && Matches(e, JsBuiltins.ToLower(JsBuiltins.Trim(text))))
  {
    var pool := Pool(entries, text);
    JsBuiltins.SliceFromEnd(pool, limit);
    var r := QueryOf(entries, text, limit);
    var start := if limit > 0 then (if limit < |pool| then |pool| - limit else 0)
      else if limit == 0 then 0
      else (if -limit < |pool| then -limit else |pool|);
    assert r == pool[start..];
    forall e | e in r ensures e in pool {
      var i :| 0 <= i < |r| && r[i] == e;
      assert e == pool[start + i];
    }
  }

  // ---------------------------------------------------------------- prune

  /** `prune(maxEntries)`: the log is left alone when it holds at most `maxEntries` entries;
      otherwise it is rewritten with the entries `slice(-maxEntries)` keeps, without the
      dropped lines. */
  function Pruned(lines: seq<Line>, maxEntries: int): seq<Line>
  {
    var entries := EntriesOf(lines);
    if |entries| <= maxEntries then lines
    else LinesOf(JsBuiltins.Slice(entries, -maxEntries, |entries|))
  }

  /** With a positive bound, pruning leaves at most that many entries, the newest ones. */
  lemma PruneKeepsNewest(lines: seq<Line>, maxEntries: int)
    requires maxEntries > 0
    ensures var before := EntriesOf(lines);
      var after := EntriesOf(Pruned(lines, maxEntries));
      && |after| <= maxEntries
      && after == before[|before| - |after|..]
      && (|before| > maxEntries ==> |after| == maxEntries)
  {
    var entries := EntriesOf(lines);
    if |entries| > maxEntries {
      JsBuiltins.SliceFromEnd(entries, maxEntries);
      EntriesOfLinesOf(JsBuiltins.Slice(entries, -maxEntries, |entries|));
    }
  }

  /** `if (this.maxEntries)`: a bound that is present and not 0. */
  predicate PrunesWith(maxEntries: Option<int>)
  {
    maxEntries.Some? && maxEntries.value != 0
  }

  class MemoryEngine {
    var log: LogFile
    const maxEntries: Option<int>

    constructor (log: LogFile, maxEntries: Option<int>)
      ensures this.log == log && this.maxEntries == maxEntries
    {
      this.log := log;
      this.maxEntries := maxEntries;
    }

    /** `record`: the entry gets its id and timestamp and is appended; the log is then pruned
        when a bound is set. An unreadable log refuses the append with its error. */
    method Record(draft: Draft, id: string, createdAt: string) returns (r: Result<MemoryEntry>)
      modifies this`log
      ensures old(log).Unreadable? ==> r == Err(old(log).error) && log == old(log)
      ensures !old(log).Unreadable? ==>
        var stored := MemoryEntry(id, draft.sessionId, draft.source, draft.role, draft.text, draft.files, createdAt);
        var appended := (if old(log).Lines? then old(log).lines else []) + [Parsed(stored)];
        && r == Ok(stored)
        && (PrunesWith(maxEntries) ==> log == Lines(Pruned(appended, maxEntries.value)))
        && (!PrunesWith(maxEntries) ==> log == Lines(appended))
    {
      if log.Unreadable? {
        return Err(log.error);
      }
      var stored := MemoryEntry(id, draft.sessionId, draft.source, draft.role, draft.text, draft.files, createdAt);
      var lines := if log.Lines? then log.lines else [];
      lines := lines + [Parsed(stored)];
      log := Lines(lines);
      if maxEntries.Some? && maxEntries.value != 0 {
        Prune(maxEntries.value);
      }
      r := Ok(stored);
    }

    method Prune(bound: int)
      requires log.Lines?
      modifies this`log
      ensures log == Lines(Pruned(old(log).lines, bound))
    {
      var entries := EntriesOf(log.lines);
      if |entries| <= bound {
        return;
      }
      var trimmed := JsBuiltins.Slice(entries, -bound, |entries|);
      log := Lines(LinesOf(trimmed));
    }

    /** `query`. */
    method Query(text: string, limit: int) returns (r: Result<seq<MemoryEntry>>)
      ensures ReadEntries(log).Err? ==> r == Err(ReadEntries(log).error)
      ensures ReadEntries(log).Ok? ==> r == Ok(QueryOf(ReadEntries(log).value, text, limit))
    {
      var entries := ReadEntries(log);
      if entries.Err? {
        return Err(entries.error);
      }
      var needle := JsBuiltins.ToLower(JsBuiltins.Trim(text));
      if needle == [] {
        return Ok(JsBuiltins.Slice(entries.value, -limit, |entries.value|));
      }
      var matches := Matching(entries.value, needle);
      r := Ok(JsBuiltins.Slice(matches, -limit, |matches|));
    }
  }

  /** With a positive bound, a recorded entry is the newest in the log, and the log holds at
      most the bound. */
  lemma RecordedIsNewest(old_lines: seq<Line>, stored: MemoryEntry, maxEntries: int)
    requires maxEntries > 0
    ensures var after := EntriesOf(Pruned(old_lines + [Parsed(stored)], maxEntries));
      && 1 <= |after| <= maxEntries && after[|after| - 1] == stored
  {
    var lines := old_lines + [Parsed(stored)];
    EntriesOfAppend(old_lines, [Parsed(stored)]);
    assert EntriesOf([Parsed(stored)]) == [stored];
    var before := EntriesOf(lines);
    assert |before| >= 1 && before[|before| - 1] == stored;
    PruneKeepsNewest(lines, maxEntries);
    var after := EntriesOf(Pruned(lines, maxEntries));
    if |before| <= maxEntries {
      assert Pruned(lines, maxEntries) == lines;
    }
    assert |after| >= 1;
    assert after[|after| - 1] == before[|before| - 1];
  }

  // ---------------------------------------------------------------- the memory_search tool

  /** The tool's arguments, already validated. */
  datatype SearchArgs = SearchArgs(query: string, limit: Option<int>)

  const DefaultSearchLimit := 10

  /** One result line: "[sessionId] text", trimmed. */
  function ResultLine(entry: MemoryEntry): (r: string)
    ensures |r| >= 1 && r[0] == '['
  {
    var line := "[" + entry.sessionId + "] " + entry.text.GetOr("");
    JsBuiltins.TrimKeepsFirst(line);
    JsBuiltins.Trim(line)
  }

  function ResultLines(results: seq<MemoryEntry>): (r: seq<string>)
    ensures |r| == |results|
    ensures forall i :: 0 <= i < |results| ==> r[i] == ResultLine(results[i])
  {
    if results == [] then [] else [ResultLine(results[0])] + ResultLines(results[1..])
  }

  const NoMatches := "No memory matches."

  /** The tool's text: "No memory matches." exactly when there are no results. */
  function SearchText(results: seq<MemoryEntry>): (r: string)
    ensures results == [] <==> r == NoMatches
    ensures results != [] ==> r == JsBuiltins.Join(ResultLines(results), "\n")
  {
    if |results| == 0 then NoMatches
    else
      var r := JsBuiltins.Join(ResultLines(results), "\n");
      JsBuiltins.JoinKeepsFirst(ResultLines(results), "\n");
      assert r[0] == '[' && NoMatches[0] != '[';
      r
  }

  /** `execute` of `memory_search`: without an engine it throws; a failed query is rethrown;
      otherwise the result carries the text, `details.count` and the call's ids. */
  function SearchTool(engine: Option<Result<seq<MemoryEntry>>>, args: SearchArgs, call: ToolCall): (r: Tools.ToolOutcome)
    ensures engine.None? ==> r == Tools.Throws(Error("Memory engine unavailable"))
    ensures engine.Some? && engine.value.Err? ==> r == Tools.Throws(engine.value.error)
    ensures engine.Some? && engine.value.Ok? ==>
      var results := QueryOf(engine.value.value, args.query, args.limit.GetOr(DefaultSearchLimit));
      && r.Returns? && r.result.files.None?
      && r.result.toolMessage == ToolResult(call.id, call.name, [TextBlock(SearchText(results))], false,
           Some(Json.Obj(map["count" := Json.Num(|results|)])))
  {
    match engine
    case None => Tools.Throws(Error("Memory engine unavailable"))
    case Some(Err(e)) => Tools.Throws(e)
    case Some(Ok(entries)) =>
      var results := QueryOf(entries, args.query, args.limit.GetOr(DefaultSearchLimit));
      Tools.Returns(ToolExecutionResult(
        ToolResult(call.id, call.name, [TextBlock(SearchText(results))], false, Some(Json.Obj(map["count" := Json.Num(|results|)]))),
        None))
  }
}
