// The message-handling core of the runtime, in both generations: the bounded tool loop that
// answers one incoming message, the reply decision that follows it, the recovery of sessions
// after a restart, and the helpers that read conversation messages.
//
// The older runtime and the newer engine run the same loop and the same decision; they differ
// only around a reply: the newer one shows a typing indicator while inference runs and
// announces a sent reply on its event bus, the older one remembers a sent reply in its memory
// engine. Inference, tool execution and the connector's `sendMessage` are oracles. Writes to
// the session log are recorded as effects; they never fail here (their errors are logged and
// swallowed in the runtime).

module Engine {
  import opened Wrappers
  import Json
  import opened Messages
  import JsBuiltins
  import Connectors
  import Router
  import Settings
  import SessionStore

  /** `MAX_TOOL_ITERATIONS`: inference calls allowed for one incoming message. */
  const MaxToolIterations: nat := 5

  const LimitText := "Tool execution limit reached."
  const InternalErrorText := "Internal error."

  datatype Generation = Scout | Gram

  // ---------------------------------------------------------------- message helpers

  /** The tool-call blocks among `blocks`, in order. */
  function ToolCallsOf(blocks: seq<Block>): seq<ToolCall>
  {
    if blocks == [] then []
    else
      assert blocks == [blocks[0]] + blocks[1..];
      (if blocks[0].ToolCallBlock? then [blocks[0].call] else []) + ToolCallsOf(blocks[1..])
  }

  /** Exactly the tool-call blocks are picked, and nothing is added. */
  lemma {:induction false} ToolCallsOfMembers(blocks: seq<Block>)
    ensures forall c :: c in ToolCallsOf(blocks) <==> ToolCallBlock(c) in blocks
    ensures |ToolCallsOf(blocks)| <= |blocks|
  {
    if blocks != [] {
      assert blocks == [blocks[0]] + blocks[1..];
      ToolCallsOfMembers(blocks[1..]);
    }
  }

  /** Picking tool calls keeps the order of the blocks. */
  lemma {:induction false} ToolCallsOfAppend(a: seq<Block>, b: seq<Block>)
    ensures ToolCallsOf(a + b) == ToolCallsOf(a) + ToolCallsOf(b)
    decreases |a|
  {
    if a == [] {
      assert a + b == b;
    } else {
      var head := if a[0].ToolCallBlock? then [a[0].call] else [];
      assert (a + b)[0] == a[0] && (a + b)[1..] == a[1..] + b;
      ToolCallsOfAppend(a[1..], b);
      assert ToolCallsOf(a + b) == head + ToolCallsOf(a[1..] + b);
      assert ToolCallsOf(a) == head + ToolCallsOf(a[1..]);
    }
  }

  /** `extractToolCalls`: the tool calls of an assistant message; none for any other message. */
  function ExtractToolCalls(m: Message): seq<ToolCall>
  {
    if m.AssistantMessage? then ToolCallsOf(m.blocks) else []
  }

  /** The calls extracted are the tool-call blocks of an assistant message, and none for any
      other message. */
  lemma ExtractToolCallsMembers(m: Message)
    ensures forall c :: c in ExtractToolCalls(m) <==> m.AssistantMessage? && ToolCallBlock(c) in m.blocks
  {
    if m.AssistantMessage? {
      ToolCallsOfMembers(m.blocks);
    }
  }

  /** The non-empty texts of the text blocks, in order. */
  function TextsOf(blocks: seq<Block>): (texts: seq<string>)
    ensures forall t :: t in texts <==> t != "" && TextBlock(t) in blocks
  {
    if blocks == [] then []
    else
      assert blocks == [blocks[0]] + blocks[1..];
      (if blocks[0].TextBlock? && blocks[0].text != "" then [blocks[0].text] else []) + TextsOf(blocks[1..])
  }

  /** Joining non-empty parts gives "" only when there are no parts. */
  lemma JoinEmpty(parts: seq<string>, sep: string)
    requires forall i :: 0 <= i < |parts| ==> parts[i] != ""
    ensures JsBuiltins.Join(parts, sep) == "" <==> parts == []
  {
    if |parts| >= 2 {
      assert |JsBuiltins.Join(parts, sep)| >= |parts[0]|;
    }
  }

  /** `extractAssistantText`: null for a non-assistant message; otherwise the non-empty text
      blocks joined by newlines, which is "" (not null) when there are none. */
  function ExtractAssistantText(m: Message): (text: Option<string>)
    ensures !m.AssistantMessage? ==> text.None?
    ensures m.AssistantMessage? ==> text.Some? && (text.value == "" <==> forall t :: TextBlock(t) in m.blocks ==> t == "")
  {
    if m.AssistantMessage? then
      var parts := TextsOf(m.blocks);
      assert forall i :: 0 <= i < |parts| ==> parts[i] in parts;
      JoinEmpty(parts, "\n");
      Some(JsBuiltins.Join(parts, "\n"))
    else None
  }

  /** A stored session state whose `context.messages` is an array. */
  predicate UsableState(state: Json.Value)
  {
    && state.Obj? && "context" in state.fields
    && var context := state.fields["context"];
    && context.Obj? && "messages" in context.fields && context.fields["messages"].Arr?
  }

  /** `normalizeSessionState`, giving the `context` of the result: the stored context when its
      messages are an array, else an empty conversation. */
  function NormalizeSessionState(state: Json.Value): (context: Json.Value)
    ensures UsableState(Json.Obj(map["context" := context]))
    ensures UsableState(state) ==> context == state.fields["context"]
  {
    if UsableState(state) then state.fields["context"] else Json.Obj(map["messages" := Json.Arr([])])
  }

  /** Normalising a normalised state changes nothing. */
  lemma NormalizeIdempotent(state: Json.Value)
    ensures NormalizeSessionState(Json.Obj(map["context" := NormalizeSessionState(state)])) == NormalizeSessionState(state)
  {
  }

  /** A received file is sent to the model as an image when its type starts with "image/". */
  predicate IsImage(file: FileReference)
  {
    JsBuiltins.StartsWith(file.mimeType, "image/")
  }

  /** The block a received file becomes: the image read from its path, or a line describing
      the file. */
  function FileBlock(file: FileReference): Block
  {
    if IsImage(file) then ImageBlock(file.path, file.mimeType)
    else TextBlock("File received: " + file.name + " (" + file.mimeType + ", " + JsBuiltins.NatToString(file.size) + " bytes)")
  }

  function FileBlocks(files: seq<FileReference>): (blocks: seq<Block>)
    ensures |blocks| == |files|
    ensures forall i :: 0 <= i < |files| ==> blocks[i] == FileBlock(files[i])
  {
    if files == [] then [] else FileBlocks(files[..|files| - 1]) + [FileBlock(files[|files| - 1])]
  }

  /** The text block that opens a user message with files: the message's text, when non-empty. */
  function LeadOf(message: ConnectorMessage): seq<Block>
  {
    if message.text.GetOr("") != "" then [TextBlock(message.text.value)] else []
  }

  /** The user message built from an incoming message. */
  function UserMessageOf(message: ConnectorMessage): Message
  {
    var files := message.files.GetOr([]);
    if files == [] then UserMessage(PlainText(message.text.GetOr("")))
    else UserMessage(Blocks(LeadOf(message) + FileBlocks(files)))
  }

  /** The user message is the message's text alone when there are no files; otherwise its
      text (when non-empty) followed by one block per file, in order. */
  lemma UserMessageShape(message: ConnectorMessage)
    ensures message.files.GetOr([]) == [] ==> UserMessageOf(message) == UserMessage(PlainText(message.text.GetOr("")))
    ensures LeadOf(message) == (if message.text.GetOr("") != "" then [TextBlock(message.text.value)] else [])
    ensures message.files.GetOr([]) != [] ==> (
      var m := UserMessageOf(message);
      var files := message.files.value;
      && m.UserMessage? && m.content.Blocks?
      && |m.content.blocks| == |LeadOf(message)| + |files|
      && m.content.blocks[..|LeadOf(message)|] == LeadOf(message)
      && forall i :: 0 <= i < |files| ==> m.content.blocks[|LeadOf(message)| + i] == FileBlock(files[i]))
  {
    if message.files.GetOr([]) != [] {
      LeadThenFiles(LeadOf(message), message.files.value);
    }
  }

  lemma LeadThenFiles(lead: seq<Block>, files: seq<FileReference>)
    ensures var blocks := lead + FileBlocks(files);
      && |blocks| == |lead| + |files| && blocks[..|lead|] == lead
      && forall i :: 0 <= i < |files| ==> blocks[|lead| + i] == FileBlock(files[i])
  {
    var blocks := lead + FileBlocks(files);
    assert blocks[..|lead|] == lead;
    forall i | 0 <= i < |files| ensures blocks[|lead| + i] == FileBlock(files[i]) {
      assert blocks[|lead| + i] == FileBlocks(files)[i];
    }
  }

  /** The error of the first image, in file order, whose `fs.readFile` throws; `read` is what
      reading a path does. */
  function ReadFailure(files: seq<FileReference>, read: string -> Outcome): Option<Thrown>
  {
    if files == [] then None
    else if IsImage(files[0]) && read(files[0].path).Failed? then Some(read(files[0].path).error)
    else ReadFailure(files[1..], read)
  }

  /** Building the user message fails exactly when some image cannot be read, and then with the
      error of the first such image: every image before it was read. */
  lemma {:induction false} ReadFailureMembers(files: seq<FileReference>, read: string -> Outcome)
    ensures ReadFailure(files, read).None? <==> forall i :: 0 <= i < |files| && IsImage(files[i]) ==> read(files[i].path).Done?
    ensures ReadFailure(files, read).Some? ==> exists i ::
      && 0 <= i < |files| && IsImage(files[i]) && read(files[i].path) == Failed(ReadFailure(files, read).value)
      && forall j :: 0 <= j < i && IsImage(files[j]) ==> read(files[j].path).Done?
    decreases |files|
  {
    if files != [] {
      ReadFailureMembers(files[1..], read);
      if !(IsImage(files[0]) && read(files[0].path).Failed?) {
        if ReadFailure(files, read).Some? {
          var i :| 0 <= i < |files[1..]| && IsImage(files[1..][i])
            && read(files[1..][i].path) == Failed(ReadFailure(files, read).value)
            && forall j :: 0 <= j < i && IsImage(files[1..][j]) ==> read(files[1..][j].path).Done?;
          assert forall j :: 0 <= j < i + 1 && IsImage(files[j]) ==> read(files[j].path).Done? by {
            forall j | 0 <= j < i + 1 && IsImage(files[j]) ensures read(files[j].path).Done? {
              if j > 0 {
                assert files[j] == files[1..][j - 1];
              }
            }
          }
          assert files[i + 1] == files[1..][i];
        } else {
          forall i | 0 <= i < |files| && IsImage(files[i]) ensures read(files[i].path).Done? {
            if i > 0 {
              assert files[i] == files[1..][i - 1];
            }
          }
        }
      }
    }
  }

  /** One file of the read loop: the first failure from `i` on is at `i`, or after it. */
  lemma ReadFailureStep(files: seq<FileReference>, i: nat, read: string -> Outcome)
    requires i < |files|
    ensures ReadFailure(files[i..], read) ==
      if IsImage(files[i]) && read(files[i].path).Failed? then Some(read(files[i].path).error)
      else ReadFailure(files[i + 1..], read)
  {
    assert files[i..][0] == files[i] && files[i..][1..] == files[i + 1..];
  }

  /** `buildUserMessage`: the message `UserMessageShape` describes, or the error of the first
      image it cannot read. `read` is what `fs.readFile` does for a path. */
  method BuildUserMessage(message: ConnectorMessage, read: string -> Outcome) returns (r: Result<Message>)
    ensures ReadFailure(message.files.GetOr([]), read).Some? ==> r == Err(ReadFailure(message.files.GetOr([]), read).value)
    ensures ReadFailure(message.files.GetOr([]), read).None? ==> r == Ok(UserMessageOf(message))
  {
    var text := message.text.GetOr("");
    var files := message.files.GetOr([]);
    if |files| == 0 {
      return Ok(UserMessage(PlainText(text)));
    }
    var lead: seq<Block> := if text != "" then [TextBlock(text)] else [];
    var blocks := ReadFileBlocks(files, read);
    if blocks.Err? {
      return Err(blocks.error);
    }
    r := Ok(UserMessage(Blocks(lead + blocks.value)));
  }

  /** The `for` loop of `buildUserMessage`: one block per file, in order, reading each image;
      the first read that throws ends it. */
  method ReadFileBlocks(files: seq<FileReference>, read: string -> Outcome) returns (r: Result<seq<Block>>)
    ensures ReadFailure(files, read).Some? ==> r == Err(ReadFailure(files, read).value)
    ensures ReadFailure(files, read).None? ==> r == Ok(FileBlocks(files))
  {
    var content: seq<Block> := [];
    var i := 0;
    while i < |files|
      invariant 0 <= i <= |files|
      invariant content == FileBlocks(files[..i])
      invariant ReadFailure(files[i..], read) == ReadFailure(files, read)
    {
      ReadFailureStep(files, i, read);
      if IsImage(files[i]) {
        var data := read(files[i].path);
        if data.Failed? {
          return Err(data.error);
        }
      }
      assert files[..i + 1][..i] == files[..i];
      content := content + [FileBlock(files[i])];
      i := i + 1;
    }
    assert files[..i] == files;
    r := Ok(content);
  }

  // ---------------------------------------------------------------- the tool loop

  /** The loop's variables between iterations: the conversation (the session's own messages),
      the files tools produced, the latest response, `toolLoopExceeded`, the error that ended
      the loop if any, and how many inference calls were made. */
  datatype Progress = Progress(
    messages: seq<Message>, files: seq<FileReference>, response: Option<Message>,
    exceeded: bool, failure: Option<Thrown>, inferences: nat)

  /** The tool-result messages of running `calls`, in call order. */
  function ToolMessages(calls: seq<ToolCall>, runTool: ToolCall -> ToolExecutionResult): seq<Message>
  {
    if calls == [] then [] else ToolMessages(calls[..|calls| - 1], runTool) + [ToolResultMessage(runTool(calls[|calls| - 1]).toolMessage)]
  }

  /** One tool-result message per call, in call order. */
  lemma {:induction false} ToolMessagesInOrder(calls: seq<ToolCall>, runTool: ToolCall -> ToolExecutionResult)
    ensures |ToolMessages(calls, runTool)| == |calls|
    ensures forall i :: 0 <= i < |calls| ==> ToolMessages(calls, runTool)[i] == ToolResultMessage(runTool(calls[i]).toolMessage)
    decreases |calls|
  {
    if calls != [] {
      ToolMessagesInOrder(calls[..|calls| - 1], runTool);
    }
  }

  /** The files the tools produced, in call order. */
  function ToolFiles(calls: seq<ToolCall>, runTool: ToolCall -> ToolExecutionResult): seq<FileReference>
  {
    if calls == [] then [] else ToolFiles(calls[..|calls| - 1], runTool) + runTool(calls[|calls| - 1]).files.GetOr([])
  }

  /** A response that asked for tools, and the results of running them, join the conversation. */
  function AfterTools(p: Progress, msg: Message, iteration: nat, runTool: ToolCall -> ToolExecutionResult): Progress
  {
    var calls := ExtractToolCalls(msg);
    Progress(p.messages + [msg] + ToolMessages(calls, runTool), p.files + ToolFiles(calls, runTool), Some(msg),
             p.exceeded || iteration == MaxToolIterations - 1, p.failure, p.inferences + 1)
  }

  /** The loop from iteration `iteration` on: ask for a response; stop on an error or at the
      first response without tool calls; otherwise run its tools and go round again, at most
      `MaxToolIterations` times in all. */
  function Iterate(p: Progress, iteration: nat, infer: seq<Message> -> Result<Message>, runTool: ToolCall -> ToolExecutionResult): Progress
    requires iteration <= MaxToolIterations
    decreases MaxToolIterations - iteration
  {
    if iteration == MaxToolIterations then p
    else match infer(p.messages)
      case Err(e) => p.(failure := Some(e), inferences := p.inferences + 1)
      case Ok(msg) =>
        if ExtractToolCalls(msg) == [] then p.(messages := p.messages + [msg], response := Some(msg), inferences := p.inferences + 1)
        else Iterate(AfterTools(p, msg, iteration, runTool), iteration + 1, infer, runTool)
  }

  /** A response that asks for tools hands the loop on to the next iteration. */
  lemma IterateStep(p: Progress, iteration: nat, infer: seq<Message> -> Result<Message>, runTool: ToolCall -> ToolExecutionResult)
    requires iteration < MaxToolIterations && infer(p.messages).Ok? && ExtractToolCalls(infer(p.messages).value) != []
    ensures Iterate(p, iteration, infer, runTool) == Iterate(AfterTools(p, infer(p.messages).value, iteration, runTool), iteration + 1, infer, runTool)
  {
  }

  /** The loop makes at most one inference call per remaining iteration. */
  lemma {:induction false} IterateBounded(p: Progress, iteration: nat, infer: seq<Message> -> Result<Message>, runTool: ToolCall -> ToolExecutionResult)
    requires iteration <= MaxToolIterations
    ensures p.inferences <= Iterate(p, iteration, infer, runTool).inferences <= p.inferences + (MaxToolIterations - iteration)
    ensures iteration < MaxToolIterations ==> p.inferences < Iterate(p, iteration, infer, runTool).inferences
    decreases MaxToolIterations - iteration
  {
    if iteration < MaxToolIterations && infer(p.messages).Ok? && ExtractToolCalls(infer(p.messages).value) != [] {
      IterateBounded(AfterTools(p, infer(p.messages).value, iteration, runTool), iteration + 1, infer, runTool);
    }
  }

  /** The iteration at `iteration` gets a response that asks for tools. */
  predicate RunsTools(p: Progress, iteration: nat, infer: seq<Message> -> Result<Message>)
  {
    iteration < MaxToolIterations && infer(p.messages).Ok? && ExtractToolCalls(infer(p.messages).value) != []
  }

  /** `r` only appends to the conversation and to the produced files of `p`. */
  predicate Extends(p: Progress, r: Progress)
  {
    p.messages <= r.messages && p.files <= r.files
  }

  /** The loop only appends to the conversation and to the produced files. */
  lemma {:induction false} IterateExtends(p: Progress, iteration: nat, infer: seq<Message> -> Result<Message>, runTool: ToolCall -> ToolExecutionResult)
    requires iteration <= MaxToolIterations
    ensures var r := Iterate(p, iteration, infer, runTool); p.messages <= r.messages && p.files <= r.files
    decreases MaxToolIterations - iteration
  {
    if RunsTools(p, iteration, infer) {
      var next := AfterTools(p, infer(p.messages).value, iteration, runTool);
      IterateExtends(next, iteration + 1, infer, runTool);
      IterateToolsExtends(p, iteration, infer, runTool);
    } else {
      IterateStopExtends(p, iteration, infer, runTool);
    }
  }

  /** An iteration that runs tools appends to what the rest of the loop appends to. */
  lemma IterateToolsExtends(p: Progress, iteration: nat, infer: seq<Message> -> Result<Message>, runTool: ToolCall -> ToolExecutionResult)
    requires RunsTools(p, iteration, infer)
    requires var next := AfterTools(p, infer(p.messages).value, iteration, runTool);
      Extends(next, Iterate(next, iteration + 1, infer, runTool))
    ensures Extends(p, Iterate(p, iteration, infer, runTool))
  {
    var msg := infer(p.messages).value;
    var r := Iterate(AfterTools(p, msg, iteration, runTool), iteration + 1, infer, runTool);
    IterateStep(p, iteration, infer, runTool);
    ExtendsThroughTools(p, msg, iteration, runTool, r);
  }

  /** The iteration that ends the loop appends at most its response. */
  lemma IterateStopExtends(p: Progress, iteration: nat, infer: seq<Message> -> Result<Message>, runTool: ToolCall -> ToolExecutionResult)
    requires iteration <= MaxToolIterations && !RunsTools(p, iteration, infer)
    ensures Extends(p, Iterate(p, iteration, infer, runTool))
  {
    if iteration < MaxToolIterations && infer(p.messages).Ok? {
      assert p.messages <= p.messages + [infer(p.messages).value];
    }
  }

  /** Every iteration that ends without an error leaves a longer conversation. */
  lemma IterateGrows(p: Progress, iteration: nat, infer: seq<Message> -> Result<Message>, runTool: ToolCall -> ToolExecutionResult)
    requires iteration < MaxToolIterations
    ensures Iterate(p, iteration, infer, runTool).failure.None? ==> |p.messages| < |Iterate(p, iteration, infer, runTool).messages|
  {
    if infer(p.messages).Ok? {
      var msg := infer(p.messages).value;
      if ExtractToolCalls(msg) != [] {
        var next := AfterTools(p, msg, iteration, runTool);
        var r := Iterate(next, iteration + 1, infer, runTool);
        assert Iterate(p, iteration, infer, runTool) == r;
        IterateExtends(next, iteration + 1, infer, runTool);
        ExtendsThroughTools(p, msg, iteration, runTool, r);
      }
    }
  }

  /** What extends the state after one round of tools extends the state before it. */
  lemma ExtendsThroughTools(p: Progress, msg: Message, iteration: nat, runTool: ToolCall -> ToolExecutionResult, r: Progress)
    requires AfterTools(p, msg, iteration, runTool).messages <= r.messages
    requires AfterTools(p, msg, iteration, runTool).files <= r.files
    ensures p.messages <= r.messages && p.files <= r.files && |p.messages| < |r.messages|
  {
    var next := AfterTools(p, msg, iteration, runTool);
    var calls := ExtractToolCalls(msg);
    assert p.messages <= next.messages by {
      assert next.messages == p.messages + ([msg] + ToolMessages(calls, runTool));
    }
    assert p.files <= next.files;
    PrefixTransitive(p.messages, next.messages, r.messages);
    PrefixTransitive(p.files, next.files, r.files);
  }

  lemma PrefixTransitive<T>(a: seq<T>, b: seq<T>, c: seq<T>)
    requires a <= b && b <= c
    ensures a <= c
  {
    assert c[..|b|][..|a|] == c[..|a|];
  }

  /** How the loop ends, started before the last iteration with no error and the flag clear:
      with an error or a response; `toolLoopExceeded` is set exactly when the final response
      still asked for tools, and then every iteration made its inference call. */
  lemma {:induction false} IterateEnds(p: Progress, iteration: nat, infer: seq<Message> -> Result<Message>, runTool: ToolCall -> ToolExecutionResult)
    requires iteration < MaxToolIterations && !p.exceeded && p.failure.None?
    ensures var r := Iterate(p, iteration, infer, runTool);
      && (r.failure.Some? || r.response.Some?)
      && (r.exceeded <==> r.failure.None? && ExtractToolCalls(r.response.value) != [])
      && (r.exceeded ==> r.inferences == p.inferences + (MaxToolIterations - iteration))
    decreases MaxToolIterations - iteration
  {
    if infer(p.messages).Ok? {
      var msg := infer(p.messages).value;
      if ExtractToolCalls(msg) != [] {
        var next := AfterTools(p, msg, iteration, runTool);
        assert Iterate(p, iteration, infer, runTool) == Iterate(next, iteration + 1, infer, runTool);
        if iteration + 1 < MaxToolIterations {
          IterateEnds(next, iteration + 1, infer, runTool);
        }
      }
    }
  }

  /** The loop a message starts: its conversation, nothing produced yet. */
  function Start(messages: seq<Message>): Progress
  {
    Progress(messages, [], None, false, None, 0)
  }

  /** For one message: at most five inference calls, the conversation only grows, and the loop
      stops with an error, or with a response that asks for no tools, or after the fifth round
      of tools (and only then is `toolLoopExceeded` set). */
  lemma ToolLoopBounded(messages: seq<Message>, infer: seq<Message> -> Result<Message>, runTool: ToolCall -> ToolExecutionResult)
    ensures var r := Iterate(Start(messages), 0, infer, runTool);
      && 1 <= r.inferences <= MaxToolIterations
      && (|messages| < |r.messages| || r.failure.Some?)
      && messages <= r.messages
      && (r.failure.Some? || r.response.Some?)
      && (r.exceeded <==> r.failure.None? && ExtractToolCalls(r.response.value) != [])
      && (r.exceeded ==> r.inferences == MaxToolIterations)
  {
    var s := Start(messages);
    assert s.messages == messages && s.inferences == 0 && !s.exceeded && s.failure.None?;
    IterateBounded(s, 0, infer, runTool);
    IterateExtends(s, 0, infer, runTool);
    IterateGrows(s, 0, infer, runTool);
    IterateEnds(s, 0, infer, runTool);
  }

  // ---------------------------------------------------------------- the reply

  /** What the user is told when inference throws. */
  function InferenceErrorText(error: Thrown): (text: string)
    ensures text == "No inference provider available." <==> error == Error("No inference provider available")
    ensures text != "No inference provider available." ==> text == "Inference failed."
  {
    if error == Error("No inference provider available") then "No inference provider available." else "Inference failed."
  }

  /** With no registered provider in the list, the router gives up with the error that the
      runtime reports as "No inference provider available.". */
  lemma {:induction false} UnroutableReportsNoProvider(providers: seq<Settings.ProviderSettings>, known: set<string>, clients: Settings.ProviderSettings -> Router.ClientOutcome)
    requires forall i :: 0 <= i < |providers| ==> providers[i].id !in known
    ensures var r := Router.Route(providers, known, clients, None).result;
      r.Err? && InferenceErrorText(r.error) == "No inference provider available."
    decreases |providers|
  {
    if providers != [] {
      UnroutableReportsNoProvider(providers[1..], known, clients);
    }
  }

  /** What follows the loop. */
  datatype Reply =
    | ErrorReply(notice: string)                            // inference threw
    | LimitReply                                            // "Tool execution limit reached."
    | Silent                                                // nothing is sent
    | Answer(reply: Option<string>, files: seq<FileReference>)

  predicate Truthy(text: Option<string>)
  {
    text.Some? && text.value != ""
  }

  /** The decision after the loop, as the runtime makes it. */
  function Decide(p: Progress): Reply
  {
    if p.failure.Some? then ErrorReply(InferenceErrorText(p.failure.value))
    else if p.response.None? then Silent
    else
      var text := ExtractAssistantText(p.response.value);
      if !Truthy(text) && p.files == [] then (if p.exceeded then LimitReply else Silent)
      else Answer(if text.Some? then text else if p.files != [] then Some("Generated files.") else None, p.files)
  }

  /** The limit notice is sent exactly when the fifth round still ran tools and there is
      neither reply text nor a produced file. */
  lemma LimitReplyOnlyAtLimit(messages: seq<Message>, infer: seq<Message> -> Result<Message>, runTool: ToolCall -> ToolExecutionResult)
    ensures var r := Iterate(Start(messages), 0, infer, runTool);
      Decide(r) == LimitReply <==>
        && r.failure.None? && r.inferences == MaxToolIterations && r.response.Some?
        && ExtractToolCalls(r.response.value) != []
        && !Truthy(ExtractAssistantText(r.response.value)) && r.files == []
  {
    var s := Start(messages);
    assert !s.exceeded && s.failure.None? && s.inferences == 0;
    IterateEnds(s, 0, infer, runTool);
    IterateBounded(s, 0, infer, runTool);
    DecideLimit(Iterate(s, 0, infer, runTool));
  }

  /** The limit decision for any state the loop can end in. */
  lemma DecideLimit(r: Progress)
    requires r.failure.Some? || r.response.Some?
    requires r.exceeded <==> r.failure.None? && ExtractToolCalls(r.response.value) != []
    requires r.exceeded ==> r.inferences == MaxToolIterations
    requires r.inferences <= MaxToolIterations
    ensures Decide(r) == LimitReply <==>
        && r.failure.None? && r.inferences == MaxToolIterations && r.response.Some?
        && ExtractToolCalls(r.response.value) != []
        && !Truthy(ExtractAssistantText(r.response.value)) && r.files == []
  {
  }

  /** `responseText ?? "Generated files."` falls back only for a non-assistant response: an
      assistant response whose text is empty is answered with "" and its files. */
  lemma NoFallbackForAssistant(p: Progress)
    requires Decide(p).Answer? && p.response.Some? && p.response.value.AssistantMessage?
    ensures Decide(p).reply == ExtractAssistantText(p.response.value)
    ensures (forall t :: TextBlock(t) in p.response.value.blocks ==> t == "") ==> Decide(p).reply == Some("")
  {
  }

  /** An assistant response with no text that produced a file is sent as "" with the file,
      never as "Generated files.". */
  lemma EmptyTextWithFilesIsSentEmpty(messages: seq<Message>, file: FileReference)
    ensures Decide(Progress(messages, [file], Some(AssistantMessage([])), false, None, 1)) == Answer(Some(""), [file])
  {
  }

  /** The side effects of the reply, and whether the handler throws (only when the error
      notice itself cannot be sent). */
  function ReplyEffects(gen: Generation, remembers: bool, reply: Reply, sessionId: string, source: string, context: MessageContext, send: Outcome): (r: (seq<Effect>, Outcome))
    ensures r.1.Failed? <==> reply.ErrorReply? && send.Failed?
    ensures reply.Silent? ==> r.0 == [RecordState]
    ensures !reply.Silent? ==> |r.0| >= 1 && r.0[0].Send? && r.0[0].channelId == context.channelId
    ensures !(reply.ErrorReply? && send.Failed?) ==> r.0[|r.0| - 1] == RecordState
  {
    match reply
    case ErrorReply(text) =>
      var sent := Send(context.channelId, ConnectorMessage(Some(text), None));
      if send.Failed? then ([sent], send) else ([sent, RecordOutgoing(Some(text), None), RecordState], Done)
    case LimitReply =>
      var sent := Send(context.channelId, ConnectorMessage(Some(LimitText), None));
      if send.Failed? then ([sent, RecordState], Done) else ([sent, RecordOutgoing(Some(LimitText), None), RecordState], Done)
    case Silent => ([RecordState], Done)
    case Answer(text, files) =>
      var outgoing := ConnectorMessage(text, if files != [] then Some(files) else None);
      var sent := Send(context.channelId, outgoing);
      if send.Failed? then ([sent, RecordState], Done)
      else
        var announce := match gen
          case Gram => [BusOutgoing(sessionId, source, outgoing, context)]
          case Scout => if remembers then [Remember(sessionId, source, text, files)] else [];
        ([sent, RecordOutgoing(text, Some(files))] + announce + [RecordState], Done)
  }

  /** Everything a handled message does after the loop, with the newer engine's typing
      indicator around the loop (its `finally` runs after the error notice). */
  function HandleEffects(gen: Generation, typing: bool, remembers: bool, p: Progress, sessionId: string, source: string, context: MessageContext, send: Outcome): (seq<Effect>, Outcome)
  {
    var types := gen == Gram && typing;
    var on := if types then [Typing(context.channelId, true)] else [];
    var off := if types then [Typing(context.channelId, false)] else [];
    var reply := ReplyEffects(gen, remembers, Decide(p), sessionId, source, context, send);
    if p.failure.Some? then (on + reply.0 + off, reply.1) else (on + off + reply.0, reply.1)
  }

  /** An observable action of the runtime. */
  datatype Effect =
    | Typing(channelId: string, on: bool)                   // startTyping / stopTyping
    | Send(channelId: string, message: ConnectorMessage)    // connector.sendMessage
    | RecordOutgoing(text: Option<string>, files: Option<seq<FileReference>>)
    | RecordState
    | BusOutgoing(sessionId: string, source: string, message: ConnectorMessage, context: MessageContext)
    | Remember(sessionId: string, source: string, text: Option<string>, generated: seq<FileReference>)

  // ---------------------------------------------------------------- restart recovery

  /** A restored session whose last message was incoming, still owed a reply. */
  datatype Pending = Pending(sessionId: string, source: string, context: MessageContext)

  /** The first loop of `restoreSessions`: the sessions left waiting, in order. */
  function PendingOf(restored: seq<SessionStore.RestoredSession>): (r: seq<Pending>)
    ensures |r| <= |restored|
  {
    if restored == [] then []
    else
      var s := restored[|restored| - 1];
      PendingOf(restored[..|restored| - 1]) +
        (if s.lastEntryType == Some(SessionStore.Incoming) then [Pending(s.sessionId, s.source, s.context)] else [])
  }

  function InternalError(channelId: string): Effect
  {
    Send(channelId, ConnectorMessage(Some(InternalErrorText), None))
  }

  /** `sendPendingInternalErrors`: one notice per pending session whose connector is loaded. */
  function InternalErrors(pending: seq<Pending>, loaded: set<string>): seq<Effect>
  {
    if pending == [] then []
    else
      var e := pending[|pending| - 1];
      InternalErrors(pending[..|pending| - 1], loaded) + (if e.source in loaded then [InternalError(e.context.channelId)] else [])
  }

  /** The restored sessions owed a notice: last message incoming, connector loaded. */
  function Unanswered(restored: seq<SessionStore.RestoredSession>, loaded: set<string>): (r: seq<SessionStore.RestoredSession>)
    ensures forall s :: s in r <==> s in restored && s.lastEntryType == Some(SessionStore.Incoming) && s.source in loaded
  {
    if restored == [] then []
    else
      var s := restored[|restored| - 1];
      assert restored == restored[..|restored| - 1] + [s];
      Unanswered(restored[..|restored| - 1], loaded) +
        (if s.lastEntryType == Some(SessionStore.Incoming) && s.source in loaded then [s] else [])
  }

  /** Recovery sends exactly one "Internal error." to each unanswered session, in order. */
  lemma {:induction false} RecoveryNotifiesUnanswered(restored: seq<SessionStore.RestoredSession>, loaded: set<string>)
    ensures var sends := InternalErrors(PendingOf(restored), loaded);
      var owed := Unanswered(restored, loaded);
      |sends| == |owed| && forall i :: 0 <= i < |owed| ==> sends[i] == InternalError(owed[i].context.channelId)
    decreases |restored|
  {
    if restored != [] {
      var rest := restored[..|restored| - 1];
      RecoveryNotifiesUnanswered(rest, loaded);
      var s := restored[|restored| - 1];
      if s.lastEntryType == Some(SessionStore.Incoming) {
        var p := PendingOf(rest) + [Pending(s.sessionId, s.source, s.context)];
        assert p[..|p| - 1] == PendingOf(rest);
      } else {
        assert PendingOf(restored) == PendingOf(rest);
      }
    }
  }

  // ---------------------------------------------------------------- the runtime

  /** A live session; `messages` is its state's `context.messages`, the very array the tool
      loop pushes onto (the loop's context is a shallow copy), so the whole conversation of a
      message lands in the session state. */
  class Session {
    const id: string
    var messages: seq<Message>

    constructor (id: string, messages: seq<Message>)
      ensures this.id == id && this.messages == messages
    {
      this.id := id;
      this.messages := messages;
    }
  }

  class Runtime {
    const generation: Generation
    const connectors: Connectors.ConnectorRegistry
    const remembers: bool             // the older runtime has a memory engine
    var effects: seq<Effect>

    constructor (generation: Generation, connectors: Connectors.ConnectorRegistry, remembers: bool)
      ensures this.generation == generation && this.connectors == connectors && this.remembers == remembers
      ensures effects == []
    {
      this.generation := generation;
      this.connectors := connectors;
      this.remembers := remembers;
      effects := [];
    }

    /** `handleSessionMessage`. `read` is what `fs.readFile` does for a path, `infer` the
        router's answer for a conversation, `runTool` the tool resolver's result for a call,
        `send` what the one `sendMessage` of the reply does. A message without text or files,
        or from a source with no loaded connector, changes nothing. An image that cannot be
        read throws out of the handler, before the `try`, with nothing changed. Otherwise the
        conversation grows by the user message and the loop, and the effects are those of the
        reply. */
    method HandleSessionMessage(session: Session, message: ConnectorMessage, context: MessageContext, source: string,
                                read: string -> Outcome, infer: seq<Message> -> Result<Message>,
                                runTool: ToolCall -> ToolExecutionResult, send: Outcome)
      returns (outcome: Outcome)
      modifies this`effects, session`messages
      ensures !HasContent(message) || connectors.Get(source).None? ==>
        outcome == Done && effects == old(effects) && session.messages == old(session.messages)
      ensures HasContent(message) && connectors.Get(source).Some? && ReadFailure(message.files.GetOr([]), read).Some? ==>
        && outcome == Failed(ReadFailure(message.files.GetOr([]), read).value)
        && effects == old(effects) && session.messages == old(session.messages)
      ensures HasContent(message) && connectors.Get(source).Some? && ReadFailure(message.files.GetOr([]), read).None? ==>
        var p := Iterate(Start(old(session.messages) + [UserMessageOf(message)]), 0, infer, runTool);
        var h := HandleEffects(generation, connectors.Get(source).value.typing, remembers, p, session.id, source, context, send);
        && session.messages == p.messages
        && effects == old(effects) + h.0
        && outcome == h.1
    {
      if !HasContent(message) {
        return Done;
      }
      var connector := connectors.Get(source);
      if connector.None? {
        return Done;
      }
      var user := BuildUserMessage(message, read);
      if user.Err? {
        return Failed(user.error);
      }
      outcome := Converse(session, user.value, context, source, connector.value.typing, infer, runTool, send);
    }

    /** `handleSessionMessage` once its guards have passed and the user message is built: that
        message joins the conversation, the loop runs (inside the typing indicator, for the
        newer engine), and the reply follows. */
    method Converse(session: Session, user: Message, context: MessageContext, source: string, typing: bool,
                    infer: seq<Message> -> Result<Message>, runTool: ToolCall -> ToolExecutionResult, send: Outcome)
      returns (outcome: Outcome)
      modifies this`effects, session`messages
      ensures var p := Iterate(Start(old(session.messages) + [user]), 0, infer, runTool);
        var h := HandleEffects(generation, typing, remembers, p, session.id, source, context, send);
        && session.messages == p.messages
        && effects == old(effects) + h.0
        && outcome == h.1
    {
      session.messages := session.messages + [user];
      var types := generation == Gram && typing;
      var startTyping := if types then [Typing(context.channelId, true)] else [];
      var stopTyping := if types then [Typing(context.channelId, false)] else [];
      var p := RunToolLoop(session, infer, runTool);
      var emitted;
      emitted, outcome := Reply(p, session.id, source, context, send);
      if p.failure.Some? {
        effects := effects + (startTyping + emitted + stopTyping);
      } else {
        effects := effects + (startTyping + stopTyping + emitted);
      }
    }

    /** What follows the loop: the catch block when inference threw, else the reply. */
    method Reply(p: Progress, sessionId: string, source: string, context: MessageContext, send: Outcome) returns (emitted: seq<Effect>, outcome: Outcome)
      ensures (emitted, outcome) == ReplyEffects(generation, remembers, Decide(p), sessionId, source, context, send)
    {
      emitted := [];
      if p.failure.Some? {
        var text := InferenceErrorText(p.failure.value);
        emitted := emitted + [Send(context.channelId, ConnectorMessage(Some(text), None))];
        if send.Failed? {
          assert emitted == [Send(context.channelId, ConnectorMessage(Some(text), None))];
          return emitted, send;
        }
        emitted := emitted + [RecordOutgoing(Some(text), None), RecordState];
        assert emitted == [Send(context.channelId, ConnectorMessage(Some(text), None)), RecordOutgoing(Some(text), None), RecordState];
        return emitted, Done;
      }
      if p.response.None? {
        emitted := emitted + [RecordState];
        assert emitted == [RecordState];
        return emitted, Done;
      }
      var responseText := ExtractAssistantText(p.response.value);
      if !Truthy(responseText) && |p.files| == 0 {
        if p.exceeded {
          emitted := emitted + [Send(context.channelId, ConnectorMessage(Some(LimitText), None))];
          if send.Done? {
            emitted := emitted + [RecordOutgoing(Some(LimitText), None)];
          }
        }
        emitted := emitted + [RecordState];
        assert !p.exceeded ==> Decide(p) == Silent && emitted == [RecordState];
        assert p.exceeded ==> Decide(p) == LimitReply;
        assert p.exceeded && send.Failed? ==> emitted == [Send(context.channelId, ConnectorMessage(Some(LimitText), None)), RecordState];
        assert p.exceeded && send.Done? ==>
          emitted == [Send(context.channelId, ConnectorMessage(Some(LimitText), None)), RecordOutgoing(Some(LimitText), None), RecordState];
        return emitted, Done;
      }
      var outgoingText := if responseText.Some? then responseText else if |p.files| > 0 then Some("Generated files.") else None;
      var outgoing := ConnectorMessage(outgoingText, if |p.files| > 0 then Some(p.files) else None);
      assert Decide(p) == Answer(outgoingText, p.files);
      emitted := emitted + [Send(context.channelId, outgoing)];
      if send.Done? {
        emitted := emitted + [RecordOutgoing(outgoingText, Some(p.files))];
        if generation == Gram {
          emitted := emitted + [BusOutgoing(sessionId, source, outgoing, context)];
        } else if remembers {
          emitted := emitted + [Remember(sessionId, source, outgoingText, p.files)];
        }
      }
      emitted := emitted + [RecordState];
      ghost var announce := match generation
        case Gram => [BusOutgoing(sessionId, source, outgoing, context)]
        case Scout => if remembers then [Remember(sessionId, source, outgoingText, p.files)] else [];
      assert send.Failed? ==> emitted == [Send(context.channelId, outgoing), RecordState];
      assert send.Done? ==> emitted == [Send(context.channelId, outgoing), RecordOutgoing(outgoingText, Some(p.files))] + announce + [RecordState];
      return emitted, Done;
    }

    /** The `for` loop of `handleSessionMessage`, over the session's own messages. */
    method RunToolLoop(session: Session, infer: seq<Message> -> Result<Message>, runTool: ToolCall -> ToolExecutionResult)
      returns (p: Progress)
      modifies session`messages
      ensures p == Iterate(Start(old(session.messages)), 0, infer, runTool)
      ensures session.messages == p.messages
    {
      ghost var final := Iterate(Start(session.messages), 0, infer, runTool);
      var files: seq<FileReference> := [];
      var response: Option<Message> := None;
      var exceeded := false;
      var inferences: nat := 0;
      var iteration := 0;
      while iteration < MaxToolIterations
        invariant iteration <= MaxToolIterations
        invariant Iterate(Progress(session.messages, files, response, exceeded, None, inferences), iteration, infer, runTool) == final
      {
        ghost var before := Progress(session.messages, files, response, exceeded, None, inferences);
        var result := infer(session.messages);
        inferences := inferences + 1;
        if result.Err? {
          return Progress(session.messages, files, response, exceeded, Some(result.error), inferences);
        }
        session.messages := session.messages + [result.value];
        response := Some(result.value);
        var calls := ExtractToolCalls(result.value);
        if |calls| == 0 {
          return Progress(session.messages, files, response, exceeded, None, inferences);
        }
        var produced := RunTools(session, calls, runTool);
        files := files + produced;
        if iteration == MaxToolIterations - 1 {
          exceeded := true;
        }
        assert session.messages == before.messages + [result.value] + ToolMessages(calls, runTool);
        assert files == before.files + ToolFiles(calls, runTool);
        IterateStep(before, iteration, infer, runTool);
        iteration := iteration + 1;
      }
      return Progress(session.messages, files, response, exceeded, None, inferences);
    }

    /** The inner loop: every call's result message joins the conversation, in call order. */
    method RunTools(session: Session, calls: seq<ToolCall>, runTool: ToolCall -> ToolExecutionResult) returns (files: seq<FileReference>)
      modifies session`messages
      ensures session.messages == old(session.messages) + ToolMessages(calls, runTool)
      ensures files == ToolFiles(calls, runTool)
    {
      files := [];
      var j := 0;
      while j < |calls|
        invariant 0 <= j <= |calls|
        invariant session.messages == old(session.messages) + ToolMessages(calls[..j], runTool)
        invariant files == ToolFiles(calls[..j], runTool)
      {
        assert calls[..j + 1][..j] == calls[..j];
        var result := runTool(calls[j]);
        session.messages := session.messages + [ToolResultMessage(result.toolMessage)];
        if result.files.Some? && |result.files.value| > 0 {
          files := files + result.files.value;
        }
        j := j + 1;
      }
      assert calls[..j] == calls;
    }

    /** `restoreSessions`: hands every restored session, with its state normalised, to the
        session manager (the returned contexts), then owes a notice to those left waiting. */
    method RestoreSessions(restored: seq<SessionStore.RestoredSession>) returns (contexts: seq<Json.Value>)
      modifies this`effects
      ensures |contexts| == |restored|
      ensures forall i :: 0 <= i < |restored| ==> contexts[i] == NormalizeSessionState(restored[i].state)
      ensures effects == old(effects) + InternalErrors(PendingOf(restored), connectors.connectors.entries.Keys)
    {
      var pending: seq<Pending> := [];
      contexts := [];
      var i := 0;
      while i < |restored|
        invariant 0 <= i <= |restored|
        invariant |contexts| == i
        invariant forall k :: 0 <= k < i ==> contexts[k] == NormalizeSessionState(restored[k].state)
        invariant pending == PendingOf(restored[..i])
      {
        assert restored[..i + 1][..i] == restored[..i];
        var s := restored[i];
        contexts := contexts + [NormalizeSessionState(s.state)];
        if s.lastEntryType == Some(SessionStore.Incoming) {
          pending := pending + [Pending(s.sessionId, s.source, s.context)];
        }
        i := i + 1;
      }
      assert restored[..i] == restored;
      if |pending| > 0 {
        SendPendingInternalErrors(pending);
      } else {
        assert InternalErrors(pending, connectors.connectors.entries.Keys) == [];
      }
    }

    /** `sendPendingInternalErrors`: a failed send is caught and logged, so it does not stop
        the notices after it; the notices attempted are the effects. */
    method SendPendingInternalErrors(pending: seq<Pending>)
      modifies this`effects
      ensures effects == old(effects) + InternalErrors(pending, connectors.connectors.entries.Keys)
    {
      ghost var loaded := connectors.connectors.entries.Keys;
      var i := 0;
      while i < |pending|
        invariant 0 <= i <= |pending|
        invariant effects == old(effects) + InternalErrors(pending[..i], loaded)
      {
        assert pending[..i + 1][..i] == pending[..i];
        var entry := pending[i];
        if connectors.Get(entry.source).None? {
          i := i + 1;
          continue;
        }
        effects := effects + [InternalError(entry.context.channelId)];
        i := i + 1;
      }
      assert pending[..i] == pending;
    }
  }
}
