// The message shapes that flow between connectors, the engine, inference providers
// and tools: a connector message with its context, file references, and the
// conversation messages of the inference library (user, assistant, tool result).

module Messages {
  import opened Wrappers
  import Json

  /** Where a message came from and where replies go. */
  datatype MessageContext = MessageContext(channelId: string, userId: Option<string>, sessionId: Option<string>)

  /** A stored file: id, original name, MIME type, size in bytes and path on disk. */
  datatype FileReference = FileReference(id: string, name: string, mimeType: string, size: nat, path: string)

  /** What a connector delivers or is asked to send: optional text and optional files. */
  datatype ConnectorMessage = ConnectorMessage(text: Option<string>, files: Option<seq<FileReference>>)

  /** A tool invocation requested by the model. */
  datatype ToolCall = ToolCall(id: string, name: string, arguments: Json.Value)

  /** A content block of a conversation message. An image block names the file whose bytes it carries. */
  datatype Block =
    | TextBlock(text: string)
    | ThinkingBlock(thinking: string)
    | ImageBlock(source: string, mimeType: string)
    | ToolCallBlock(call: ToolCall)

  /** A user message carries either a plain string or a list of blocks. */
  datatype UserContent = PlainText(text: string) | Blocks(blocks: seq<Block>)

  /** The result of one tool call as the model sees it. An empty id or name counts as missing. */
  datatype ToolResult = ToolResult(toolCallId: string, toolName: string, content: seq<Block>, isError: bool, details: Option<Json.Value>)

  /** A conversation message. */
  datatype Message =
    | UserMessage(content: UserContent)
    | AssistantMessage(blocks: seq<Block>)
    | ToolResultMessage(result: ToolResult)

  /** What a tool returns: its message for the model and the files it produced. */
  datatype ToolExecutionResult = ToolExecutionResult(toolMessage: ToolResult, files: Option<seq<FileReference>>)

  /** `message.text` is truthy or `message.files` is a non-empty list. */
  predicate HasContent(message: ConnectorMessage)
  {
    (message.text.Some? && message.text.value != "") || (message.files.Some? && message.files.value != [])
  }
}
