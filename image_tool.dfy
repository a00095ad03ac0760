// The older runtime's `generate_image` tool: it picks an image provider from the registry,
// asks it for images, and answers with a summary line followed by one image block per
// generated file whose MIME type is an image type.
//
// What a provider's `generate` does is an oracle from the provider id and the request to
// the files it produced, or the error it threw. Reading a file's bytes is not modelled: an
// image block names the file it carries.

module ImageTool {
  import opened Wrappers
  import opened Messages
  import Json
  import JsBuiltins
  import Capabilities
  import Tools

  /** The tool's arguments, already validated. */
  datatype ImageArgs = ImageArgs(prompt: string, provider: Option<string>, size: Option<string>, count: Option<int>, model: Option<string>)

  /** `ImageGenerationRequest` as the tool builds it. */
  datatype ImageRequest = ImageRequest(prompt: string, size: Option<string>, count: Option<int>, model: Option<string>)

  /** The provider the call goes to: the requested one, else the only registered one; it
      must be registered. */
  function SelectProvider(listed: seq<Capabilities.ImageProvider>, known: set<string>, requested: Option<string>): (r: Result<string>)
    ensures listed == [] ==> r == Err(Error("No image generation providers available"))
    ensures listed != [] && requested.Some? && requested.value != "" ==>
      (requested.value in known ==> r == Ok(requested.value))
      && (requested.value !in known ==> r == Err(Error("Unknown image provider: " + requested.value)))
    ensures r.Ok? ==> r.value in known && (requested.None? ==> |listed| == 1 && r.value == listed[0].id)
    ensures listed != [] && requested.None? && |listed| > 1 ==> r == Err(Error("Multiple image providers available; specify provider"))
  {
    if |listed| == 0 then Err(Error("No image generation providers available"))
    else
      var providerId := requested.OrElse(if |listed| == 1 then Some(listed[0].id) else None);
      if providerId.None? || providerId.value == "" then Err(Error("Multiple image providers available; specify provider"))
      else if providerId.value !in known then Err(Error("Unknown image provider: " + providerId.value))
      else Ok(providerId.value)
  }

  predicate IsImage(file: FileReference)
  {
    JsBuiltins.StartsWith(file.mimeType, "image/")
  }

  /** One image block per image file, in order; other files are skipped. */
  function ImageBlocks(files: seq<FileReference>): seq<Block>
  {
    if files == [] then []
    else (if IsImage(files[0]) then [ImageBlock(files[0].path, files[0].mimeType)] else []) + ImageBlocks(files[1..])
  }

  /** Exactly the image files have a block, and there are no more blocks than files. */
  lemma {:induction false} ImageBlocksMembers(files: seq<FileReference>)
    ensures |ImageBlocks(files)| <= |files|
    ensures forall b :: b in ImageBlocks(files) <==> exists f :: f in files && IsImage(f) && b == ImageBlock(f.path, f.mimeType)
  {
    if files != [] {
      assert files == [files[0]] + files[1..];
      ImageBlocksMembers(files[1..]);
    }
  }

  lemma {:induction false} ImageBlocksAppend(a: seq<FileReference>, b: seq<FileReference>)
    ensures ImageBlocks(a + b) == ImageBlocks(a) + ImageBlocks(b)
  {
    if a == [] {
      assert a + b == b;
    } else {
      assert (a + b)[0] == a[0] && (a + b)[1..] == a[1..] + b;
      ImageBlocksAppend(a[1..], b);
    }
  }

  /** The blocks of a non-empty list: its first file's block, if any, then the rest's. */
  lemma ImageBlocksStep(files: seq<FileReference>)
    requires files != []
    ensures ImageBlocks(files) == (if IsImage(files[0]) then [ImageBlock(files[0].path, files[0].mimeType)] else []) + ImageBlocks(files[1..])
  {
  }

  /** Adding the first file's block to what was built leaves the remaining files' blocks to add. */
  lemma PushBlock(built: seq<Block>, files: seq<FileReference>)
    requires files != []
    ensures (if IsImage(files[0]) then built + [ImageBlock(files[0].path, files[0].mimeType)] else built) + ImageBlocks(files[1..])
      == built + ImageBlocks(files)
  {
    ImageBlocksStep(files);
    if IsImage(files[0]) {
      var block := ImageBlock(files[0].path, files[0].mimeType);
      assert (built + [block]) + ImageBlocks(files[1..]) == built + ([block] + ImageBlocks(files[1..]));
    }
  }

  /** "Generated N image(s) with <provider>.", counting every file, images or not. */
  function Summary(files: seq<FileReference>, providerId: string): string
  {
    "Generated " + JsBuiltins.NatToString(|files|) + " image(s) with " + providerId + "."
  }

  /** `details.files`: id, name, MIME type and size of every file. */
  function FileDetails(files: seq<FileReference>): (r: seq<Json.Value>)
    ensures |r| == |files|
    ensures forall i :: 0 <= i < |files| ==> r[i] == Json.Obj(map["id" := Json.Str(files[i].id), "name" := Json.Str(files[i].name),
      "mimeType" := Json.Str(files[i].mimeType), "size" := Json.Num(files[i].size)])
  {
    if files == [] then []
    else [Json.Obj(map["id" := Json.Str(files[0].id), "name" := Json.Str(files[0].name),
      "mimeType" := Json.Str(files[0].mimeType), "size" := Json.Num(files[0].size)])] + FileDetails(files[1..])
  }

  function Details(providerId: string, files: seq<FileReference>): Json.Value
  {
    Json.Obj(map["provider" := Json.Str(providerId), "files" := Json.Arr(FileDetails(files))])
  }

  /** The whole `execute`: a selection error or a `generate` error is thrown; otherwise the
      result carries the summary and the image blocks, and returns all generated files. */
  function Outcome(listed: seq<Capabilities.ImageProvider>, known: set<string>, generate: (string, ImageRequest) -> Result<seq<FileReference>>,
                   args: ImageArgs, call: ToolCall): (r: Tools.ToolOutcome)
    ensures SelectProvider(listed, known, args.provider).Err? ==> r == Tools.Throws(SelectProvider(listed, known, args.provider).error)
    ensures SelectProvider(listed, known, args.provider).Ok? ==>
      var id := SelectProvider(listed, known, args.provider).value;
      var generated := generate(id, ImageRequest(args.prompt, args.size, args.count, args.model));
      && (generated.Err? ==> r == Tools.Throws(generated.error))
      && (generated.Ok? ==>
            (&& r.Returns? && r.result.files == Some(generated.value)
             && r.result.toolMessage.toolCallId == call.id && r.result.toolMessage.toolName == call.name
             && !r.result.toolMessage.isError
             && r.result.toolMessage.content == [TextBlock(Summary(generated.value, id))] + ImageBlocks(generated.value)))
  {
    match SelectProvider(listed, known, args.provider)
    case Err(e) => Tools.Throws(e)
    case Ok(id) =>
      match generate(id, ImageRequest(args.prompt, args.size, args.count, args.model))
      case Err(e) => Tools.Throws(e)
      case Ok(files) =>
        Tools.Returns(ToolExecutionResult(
          ToolResult(call.id, call.name, [TextBlock(Summary(files, id))] + ImageBlocks(files), false, Some(Details(id, files))),
          Some(files)))
  }

  /** The result's content, built file by file: the summary line, then one image block per
      image file. */
  method Content(files: seq<FileReference>, providerId: string) returns (content: seq<Block>)
    ensures content == [TextBlock(Summary(files, providerId))] + ImageBlocks(files)
  {
    var head := [TextBlock(Summary(files, providerId))];
    content := head;
    var i := 0;
    while i < |files|
      invariant 0 <= i <= |files|
      invariant content + ImageBlocks(files[i..]) == head + ImageBlocks(files)
    {
      PushBlock(content, files[i..]);
      assert files[i..][1..] == files[i + 1..];
      if JsBuiltins.StartsWith(files[i].mimeType, "image/") {
        content := content + [ImageBlock(files[i].path, files[i].mimeType)];
      }
      i := i + 1;
    }
    assert files[i..] == [];
  }

  /** `execute`. */
  method Execute(registry: Capabilities.Registry<Capabilities.ImageProvider>, generate: (string, ImageRequest) -> Result<seq<FileReference>>,
                 args: ImageArgs, call: ToolCall) returns (r: Tools.ToolOutcome)
    requires registry.Valid()
    ensures r == Outcome(registry.List(), registry.entries.entries.Keys, generate, args, call)
  {
    var providers := registry.List();
    var selected := SelectProvider(providers, registry.entries.entries.Keys, args.provider);
    if selected.Err? {
      return Tools.Throws(selected.error);
    }
    var providerId := selected.value;
    var generated := generate(providerId, ImageRequest(args.prompt, args.size, args.count, args.model));
    if generated.Err? {
      return Tools.Throws(generated.error);
    }
    var files := generated.value;
    var content := Content(files, providerId);
    r := Tools.Returns(ToolExecutionResult(ToolResult(call.id, call.name, content, false, Some(Details(providerId, files))), Some(files)));
  }
}
