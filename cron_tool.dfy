// The older runtime's `add_cron` tool and the `send-message` cron action the runtime
// registers for it. The tool schedules a task that, when it fires, sends the given message
// back to the chat the tool was called from, once unless asked otherwise; the action looks up
// the task's connector and sends the text to the task's channel.
//
// The `onTaskAdded` callback is recorded as the task it was called with; sending a message is
// recorded as what would be sent, and where.

module CronTool {
  import opened Wrappers
  import opened Messages
  import Json
  import JsBuiltins
  import Cron
  import Connectors
  import Tools

  const ToolName := "add_cron"
  const SendMessage := "send-message"

  /** The tool's arguments. `userId` is `None` for both a missing and a null id. */
  datatype CronArgs = CronArgs(
    id: Option<string>, everyMs: int, message: string, runOnStart: Option<bool>, once: Option<bool>,
    channelId: Option<string>, sessionId: Option<string>, userId: Option<string>, source: Option<string>)

  /** What the tool reads from its context besides the connector registry. */
  datatype ToolContext = ToolContext(source: string, messageContext: MessageContext)

  /** The connector the task will speak through: the requested one, else the caller's. */
  function SourceOf(args: CronArgs, ctx: ToolContext): string
  {
    args.source.GetOr(ctx.source)
  }

  /** The task the tool asks the scheduler to add: a `send-message` task, addressed to the
      requested chat or else the caller's, one-shot unless `once` is false. */
  function TaskConfig(args: CronArgs, ctx: ToolContext): (c: Cron.CronTaskConfig)
    ensures c.id == args.id && c.everyMs == Cron.Finite(args.everyMs) && c.message == Some(args.message)
    ensures c.once == Some(args.once != Some(false))
    ensures c.channelId == Some(args.channelId.GetOr(ctx.messageContext.channelId))
    ensures c.sessionId == args.sessionId.OrElse(ctx.messageContext.sessionId)
    ensures c.userId == args.userId.OrElse(ctx.messageContext.userId)
    ensures c.action == Some(SendMessage) && c.source == Some(SourceOf(args, ctx))
    ensures c.enabled.None? && c.payload.None? && c.runOnStart == args.runOnStart
  {
    assert args.once.GetOr(true) == (args.once != Some(false)) by {
      if args.once.Some? { assert args.once == Some(args.once.value); }
    }
    Cron.CronTaskConfig(
      args.id, Cron.Finite(args.everyMs), Some(args.message),
      Some(args.channelId.GetOr(ctx.messageContext.channelId)),
      args.sessionId.OrElse(ctx.messageContext.sessionId),
      args.userId.OrElse(ctx.messageContext.userId),
      Some(SourceOf(args, ctx)), None, args.runOnStart, Some(args.once.GetOr(true)), Some(SendMessage), None)
  }

  /** `${task.everyMs}` for the finite whole numbers the schema admits. */
  function MillisText(m: Cron.Millis): string
  {
    match m
    case Finite(ms) => JsBuiltins.IntToString(ms)
    case NotFinite => "NaN"
  }

  /** The reply's text, naming the task and its period, and marking a one-shot task. */
  function ScheduledText(task: Cron.CronTask): string
  {
    "Scheduled cron task " + task.id.value + " every " + MillisText(task.everyMs) + "ms"
    + (if task.once == Some(true) then " (once)" else "") + "."
  }

  /** The tool's result for an added task: the text, and the task id in the details. */
  function Reply(task: Cron.CronTask, call: ToolCall): (r: ToolExecutionResult)
    ensures r.toolMessage.toolCallId == call.id && r.toolMessage.toolName == call.name && !r.toolMessage.isError
    ensures r.toolMessage.content == [TextBlock(ScheduledText(task))] && r.files.None?
    ensures r.toolMessage.details == Some(Json.Obj(map["taskId" := Json.Str(task.id.value)]))
  {
    ToolExecutionResult(
      ToolResult(call.id, call.name, [TextBlock(ScheduledText(task))], false, Some(Json.Obj(map["taskId" := Json.Str(task.id.value)]))),
      None)
  }

  /** A one-shot task and a repeating one with the same id and period are told apart only by
      the text's " (once)" mark: the one-shot text is the repeating one with that mark
      inserted before the final dot. */
  lemma OnceMarked(task: Cron.CronTask)
    ensures var repeating := ScheduledText(task.(once := Some(false)));
      var oneShot := ScheduledText(task.(once := Some(true)));
      && |oneShot| == |repeating| + 7
      && oneShot == repeating[..|repeating| - 1] + " (once)."
  {
  }

  /** `execute`. The scheduler and the connector registry may be missing; a taken task id
      makes `addTask` throw, and the tool with it. `onTaskAdded`, when there is one, is called
      with the added task, after it was added and before the reply. */
  method Execute(cron: Cron.CronScheduler?, registry: Connectors.ConnectorRegistry?, hasOnTaskAdded: bool,
                 args: CronArgs, ctx: ToolContext, call: ToolCall)
      returns (r: Tools.ToolOutcome, notified: Option<Cron.CronTask>)
    requires cron != null ==> cron.Valid()
    modifies cron
    ensures cron != null ==> cron.Valid()
    ensures cron == null ==> r == Tools.Throws(Error("Cron scheduler unavailable"))
    ensures cron != null && registry == null ==> r == Tools.Throws(Error("Connector registry unavailable"))
    ensures cron != null && registry != null && !registry.Has(SourceOf(args, ctx)) ==>
      r == Tools.Throws(Error("Connector not loaded: " + SourceOf(args, ctx)))
    ensures cron != null && (registry == null || !registry.Has(SourceOf(args, ctx))) ==> unchanged(cron)
    ensures cron != null && registry != null && registry.Has(SourceOf(args, ctx)) ==>
      (&& (r.Throws? <==> args.id.Some? && Cron.HasTaskId(old(cron.tasks), args.id.value))
       && (r.Throws? ==> r.error == Error("Cron task already exists: " + args.id.value) && cron.tasks == old(cron.tasks))
       && (r.Returns? ==>
             && |cron.tasks| == |old(cron.tasks)| + 1 && cron.tasks[..|old(cron.tasks)|] == old(cron.tasks)
             && var task := cron.tasks[|old(cron.tasks)|];
             && task == TaskConfig(args, ctx).(id := task.id)
             && (args.id.Some? ==> task.id == args.id)
             && r.result == Reply(task, call)
             && (hasOnTaskAdded ==> notified.Some? && notified.value == task) && (!hasOnTaskAdded ==> notified.None?)))
    ensures r.Throws? ==> notified.None?
  {
    notified := None;
    if cron == null {
      return Tools.Throws(Error("Cron scheduler unavailable")), None;
    }
    if registry == null {
      return Tools.Throws(Error("Connector registry unavailable")), None;
    }
    var source := SourceOf(args, ctx);
    if !registry.Has(source) {
      return Tools.Throws(Error("Connector not loaded: " + source)), None;
    }
    var added := cron.AddTask(TaskConfig(args, ctx));
    if added.Err? {
      return Tools.Throws(added.error), None;
    }
    var task := added.value;
    if hasOnTaskAdded {
      notified := Some(task);
    }
    r := Tools.Returns(Reply(task, call));
  }

  // ---------------------------------------------------------------- the send-message action

  /** A message the action sends: through which connector, to which channel, with which text. */
  datatype Send = Send(connector: string, channelId: string, text: string)

  /** The `send-message` action: the task's connector (Telegram when the task names none) must
      be loaded and the task must carry a non-empty message; otherwise the run is skipped. A
      failed send is only logged, so it is not part of the result. */
  function SendMessageAction(task: Cron.CronTask, context: MessageContext, loaded: set<string>): (r: Option<Send>)
    ensures r.Some? <==> task.source.GetOr("telegram") in loaded && task.message.Some? && task.message.value != ""
    ensures r.Some? ==> r.value == Send(task.source.GetOr("telegram"), context.channelId, task.message.value)
  {
    var source := task.source.GetOr("telegram");
    if source !in loaded then None
    else if task.message.None? || task.message.value == "" then None
    else Some(Send(source, context.channelId, task.message.value))
  }

  /** A task this tool scheduled, when it fires in the running scheduler of the runtime (which
      registers the `send-message` action), runs only that action, and the action sends the
      tool's message through the requested connector to the requested chat, or to the chat
      the tool was called from, as long as that connector is still loaded. */
  lemma ScheduledTaskSendsBack(args: CronArgs, ctx: ToolContext, id: string, actions: set<string>, hasOnError: bool, loaded: set<string>)
    requires SendMessage in actions && args.message != ""
    requires SourceOf(args, ctx) in loaded
    ensures var task: Cron.CronTask := TaskConfig(args, ctx).(id := Some(id));
      var fx := Cron.Dispatch(task, false, actions, hasOnError);
      (&& fx == [Cron.ActionRan(SendMessage, task, Cron.DispatchContext(task))]
       && SendMessageAction(task, fx[0].context, loaded)
            == Some(Send(SourceOf(args, ctx), args.channelId.GetOr(ctx.messageContext.channelId), args.message)))
  {
    var task: Cron.CronTask := TaskConfig(args, ctx).(id := Some(id));
    Cron.DispatchRouting(task, false, actions, hasOnError);
  }
}
