// The cron scheduler of the runtime: a list of tasks, a table of timer handles keyed by
// task id, `started`/`stopped` flags and a counter for generated `task-N` ids. The timers
// the runtime keeps running are tracked by handle beside the table, since a timer whose
// entry is overwritten by a task with the same id keeps running.
// Timers do not run by themselves here: `Fire(h)` is the moment timer `h` goes off.
// The callbacks (`onMessage`, action handlers, `onError`) are recorded, in call order,
// in the `effects` log instead of being run.

module Cron {
  import opened Wrappers
  import opened JsBuiltins
  import JsMap
  import Json
  import opened Messages

  /** `everyMs`: a finite whole number of milliseconds, or NaN / an infinity. */
  datatype Millis = Finite(ms: int) | NotFinite

  datatype CronTaskConfig = CronTaskConfig(
    id: Option<string>,
    everyMs: Millis,
    message: Option<string>,   // None when absent or not a string
    channelId: Option<string>,
    sessionId: Option<string>,
    userId: Option<string>,    // None for both undefined and null
    source: Option<string>,
    enabled: Option<bool>,
    runOnStart: Option<bool>,
    once: Option<bool>,
    action: Option<string>,
    payload: Option<Json.Value>)

  /** A task after normalisation: its id is always set. */
  type CronTask = t: CronTaskConfig | t.id.Some?
    witness CronTaskConfig(Some(""), NotFinite, None, None, None, None, None, None, None, None, None, None)

  // ---------------------------------------------------------------- task ids

  /** The generated id `task-<n>`. */
  function TaskId(n: nat): string
  {
    "task-" + NatToString(n)
  }

  /** The number `n` of an id matching `^task-(\d+)$`, if it matches. */
  function ParseTaskNumber(id: string): Option<nat>
  {
    if |id| > 5 && id[..5] == "task-" && AllDigits(id[5..]) then Some(ParseDigits(id[5..])) else None
  }

  /** Every generated id is recognised as `task-N` with its own number. */
  lemma TaskIdRoundTrip(n: nat)
    ensures ParseTaskNumber(TaskId(n)) == Some(n)
  {
    var id := TaskId(n);
    assert id[..5] == "task-";
    assert id[5..] == NatToString(n);
    ParseNatToString(n);
  }

  /** The number a task id contributes to the counter seed (0 when it is not `task-N`). */
  function NumberOf(t: CronTask): nat
  {
    match ParseTaskNumber(t.id.value)
    case Some(n) => n
    case None => 0
  }

  /** The largest `N` among the ids of the form `task-N`, or 0. */
  function MaxTaskNumber(tasks: seq<CronTask>): (r: nat)
    ensures forall i :: 0 <= i < |tasks| ==> NumberOf(tasks[i]) <= r
    ensures r == 0 || exists i :: 0 <= i < |tasks| && NumberOf(tasks[i]) == r
  {
    if tasks == [] then 0
    else
      var rest := MaxTaskNumber(tasks[..|tasks| - 1]);
      var last := NumberOf(tasks[|tasks| - 1]);
      if last > rest then last else rest
  }

  predicate HasTaskId(tasks: seq<CronTask>, id: string)
  {
    exists i :: 0 <= i < |tasks| && tasks[i].id == Some(id)
  }

  /** A taken generated id bounds its number by the seed maximum; this is why id generation stops. */
  lemma TakenNumberBounded(tasks: seq<CronTask>, n: nat)
    requires HasTaskId(tasks, TaskId(n))
    ensures n <= MaxTaskNumber(tasks)
  {
    var i :| 0 <= i < |tasks| && tasks[i].id == Some(TaskId(n));
    TaskIdRoundTrip(n);
    assert NumberOf(tasks[i]) == n;
  }

  /** The initial counter: the largest `task-N` number, but at least the number of tasks. */
  method SeedTaskCounter(tasks: seq<CronTask>) returns (counter: nat)
    ensures counter >= |tasks| && counter >= MaxTaskNumber(tasks)
    ensures counter == |tasks| || counter == MaxTaskNumber(tasks)
  {
    var max := 0;
    var i := 0;
    while i < |tasks|
      invariant 0 <= i <= |tasks|
      invariant max == MaxTaskNumber(tasks[..i])
    {
      assert tasks[..i + 1][..i] == tasks[..i];
      match ParseTaskNumber(tasks[i].id.value) {
        case Some(value) =>
          if value > max {
            max := value;
          }
        case None =>
      }
      i := i + 1;
    }
    assert tasks[..|tasks|] == tasks;
    counter := if max > |tasks| then max else |tasks|;
  }

  /** One configured task, given the id it gets when it has none. */
  function Normalize(config: CronTaskConfig, fallbackId: string): CronTask
  {
    config.(id := Some(config.id.GetOr(fallbackId)))
  }

  function NormalizeFrom(configs: seq<CronTaskConfig>, offset: nat): (tasks: seq<CronTask>)
    ensures |tasks| == |configs|
    ensures forall i :: 0 <= i < |configs| ==> tasks[i] == Normalize(configs[i], TaskId(offset + i + 1))
  {
    if configs == [] then [] else [Normalize(configs[0], TaskId(offset + 1))] + NormalizeFrom(configs[1..], offset + 1)
  }

  /** The constructor's naming: a task without an id is called `task-<position, from 1>`. */
  function NormalizeTasks(configs: seq<CronTaskConfig>): (tasks: seq<CronTask>)
    ensures |tasks| == |configs|
    ensures forall i :: 0 <= i < |configs| ==> tasks[i].id == Some(configs[i].id.GetOr(TaskId(i + 1)))
    ensures forall i :: 0 <= i < |configs| ==> tasks[i] == configs[i].(id := tasks[i].id)
  {
    NormalizeFrom(configs, 0)
  }

  /** The constructor does not check its names against the given ids: a task configured as
      `task-2` followed by a task without an id yields two tasks called `task-2`. */
  lemma NormalizeTasksMayCollide(c: CronTaskConfig)
    requires c.id.None?
    ensures var tasks := NormalizeTasks([c.(id := Some("task-2")), c]);
            tasks[0].id == tasks[1].id == Some("task-2")
  {
    assert TaskId(2) == "task-2" by { assert NatToString(2) == "2"; }
    var tasks := NormalizeTasks([c.(id := Some("task-2")), c]);
    assert tasks[1].id == Some(TaskId(2));
  }

  // ---------------------------------------------------------------- dispatch

  /** A callback the scheduler invoked. */
  datatype CronEffect =
    | ActionRan(action: string, task: CronTask, context: MessageContext)
    | MessageSent(message: ConnectorMessage, context: MessageContext, task: CronTask)
    | ErrorReported(error: Thrown, task: CronTask)

  /** The context a dispatched task runs in. */
  function DispatchContext(task: CronTask): MessageContext
  {
    MessageContext(task.channelId.OrElse(task.sessionId).GetOr("cron:" + task.id.value), task.userId, task.sessionId)
  }

  /** `reportError`: calls `onError` only when there is one. */
  function ReportError(error: Thrown, task: CronTask, hasOnError: bool): seq<CronEffect>
  {
    if hasOnError then [ErrorReported(error, task)] else []
  }

  /** `dispatchTask`: the callbacks one run of a task makes. */
  function Dispatch(task: CronTask, stopped: bool, actions: set<string>, hasOnError: bool): seq<CronEffect>
  {
    if stopped then []
    else if task.action.Some? && task.action.value != "" then
      if task.action.value in actions then [ActionRan(task.action.value, task, DispatchContext(task))]
      else ReportError(Error("Missing cron action handler: " + task.action.value), task, hasOnError)
    else if task.message.None? then
      ReportError(Error("Missing message for cron task " + task.id.value), task, hasOnError)
    else
      [MessageSent(ConnectorMessage(Some(task.message.value), None), DispatchContext(task), task)]
  }

  /** Dispatch routing: at most one callback; nothing once stopped; a known action runs only its
      handler; an unknown action or a missing message reaches only `onError`; otherwise
      `onMessage` gets the text with the derived channel and user. */
  lemma DispatchRouting(task: CronTask, stopped: bool, actions: set<string>, hasOnError: bool)
    ensures var fx := Dispatch(task, stopped, actions, hasOnError);
      && |fx| <= 1
      && (stopped ==> fx == [])
      && (!stopped && task.action.Some? && task.action.value in actions && task.action.value != "" ==>
            fx == [ActionRan(task.action.value, task, DispatchContext(task))])
      && (!stopped && task.action.Some? && task.action.value != "" && task.action.value !in actions ==>
            forall e :: e in fx ==> e.ErrorReported?)
      && (!stopped && (task.action.None? || task.action.value == "") && task.message.None? ==>
            forall e :: e in fx ==> e.ErrorReported?)
      && (!stopped && (task.action.None? || task.action.value == "") && task.message.Some? ==>
            fx == [MessageSent(ConnectorMessage(task.message, None), DispatchContext(task), task)])
      && (fx != [] && fx[0].MessageSent? ==>
            fx[0].context.userId == task.userId
            && fx[0].context.channelId == (if task.channelId.Some? then task.channelId.value
                                           else if task.sessionId.Some? then task.sessionId.value
                                           else "cron:" + task.id.value))
  {
  }

  // ---------------------------------------------------------------- timers

  /** An armed timer and the task it runs. */
  datatype Timer = Timeout(task: CronTask, delayMs: int) | Repeating(task: CronTask, periodMs: int)

  /** The part of the state that scheduling changes. `filed` is the scheduler's `timers` map,
      from task id to timer handle. `running` holds every timer armed and neither cleared nor
      spent, by handle: a timer whose entry in `filed` a later task with the same id
      overwrote is still there, because `timers.set` does not clear the timer it replaces.
      `nextHandle` is the handle the runtime gives the next timer; `effects` is the callback log. */
  datatype Armed = Armed(filed: JsMap.Map<string, nat>, running: map<nat, Timer>, nextHandle: nat, effects: seq<CronEffect>)

  /** Every filed handle names a running timer of the task with that id, and every running
      handle was handed out already. */
  ghost predicate Consistent(a: Armed)
  {
    && a.filed.Valid()
    && (forall id :: id in a.filed.entries ==>
          a.filed.entries[id] in a.running && a.running[a.filed.entries[id]].task.id == Some(id))
    && (forall h :: h in a.running ==> h < a.nextHandle)
  }

  predicate IsValidInterval(m: Millis)
  {
    m.Finite? && m.ms > 0
  }

  /** Starting a timer: it gets the next handle and is filed under its task's id, replacing
      whatever was filed there without clearing it. */
  function Arm(a: Armed, timer: Timer, effects: seq<CronEffect>): (r: Armed)
    requires a.filed.Valid()
    ensures r.filed.Valid()
  {
    Armed(a.filed.Set(timer.task.id.value, a.nextHandle), a.running[a.nextHandle := timer], a.nextHandle + 1, effects)
  }

  /** `scheduleTask`. */
  function Schedule(a: Armed, task: CronTask, actions: set<string>, hasOnError: bool): (r: Armed)
    requires a.filed.Valid()
    ensures r.filed.Valid()
  {
    if !IsValidInterval(task.everyMs) then
      a.(effects := a.effects + ReportError(Error("Invalid interval for task " + task.id.value), task, hasOnError))
    else
      var effects := a.effects + (if task.runOnStart == Some(true) then Dispatch(task, false, actions, hasOnError) else []);
      if task.once == Some(true) then
        if task.runOnStart == Some(true) then a.(effects := effects)
        else Arm(a, Timeout(task, task.everyMs.ms), effects)
      else Arm(a, Repeating(task, task.everyMs.ms), effects)
  }

  /** Arming keeps the timers consistent, and every timer running before runs on unchanged. */
  lemma ScheduleKeeps(a: Armed, task: CronTask, actions: set<string>, hasOnError: bool)
    requires Consistent(a)
    ensures var r := Schedule(a, task, actions, hasOnError);
      && Consistent(r)
      && a.nextHandle <= r.nextHandle
      && (forall h :: h in a.running ==> h in r.running && r.running[h] == a.running[h])
  {
    if IsValidInterval(task.everyMs) {
      var effects := a.effects + (if task.runOnStart == Some(true) then Dispatch(task, false, actions, hasOnError) else []);
      if task.once != Some(true) {
        ArmKeeps(a, Repeating(task, task.everyMs.ms), effects);
      } else if task.runOnStart != Some(true) {
        ArmKeeps(a, Timeout(task, task.everyMs.ms), effects);
      }
    }
  }

  lemma ArmKeeps(a: Armed, timer: Timer, effects: seq<CronEffect>)
    requires Consistent(a)
    ensures var r := Arm(a, timer, effects);
      && Consistent(r)
      && a.nextHandle <= r.nextHandle
      && (forall h :: h in a.running ==> h in r.running && r.running[h] == a.running[h])
  {
    var r := Arm(a, timer, effects);
    var id := timer.task.id.value;
    forall k | k in r.filed.entries
      ensures r.filed.entries[k] in r.running && r.running[r.filed.entries[k]].task.id == Some(k)
    {
      if k != id {
        assert r.filed.entries[k] == a.filed.entries[k];
      }
    }
  }

  /** What arming one task does: an invalid interval arms nothing and only reports; a one-shot
      task that runs on start arms nothing; a one-shot task otherwise starts a timeout, and a
      repeating task an interval, under the next handle, filed under the task's id; a run on
      start is dispatched at once; nothing else changes. */
  lemma ScheduleArms(a: Armed, task: CronTask, actions: set<string>, hasOnError: bool)
    requires a.filed.Valid()
    ensures var r := Schedule(a, task, actions, hasOnError);
      && (!IsValidInterval(task.everyMs) ==>
            r == a.(effects := a.effects + ReportError(Error("Invalid interval for task " + task.id.value), task, hasOnError)))
      && (IsValidInterval(task.everyMs) && task.once == Some(true) && task.runOnStart == Some(true) ==>
            r.filed == a.filed && r.running == a.running && r.nextHandle == a.nextHandle)
      && (IsValidInterval(task.everyMs) && task.once == Some(true) && task.runOnStart != Some(true) ==>
            && r.filed.entries == a.filed.entries[task.id.value := a.nextHandle]
            && r.running == a.running[a.nextHandle := Timeout(task, task.everyMs.ms)]
            && r.nextHandle == a.nextHandle + 1)
      && (IsValidInterval(task.everyMs) && task.once != Some(true) ==>
            && r.filed.entries == a.filed.entries[task.id.value := a.nextHandle]
            && r.running == a.running[a.nextHandle := Repeating(task, task.everyMs.ms)]
            && r.nextHandle == a.nextHandle + 1)
      && (IsValidInterval(task.everyMs) && task.runOnStart == Some(true) ==>
            r.effects == a.effects + Dispatch(task, false, actions, hasOnError))
      && (IsValidInterval(task.everyMs) && task.runOnStart != Some(true) ==> r.effects == a.effects)
  {
  }

  /** Arming a task whose id already has a timer filed leaves that earlier timer running, but
      no longer filed under any id, so `stop` will not clear it. */
  lemma RearmLeaks(a: Armed, task: CronTask, actions: set<string>, hasOnError: bool)
    requires Consistent(a) && task.id.value in a.filed.entries
    requires IsValidInterval(task.everyMs) && !(task.once == Some(true) && task.runOnStart == Some(true))
    ensures var h := a.filed.entries[task.id.value];
      var r := Schedule(a, task, actions, hasOnError);
      && h in r.running && r.running[h] == a.running[h]
      && h !in r.filed.entries.Values
  {
    var h := a.filed.entries[task.id.value];
    var r := Schedule(a, task, actions, hasOnError);
    forall id | id in r.filed.entries ensures r.filed.entries[id] != h {
      if id != task.id.value {
        assert r.filed.entries[id] == a.filed.entries[id];
        assert a.running[h].task.id == Some(task.id.value);
      }
    }
  }

  /** `start`'s loop: every task that is not disabled is scheduled, in list order. */
  function StartAll(a: Armed, tasks: seq<CronTask>, actions: set<string>, hasOnError: bool): (r: Armed)
    requires a.filed.Valid()
    ensures r.filed.Valid()
    decreases |tasks|
  {
    if tasks == [] then a
    else
      var next := if tasks[0].enabled == Some(false) then a else Schedule(a, tasks[0], actions, hasOnError);
      StartAll(next, tasks[1..], actions, hasOnError)
  }

  /** Arming a run of tasks keeps the timers consistent, and every timer running before runs
      on unchanged. */
  lemma {:induction false} StartAllKeeps(a: Armed, tasks: seq<CronTask>, actions: set<string>, hasOnError: bool)
    requires Consistent(a)
    ensures var r := StartAll(a, tasks, actions, hasOnError);
      && Consistent(r)
      && a.nextHandle <= r.nextHandle
      && (forall h :: h in a.running ==> h in r.running && r.running[h] == a.running[h])
    decreases |tasks|
  {
    if tasks != [] {
      var next := if tasks[0].enabled == Some(false) then a else Schedule(a, tasks[0], actions, hasOnError);
      if tasks[0].enabled != Some(false) {
        ScheduleKeeps(a, tasks[0], actions, hasOnError);
      }
      StartAllKeeps(next, tasks[1..], actions, hasOnError);
    }
  }

  /** `start` never arms a disabled task: every timer it starts runs one of the listed tasks,
      and that task is not disabled. */
  lemma {:induction false} StartArmsOnlyEnabled(a: Armed, tasks: seq<CronTask>, actions: set<string>, hasOnError: bool, h: nat)
    requires Consistent(a)
    requires h in StartAll(a, tasks, actions, hasOnError).running && h !in a.running
    ensures exists i :: 0 <= i < |tasks| && tasks[i] == StartAll(a, tasks, actions, hasOnError).running[h].task
                        && tasks[i].enabled != Some(false)
    decreases |tasks|
  {
    if tasks != [] {
      var next := if tasks[0].enabled == Some(false) then a else Schedule(a, tasks[0], actions, hasOnError);
      var r := StartAll(a, tasks, actions, hasOnError);
      if tasks[0].enabled != Some(false) {
        ScheduleKeeps(a, tasks[0], actions, hasOnError);
      }
      if h in next.running {
        StartAllKeeps(next, tasks[1..], actions, hasOnError);
        assert next.running[h].task == tasks[0] && tasks[0].enabled != Some(false);
        assert r.running[h] == next.running[h];
      } else {
        StartArmsOnlyEnabled(next, tasks[1..], actions, hasOnError, h);
        var i :| 0 <= i < |tasks[1..]| && tasks[1..][i] == r.running[h].task && tasks[1..][i].enabled != Some(false);
        assert tasks[i + 1] == tasks[1..][i];
      }
    }
  }

  /** `stop`'s clearing: every filed timer is cleared and the map emptied; timers no longer
      filed run on. */
  function StopTimers(a: Armed): (r: Armed)
  {
    Armed(JsMap.Empty(), a.running - a.filed.entries.Values, a.nextHandle, a.effects)
  }

  /** `stop` clears exactly the filed timers: no timer stays filed, a filed timer stops, and
      every other timer runs on. */
  lemma StopClearsFiled(a: Armed)
    requires Consistent(a)
    ensures var r := StopTimers(a);
      && Consistent(r) && r.filed.keys == []
      && (forall id :: id in a.filed.entries ==> a.filed.entries[id] !in r.running)
      && (forall h :: h in a.running ==> (h in r.running <==> h !in a.filed.entries.Values))
      && (forall h :: h in r.running ==> r.running[h] == a.running[h])
  {
  }

  /** Two repeating tasks that share an id (as the constructor's naming can produce): `start`
      runs both intervals but files only the second, and `stop` then leaves the first running. */
  lemma SharedIdLeaksInterval(first: CronTask, second: CronTask, actions: set<string>, hasOnError: bool)
    requires first.id == second.id && first != second
    requires IsValidInterval(first.everyMs) && IsValidInterval(second.everyMs)
    requires first.once.None? && second.once.None? && first.runOnStart.None? && second.runOnStart.None?
    requires first.enabled.None? && second.enabled.None?
    ensures var started := StartAll(Armed(JsMap.Empty(), map[], 0, []), [first, second], actions, hasOnError);
      && started.running == map[0 := Repeating(first, first.everyMs.ms), 1 := Repeating(second, second.everyMs.ms)]
      && started.filed.entries == map[first.id.value := 1]
      && StopTimers(started).running == map[0 := Repeating(first, first.everyMs.ms)]
  {
    var empty := Armed(JsMap.Empty(), map[], 0, []);
    var one := Schedule(empty, first, actions, hasOnError);
    var two := Schedule(one, second, actions, hasOnError);
    assert [first, second][1..] == [second];
    assert StartAll(empty, [first, second], actions, hasOnError) == StartAll(one, [second], actions, hasOnError);
    assert StartAll(one, [second], actions, hasOnError) == two;
    assert two.filed.entries.Values == {1};
    assert two.running - {1} == map[0 := Repeating(first, first.everyMs.ms)];
  }

  /** A timer goes off: its task is dispatched (nothing happens once the scheduler is
      stopped); a spent timeout stops running and then deletes whatever is filed under its
      task's id, which may be the timer of another task with that id. */
  function FireTimer(a: Armed, h: nat, stopped: bool, actions: set<string>, hasOnError: bool): (r: Armed)
    requires a.filed.Valid() && h in a.running
    ensures r.filed.Valid()
  {
    var t := a.running[h];
    var effects := a.effects + Dispatch(t.task, stopped, actions, hasOnError);
    if t.Timeout? then Armed(a.filed.Delete(t.task.id.value), a.running - {h}, a.nextHandle, effects)
    else a.(effects := effects)
  }

  /** Firing keeps the timers consistent; an interval keeps running and only adds its dispatch. */
  lemma FireKeeps(a: Armed, h: nat, stopped: bool, actions: set<string>, hasOnError: bool)
    requires Consistent(a) && h in a.running
    ensures var r := FireTimer(a, h, stopped, actions, hasOnError);
      && Consistent(r)
      && r.effects == a.effects + Dispatch(a.running[h].task, stopped, actions, hasOnError)
      && (a.running[h].Repeating? ==> r == a.(effects := r.effects))
      && (a.running[h].Timeout? ==>
            r.running == a.running - {h} && r.filed.entries == a.filed.entries - {a.running[h].task.id.value})
  {
  }

  /** A timeout whose entry was overwritten by a later task with the same id still dispatches
      its own task, and its clean-up then unfiles that later task's timer, which runs on. */
  lemma OverwrittenTimeoutUnfilesOther(a: Armed, h: nat, actions: set<string>, hasOnError: bool)
    requires Consistent(a) && h in a.running && a.running[h].Timeout?
    requires a.running[h].task.id.value in a.filed.entries && a.filed.entries[a.running[h].task.id.value] != h
    ensures var other := a.filed.entries[a.running[h].task.id.value];
      var r := FireTimer(a, h, false, actions, hasOnError);
      && r.effects == a.effects + Dispatch(a.running[h].task, false, actions, hasOnError)
      && other in r.running && other !in r.filed.entries.Values
  {
    var id := a.running[h].task.id.value;
    var other := a.filed.entries[id];
    var r := FireTimer(a, h, false, actions, hasOnError);
    forall k | k in r.filed.entries ensures r.filed.entries[k] != other {
      assert r.filed.entries[k] == a.filed.entries[k];
    }
  }

  // ---------------------------------------------------------------- the scheduler

  class CronScheduler {
    var tasks: seq<CronTask>
    var timers: JsMap.Map<string, nat>   // task id to timer handle
    var running: map<nat, Timer>         // every live timer, filed or not
    var nextHandle: nat
    var started: bool
    var stopped: bool
    var taskCounter: nat
    var effects: seq<CronEffect>
    const actions: set<string>   // names that have a handler
    const hasOnError: bool

    ghost predicate Valid()
      reads this
    {
      && Consistent(State())
      && ((!started || stopped) ==> timers.keys == [])
      && (!started ==> running == map[])
    }

    ghost function State(): Armed
      reads this
    {
      Armed(timers, running, nextHandle, effects)
    }

    constructor (configs: seq<CronTaskConfig>, actions: set<string>, hasOnError: bool)
      ensures Valid()
      ensures tasks == NormalizeTasks(configs)
      ensures taskCounter >= |configs| && taskCounter >= MaxTaskNumber(tasks)
      ensures taskCounter == |configs| || taskCounter == MaxTaskNumber(tasks)
      ensures !started && !stopped && timers.keys == [] && running == map[] && effects == []
      ensures this.actions == actions && this.hasOnError == hasOnError
    {
      var normalized := NormalizeTasks(configs);
      var counter := SeedTaskCounter(normalized);
      tasks := normalized;
      taskCounter := counter;
      timers := JsMap.Empty();
      running := map[];
      nextHandle := 0;
      started := false;
      stopped := false;
      effects := [];
      this.actions := actions;
      this.hasOnError := hasOnError;
    }

    method ScheduleTask(task: CronTask)
      requires Valid() && started && !stopped
      modifies this`timers, this`running, this`nextHandle, this`effects
      ensures Valid()
      ensures State() == Schedule(old(State()), task, actions, hasOnError)
    {
      ScheduleKeeps(State(), task, actions, hasOnError);
      var next := Schedule(Armed(timers, running, nextHandle, effects), task, actions, hasOnError);
      timers := next.filed;
      running := next.running;
      nextHandle := next.nextHandle;
      effects := next.effects;
    }

    /** `start`: arms every enabled task, once; a second call, or a call after `stop`, does nothing. */
    method Start()
      requires Valid()
      modifies this
      ensures Valid()
      ensures old(started || stopped) ==> unchanged(this)
      ensures !old(started || stopped) ==>
        && started && !stopped
        && tasks == old(tasks) && taskCounter == old(taskCounter)
        && State() == StartAll(old(State()), tasks, actions, hasOnError)
    {
      if started || stopped {
        return;
      }
      started := true;
      var i := 0;
      while i < |tasks|
        invariant 0 <= i <= |tasks|
        invariant Valid() && started && !stopped
        invariant tasks == old(tasks) && taskCounter == old(taskCounter)
        invariant StartAll(State(), tasks[i..], actions, hasOnError) == StartAll(old(State()), tasks, actions, hasOnError)
      {
        assert tasks[i..][1..] == tasks[i + 1..];
        if tasks[i].enabled != Some(false) {
          ScheduleTask(tasks[i]);
        }
        i := i + 1;
      }
    }

    /** `stop`: clears every filed timer and empties the map, once; a second call does nothing. */
    method Stop()
      requires Valid()
      modifies this
      ensures Valid()
      ensures old(stopped) ==> unchanged(this)
      ensures !old(stopped) ==>
        && stopped && State() == StopTimers(old(State()))
        && tasks == old(tasks) && started == old(started) && taskCounter == old(taskCounter)
    {
      if stopped {
        return;
      }
      StopClearsFiled(State());
      stopped := true;
      running := running - timers.entries.Values;
      timers := JsMap.Empty();
    }

    /** The timer with handle `h` goes off. */
    method Fire(h: nat)
      requires Valid() && h in running
      modifies this
      ensures Valid()
      ensures State() == FireTimer(old(State()), h, stopped, actions, hasOnError)
      ensures tasks == old(tasks) && started == old(started) && stopped == old(stopped) && taskCounter == old(taskCounter)
    {
      FireKeeps(State(), h, stopped, actions, hasOnError);
      var t := running[h];
      effects := effects + Dispatch(t.task, stopped, actions, hasOnError);
      if t.Timeout? {
        running := running - {h};
        timers := timers.Delete(t.task.id.value);
      }
    }

    /** `nextTaskId`: the first `task-N` above the counter that no task uses; the counter becomes N. */
    method NextTaskId() returns (id: string)
      modifies this`taskCounter
      ensures taskCounter > old(taskCounter) && id == TaskId(taskCounter)
      ensures !HasTaskId(tasks, id)
      ensures forall k :: old(taskCounter) < k < taskCounter ==> HasTaskId(tasks, TaskId(k))
    {
      var start := taskCounter;
      var candidate := start + 1;
      id := TaskId(candidate);
      while HasTaskId(tasks, id)
        invariant candidate > start && id == TaskId(candidate)
        invariant forall k :: start < k < candidate ==> HasTaskId(tasks, TaskId(k))
        decreases MaxTaskNumber(tasks) + 1 - candidate
      {
        TakenNumberBounded(tasks, candidate);
        candidate := candidate + 1;
        id := TaskId(candidate);
      }
      taskCounter := candidate;
    }

    /** `addTask`: rejects a taken id; otherwise appends the task, arming it when the scheduler runs. */
    method AddTask(config: CronTaskConfig) returns (r: Result<CronTask>)
      requires Valid()
      modifies this
      ensures Valid()
      ensures r.Err? <==> config.id.Some? && HasTaskId(old(tasks), config.id.value)
      ensures r.Err? ==>
        && r.error == Error("Cron task already exists: " + config.id.value)
        && tasks == old(tasks) && State() == old(State()) && taskCounter == old(taskCounter)
      ensures r.Ok? ==> tasks == old(tasks) + [r.value] && r.value == config.(id := r.value.id)
      ensures r.Ok? && config.id.Some? ==> r.value.id == config.id
      ensures r.Ok? && config.id.None? ==>
        && taskCounter > old(taskCounter) && r.value.id == Some(TaskId(taskCounter))
        && !HasTaskId(old(tasks), TaskId(taskCounter))
      ensures config.id.Some? ==> taskCounter == old(taskCounter)
      ensures State() == (if r.Ok? && old(started) && !old(stopped) && config.enabled != Some(false)
                          then Schedule(old(State()), r.value, actions, hasOnError)
                          else old(State()))
      ensures started == old(started) && stopped == old(stopped)
    {
      var id: string;
      if config.id.Some? {
        id := config.id.value;
      } else {
        id := NextTaskId();
      }
      var normalized: CronTask := config.(id := Some(id));
      if HasTaskId(tasks, id) {
        return Err(Error("Cron task already exists: " + id));
      }
      tasks := tasks + [normalized];
      if started && !stopped && normalized.enabled != Some(false) {
        ScheduleTask(normalized);
      }
      r := Ok(normalized);
    }

    /** `listTasks`: copies of the tasks, in order. */
    function ListTasks(): seq<CronTaskConfig>
      reads this
    {
      tasks
    }
  }
}
