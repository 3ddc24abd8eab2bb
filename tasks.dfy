/**
 The records a batch produces and the pure steps that build them: judging a
 runner's messages (`run_and_judge`), turning a runner outcome into a
 `TaskResult` (`run_task`), merging a task store's custom instructions into
 the run command, and the three shapes of a task update.
 */
module Tasks {
  import opened Wrappers

  type TaskId = string

  /** One `LMC` record of a run's transcript; its fields are not interpreted here. */
  datatype Message = Message(fields: map<string, string>)

  /** `ResultStatus`: the verdicts a judge gives, plus the statuses a task
      reports before it is judged (`Unresolved`). */
  datatype ResultStatus = Correct | Incorrect | Unknown | Error | Unresolved(tag: string)

  /** A `datetime`, kept opaque. */
  datatype Timestamp = Timestamp(micros: int)

  /** `ZeroShotTask`: the identifier and prompt of a loaded task. */
  datatype ZeroShotTask = ZeroShotTask(id: TaskId, prompt: string)

  /** `OpenInterpreterCommand`: the run command, a dictionary of settings. */
  type Command = map<string, string>

  const CustomInstructionsKey: string := "custom_instructions"

  /** `TaskResult`. */
  datatype TaskResult = TaskResult(
    taskId: TaskId,
    command: Command,
    prompt: string,
    start: Timestamp,
    end: Timestamp,
    messages: seq<Message>,
    status: ResultStatus)

  /** What a call into a collaborator did: it returned a value or raised an
      exception, whose formatted trace is kept. */
  datatype Attempt<+T> = Returned(value: T) | Raised(trace: string)

  /** The outcome of `run_and_judge`: the transcript and its verdict, or the
      trace of the exception that escaped the runner or the judge. */
  datatype RunOutcome = Ok(messages: seq<Message>, status: ResultStatus) | Failed(trace: string)

  /** `run_and_judge`: runs the task, then asks the loaded task to judge the
      messages the runner returned. An exception from either propagates. */
  function RunAndJudge(run: Attempt<seq<Message>>, toResultStatus: seq<Message> -> Attempt<ResultStatus>): (outcome: RunOutcome)
    ensures outcome.Ok? <==> run.Returned? && toResultStatus(run.value).Returned?
    ensures outcome.Ok? ==> outcome.messages == run.value && outcome.status == toResultStatus(run.value).value
    ensures run.Raised? ==> outcome == Failed(run.trace)
    ensures run.Returned? && toResultStatus(run.value).Raised? ==> outcome == Failed(toResultStatus(run.value).trace)
  {
    match run
    case Raised(trace) => Failed(trace)
    case Returned(messages) =>
      match toResultStatus(messages)
      case Raised(trace) => Failed(trace)
      case Returned(status) => Ok(messages, status)
  }

  /** A finished `run_task`: the record it returns and the lines it passed to
      its `log` callback itself (the runner's own log lines are not included). */
  datatype TaskRun = TaskRun(result: TaskResult, logged: seq<string>)

  /** `run_task`: records the start and end time around `run_and_judge` and
      builds the task's result. If an exception escaped, its trace is logged
      and the result has status `Error` and no messages. */
  function RunTask(zs: ZeroShotTask, command: Command, start: Timestamp, end: Timestamp, outcome: RunOutcome): (run: TaskRun)
    ensures run.result.taskId == zs.id && run.result.prompt == zs.prompt
    ensures run.result.command == command && run.result.start == start && run.result.end == end
    ensures outcome.Failed? ==> run.result.status == Error && run.result.messages == [] && run.logged == [outcome.trace]
    ensures outcome.Ok? ==> run.result.status == outcome.status && run.result.messages == outcome.messages && run.logged == []
  {
    match outcome
    case Ok(messages, status) =>
      TaskRun(TaskResult(zs.id, command, zs.prompt, start, end, messages, status), [])
    case Failed(trace) =>
      TaskRun(TaskResult(zs.id, command, zs.prompt, start, end, [], Error), [trace])
  }

  /** A task ends with status `Error` exactly when an exception escaped the
      runner or the judge, or the judge itself said `Error`. */
  lemma RunTaskErrorIff(zs: ZeroShotTask, command: Command, start: Timestamp, end: Timestamp,
                        run: Attempt<seq<Message>>, toResultStatus: seq<Message> -> Attempt<ResultStatus>)
    ensures var outcome := RunAndJudge(run, toResultStatus);
            RunTask(zs, command, start, end, outcome).result.status == Error
            <==> run.Raised? || toResultStatus(run.value).Raised? || toResultStatus(run.value).value == Error
  {
  }

  /** A task's own call logs a line exactly when it failed, and that line is
      the failure's trace; a failed task reports no messages. */
  lemma RunTaskLogsOnlyFailures(zs: ZeroShotTask, command: Command, start: Timestamp, end: Timestamp, outcome: RunOutcome)
    ensures var run := RunTask(zs, command, start, end, outcome);
            && (run.logged != [] <==> outcome.Failed?)
            && (forall line :: line in run.logged ==> outcome.Failed? && line == outcome.trace)
            && (run.result.messages != [] ==> outcome.Ok?)
  {
  }

  /** The custom-instructions merge: when the task store supplies extra
      instructions and the command already has custom instructions, a newline
      and the extra text are appended to them; otherwise the command is
      unchanged. No other setting changes and no key is added. */
  function MergeCustomInstructions(command: Command, extra: Option<string>): (merged: Command)
    ensures merged.Keys == command.Keys
    ensures forall k :: k in command && k != CustomInstructionsKey ==> merged[k] == command[k]
    ensures extra.None? || CustomInstructionsKey !in command ==> merged == command
    ensures extra.Some? && CustomInstructionsKey in command ==>
              var before := command[CustomInstructionsKey];
              && |merged[CustomInstructionsKey]| == |before| + 1 + |extra.value|
              && merged[CustomInstructionsKey][..|before|] == before
              && merged[CustomInstructionsKey][|before|] == '\n'
              && merged[CustomInstructionsKey][|before| + 1..] == extra.value
  {
    if extra.Some? && CustomInstructionsKey in command then
      command[CustomInstructionsKey := command[CustomInstructionsKey] + "\n" + extra.value]
    else
      command
  }

  /** The merge is not idempotent: merging the same extra text twice appends
      it twice. The source updates the caller's command dictionary in place,
      so a second batch run on the same command object sees this. */
  lemma MergeTwiceAppendsTwice(command: Command, extra: string)
    requires CustomInstructionsKey in command
    ensures var twice := MergeCustomInstructions(MergeCustomInstructions(command, Some(extra)), Some(extra));
            twice[CustomInstructionsKey] == command[CustomInstructionsKey] + "\n" + extra + "\n" + extra
  {
    var once := MergeCustomInstructions(command, Some(extra));
    assert once[CustomInstructionsKey] == command[CustomInstructionsKey] + "\n" + extra;
  }

  /** `TaskUpdatePayload`: the three shapes of a lifecycle event. */
  datatype TaskUpdatePayload =
    | TaskStartedPayload
    | TaskDonePayload(status: ResultStatus)
    | TaskLogPayload(message: string)

  /** `TaskUpdate`: a lifecycle event of one task, as written to the updates channel. */
  datatype TaskUpdate = TaskUpdate(taskId: TaskId, payload: TaskUpdatePayload)
}
