# Benchmark coordinators, modelled in Dafny

This project models the coordination core of the benchmark harness in
`coordinators.py`. That core runs a batch of benchmark tasks on a worker
pool and collects one `TaskResult` per task.

It covers two modes:

- **Headless.** `run_benchmark_worker_pool` collects the results in the
  order the futures complete.
- **Server.** `run_benchmark_worker_pool_with_server` also streams progress
  to observers. Each task has its own replaying broadcast channel, a
  `WebSocketsManager`, for the chunks its runner writes. One shared updates
  channel carries the lifecycle events (`started`, `log`, `done`) of every
  task.

The model has four modules:

- **`Tasks`** holds the records and their pure steps:
  - `run_and_judge` and `run_task` become `RunAndJudge` and `RunTask`.
    An exception is a value: `Attempt` for a collaborator's call, and
    `RunOutcome` for the outcome of `run_and_judge`.
  - `MergeCustomInstructions` is the custom-instructions merge.
  - The three update payloads become the `TaskUpdatePayload` and
    `TaskUpdate` datatypes. They are written to the updates channel as
    values, with no JSON encoding.
- **`Lifecycle`** is the `TaskLifecycle` class. One call of a wrapped
  function returns the work's result together with the trace of the calls
  it made. The lemma `WrappedCallsOrder` states the order of those calls.
- **`Broadcast`** holds the `WebSocketsManager` class and the one-shot
  `DisconnectEvent` it keeps per observer. It works as follows:
  - `add`, `write` and `close` run under the manager's lock, so each is one
    atomic step over four fields: the history, the attached subscribers,
    the event map and the closed flag. `_remove` and `_send_bytes_to` run
    inside those steps. `is_closed` and `wait_until_disconnect` take no lock:
    the first only reads the flag, and the second is left out.
  - Whether a send fails is an input: the set `failing`.
  - Two ghost fields track what each subscriber has received since it was
    attached: `Delivered` and `Faithful`.
  - The invariant `Valid` says that a subscriber that never missed a send
    has received exactly the history.
  - `Pending` says that no attached subscriber's event is set. Every
    operation preserves it.
  - `is_closed` and `_is_connected` are the accessors `IsClosed` and
    `IsConnected`. The contracts of `Close`, `Add` and `Remove` state them.
- **`Coordinator`** holds both pool functions. The pool runs each task to
  completion. Its completion order and each task's execution (start, end
  and outcome) are inputs.
  - For the headless pool, `PickPermutes` proves that collecting in any
    completion order yields a permutation of the futures' values.
  - The server mode's shared state is the class `ServerBatch`:
    - it owns the channels, the results list and the completion signal;
    - its methods are the start, log and done callbacks, the server's
      `run_task`, the run of the submitted futures and the final closing
      of every channel;
    - the calls a runner makes (`write` to the task's channel, `log` to the
      updates channel) are the input sequence `effects`;
    - `RunWrapped` makes the calls of one wrapped future itself: the start
      callback, the server's `run_task`, then the done callback. This is the
      order `TaskLifecycle.Wrap` gives a lifecycle with one start and one
      done callback, as `WrappedCallsOrder` states.

Where the code and its own comments or its design diverge, the model follows
the code:

- `write` appends to the history even after `close`.
- `add` neither consults the closed flag nor reacts to a failed replay. The
  subscriber stays attached.
- In server mode, the trace of a failed run goes to the updates channel
  through `log`, after the runner's own progress lines.
- The completion signal is set only by a `done` callback. With an empty
  task list it is never set, and `done_event.wait()` would block forever.
  `RunBenchmarkWorkerPoolWithServer` returns whether the signal was set, and
  its contract states that this happens exactly when there is at least one
  task.
- `write` returns early when nobody is attached. The model treats that case
  as the empty fan-out, which leaves the same state.
- In `done`, the model records the result and sets the completion signal
  before it closes the task's channel. The source closes the channel between
  those two steps. Both orders touch disjoint state and end in the same
  state.

## Model

| member | source | states |
|---|---|---|
| Tasks.RunAndJudge | coordinators.py:65-68 | The outcome is `Ok` exactly when both the runner and the judge returned. It then carries the runner's messages and the judge's verdict. An exception from the runner, or else from the judge, is passed on as the failure with that exception's trace. |
| Tasks.RunTask | coordinators.py:83-102 | The result carries the task's id and prompt, the command, and the start and end time. On failure the status is `Error`, there are no messages, and exactly the trace is logged. On success the result carries the judged status and messages, and nothing is logged. |
| Tasks.RunTaskErrorIff | coordinators.py:86-91 | A task ends with status `Error` if and only if the runner raised, the judge raised, or the judge said `Error`. |
| Tasks.RunTaskLogsOnlyFailures | coordinators.py:88-91 | `run_task` logs a line if and only if the run failed. The line is the failure's trace, and a failed task reports no messages. |
| Tasks.MergeCustomInstructions | coordinators.py:109-111 | With extra instructions and an existing `custom_instructions` entry, a newline and the extra text are appended to that entry. Otherwise the command is unchanged. No other key changes and no key is added. |
| Tasks.MergeTwiceAppendsTwice | coordinators.py:322-324 | The merge is not idempotent: merging the same extra text twice appends it twice. |
| Lifecycle.StartCalls | coordinators.py:58 | One call per start callback, in registration order. |
| Lifecycle.DoneCalls | coordinators.py:60 | One call per done callback, in registration order, each given the work's result. |
| Lifecycle.WrappedCallsOrder | coordinators.py:56-62 | A wrapped call first makes exactly the start-callback calls, in order. It then makes the single call of the work, then the done-callback calls, in order and with the result. |
| Lifecycle.TaskLifecycle.constructor | coordinators.py:46-48 | Both callback lists start empty. |
| Lifecycle.TaskLifecycle.AddStartFn | coordinators.py:50-51 | Appends to the start callbacks and leaves the done callbacks unchanged. |
| Lifecycle.TaskLifecycle.AddDoneFn | coordinators.py:53-54 | Appends to the done callbacks and leaves the start callbacks unchanged. |
| Lifecycle.TaskLifecycle.Wrap | coordinators.py:56-62 | The wrapped function returns the work's result unchanged. The calls it makes are exactly the ones `WrappedCalls` lists, whose order `WrappedCallsOrder` states. |
| Broadcast.DisconnectEvent.constructor | coordinators.py:198 | A new event is unset. |
| Broadcast.DisconnectEvent.Set | coordinators.py:207 | The event is set afterwards. |
| Broadcast.WebSocketsManager.constructor | coordinators.py:179-190 | The channel starts with an empty history, no subscribers, no events and not closed, and satisfies both the invariant and `Pending`. |
| Broadcast.WebSocketsManager.SendBytesTo | coordinators.py:242-253 | The answer is true if and only if the connection is gone. Only a successful send delivers the chunk. A failed send marks the subscriber as having missed a chunk. |
| Broadcast.WebSocketsManager.Add | coordinators.py:195-200 | Attaches `ws` with a fresh, unset event and replays the whole history to it. Afterwards `ws` has received the history unless a replay send failed. History and closed flag are unchanged. The invariant and `Pending` are kept. |
| Broadcast.WebSocketsManager.Attach | coordinators.py:196-198 | `ws` joins the subscribers, with a fresh unset event and nothing received yet. Every other up-to-date subscriber stays up to date. |
| Broadcast.WebSocketsManager.Replay | coordinators.py:199-200 | The history is sent to `ws` in order. `ws` has received all of it if its sends succeed; if they fail it has received none of it and is marked as having missed a chunk. Whether sends fail is decided once per subscriber per call, which `## Left out` records. |
| Broadcast.WebSocketsManager.Remove | coordinators.py:202-208 | `ws` is detached, its event is set and then dropped from the map. Nothing else changes, and the invariant and `Pending` are kept. |
| Broadcast.WebSocketsManager.Close | coordinators.py:213-218 | The event of every attached subscriber is set, and no other event changes. The channel is closed with nobody attached. History and event map are unchanged. |
| Broadcast.WebSocketsManager.Write | coordinators.py:223-237 | `b` is appended to the history, also after close. Each attached subscriber whose send succeeded has received exactly `b` more. The others are detached with their event set and forgotten. The invariant and `Pending` are kept. |
| Broadcast.WebSocketsManager.Append | coordinators.py:225 | `b` joins the history. Every subscriber that was up to date is now exactly `b` behind. |
| Broadcast.WebSocketsManager.Broadcast | coordinators.py:227-237 | After the append, the fan-out delivers `b` and the failed subscribers are removed. This restores the invariant and keeps `Pending`. |
| Broadcast.WebSocketsManager.FanOut | coordinators.py:231-235 | Sends `b` to every attached subscriber and returns exactly the attached ones whose send failed. |
| Broadcast.WebSocketsManager.RemoveAll | coordinators.py:236-237 | Every collected subscriber is removed with its event set. No other event changes. |
| Coordinator.PickExtend | coordinators.py:137-138 | Collecting one more completed future appends its value. |
| Coordinator.PickPermutes | coordinators.py:137-138 | Collecting every future once, in any completion order, yields a permutation of the futures' values. |
| Coordinator.CollectResults | coordinators.py:137-138 | The collection loop returns the futures' values in completion order, a permutation of them. |
| Coordinator.RunBenchmarkWorkerPool | coordinators.py:105-142 | The results are the values of the futures, each the complete record `run_task` builds for its task with the merged command, in completion order. Each result has its task's id and the merged command. A failed run gives `Error` with no messages; otherwise the judged status and messages. Each task id appears exactly as often as in the task list. |
| Coordinator.LogUpdatesAppend | coordinators.py:393-394 | Logging two runs of lines writes the log updates of the first run, then those of the second. |
| Coordinator.OneResultPerTask | coordinators.py:127-138 | Whatever the completion order, the collected results carry each task id exactly as often as the task list does. |
| Coordinator.ServerBatch.constructor | coordinators.py:314-324 | One fresh, open, empty channel per task id and a fresh, open updates channel. The command has the custom instructions merged in. There are no results and the completion signal is unset. |
| Coordinator.MakeTaskManagers | coordinators.py:319 | One fresh, valid, open, empty channel per id, and no channel is shared between two ids. |
| Coordinator.ServerBatch.WriteUpdate | coordinators.py:239-240 | The update is appended to the updates channel's history, and every channel keeps its invariant. |
| Coordinator.ServerBatch.WriteTask | coordinators.py:364-365 | The chunk is appended to the task's own channel, and every channel keeps its invariant. |
| Coordinator.ServerBatch.CloseTask | coordinators.py:401 | The task's channel is closed and empty, with its history and event map kept. Every observer attached before the close has its disconnect event set. Every other task channel is unchanged. |
| Coordinator.ServerBatch.Start | coordinators.py:390-391 | Exactly one `started` update of the task is written. |
| Coordinator.ServerBatch.Log | coordinators.py:393-394 | Exactly one `log` update carrying the line is written. |
| Coordinator.ServerBatch.Done | coordinators.py:396-403 | One `done` update with the result's status is written and the result is appended. The task's channel is closed with its history kept, and every observer attached to it beforehand has its disconnect event set. The completion signal becomes set once the results are at least as many as the tasks. |
| Coordinator.ServerBatch.Record | coordinators.py:399-403 | The result is appended. The signal is set if and only if it was set already or the results now are at least as many as the tasks. |
| Coordinator.ServerBatch.RunTask | coordinators.py:363-384 | Returns the record `run_task` builds. The task's channel receives the runner's chunks in order. The updates channel receives the runner's progress lines, then the trace of a failure. |
| Coordinator.ServerBatch.RunEffects | coordinators.py:364-369 | The runner's calls, in order: chunks go to the task's channel and progress lines to the updates channel. |
| Coordinator.ServerBatch.Effect | coordinators.py:364-365 | One runner call: a chunk goes to the task's channel, or a line becomes a log update. |
| Coordinator.ServerBatch.RunWrapped | coordinators.py:390-414 | One submitted future: its result is the record `run_task` builds and is appended to the batch's results. The updates channel receives, in order, the `started` update, the run's log lines, then the `done` update with the result's status. The task's channel receives the runner's chunks and is then closed with nobody attached. The batch invariant is kept. |
| Coordinator.ServerBatch.RunAll | coordinators.py:407-420 | Running the submitted futures one after another in completion order leaves the results equal to the futures' values in that order. Observers may be attached at the start. The batch invariant is kept, and no channel gains a disconnect event. |
| Coordinator.ServerBatch.CloseAll | coordinators.py:422-424 | Every task channel is closed, then the updates channel. No history changes. |
| Coordinator.ServerBatch.CloseTasks | coordinators.py:422-423 | Every task channel is closed and empty, with its history kept. |
| Coordinator.ServerBatch.CloseUpdates | coordinators.py:424 | The updates channel is closed and empty, with its history and event map kept. Every observer attached before the close has its disconnect event set. |
| Coordinator.RunBenchmarkWorkerPoolWithServer | coordinators.py:303-434 | The results are the futures' values in completion order, and each task id appears exactly as often as in the task list. The completion signal is set if and only if there is at least one task. |

## Left out

- The FastAPI routes `view`, `logs`, `stop` and `full`, the HTML templates and the background server (`run_background_server`, hypercorn) are web plumbing. An observer attaching or a `/stop` request is `Add` or `Close` on a channel, but the orchestrator model runs with no observer attached.
- Thread-pool concurrency, `as_completed` and the waits on `done_event` are left out. The pool's completion order is an input, each task runs as one atomic step, and each channel operation is atomic under its lock.
- `wait_until_disconnect` is left out because it only waits on an event. `Pending` states that the event of an attached observer is not set, and `Remove` and `Close` state that it becomes set.
- `write_json` and `json.dumps` are left out: an update is written to the updates channel as a `TaskUpdate` value.
- Logging, `datetime.now()` (the start and end times are inputs), `judge_result` and the Ctrl+C loop at the end of the server mode are left out.
- The runner and `LoadedTask` are collaborators whose code is not part of this model. Their returns or exceptions are inputs (`Attempt`), and a runner's calls to `write` and `log` are the input `effects`.
- Broadcast.WebSocketsManager.SendBytesTo: a failed send stands for `WebSocketDisconnect` or `RuntimeError` only. Any other exception escapes `add` or `write` after the history append and leaves the failed subscribers attached; that path is not modelled.
- Broadcast.WebSocketsManager.Replay: whether sends to a subscriber fail is one set per call, so every send to one subscriber within one `add` or `write` has the same outcome. A replay that fails after delivering part of the history, and then goes on sending as the source's loop does, cannot be expressed.
- Tasks.RunTask: does not model a `BaseException` escaping the `finally` block, or a callback raising, because only the `Exception` path is part of the coordinator's logic.
- Tasks.MergeCustomInstructions: returns a new command instead of updating the caller's dictionary in place. `MergeTwiceAppendsTwice` states what a second merge on the same dictionary does.
- Lifecycle.TaskLifecycle.Wrap: models one call of the returned closure with total work, so exceptions from the work or a callback are not modelled.
- Coordinator.ServerBatch.CloseTasks: states that every task channel ends closed and empty with its history kept, but not that the observers attached before the close are woken. `CloseTask`, `Done` and `CloseUpdates` state that wake-up for one channel. Carrying it across the loop needs the channels' event sets to be known disjoint, which the batch invariant does not track.
- Coordinator.ServerBatch.CloseAll: does not state the wake-up of observers either, for the same reason as `CloseTasks`.
- Coordinator.ServerBatch.RunWrapped: one set `failing` serves every write of the future, so an observer that receives `started` and then drops during the run cannot be expressed.
- Coordinator.ServerBatch.RunAll: one set `failing` serves every write of the whole batch, with the same consequence as for `RunWrapped`.
- Coordinator.ServerBatch.Valid: tracks `Pending` per channel operation but not across the whole batch.
- Coordinator.RunBenchmarkWorkerPoolWithServer: runs with no observer ever attached, so what observers receive is stated per channel operation and not end to end.
