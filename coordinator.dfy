/**
 The batch coordinators: the headless worker pool, which collects one result
 per submitted task in completion order, and the bookkeeping of the server
 mode, whose per-task callbacks write lifecycle events to the shared updates
 channel, record results and close each task's channel when it is done.

 The thread pool, `as_completed` and the blocking waits are not modelled as
 concurrency: the order in which futures complete is an input, and every
 callback runs as one atomic step.
 */
module Coordinator {
  import opened Wrappers
  import opened Tasks
  import opened Broadcast

  type Bytes = seq<bv8>

  /** What a task's run did that the coordinator cannot see into: the clock
      readings around it and the outcome of `run_and_judge`. */
  datatype TaskExecution = TaskExecution(start: Timestamp, end: Timestamp, outcome: RunOutcome)

  function Indices(n: nat): (ids: seq<nat>)
    ensures |ids| == n && forall i :: 0 <= i < n ==> ids[i] == i
  {
    seq(n, i => i)
  }

  /** The order in which `as_completed` yields `n` submitted futures: every
      index below `n` exactly once. */
  ghost predicate IsCompletionOrder(order: seq<nat>, n: nat)
  {
    && |order| == n
    && (forall k :: 0 <= k < |order| ==> order[k] < n)
    && multiset(order) == multiset(Indices(n))
  }

  /** The elements of `s` in the order the indices `order` give. */
  function Pick<T>(s: seq<T>, order: seq<nat>): (picked: seq<T>)
    requires forall k :: 0 <= k < |order| ==> order[k] < |s|
    ensures |picked| == |order| && forall k :: 0 <= k < |order| ==> picked[k] == s[order[k]]
  {
    seq(|order|, k requires 0 <= k < |order| => s[order[k]])
  }

  /** Picking one more index appends the element it points at. */
  lemma PickExtend<T>(s: seq<T>, order: seq<nat>, k: nat)
    requires k < |order| && forall m :: 0 <= m < |order| ==> order[m] < |s|
    ensures Pick(s, order[..k + 1]) == Pick(s, order[..k]) + [s[order[k]]]
  {
    var longer, shorter := Pick(s, order[..k + 1]), Pick(s, order[..k]);
    assert forall m :: 0 <= m < k ==> longer[m] == shorter[m];
  }

  /** Taking every element once, in any completion order, loses and repeats
      nothing: the result is a permutation of the submitted sequence. */
  lemma {:induction false} PickPermutes<T>(s: seq<T>, order: seq<nat>)
    requires IsCompletionOrder(order, |s|)
    ensures multiset(Pick(s, order)) == multiset(s)
    decreases |s|
  {
    if |s| == 0 {
      return;
    }
    var j, rest := RemoveLast(order, |s|);
    PickPermutes(s[..|s| - 1], rest);
    PickLastStep(s, order, j, rest);
  }

  /** The inductive step of `PickPermutes`: if leaving out the position `j`
      of the last index permutes the rest of `s`, putting it back permutes
      all of `s`. */
  lemma PickLastStep<T>(s: seq<T>, order: seq<nat>, j: nat, rest: seq<nat>)
    requires 0 < |s| && j < |order| && order[j] == |s| - 1
    requires forall k :: 0 <= k < |order| ==> order[k] < |s|
    requires rest == order[..j] + order[j + 1..]
    requires forall k :: 0 <= k < |rest| ==> rest[k] < |s| - 1
    requires multiset(Pick(s[..|s| - 1], rest)) == multiset(s[..|s| - 1])
    ensures multiset(Pick(s, order)) == multiset(s)
  {
    var last := |s| - 1;
    PickRestrict(s, last, rest);
    PickAround(s, order, j);
    MultisetInsert(Pick(s, order[..j]), s[last], Pick(s, order[j + 1..]), s[..last]);
    assert s == s[..last] + [s[last]];
  }

  /** Picking along `order` is picking before position `j`, then the element
      `order[j]` points at, then picking after `j`; leaving position `j` out
      leaves that element out. */
  lemma PickAround<T>(s: seq<T>, order: seq<nat>, j: nat)
    requires j < |order| && forall k :: 0 <= k < |order| ==> order[k] < |s|
    ensures Pick(s, order) == Pick(s, order[..j]) + [s[order[j]]] + Pick(s, order[j + 1..])
    ensures Pick(s, order[..j] + order[j + 1..]) == Pick(s, order[..j]) + Pick(s, order[j + 1..])
  {
    var x, before, after := order[j], order[..j], order[j + 1..];
    assert order == (before + [x]) + after;
    PickConcat(s, before, after);
    PickConcat(s, before + [x], after);
    PickConcat(s, before, [x]);
    assert Pick(s, [x]) == [s[x]];
  }

  /** Inserting `x` between `before` and `after` adds one copy of `x`. */
  lemma MultisetInsert<T>(before: seq<T>, x: T, after: seq<T>, rest: seq<T>)
    requires multiset(before + after) == multiset(rest)
    ensures multiset(before + [x] + after) == multiset(rest + [x])
  {
    assert multiset(before + [x] + after) == multiset(before) + multiset{x} + multiset(after);
  }

  /** Picking from a prefix of `s` is picking from `s`, when every index
      points into the prefix. */
  lemma PickRestrict<T>(s: seq<T>, m: nat, order: seq<nat>)
    requires m <= |s| && forall k :: 0 <= k < |order| ==> order[k] < m
    ensures Pick(s[..m], order) == Pick(s, order)
  {
  }

  /** Picking along two orders one after the other is picking along their
      concatenation. */
  lemma PickConcat<T>(s: seq<T>, a: seq<nat>, b: seq<nat>)
    requires forall k :: 0 <= k < |a| ==> a[k] < |s|
    requires forall k :: 0 <= k < |b| ==> b[k] < |s|
    ensures Pick(s, a + b) == Pick(s, a) + Pick(s, b)
  {
    var whole, first, second := Pick(s, a + b), Pick(s, a), Pick(s, b);
    assert forall k :: 0 <= k < |b| ==> whole[|a| + k] == second[k];
    assert whole == first + second;
  }

  /** The position `j` of the last index in a completion order, and the
      completion order of one fewer future that remains without it. */
  lemma RemoveLast(order: seq<nat>, n: nat) returns (j: nat, rest: seq<nat>)
    requires IsCompletionOrder(order, n) && n > 0
    ensures j < |order| && order[j] == n - 1
    ensures rest == order[..j] + order[j + 1..]
    ensures IsCompletionOrder(rest, n - 1)
  {
    var last := n - 1;
    assert Indices(n) == Indices(last) + [last];
    assert last in multiset(order) by {
      assert last in multiset(Indices(n));
    }
    j :| 0 <= j < |order| && order[j] == last;
    rest := order[..j] + order[j + 1..];
    RemoveAt(order, j);
    MultisetCancel(multiset(rest), multiset(Indices(last)), last);
    forall k | 0 <= k < |rest|
      ensures rest[k] < last
    {
      assert rest[k] in multiset(rest);
      IndexBound(rest[k], last);
    }
  }

  /** Removing the element at position `j` removes one copy of it. */
  lemma RemoveAt<T>(s: seq<T>, j: nat)
    requires j < |s|
    ensures multiset(s) == multiset(s[..j] + s[j + 1..]) + multiset{s[j]}
  {
    assert s == s[..j] + [s[j]] + s[j + 1..];
  }

  lemma MultisetCancel<T>(a: multiset<T>, b: multiset<T>, x: T)
    requires a + multiset{x} == b + multiset{x}
    ensures a == b
  {
    forall y
      ensures a[y] == b[y]
    {
      assert (a + multiset{x})[y] == (b + multiset{x})[y];
    }
  }

  /** Every element of `Indices(n)` is below `n`. */
  lemma IndexBound(x: nat, n: nat)
    requires x in multiset(Indices(n))
    ensures x < n
  {
    assert x in Indices(n);
  }

  function TaskIds(results: seq<TaskResult>): (ids: seq<TaskId>)
    ensures |ids| == |results| && forall i :: 0 <= i < |results| ==> ids[i] == results[i].taskId
  {
    seq(|results|, i requires 0 <= i < |results| => results[i].taskId)
  }

  function ZeroShotIds(tasks: seq<ZeroShotTask>): (ids: seq<TaskId>)
    ensures |ids| == |tasks| && forall i :: 0 <= i < |tasks| ==> ids[i] == tasks[i].id
  {
    seq(|tasks|, i requires 0 <= i < |tasks| => tasks[i].id)
  }

  /** The values of the submitted futures: future `i` is the wrapped
      `run_task` of task `i`, and the headless lifecycle callbacks only log. */
  function FutureResults(tasks: seq<ZeroShotTask>, command: Command, runs: seq<TaskExecution>): (futures: seq<TaskResult>)
    requires |runs| == |tasks|
    ensures |futures| == |tasks|
    ensures forall i :: 0 <= i < |tasks| ==>
              futures[i] == RunTask(tasks[i], command, runs[i].start, runs[i].end, runs[i].outcome).result
  {
    seq(|tasks|, i requires 0 <= i < |tasks| => RunTask(tasks[i], command, runs[i].start, runs[i].end, runs[i].outcome).result)
  }

  /** The collection loop of the headless pool: one `append` per future, in
      the order the futures complete. */
  method CollectResults<T>(futures: seq<T>, completionOrder: seq<nat>) returns (results: seq<T>)
    requires IsCompletionOrder(completionOrder, |futures|)
    ensures results == Pick(futures, completionOrder)
    ensures multiset(results) == multiset(futures)
  {
    results := [];
    for k := 0 to |completionOrder|
      invariant |results| == k
      invariant forall m :: 0 <= m < k ==> results[m] == futures[completionOrder[m]]
    {
      results := results + [futures[completionOrder[k]]];
    }
    PickPermutes(futures, completionOrder);
  }

  /** `run_benchmark_worker_pool`, with the pool's completion order and each
      task's execution as inputs: one result per submitted task, whatever any
      other task did, in completion order. */
  method RunBenchmarkWorkerPool(tasks: seq<ZeroShotTask>, command: Command, extra: Option<string>,
                                runs: seq<TaskExecution>, completionOrder: seq<nat>)
    returns (results: seq<TaskResult>)
    requires |runs| == |tasks|
    requires IsCompletionOrder(completionOrder, |tasks|)
    ensures results == Pick(FutureResults(tasks, MergeCustomInstructions(command, extra), runs), completionOrder)
    ensures |results| == |tasks|
    ensures multiset(TaskIds(results)) == multiset(ZeroShotIds(tasks))
    ensures forall k :: 0 <= k < |results| ==>
              var i := completionOrder[k];
              && results[k].taskId == tasks[i].id
              && results[k].command == MergeCustomInstructions(command, extra)
              && (runs[i].outcome.Failed? ==> results[k].status == Error && results[k].messages == [])
              && (runs[i].outcome.Ok? ==> results[k].status == runs[i].outcome.status
                                          && results[k].messages == runs[i].outcome.messages)
  {
    var merged := MergeCustomInstructions(command, extra);
    var futures := FutureResults(tasks, merged, runs);
    results := CollectResults(futures, completionOrder);
    OneResultPerTask(tasks, merged, runs, completionOrder);
  }

  /** Whatever the completion order, the collected results carry every
      task's id exactly as often as the task list does. */
  lemma OneResultPerTask(tasks: seq<ZeroShotTask>, command: Command, runs: seq<TaskExecution>, completionOrder: seq<nat>)
    requires |runs| == |tasks| && IsCompletionOrder(completionOrder, |tasks|)
    ensures multiset(TaskIds(Pick(FutureResults(tasks, command, runs), completionOrder))) == multiset(ZeroShotIds(tasks))
  {
    var futures := FutureResults(tasks, command, runs);
    assert TaskIds(futures) == ZeroShotIds(tasks);
    assert TaskIds(Pick(futures, completionOrder)) == Pick(TaskIds(futures), completionOrder);
    PickPermutes(TaskIds(futures), completionOrder);
  }

  /** A call the runner makes while it runs: a chunk for the task's own
      channel (`write`) or a progress line (`log`). */
  datatype RunnerEffect = Wrote(chunk: Bytes) | Logged(line: string)

  /** The chunks among `effects`, in order. */
  function WrittenChunks(effects: seq<RunnerEffect>): seq<Bytes>
  {
    if effects == [] then []
    else
      var last := effects[|effects| - 1];
      WrittenChunks(effects[..|effects| - 1]) + if last.Wrote? then [last.chunk] else []
  }

  /** The progress lines among `effects`, in order. */
  function LoggedLines(effects: seq<RunnerEffect>): seq<string>
  {
    if effects == [] then []
    else
      var last := effects[|effects| - 1];
      LoggedLines(effects[..|effects| - 1]) + if last.Logged? then [last.line] else []
  }

  /** The chunks of consecutive runs of calls are the chunks of the first run
      followed by those of the second. */
  lemma {:induction false} WrittenChunksAppend(a: seq<RunnerEffect>, b: seq<RunnerEffect>)
    ensures WrittenChunks(a + b) == WrittenChunks(a) + WrittenChunks(b)
    decreases |b|
  {
    if b != [] {
      var init := b[..|b| - 1];
      assert (a + b)[..|a + b| - 1] == a + init;
      WrittenChunksAppend(a, init);
    } else {
      assert a + b == a;
    }
  }

  /** The progress lines of consecutive runs of calls are the lines of the
      first run followed by those of the second. */
  lemma {:induction false} LoggedLinesAppend(a: seq<RunnerEffect>, b: seq<RunnerEffect>)
    ensures LoggedLines(a + b) == LoggedLines(a) + LoggedLines(b)
    decreases |b|
  {
    if b != [] {
      var init := b[..|b| - 1];
      assert (a + b)[..|a + b| - 1] == a + init;
      LoggedLinesAppend(a, init);
    } else {
      assert a + b == a;
    }
  }

  /** One more runner call adds its own chunk and its own log update to
      those of the calls before it. */
  lemma EffectsStep(id: TaskId, effects: seq<RunnerEffect>, i: nat)
    requires i < |effects|
    ensures WrittenChunks(effects[..i + 1]) == WrittenChunks(effects[..i]) + WrittenChunks([effects[i]])
    ensures LogUpdates(id, LoggedLines(effects[..i + 1]))
            == LogUpdates(id, LoggedLines(effects[..i])) + LogUpdates(id, LoggedLines([effects[i]]))
  {
    assert effects[..i + 1] == effects[..i] + [effects[i]];
    WrittenChunksAppend(effects[..i], [effects[i]]);
    LoggedLinesAppend(effects[..i], [effects[i]]);
    LogUpdatesAppend(id, LoggedLines(effects[..i]), LoggedLines([effects[i]]));
  }

  /** The updates that `log` writes for the lines `lines` of task `id`. */
  function LogUpdates(id: TaskId, lines: seq<string>): (updates: seq<TaskUpdate>)
    ensures |updates| == |lines|
    ensures forall i :: 0 <= i < |lines| ==> updates[i] == TaskUpdate(id, TaskLogPayload(lines[i]))
  {
    seq(|lines|, i requires 0 <= i < |lines| => TaskUpdate(id, TaskLogPayload(lines[i])))
  }

  /** Logging two runs of lines writes the updates of the first, then those
      of the second. */
  lemma LogUpdatesAppend(id: TaskId, a: seq<string>, b: seq<string>)
    ensures LogUpdates(id, a + b) == LogUpdates(id, a) + LogUpdates(id, b)
  {
    var whole, first, second := LogUpdates(id, a + b), LogUpdates(id, a), LogUpdates(id, b);
    assert forall k :: 0 <= k < |b| ==> whole[|a| + k] == second[k];
    assert whole == first + second;
  }

  /** The state `run_benchmark_worker_pool_with_server` shares with the
      callbacks it creates for each task. */
  class ServerBatch<Sub(==)> {
    const taskIds: seq<TaskId>
    const command: Command
    const taskManagers: map<TaskId, WebSocketsManager<Sub, Bytes>>
    const updatesManager: WebSocketsManager<Sub, TaskUpdate>
    var taskResults: seq<TaskResult>
    var doneEventSet: bool

    ghost function TaskEvents(): set<DisconnectEvent>
      reads taskManagers.Values
    {
      set id, e | id in taskManagers && e in taskManagers[id].disconnectEvents.Values :: e
    }

    /** The batch's invariant: one channel per task id, and the completion
        signal set exactly when a done callback has seen at least as many
        results as there are tasks. With no tasks no done callback runs, so
        the signal is never set. */
    ghost predicate Valid()
      reads this, updatesManager, taskManagers.Values
    {
      && Layout()
      && (doneEventSet <==> 0 < |taskIds| <= |taskResults|)
      && ChannelsValid()
    }

    /** The fixed layout of the channels: one per task id, and no manager
        shared between two ids or with the updates channel. */
    ghost predicate Layout()
    {
      && taskManagers.Keys == (set id | id in taskIds)
      && (forall id :: id in taskManagers ==> taskManagers[id] as object != updatesManager as object)
      && (forall a, b :: a in taskManagers && b in taskManagers && a != b ==> taskManagers[a] != taskManagers[b])
    }

    /** Every channel keeps its own invariant. */
    ghost predicate ChannelsValid()
      reads updatesManager, taskManagers.Values
    {
      && updatesManager.Valid()
      && (forall id :: id in taskManagers ==> taskManagers[id].Valid())
    }

    /** The set-up of the server mode: one fresh channel per task id, a fresh
        updates channel, the command with the custom instructions merged in,
        no results and the completion signal unset. */
    constructor (tasks: seq<ZeroShotTask>, cmd: Command, extra: Option<string>)
      ensures Valid()
      ensures taskIds == ZeroShotIds(tasks) && command == MergeCustomInstructions(cmd, extra)
      ensures taskResults == [] && !doneEventSet
      ensures fresh(updatesManager) && updatesManager.history == [] && updatesManager.websockets == {}
      ensures updatesManager.disconnectEvents == map[] && !updatesManager.closed
      ensures forall id :: id in taskManagers ==>
                && fresh(taskManagers[id]) && taskManagers[id].history == [] && taskManagers[id].websockets == {}
                && taskManagers[id].disconnectEvents == map[] && !taskManagers[id].closed
    {
      var ids := ZeroShotIds(tasks);
      var managers := MakeTaskManagers(ids);
      var updates := new WebSocketsManager<Sub, TaskUpdate>();
      taskIds := ids;
      taskManagers := managers;
      updatesManager := updates;
      command := MergeCustomInstructions(cmd, extra);
      taskResults := [];
      doneEventSet := false;
    }

    /** `updates_manager.write_json(u)`, the JSON encoding left out. */
    method WriteUpdate(u: TaskUpdate, failing: set<Sub>)
      requires Layout() && ChannelsValid()
      modifies updatesManager, updatesManager.disconnectEvents.Values
      ensures ChannelsValid()
      ensures updatesManager.history == old(updatesManager.history) + [u]
      ensures updatesManager.disconnectEvents.Values <= old(updatesManager.disconnectEvents.Values)
    {
      updatesManager.Write(u, failing);
    }

    /** `ws_manager.write(b)` on the channel of task `id`. */
    method WriteTask(id: TaskId, b: Bytes, failing: set<Sub>)
      requires Layout() && ChannelsValid() && id in taskManagers
      modifies taskManagers[id], taskManagers[id].disconnectEvents.Values
      ensures ChannelsValid()
      ensures taskManagers[id].history == old(taskManagers[id].history) + [b]
      ensures taskManagers[id].disconnectEvents.Values <= old(taskManagers[id].disconnectEvents.Values)
    {
      taskManagers[id].Write(b, failing);
    }

    /** `task_managers[id].close()`. */
    method CloseTask(id: TaskId)
      requires Layout() && ChannelsValid() && id in taskManagers
      modifies taskManagers[id], taskManagers[id].disconnectEvents.Values
      ensures ChannelsValid()
      ensures taskManagers[id].closed && taskManagers[id].websockets == {}
      ensures taskManagers[id].history == old(taskManagers[id].history)
      ensures taskManagers[id].disconnectEvents == old(taskManagers[id].disconnectEvents)
      ensures forall ws :: ws in old(taskManagers[id].websockets) ==> taskManagers[id].disconnectEvents[ws].isSet
      ensures forall other :: other in taskManagers && other != id ==>
                && taskManagers[other].closed == old(taskManagers[other].closed)
                && taskManagers[other].websockets == old(taskManagers[other].websockets)
                && taskManagers[other].history == old(taskManagers[other].history)
                && taskManagers[other].disconnectEvents == old(taskManagers[other].disconnectEvents)
    {
      taskManagers[id].Close();
    }

    /** The `start` callback of task `id`: announces that it started. */
    method Start(id: TaskId, failing: set<Sub>)
      requires Valid()
      modifies updatesManager, updatesManager.disconnectEvents.Values
      ensures Valid()
      ensures updatesManager.history == old(updatesManager.history) + [TaskUpdate(id, TaskStartedPayload)]
      ensures updatesManager.disconnectEvents.Values <= old(updatesManager.disconnectEvents.Values)
    {
      WriteUpdate(TaskUpdate(id, TaskStartedPayload), failing);
    }

    /** The `log` callback of task `id`: forwards one progress line. */
    method Log(id: TaskId, line: string, failing: set<Sub>)
      requires Layout() && ChannelsValid()
      modifies updatesManager, updatesManager.disconnectEvents.Values
      ensures ChannelsValid()
      ensures updatesManager.history == old(updatesManager.history) + [TaskUpdate(id, TaskLogPayload(line))]
      ensures updatesManager.disconnectEvents.Values <= old(updatesManager.disconnectEvents.Values)
    {
      WriteUpdate(TaskUpdate(id, TaskLogPayload(line)), failing);
    }

    /** The `done` callback of task `id`: announces the final status, records
        the result, closes the task's own channel, and sets the completion
        signal once at least as many results as tasks are recorded. */
    method Done(id: TaskId, result: TaskResult, failing: set<Sub>)
      requires Valid() && id in taskManagers
      modifies this, updatesManager, updatesManager.disconnectEvents.Values
      modifies taskManagers[id], taskManagers[id].disconnectEvents.Values
      ensures Valid()
      ensures taskResults == old(taskResults) + [result]
      ensures doneEventSet <==> old(doneEventSet) || |taskResults| >= |taskIds|
      ensures updatesManager.history == old(updatesManager.history) + [TaskUpdate(id, TaskDonePayload(result.status))]
      ensures taskManagers[id].closed && taskManagers[id].websockets == {}
      ensures taskManagers[id].history == old(taskManagers[id].history)
      ensures taskManagers[id].disconnectEvents == old(taskManagers[id].disconnectEvents)
      ensures forall ws :: ws in old(taskManagers[id].websockets) ==> old(taskManagers[id].disconnectEvents[ws]).isSet
      ensures updatesManager.disconnectEvents.Values <= old(updatesManager.disconnectEvents.Values)
    {
      WriteUpdate(TaskUpdate(id, TaskDonePayload(result.status)), failing);
      Record(result);
      CloseTask(id);
    }

    /** The bookkeeping of the `done` callback: the result is appended and the
        completion signal is set once the results are at least as many as the
        tasks. Setting the signal before or after closing the task's channel
        leaves the same state, as the two touch disjoint state. */
    method Record(result: TaskResult)
      requires Layout() && ChannelsValid()
      modifies this`taskResults, this`doneEventSet
      ensures ChannelsValid()
      ensures taskResults == old(taskResults) + [result]
      ensures doneEventSet <==> old(doneEventSet) || |taskResults| >= |taskIds|
    {
      taskResults := taskResults + [result];
      if |taskResults| >= |taskIds| {
        doneEventSet := true;
      }
    }

    /** The server's `run_task` for task `zs`: the runner's chunks go to the
        task's own channel and its progress lines, followed by the trace of a
        failure, go to the updates channel through `log`; the result is the
        one `run_task` builds. */
    method RunTask(zs: ZeroShotTask, execution: TaskExecution, effects: seq<RunnerEffect>, failing: set<Sub>)
      returns (result: TaskResult)
      requires Valid() && zs.id in taskManagers
      modifies updatesManager, updatesManager.disconnectEvents.Values
      modifies taskManagers[zs.id], taskManagers[zs.id].disconnectEvents.Values
      ensures Valid()
      ensures var run := Tasks.RunTask(zs, command, execution.start, execution.end, execution.outcome);
              && result == run.result
              && taskManagers[zs.id].history == old(taskManagers[zs.id].history) + WrittenChunks(effects)
              && updatesManager.history == old(updatesManager.history) + LogUpdates(zs.id, LoggedLines(effects) + run.logged)
      ensures taskManagers[zs.id].disconnectEvents.Values <= old(taskManagers[zs.id].disconnectEvents.Values)
      ensures updatesManager.disconnectEvents.Values <= old(updatesManager.disconnectEvents.Values)
    {
      RunEffects(zs.id, effects, failing);
      var run := Tasks.RunTask(zs, command, execution.start, execution.end, execution.outcome);
      LogUpdatesAppend(zs.id, LoggedLines(effects), run.logged);
      if execution.outcome.Failed? {
        Log(zs.id, execution.outcome.trace, failing);
        assert LogUpdates(zs.id, run.logged) == [TaskUpdate(zs.id, TaskLogPayload(execution.outcome.trace))];
      } else {
        assert LogUpdates(zs.id, run.logged) == [];
      }
      result := run.result;
    }

    /** The runner's calls of task `id`, in order: each chunk goes to the
        task's channel, each progress line to the updates channel. */
    method RunEffects(id: TaskId, effects: seq<RunnerEffect>, failing: set<Sub>)
      requires Layout() && ChannelsValid() && id in taskManagers
      modifies updatesManager, updatesManager.disconnectEvents.Values
      modifies taskManagers[id], taskManagers[id].disconnectEvents.Values
      ensures ChannelsValid()
      ensures taskManagers[id].history == old(taskManagers[id].history) + WrittenChunks(effects)
      ensures updatesManager.history == old(updatesManager.history) + LogUpdates(id, LoggedLines(effects))
      ensures taskManagers[id].disconnectEvents.Values <= old(taskManagers[id].disconnectEvents.Values)
      ensures updatesManager.disconnectEvents.Values <= old(updatesManager.disconnectEvents.Values)
    {
      var channel := taskManagers[id];
      for i := 0 to |effects|
        invariant Layout() && ChannelsValid()
        invariant channel.history == old(channel.history) + WrittenChunks(effects[..i])
        invariant updatesManager.history == old(updatesManager.history) + LogUpdates(id, LoggedLines(effects[..i]))
        invariant channel.disconnectEvents.Values <= old(channel.disconnectEvents.Values)
        invariant updatesManager.disconnectEvents.Values <= old(updatesManager.disconnectEvents.Values)
      {
        Effect(id, effects[i], failing);
        EffectsStep(id, effects, i);
      }
      assert effects[..|effects|] == effects;
    }

    /** One call the runner of task `id` makes: `write` sends a chunk to the
        task's channel, `log` a progress line to the updates channel. */
    method Effect(id: TaskId, effect: RunnerEffect, failing: set<Sub>)
      requires Layout() && ChannelsValid() && id in taskManagers
      modifies updatesManager, updatesManager.disconnectEvents.Values
      modifies taskManagers[id], taskManagers[id].disconnectEvents.Values
      ensures ChannelsValid()
      ensures taskManagers[id].history == old(taskManagers[id].history) + WrittenChunks([effect])
      ensures updatesManager.history == old(updatesManager.history) + LogUpdates(id, LoggedLines([effect]))
      ensures taskManagers[id].disconnectEvents.Values <= old(taskManagers[id].disconnectEvents.Values)
      ensures updatesManager.disconnectEvents.Values <= old(updatesManager.disconnectEvents.Values)
    {
      match effect
      case Wrote(chunk) =>
        WriteTask(id, chunk, failing);
      case Logged(line) =>
        Log(id, line, failing);
    }

    /** One submitted future of the server mode: `run_task` wrapped by a
        lifecycle whose start callback announces the task and whose done
        callback records the result. */
    method RunWrapped(zs: ZeroShotTask, execution: TaskExecution, effects: seq<RunnerEffect>, failing: set<Sub>)
      requires Valid() && zs.id in taskManagers
      modifies this, updatesManager, updatesManager.disconnectEvents.Values
      modifies taskManagers[zs.id], taskManagers[zs.id].disconnectEvents.Values
      ensures Valid()
      ensures var run := Tasks.RunTask(zs, command, execution.start, execution.end, execution.outcome);
              && taskResults == old(taskResults) + [run.result]
              && updatesManager.history == old(updatesManager.history) + [TaskUpdate(zs.id, TaskStartedPayload)]
                                           + LogUpdates(zs.id, LoggedLines(effects) + run.logged)
                                           + [TaskUpdate(zs.id, TaskDonePayload(run.result.status))]
              && taskManagers[zs.id].history == old(taskManagers[zs.id].history) + WrittenChunks(effects)
              && taskManagers[zs.id].closed && taskManagers[zs.id].websockets == {}
      ensures updatesManager.disconnectEvents.Values <= old(updatesManager.disconnectEvents.Values)
      ensures taskManagers[zs.id].disconnectEvents.Values <= old(taskManagers[zs.id].disconnectEvents.Values)
    {
      Start(zs.id, failing);
      var result := RunTask(zs, execution, effects, failing);
      Done(zs.id, result, failing);
    }

    /** The submitted futures of the server mode, run one after another in
        completion order while no observer is attached: the results are the
        futures' values in that order. */
    method RunAll(tasks: seq<ZeroShotTask>, runs: seq<TaskExecution>, effects: seq<seq<RunnerEffect>>,
                  completionOrder: seq<nat>, failing: set<Sub>)
      requires Valid() && taskIds == ZeroShotIds(tasks) && taskResults == []
      requires |runs| == |tasks| && |effects| == |tasks|
      requires IsCompletionOrder(completionOrder, |tasks|)
      modifies this, updatesManager, updatesManager.disconnectEvents.Values, taskManagers.Values, TaskEvents()
      ensures Valid()
      ensures taskResults == Pick(FutureResults(tasks, command, runs), completionOrder)
      ensures updatesManager.disconnectEvents.Values <= old(updatesManager.disconnectEvents.Values)
      ensures TaskEvents() <= old(TaskEvents())
    {
      var futures := FutureResults(tasks, command, runs);
      for k := 0 to |tasks|
        invariant Valid()
        invariant updatesManager.disconnectEvents.Values <= old(updatesManager.disconnectEvents.Values)
        invariant TaskEvents() <= old(TaskEvents())
        invariant taskResults == Pick(futures, completionOrder[..k])
      {
        var i := completionOrder[k];
        assert tasks[i].id == taskIds[i];
        label before:
        RunWrapped(tasks[i], runs[i], effects[i], failing);
        TaskEventsShrink@before(tasks[i].id);
        PickExtend(futures, completionOrder, k);
      }
      assert completionOrder[..|tasks|] == completionOrder;
    }

    /** When only the channel of task `id` changed its events, and it only
        lost some, the batch's task events are a subset of what they were. */
    twostate lemma TaskEventsShrink(id: TaskId)
      requires Layout() && id in taskManagers
      requires taskManagers[id].disconnectEvents.Values <= old(taskManagers[id].disconnectEvents.Values)
      requires forall other :: other in taskManagers && other != id ==> unchanged(taskManagers[other])
      ensures TaskEvents() <= old(TaskEvents())
    {
      forall e | e in TaskEvents()
        ensures e in old(TaskEvents())
      {
        var j :| j in taskManagers && e in taskManagers[j].disconnectEvents.Values;
        assert e in old(taskManagers[j].disconnectEvents.Values);
      }
    }

    /** The end of the server run: every task's channel is closed, then the
        updates channel. */
    method CloseAll()
      requires Valid()
      modifies taskManagers.Values, TaskEvents(), updatesManager, updatesManager.disconnectEvents.Values
      ensures Valid()
      ensures forall id :: id in taskManagers ==>
                && taskManagers[id].closed && taskManagers[id].websockets == {}
                && taskManagers[id].history == old(taskManagers[id].history)
      ensures updatesManager.closed && updatesManager.websockets == {}
      ensures updatesManager.history == old(updatesManager.history)
    {
      CloseTasks();
      CloseUpdates();
    }

    /** The loop over the task channels at the end of the server run. */
    method CloseTasks()
      requires Layout() && ChannelsValid()
      modifies taskManagers.Values, TaskEvents()
      ensures ChannelsValid()
      ensures forall id :: id in taskManagers ==>
                && taskManagers[id].closed && taskManagers[id].websockets == {}
                && taskManagers[id].history == old(taskManagers[id].history)
    {
      var pending := taskManagers.Keys;
      while pending != {}
        modifies taskManagers.Values, TaskEvents()
        invariant pending <= taskManagers.Keys
        invariant Layout() && ChannelsValid()
        invariant forall id :: id in taskManagers ==>
                    && taskManagers[id].history == old(taskManagers[id].history)
                    && taskManagers[id].disconnectEvents == old(taskManagers[id].disconnectEvents)
        invariant forall id :: id in taskManagers && id !in pending ==> taskManagers[id].closed && taskManagers[id].websockets == {}
        decreases pending
      {
        var id :| id in pending;
        CloseTask(id);
        pending := pending - {id};
      }
    }

    /** `updates_manager.close()`. */
    method CloseUpdates()
      requires Layout() && ChannelsValid()
      modifies updatesManager, updatesManager.disconnectEvents.Values
      ensures ChannelsValid()
      ensures updatesManager.closed && updatesManager.websockets == {}
      ensures updatesManager.history == old(updatesManager.history)
      ensures updatesManager.disconnectEvents == old(updatesManager.disconnectEvents)
      ensures forall ws :: ws in old(updatesManager.websockets) ==> updatesManager.disconnectEvents[ws].isSet
    {
      updatesManager.Close();
    }
  }

  /** The per-task channels of the server mode, one fresh manager per id. */
  method MakeTaskManagers<Sub(==)>(ids: seq<TaskId>) returns (managers: map<TaskId, WebSocketsManager<Sub, Bytes>>)
    ensures managers.Keys == set id | id in ids
    ensures forall id :: id in managers ==>
              && fresh(managers[id]) && managers[id].Valid()
              && managers[id].history == [] && managers[id].websockets == {} && managers[id].disconnectEvents == map[]
              && !managers[id].closed
    ensures forall a, b :: a in managers && b in managers && a != b ==> managers[a] != managers[b]
  {
    managers := map[];
    for i := 0 to |ids|
      invariant managers.Keys == set id | id in ids[..i]
      invariant forall id :: id in managers ==>
                  && fresh(managers[id]) && managers[id].Valid()
                  && managers[id].history == [] && managers[id].websockets == {} && managers[id].disconnectEvents == map[]
                  && !managers[id].closed
      invariant forall a, b :: a in managers && b in managers && a != b ==> managers[a] != managers[b]
    {
      var manager := new WebSocketsManager<Sub, Bytes>();
      assert ids[..i + 1] == ids[..i] + [ids[i]];
      managers := managers[ids[i] := manager];
    }
    assert ids[..|ids|] == ids;
  }

  /** `run_benchmark_worker_pool_with_server`, with no observer connected,
      each task's run as an input and the tasks run one after another in
      completion order: each announces its start, runs, and its `done`
      callback records its result. The returned results are the futures'
      values in completion order; `signalled` says whether the completion
      signal the function waits on was set, which happens exactly when there
      is at least one task. */
  method RunBenchmarkWorkerPoolWithServer<Sub(==)>(tasks: seq<ZeroShotTask>, cmd: Command, extra: Option<string>,
                                                   runs: seq<TaskExecution>, effects: seq<seq<RunnerEffect>>,
                                                   completionOrder: seq<nat>, failing: set<Sub>)
    returns (results: seq<TaskResult>, signalled: bool)
    requires |runs| == |tasks| && |effects| == |tasks|
    requires IsCompletionOrder(completionOrder, |tasks|)
    ensures results == Pick(FutureResults(tasks, MergeCustomInstructions(cmd, extra), runs), completionOrder)
    ensures multiset(TaskIds(results)) == multiset(ZeroShotIds(tasks))
    ensures signalled <==> |tasks| > 0
  {
    var batch := new ServerBatch<Sub>(tasks, cmd, extra);
    batch.RunAll(tasks, runs, effects, completionOrder, failing);
    batch.CloseAll();
    results := batch.taskResults;
    signalled := batch.doneEventSet;
    OneResultPerTask(tasks, batch.command, runs, completionOrder);
  }
}
