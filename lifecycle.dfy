/**
 `TaskLifecycle`: before/after hooks around one unit of work.

 A callback is known here by an identifier of type `Fn`; calling it is
 recorded as an entry of a trace, so the order of the calls is what the model
 speaks about. The unit of work is an opaque total function.
 */
module Lifecycle {

  /** One call made by a wrapped function. */
  datatype Call<Fn, Args, Result> =
    | StartCall(fn: Fn)
    | WorkCall(args: Args)
    | DoneCall(fn: Fn, result: Result)

  /** The calls of the start callbacks `fns`, in order. */
  function StartCalls<Fn, Args, Result>(fns: seq<Fn>): (calls: seq<Call<Fn, Args, Result>>)
    ensures |calls| == |fns|
    ensures forall i :: 0 <= i < |fns| ==> calls[i] == StartCall(fns[i])
  {
    if fns == [] then [] else [StartCall(fns[0])] + StartCalls(fns[1..])
  }

  /** The calls of the done callbacks `fns`, in order, each given `result`. */
  function DoneCalls<Fn, Args, Result>(fns: seq<Fn>, result: Result): (calls: seq<Call<Fn, Args, Result>>)
    ensures |calls| == |fns|
    ensures forall i :: 0 <= i < |fns| ==> calls[i] == DoneCall(fns[i], result)
  {
    if fns == [] then [] else [DoneCall(fns[0], result)] + DoneCalls(fns[1..], result)
  }

  /** What one call of a wrapped function does: every start callback, then
      the work, then every done callback with the work's result. */
  function WrappedCalls<Fn, Args, Result>(startFns: seq<Fn>, doneFns: seq<Fn>, args: Args, result: Result): seq<Call<Fn, Args, Result>>
  {
    StartCalls(startFns) + [WorkCall(args)] + DoneCalls(doneFns, result)
  }

  /** The order a wrapped call keeps: exactly the first `|startFns|` calls are
      start callbacks, in registration order; the next is the one call of the
      work; all later calls are done callbacks, in registration order, each
      given the work's result. */
  lemma {:induction false} WrappedCallsOrder<Fn, Args, Result>(startFns: seq<Fn>, doneFns: seq<Fn>, args: Args, result: Result)
    ensures var calls := WrappedCalls(startFns, doneFns, args, result);
            && |calls| == |startFns| + 1 + |doneFns|
            && (forall i :: 0 <= i < |calls| ==> (calls[i].StartCall? <==> i < |startFns|))
            && (forall i :: 0 <= i < |calls| ==> (calls[i].WorkCall? <==> i == |startFns|))
            && (forall i :: 0 <= i < |startFns| ==> calls[i].fn == startFns[i])
            && calls[|startFns|] == WorkCall(args)
            && (forall j :: 0 <= j < |doneFns| ==> calls[|startFns| + 1 + j] == DoneCall(doneFns[j], result))
  {
    var starts: seq<Call<Fn, Args, Result>> := StartCalls(startFns);
    var dones: seq<Call<Fn, Args, Result>> := DoneCalls(doneFns, result);
    var calls := WrappedCalls(startFns, doneFns, args, result);
    assert calls == starts + [WorkCall(args)] + dones;
    forall j | 0 <= j < |doneFns|
      ensures calls[|startFns| + 1 + j] == DoneCall(doneFns[j], result)
    {
      assert calls[|startFns| + 1 + j] == dones[j];
    }
  }

  class TaskLifecycle<Fn, Args, Result> {
    var startFns: seq<Fn>
    var doneFns: seq<Fn>

    constructor ()
      ensures startFns == [] && doneFns == []
    {
      startFns := [];
      doneFns := [];
    }

    /** `add_start_fn`. */
    method AddStartFn(fn: Fn)
      modifies this
      ensures startFns == old(startFns) + [fn] && doneFns == old(doneFns)
    {
      startFns := startFns + [fn];
    }

    /** `add_done_fn`. */
    method AddDoneFn(fn: Fn)
      modifies this
      ensures doneFns == old(doneFns) + [fn] && startFns == old(startFns)
    {
      doneFns := doneFns + [fn];
    }

    /** One call of the function `wrap(work)` returns, with the callback lists
        as they are at the time of the call: it returns the work's result
        unchanged and makes the calls `WrappedCalls` lists. */
    method Wrap(work: Args -> Result, args: Args) returns (result: Result, calls: seq<Call<Fn, Args, Result>>)
      ensures result == work(args)
      ensures calls == WrappedCalls(startFns, doneFns, args, result)
    {
      var starts: seq<Call<Fn, Args, Result>> := [];
      for i := 0 to |startFns|
        invariant |starts| == i
        invariant forall k :: 0 <= k < i ==> starts[k] == StartCall(startFns[k])
      {
        starts := starts + [StartCall(startFns[i])];
      }
      assert starts == StartCalls(startFns);
      result := work(args);
      var dones: seq<Call<Fn, Args, Result>> := [];
      for i := 0 to |doneFns|
        invariant |dones| == i
        invariant forall k :: 0 <= k < i ==> dones[k] == DoneCall(doneFns[k], result)
      {
        dones := dones + [DoneCall(doneFns[i], result)];
      }
      assert dones == DoneCalls(doneFns, result);
      calls := starts + [WorkCall(args)] + dones;
    }
  }
}
