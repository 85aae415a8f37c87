/** The callback execution engine of `executeCallbacks`: one task per claimed
    callback, each turning its callback's outcome into the value the task
    hands to the `errgroup`, and `errgroup.Wait`, which reports the error of
    the first task to fail and nothing else.

    Tasks run concurrently, so which failing task returns first is decided by
    the scheduler. The model takes that decision as a parameter: `finish(i)`
    is the moment at which task `i` returns, ties going to the lower index.
    Every interleaving is described by some such `finish`. */
module Engine {
  import opened GoErrors

  /** A registered, non-nil `func() error`, known only by its identity. */
  datatype Callback = Callback(id: nat)

  /** What running a callback does: return nil, return an error, or panic
      with some value. */
  datatype Outcome = Ok | Err(error: Error) | Panic(value: string)

  /** The value task `i` returns to the group after running a callback with
      outcome `o`. A returned error is wrapped with the callback's index. A
      panic is recovered and logged by the task's deferred handler, after
      which the task returns nil. */
  function TaskResult(i: nat, o: Outcome): (r: Option<Error>)
    ensures r.None? <==> !o.Err?
    ensures o.Err? ==> r.Some? && r.value.CallbackFailed? && r.value.index == i && Is(r.value, o.error)
    ensures r.Some? ==> Message(r.value) == WrappedText(i, Message(o.error))
  {
    match o
    case Ok => None
    case Err(e) => Some(CallbackFailed(i, e))
    case Panic(_) => None
  }

  /** What each task returns, indexed by the callback's registration position. */
  function TaskResults(callbacks: seq<Callback>, run: Callback -> Outcome): (rs: seq<Option<Error>>)
    ensures |rs| == |callbacks|
  {
    seq(|callbacks|, i requires 0 <= i < |callbacks| => TaskResult(i, run(callbacks[i])))
  }

  /** The loop of `executeCallbacks`: starts one task per callback of the
      snapshot, in registration order, and collects what each task returns.
      `started` records the callbacks as their tasks are started. */
  method LaunchTasks(callbacks: seq<Callback>, run: Callback -> Outcome) returns (results: seq<Option<Error>>, ghost started: seq<Callback>)
    ensures started == callbacks
    ensures |results| == |callbacks|
    ensures forall i :: 0 <= i < |callbacks| ==>
              (results[i].None? <==> !run(callbacks[i]).Err?) &&
              (run(callbacks[i]).Err? ==> results[i] == Some(CallbackFailed(i, run(callbacks[i]).error)))
    ensures results == TaskResults(callbacks, run)
  {
    results, started := [], [];
    var i := 0;
    while i < |callbacks|
      invariant 0 <= i <= |callbacks|
      invariant started == callbacks[..i]
      invariant |results| == i
      invariant forall k :: 0 <= k < i ==> results[k] == TaskResult(k, run(callbacks[k]))
    {
      var outcome := run(callbacks[i]);
      started := started + [callbacks[i]];
      results := results + [TaskResult(i, outcome)];
      i := i + 1;
    }
  }

  /** Task `i` returns no later than task `j`. */
  predicate ReturnsNoLater(i: nat, j: nat, finish: nat -> nat)
  {
    finish(i) < finish(j) || (finish(i) == finish(j) && i <= j)
  }

  /** The index of the failing task that returns first: the one whose error
      the group's `errOnce` records. */
  function FirstFailure(results: seq<Option<Error>>, finish: nat -> nat): (r: Option<nat>)
    ensures r.None? <==> forall i :: 0 <= i < |results| ==> results[i].None?
    ensures r.Some? ==> r.value < |results| && results[r.value].Some?
    ensures r.Some? ==> forall j :: 0 <= j < |results| && results[j].Some? ==> ReturnsNoLater(r.value, j, finish)
  {
    if results == [] then None
    else
      var n := |results| - 1;
      var earlier := FirstFailure(results[..n], finish);
      if results[n].None? then earlier
      else if earlier.Some? && ReturnsNoLater(earlier.value, n, finish) then earlier
      else Some(n)
  }

  /** `errgroup.Wait`: once every task has returned, the error of the first
      failing task, or nil when none failed. */
  function Wait(results: seq<Option<Error>>, finish: nat -> nat): (r: Option<Error>)
    ensures r.None? <==> forall i :: 0 <= i < |results| ==> results[i].None?
    ensures r.Some? ==> exists i :: 0 <= i < |results| && results[i] == r
  {
    match FirstFailure(results, finish)
    case None => None
    case Some(i) => results[i]
  }

  /** The error `executeCallbacks` returns for a claimed list: nil for an
      empty list; otherwise nil exactly when no callback returned an error
      (panics count as success), and else the wrapped error of one callback
      that did, tagged with that callback's registration index. */
  function CallbackPhase(callbacks: seq<Callback>, run: Callback -> Outcome, finish: nat -> nat): (r: Option<Error>)
    ensures r.None? <==> forall i :: 0 <= i < |callbacks| ==> !run(callbacks[i]).Err?
    ensures r.Some? ==> exists i :: 0 <= i < |callbacks| && run(callbacks[i]).Err? &&
                                    r.value == CallbackFailed(i, run(callbacks[i]).error)
  {
    if callbacks == [] then None
    else
      var results := TaskResults(callbacks, run);
      assert forall i :: 0 <= i < |results| ==> (results[i].None? <==> !run(callbacks[i]).Err?);
      Wait(results, finish)
  }

  /** The error reported is that of the failing callback whose task returns
      before every other failing task. */
  lemma FirstToReturnIsReported(callbacks: seq<Callback>, run: Callback -> Outcome, finish: nat -> nat, i: nat)
    requires i < |callbacks| && run(callbacks[i]).Err?
    requires forall j :: 0 <= j < |callbacks| && j != i && run(callbacks[j]).Err? ==> ReturnsNoLater(i, j, finish)
    ensures CallbackPhase(callbacks, run, finish) == Some(CallbackFailed(i, run(callbacks[i]).error))
  {
    var results := TaskResults(callbacks, run);
    var first := FirstFailure(results, finish);
    assert results[i].Some?;
    assert first.Some? && ReturnsNoLater(first.value, i, finish);
  }

  /** When tasks return in registration order, the reported error is that of
      the lowest-indexed failing callback. */
  lemma InOrderReportsLowestIndex(callbacks: seq<Callback>, run: Callback -> Outcome, i: nat)
    requires i < |callbacks| && run(callbacks[i]).Err?
    requires forall k :: 0 <= k < i ==> !run(callbacks[k]).Err?
    ensures CallbackPhase(callbacks, run, k => k) == Some(CallbackFailed(i, run(callbacks[i]).error))
  {
    FirstToReturnIsReported(callbacks, run, k => k, i);
  }
}
