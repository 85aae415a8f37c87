/** The transaction manager: a registry of post-commit callbacks keyed by
    transaction, and `CommitAndExecuteCallbacks`, which resolves the
    transaction through the database and, only when that succeeded and the
    operation itself reported no error, claims and runs the transaction's
    callbacks.

    Every method here is one atomic step. The mutex of `txCallbacks` and the
    atomic operations of `sync.Map` make each registry step indivisible in the
    source; the interleavings they allow are not modelled. */
module TxManagerModel {
  import opened GoErrors
  import opened TxKeys
  import opened Engine
  import opened Registry

  /** A recovered panic value handed in by the caller (`any`, nil when there
      was no panic), known by its printed form. */
  type PanicValue = string

  /** `txCallbacks`: the pending callbacks of one transaction. */
  class CallbackList {
    var callbacks: seq<Callback>

    constructor ()
      ensures callbacks == []
    {
      callbacks := [];
    }

    /** `append`: adds `fn` after every callback already registered. */
    method Append(fn: Callback)
      modifies this
      ensures callbacks == old(callbacks) + [fn]
    {
      callbacks := callbacks + [fn];
    }

    /** `snapshot`: a private copy of the list, same length and order; the
        list itself is left as it is. */
    method Snapshot() returns (out: seq<Callback>)
      ensures |out| == |callbacks|
      ensures forall i :: 0 <= i < |out| ==> out[i] == callbacks[i]
    {
      out := callbacks;
    }
  }

  /** One call of `CommitRollback`, with the arguments it was given. */
  datatype Resolution = Resolution(tx: Tx, recovered: Option<PanicValue>, operationErr: Option<Error>)

  /** The database's `Committer`, which the manager does not implement: given
      the transaction, the recovered panic and the operation's error, it
      commits or rolls back and reports an error or nil. `respond` stands for
      whatever it decides; `calls` records every call made to it. */
  class Committer {
    const respond: (Tx, Option<PanicValue>, Option<Error>) -> Option<Error>
    ghost var calls: seq<Resolution>

    constructor (respond: (Tx, Option<PanicValue>, Option<Error>) -> Option<Error>)
      ensures this.respond == respond && calls == []
    {
      this.respond := respond;
      calls := [];
    }

    method CommitRollback(tx: Tx, recovered: Option<PanicValue>, operationErr: Option<Error>) returns (err: Option<Error>)
      modifies this
      ensures calls == old(calls) + [Resolution(tx, recovered, operationErr)]
      ensures err == respond(tx, recovered, operationErr)
    {
      calls := calls + [Resolution(tx, recovered, operationErr)];
      err := respond(tx, recovered, operationErr);
    }
  }

  /** Whether `CommitAndExecuteCallbacks` goes on to the callbacks: only when
      the commit/rollback reported nil and the operation reported no error.
      The recovered panic value plays no part in the decision. */
  predicate RunsCallbacks(commitErr: Option<Error>, operationErr: Option<Error>): (b: bool)
    ensures b <==> Join([operationErr, commitErr]).None?
  {
    commitErr.None? && operationErr.None?
  }

  /** The error `CommitAndExecuteCallbacks` returns, `errors.Join` of the
      operation's error and of the commit error or, when callbacks ran, the
      error of the callback phase. It is nil exactly when all three are nil,
      and every one of them that is not nil (and was reached) can be found in
      it with `errors.Is`. */
  function CommitResult(operationErr: Option<Error>, commitErr: Option<Error>, phaseErr: Option<Error>): (r: Option<Error>)
    ensures r.None? <==> operationErr.None? && commitErr.None? && phaseErr.None?
    ensures operationErr.Some? ==> r.Some? && Is(r.value, operationErr.value)
    ensures commitErr.Some? ==> r.Some? && Is(r.value, commitErr.value)
    ensures RunsCallbacks(commitErr, operationErr) && phaseErr.Some? ==> r.Some? && Is(r.value, phaseErr.value)
  {
    var err := if RunsCallbacks(commitErr, operationErr) then phaseErr else commitErr;
    var joined := [operationErr, err];
    assert joined[0] == operationErr && joined[1] == err;
    Join(joined)
  }

  /** `TxManager`: the registry, filed by `TxKey`. `launched` is a record of
      every callback the manager has started, in the order started. `Repr`
      holds every list object the manager has created; no other manager's
      lists are among them. */
  class TxManager {
    var callbacks: map<string, CallbackList>
    ghost var launched: seq<Callback>
    ghost var Repr: set<CallbackList>

    /** The manager owns its lists, and each key has a list object of its own. */
    ghost predicate Valid()
      reads this
    {
      && callbacks.Values <= Repr
      && forall k, k' :: k in callbacks && k' in callbacks && k != k' ==> callbacks[k] != callbacks[k']
    }

    /** The registry's contents: each key's pending callbacks. */
    ghost function Registry(): Callbacks
      reads this, callbacks.Values
    {
      map k | k in callbacks :: callbacks[k].callbacks
    }

    /** `New`: an empty registry. */
    constructor ()
      ensures Valid() && callbacks == map[] && Registry() == map[] && launched == [] && Repr == {}
    {
      callbacks := map[];
      launched := [];
      Repr := {};
    }

    /** `StoreCommitCallback`: files `callback` under the transaction's key,
        creating the key's list if it has none; a nil callback is ignored. */
    method StoreCommitCallback(tx: Tx, callback: Option<Callback>)
      requires Valid()
      modifies this, Repr
      ensures Valid()
      ensures fresh(Repr - old(Repr))
      ensures Registry() == Stored(old(Registry()), TxKey(tx), callback)
      ensures launched == old(launched)
    {
      if callback.None? {
        return;
      }
      var key := TxKey(tx);
      var list: CallbackList;
      if key in callbacks {
        list := callbacks[key];
      } else {
        list := new CallbackList();
        callbacks := callbacks[key := list];
        Repr := Repr + {list};
      }
      list.Append(callback.value);
    }

    /** `executeCallbacks`: claims the transaction's list, removing its key
        from the registry, and runs a copy of it; nothing runs when the key
        was absent or its list empty. Returns the callback phase's error. */
    method ExecuteCallbacks(tx: Tx, run: Callback -> Outcome, finish: nat -> nat) returns (err: Option<Error>)
      requires Valid()
      modifies this
      ensures Valid()
      ensures Repr == old(Repr)
      ensures Registry() == Claimed(old(Registry()), TxKey(tx)).0
      ensures launched == old(launched) + Claimed(old(Registry()), TxKey(tx)).1
      ensures err == CallbackPhase(Claimed(old(Registry()), TxKey(tx)).1, run, finish)
    {
      ghost var before := Registry();
      var key := TxKey(tx);
      if key !in callbacks {
        assert before - {key} == before;
        return None;
      }
      var list := callbacks[key];
      callbacks := callbacks - {key};
      assert Registry() == before - {key};
      var snapshot := list.Snapshot();
      assert snapshot == Pending(before, key);
      if |snapshot| == 0 {
        return None;
      }
      var results, started := LaunchTasks(snapshot, run);
      launched := launched + started;
      err := Wait(results, finish);
    }

    /** `CommitAndExecuteCallbacks`: calls `CommitRollback` exactly once;
        claims and runs the transaction's callbacks only when it reported nil
        and there is no operation error, and otherwise leaves the registry,
        this transaction's entry included, as it was; returns the joined
        error. */
    method CommitAndExecuteCallbacks(db: Committer, tx: Tx, recoverResult: Option<PanicValue>,
                                     operationErr: Option<Error>, run: Callback -> Outcome,
                                     finish: nat -> nat) returns (err: Option<Error>)
      requires Valid()
      modifies this, db
      ensures Valid()
      ensures Repr == old(Repr)
      ensures db.calls == old(db.calls) + [Resolution(tx, recoverResult, operationErr)]
      ensures var commitErr := db.respond(tx, recoverResult, operationErr);
              var (rest, claimed) := Claimed(old(Registry()), TxKey(tx));
              if RunsCallbacks(commitErr, operationErr) then
                && Registry() == rest
                && launched == old(launched) + claimed
                && err == CommitResult(operationErr, commitErr, CallbackPhase(claimed, run, finish))
              else
                && Registry() == old(Registry())
                && launched == old(launched)
                && err == CommitResult(operationErr, commitErr, None)
    {
      var commitErr := db.CommitRollback(tx, recoverResult, operationErr);
      var phaseErr := None;
      if commitErr.None? && operationErr.None? {
        phaseErr := ExecuteCallbacks(tx, run, finish);
      }
      err := CommitResult(operationErr, commitErr, phaseErr);
    }
  }
}
