/** Client scenarios: the situations exercised by the repository's tests and
    the two ends of the commit decision, driven through the manager's
    methods and proved from their contracts alone. */
module Scenarios {
  import opened GoErrors
  import opened TxKeys
  import opened Engine
  import opened Registry
  import opened TxManagerModel

  /** A database whose commit/rollback always reports `commitErr`. */
  function AlwaysReports(commitErr: Option<Error>): (Tx, Option<PanicValue>, Option<Error>) -> Option<Error>
  {
    (tx: Tx, recovered: Option<PanicValue>, operationErr: Option<Error>) => commitErr
  }

  /** A callback registered on a nil transaction runs once after a successful
      commit, and the call reports no error. */
  method CommitRunsCallback() returns (err: Option<Error>, ghost started: seq<Callback>)
    ensures err.None?
    ensures started == [Callback(0)]
  {
    var m := new TxManager();
    var db := new Committer(AlwaysReports(None));
    m.StoreCommitCallback(NilTx, Some(Callback(0)));
    err := m.CommitAndExecuteCallbacks(db, NilTx, None, None, fn => Ok, i => i);
    started := m.launched;
  }

  /** A callback that panics is still started, and its panic is not reported:
      the call returns nil. */
  method PanickingCallbackIsSilent() returns (err: Option<Error>, ghost started: seq<Callback>)
    ensures err.None?
    ensures started == [Callback(0)]
  {
    var m := new TxManager();
    var db := new Committer(AlwaysReports(None));
    m.StoreCommitCallback(NilTx, Some(Callback(0)));
    err := m.CommitAndExecuteCallbacks(db, NilTx, None, None, fn => Panic("simulated panic in callback"), i => i);
    started := m.launched;
  }

  /** With an operation error no callback is started, the operation error is
      part of the result, and the transaction's entry stays in the registry. */
  method OperationErrorSkipsCallbacks() returns (err: Option<Error>, ghost started: seq<Callback>, ghost left: Callbacks)
    ensures err.Some? && Is(err.value, Failure("simulated operation error"))
    ensures started == []
    ensures left == map[NilKey := [Callback(0)]]
  {
    var m := new TxManager();
    var db := new Committer(AlwaysReports(None));
    assert m.Registry() == map[];
    m.StoreCommitCallback(NilTx, Some(Callback(0)));
    assert [] + [Callback(0)] == [Callback(0)];
    assert m.Registry() == map[NilKey := [Callback(0)]];
    err := m.CommitAndExecuteCallbacks(db, NilTx, None, Some(Failure("simulated operation error")), fn => Ok, i => i);
    started := m.launched;
    left := m.Registry();
  }

  /** When the commit itself fails, neither of two callbacks is started, the
      commit error is part of the result, and both stay registered. */
  method CommitErrorSkipsCallbacks(tx: Tx) returns (err: Option<Error>, ghost started: seq<Callback>, ghost left: Callbacks)
    ensures err.Some? && Is(err.value, Failure("commit failed"))
    ensures started == []
    ensures left == map[TxKey(tx) := [Callback(1), Callback(2)]]
  {
    var m := new TxManager();
    var db := new Committer(AlwaysReports(Some(Failure("commit failed"))));
    var run := (fn: Callback) => Ok;
    var finish := (i: nat) => i;
    var key := TxKey(tx);
    assert m.Registry() == map[];
    m.StoreCommitCallback(tx, Some(Callback(1)));
    assert [] + [Callback(1)] == [Callback(1)];
    assert m.Registry() == map[key := [Callback(1)]];
    m.StoreCommitCallback(tx, Some(Callback(2)));
    assert [Callback(1)] + [Callback(2)] == [Callback(1), Callback(2)];
    assert m.Registry() == map[key := [Callback(1), Callback(2)]];
    assert !RunsCallbacks(db.respond(tx, None, None), None);
    err := m.CommitAndExecuteCallbacks(db, tx, None, None, run, finish);
    started := m.launched;
    left := m.Registry();
  }

  /** Callbacks run at most once: a second successful commit of the same
      transaction finds nothing to run; a nil callback is never stored. */
  method SecondCommitRunsNothing(tx: Tx) returns (first: Option<Error>, second: Option<Error>, ghost started: seq<Callback>)
    ensures first.None? && second.None?
    ensures started == [Callback(1)]
  {
    var m := new TxManager();
    var db := new Committer(AlwaysReports(None));
    var run := (fn: Callback) => Ok;
    var finish := (i: nat) => i;
    var key := TxKey(tx);
    assert m.Registry() == map[];
    m.StoreCommitCallback(tx, None);
    m.StoreCommitCallback(tx, Some(Callback(1)));
    assert [] + [Callback(1)] == [Callback(1)];
    assert m.Registry() == map[key := [Callback(1)]];
    assert RunsCallbacks(db.respond(tx, None, None), None);
    assert Claimed(m.Registry(), key) == (map[], [Callback(1)]);
    first := m.CommitAndExecuteCallbacks(db, tx, None, None, run, finish);
    assert m.Registry() == map[] && m.launched == [Callback(1)];
    assert Claimed(m.Registry(), key) == (map[], []);
    second := m.CommitAndExecuteCallbacks(db, tx, None, None, run, finish);
    started := m.launched;
  }

  /** When both of two callbacks return errors and the second one's task
      returns first, the call reports only the second one's error, wrapped
      with its index and joined once more by the coordinator. */
  lemma FirstOfTwoFailuresReported(run: Callback -> Outcome, finish: nat -> nat)
    requires run(Callback(0)) == Err(Failure("first")) && run(Callback(1)) == Err(Failure("second"))
    requires finish(1) < finish(0)
    ensures CommitResult(None, None, CallbackPhase([Callback(0), Callback(1)], run, finish))
            == Some(Joined([CallbackFailed(1, Failure("second"))]))
  {
    FirstToReturnIsReported([Callback(0), Callback(1)], run, finish, 1);
    var reported := CallbackFailed(1, Failure("second"));
    assert [Some(reported)][1..] == [] && [None, Some(reported)][1..] == [Some(reported)];
    assert Somes([None, Some(reported)]) == [reported];
  }

  /** Of two callbacks that both return errors, only the one whose task
      returns first is reported (here the later-registered one). */
  method OnlyFirstCallbackErrorReported() returns (err: Option<Error>)
    ensures err == Some(Joined([CallbackFailed(1, Failure("second"))]))
  {
    var m := new TxManager();
    var db := new Committer(AlwaysReports(None));
    var run := (fn: Callback) => if fn.id == 0 then Err(Failure("first")) else Err(Failure("second"));
    var finish := (i: nat) => if i == 0 then 1 else 0;
    assert m.Registry() == map[];
    m.StoreCommitCallback(NilTx, Some(Callback(0)));
    assert [] + [Callback(0)] == [Callback(0)];
    assert m.Registry() == map[NilKey := [Callback(0)]];
    m.StoreCommitCallback(NilTx, Some(Callback(1)));
    assert [Callback(0)] + [Callback(1)] == [Callback(0), Callback(1)];
    assert m.Registry() == map[NilKey := [Callback(0), Callback(1)]];
    assert RunsCallbacks(db.respond(NilTx, None, None), None);
    FirstOfTwoFailuresReported(run, finish);
    err := m.CommitAndExecuteCallbacks(db, NilTx, None, None, run, finish);
  }

  /** Callbacks skipped because of an operation error are not discarded: a
      later successful commit under the same key (the same handle, or a new
      transaction that reuses its address) runs them. */
  method SkippedCallbacksRunOnLaterCommit(tx: Tx) returns (failed: Option<Error>, later: Option<Error>, ghost started: seq<Callback>)
    ensures failed.Some? && later.None?
    ensures started == [Callback(7)]
  {
    var m := new TxManager();
    var db := new Committer(AlwaysReports(None));
    var run := (fn: Callback) => Ok;
    var finish := (i: nat) => i;
    var key := TxKey(tx);
    assert m.Registry() == map[];
    m.StoreCommitCallback(tx, Some(Callback(7)));
    assert [] + [Callback(7)] == [Callback(7)];
    assert m.Registry() == map[key := [Callback(7)]];
    failed := m.CommitAndExecuteCallbacks(db, tx, None, Some(Failure("operation failed")), run, finish);
    assert m.Registry() == map[key := [Callback(7)]] && m.launched == [];
    assert RunsCallbacks(db.respond(tx, None, None), None);
    assert Claimed(m.Registry(), key) == (map[], [Callback(7)]);
    later := m.CommitAndExecuteCallbacks(db, tx, None, None, run, finish);
    started := m.launched;
  }

  /** A panic recovered from the operation is handed to the database but does
      not by itself stop the callbacks: when the commit/rollback reports nil,
      the callback runs and the call returns nil. */
  method RecoveredPanicStillRunsCallbacks(tx: Tx) returns (err: Option<Error>, ghost started: seq<Callback>)
    ensures err.None?
    ensures started == [Callback(3)]
  {
    var m := new TxManager();
    var db := new Committer(AlwaysReports(None));
    var key := TxKey(tx);
    assert m.Registry() == map[];
    m.StoreCommitCallback(tx, Some(Callback(3)));
    assert [] + [Callback(3)] == [Callback(3)];
    assert m.Registry() == map[key := [Callback(3)]];
    assert RunsCallbacks(db.respond(tx, Some("recovered"), None), None);
    err := m.CommitAndExecuteCallbacks(db, tx, Some("recovered"), None, fn => Ok, i => i);
    started := m.launched;
  }

  /** Two managers share nothing: storing into one leaves the other's
      registry, callbacks included, as it was. */
  method ManagersAreIndependent(tx: Tx, ty: Tx) returns (ghost first: Callbacks, ghost second: Callbacks)
    ensures first == map[TxKey(tx) := [Callback(4)]]
    ensures second == map[TxKey(ty) := [Callback(5)]]
  {
    var m := new TxManager();
    var other := new TxManager();
    assert other.Registry() == map[];
    other.StoreCommitCallback(ty, Some(Callback(5)));
    assert [] + [Callback(5)] == [Callback(5)];
    assert other.Registry() == map[TxKey(ty) := [Callback(5)]];
    assert m.Registry() == map[];
    m.StoreCommitCallback(tx, Some(Callback(4)));
    assert [] + [Callback(4)] == [Callback(4)];
    first := m.Registry();
    second := other.Registry();
  }
}
