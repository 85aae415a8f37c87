# txmanager: post-commit callbacks, modelled in Dafny

`txmanager` lets code running inside a database transaction register
callbacks (`StoreCommitCallback`) that should run only once the transaction
has committed. `CommitAndExecuteCallbacks` asks the database's `Committer` to
commit or roll back. When that reported no error and the operation itself
reported none, it claims the transaction's callbacks and runs each one on its
own goroutine in an `errgroup`. It returns `errors.Join` of the operation
error and the commit error or callback error.

The model follows the code of `txmanager/txmanager.go`:

- The registry is a `TxManager` class whose `callbacks` field maps a
  transaction key to a `CallbackList` object (`txCallbacks`).
  - `StoreCommitCallback` and `ExecuteCallbacks` change that map.
  - `Append` changes a list in place.
  - `Registry()` is the abstract view, a map from key to callbacks in
    registration order.
  - The pure functions `Registry.Stored` and `Registry.Claimed` say what
    storing and claiming do to that view.
- `txKey` is `TxKeys.TxKey`. It yields `nil-tx` for a nil handle; otherwise
  `0x` and the handle's address in lower-case hex, as `%p` prints it.
  Distinct handles are proved to get distinct keys.
- Running a callback is an oracle `run: Callback -> Outcome` (`Ok`,
  `Err(e)` or `Panic(v)`).
  - A task turns `Err(e)` into `callback #i error: e`.
  - A panic is recovered and yields nil.
  - `errgroup.Wait` keeps only the error of the first failing task to
    return. The order in which tasks return is the parameter `finish`.
- The `Committer` is a class with an oracle `respond` and a ghost record
  `calls` of every call made to it. This is how "called exactly once, with
  these arguments" is stated.
- Errors are a datatype: `Failure(message)`, `CallbackFailed(i, cause)` for
  `%w` wrapping, and `Joined(errs)` for `errors.Join`. `Is` models
  `errors.Is`, and `Message` models `Error()`.
  - `Is` compares errors by value, so a `Failure` is known only by its
    text. Go's `errors.Is` compares two `errors.New` values by identity;
    here two failures with the same text are the same error. Every
    contract uses `Is` to find the very value that was wrapped or joined,
    where the two notions agree.

Three behaviours of the code matter to callers, and the model keeps them:

- When callbacks are skipped, because of a commit error or an operation
  error, the transaction's entry stays in the registry.
  `Scenarios.SkippedCallbacksRunOnLaterCommit` shows what follows: a later
  successful commit under the same key runs those callbacks.
- A panicking callback contributes no error.
- Of several failing callbacks, only one error is reported.

The recovered panic value is passed to the `Committer` but takes no part in
the decision to run callbacks.

## Model

| member | source | states |
|---|---|---|
| `GoErrors.Somes` | txmanager/txmanager.go:60 | the values kept of a sequence of nil-able values are exactly its non-nil ones: what `errors.Join` keeps of its arguments, and what a run of registrations files (nil callbacks never reach a list) |
| `GoErrors.WrappedText` | txmanager/txmanager.go:91 | the text of a wrapped callback error starts with `callback #` and ends with the cause's text |
| `GoErrors.Join` | txmanager/txmanager.go:60 | `errors.Join` is nil iff every argument is nil; otherwise it wraps exactly the non-nil arguments, each of which `errors.Is` finds in it |
| `GoErrors.WrappedTextInjective` | txmanager/txmanager.go:91 | the text `callback #%d error: %w` determines both the index and the cause's text |
| `Fmt.Digits` | txmanager/txmanager.go:109 | a printed number is a non-empty run of digits of its base, with a leading `0` only for zero |
| `Fmt.ValueOfDigits` | txmanager/txmanager.go:109 | reading back the printed digits gives the number printed |
| `Fmt.DigitsInjective` | txmanager/txmanager.go:109 | distinct numbers print differently |
| `Fmt.LeadingDigitsBeforeSeparator` | txmanager/txmanager.go:91 | the digit run before a non-digit is exactly the printed number |
| `Fmt.DigitsThenSeparator` | txmanager/txmanager.go:91 | a number printed before a non-digit can be read off unambiguously |
| `TxKeys.TxKey` | txmanager/txmanager.go:104-110 | a nil handle maps to the sentinel `nil-tx` and only a nil handle does; other handles map to `0x` followed by lower-case hex digits |
| `TxKeys.TxKeyInjective` | txmanager/txmanager.go:104-110 | distinct handles never share a key |
| `Engine.TaskResult` | txmanager/txmanager.go:80-97 | a task returns nil iff its callback did not return an error (a recovered panic gives nil); otherwise it returns an error wrapping the callback's error, tagged with the callback's index, found in it by `errors.Is` and printed as `callback #i error: <cause>` |
| `Engine.LaunchTasks` | txmanager/txmanager.go:77-99 | every callback of the snapshot is started once, in order; each task returns nil iff its callback did not return an error (panics included), and otherwise `callback #i error: e` with the callback's registration index |
| `Engine.FirstFailure` | txmanager/txmanager.go:101 | there is no first failing task iff no task failed; otherwise it is a failing task that returns no later than any other failing task |
| `Engine.Wait` | txmanager/txmanager.go:101 | `errgroup.Wait` is nil iff every task returned nil, and otherwise is the result of one of the tasks |
| `Engine.CallbackPhase` | txmanager/txmanager.go:63-101 | the callback phase is nil iff no callback returned an error (panics yield nil); otherwise it is the wrapped error `callback #i error: e` of one callback `i` that returned `e` |
| `Engine.FirstToReturnIsReported` | txmanager/txmanager.go:80-101 | the error reported is that of the failing callback whose task returns first |
| `Engine.InOrderReportsLowestIndex` | txmanager/txmanager.go:77-101 | if tasks return in registration order, the lowest-indexed failing callback is reported |
| `Registry.Stored` | txmanager/txmanager.go:43-52 | a nil callback leaves the registry unchanged; otherwise the callback is appended at the end of its key's list, which is created if absent, and every other key keeps its list |
| `Registry.Claimed` | txmanager/txmanager.go:64-71 | a claim yields the key's list (empty if absent) and removes only that key |
| `Registry.ClaimIsConsumeOnce` | txmanager/txmanager.go:64-74 | a second claim of the same key yields nothing and changes nothing |
| `Registry.HandlesAreIsolated` | txmanager/txmanager.go:48-51 | storing under one transaction leaves every other transaction's list unchanged |
| `Registry.StoredAllKeepsEveryCallback` | txmanager/txmanager.go:20-24 | after any run of registrations on a key, its list is the old list followed by every non-nil callback in order, and other keys are untouched |
| `Registry.StoreThenClaim` | txmanager/txmanager.go:43-74 | registering on a fresh key and then claiming it yields exactly the non-nil callbacks registered, in order, and leaves the key absent |
| `TxManagerModel.CallbackList.constructor` | txmanager/txmanager.go:49 | a new `txCallbacks` holds no callbacks |
| `TxManagerModel.CallbackList.Append` | txmanager/txmanager.go:20-24 | `append` adds the callback after all earlier ones |
| `TxManagerModel.CallbackList.Snapshot` | txmanager/txmanager.go:26-33 | `snapshot` returns a copy with the list's length and order, and changes nothing |
| `TxManagerModel.Committer.CommitRollback` | txmanager/manager.go:9-11 | each call is recorded once with its arguments and reports the database's answer |
| `TxManagerModel.RunsCallbacks` | txmanager/txmanager.go:56 | callbacks run exactly when `errors.Join` of the operation error and the commit error is nil; the recovered panic value is not an input |
| `TxManagerModel.CommitResult` | txmanager/txmanager.go:55-60 | the result is nil iff the operation error, the commit error and the callback error are all nil; a non-nil operation or commit error is always found in it by `errors.Is`, and so is the callback error when callbacks ran |
| `TxManagerModel.TxManager.constructor` | txmanager/txmanager.go:39-41 | `New` gives an empty registry |
| `TxManagerModel.TxManager.StoreCommitCallback` | txmanager/txmanager.go:43-52 | the registry becomes `Stored(old registry, TxKey(tx), callback)`; no callback is launched; a list it creates is new and owned by this manager alone |
| `TxManagerModel.TxManager.ExecuteCallbacks` | txmanager/txmanager.go:63-102 | the key is removed, exactly its claimed list is launched once in order, and the result is `CallbackPhase` of that list |
| `TxManagerModel.TxManager.CommitAndExecuteCallbacks` | txmanager/txmanager.go:54-61 | `CommitRollback` is called exactly once; callbacks are claimed and launched iff it reported nil and there is no operation error, and otherwise the registry, this key included, is unchanged; the result is `CommitResult` |
| `Scenarios.CommitRunsCallback` | txmanager/txmanager_test.go:24-48 | a callback on a nil transaction runs once after a successful commit, and the call returns nil |
| `Scenarios.PanickingCallbackIsSilent` | txmanager/txmanager_test.go:50-68 | a panicking callback is launched and the call still returns nil |
| `Scenarios.OperationErrorSkipsCallbacks` | txmanager/txmanager_test.go:70-101 | with an operation error no callback runs, the result contains the operation error, and the entry stays |
| `Scenarios.CommitErrorSkipsCallbacks` | txmanager/txmanager.go:55-57 | with a commit error neither of two callbacks runs, the result contains the commit error, and both stay registered |
| `Scenarios.SecondCommitRunsNothing` | txmanager/txmanager.go:63-74 | a second successful commit of the same transaction runs nothing and returns nil; a nil callback is not stored |
| `Scenarios.FirstOfTwoFailuresReported` | txmanager/txmanager.go:90-101 | of two failing callbacks, only the one whose task returns first is reported |
| `Scenarios.OnlyFirstCallbackErrorReported` | txmanager/txmanager.go:90-101 | the manager's call reports that single error, wrapped with its index and joined once |
| `Scenarios.SkippedCallbacksRunOnLaterCommit` | txmanager/txmanager.go:55-60 | callbacks skipped because of an operation error run at a later successful commit under the same key |
| `Scenarios.RecoveredPanicStillRunsCallbacks` | txmanager/txmanager.go:54-61 | a recovered panic value alone does not skip the callbacks: when the commit/rollback reports nil, the callback runs and the call returns nil |
| `Scenarios.ManagersAreIndependent` | txmanager/txmanager.go:35-52 | storing into one manager leaves another manager's registry, with the callbacks already stored in it, as it was |

## Left out

- Concurrency is not modelled: goroutines, `errgroup`, the `sync.Mutex` of
  `txCallbacks` and the atomicity of `sync.Map`. Every registry operation is
  one atomic step. Callbacks are run one after another; the only trace of
  concurrency is the `finish` parameter, which decides which failing task
  returns first.
- The mechanics of `recover`, `debug.Stack()` and the `log.Printf` output
  (including the `callback #%d panic` text) are not modelled. A panic is an
  outcome that yields nil.
- `context.Context` is not modelled. It is handed to `CommitRollback` and
  `errgroup.WithContext`, and the callbacks never see it.
- `pgx.Tx` and the database's `Committer` implementation are not
  modelled. A handle is its address; the committer is an oracle.
- Callbacks' own side effects are not modelled; a callback is known by its
  identity and by the outcome of running it.
- `txmanager/manager.go` only declares the `Manager` and `Committer`
  interfaces and has no logic.
- `TxKeys.TxKey`: the `%p` key is modelled for a 64-bit address. Whether two
  live transactions can share an address is up to Go's allocator and is not
  modelled.
- `TxManagerModel.TxManager.CommitAndExecuteCallbacks` takes the callbacks'
  behaviour (`run`) and the tasks' return order (`finish`) as parameters.
  They stand for what the Go runtime decides.
