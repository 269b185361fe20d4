# R2DBC transaction manager: a Dafny model

This project models the reactive transaction manager of Spring's R2DBC support
(`R2dbcTransactionManager`) for one connection factory. The manager keeps one transaction per
execution context. It does four things:

- it finds the connection holder bound to the context, or acquires a new connection and binds a
  new holder for it;
- before `beginTransaction` it switches the connection to the requested isolation level and out of
  auto-commit, and it records what it changed;
- it commits, rolls back, or marks the holder rollback-only;
- in cleanup it restores the session settings, releases a connection it acquired itself, and
  clears the holder.

It also suspends and resumes a transaction by unbinding the holder and binding it back.

Modules:

- `Wrappers`: `Option`, `Result` and `Outcome`.
- `TransactionDefinitions`: the transaction definition, its isolation codes and timeout sentinel,
  and the conversion of codes to driver isolation levels.
- `Driver`: the driver calls, the session state they change, and what happens when a chain of
  calls assembled with `then` is subscribed. Calls run in order. A step that ignores its errors
  (the `onErrorComplete` of a cleanup step) goes on after a failure; any other failure stops the
  chain and is signalled. `Connection` is a class with the session state and a log of every call
  issued on it. Which calls fail is a parameter: a map from call to error kind.
- `Resources`: the `ConnectionHolder` and the per-context `TransactionSynchronizationManager`, as
  far as the manager uses them.
- `Preparation`: the call chains the manager assembles (preparation, begin, read-only statement,
  cleanup), and the proofs about them. Those proofs cover the order of the calls, that cleanup
  never fails, and that cleanup gives back the session settings preparation changed.
- `R2dbcTransactions`: the transaction object and the manager, as classes whose methods update
  the holder, the transaction object, the bindings and the connection.

## Model

| member | source | states |
|---|---|---|
| TransactionDefinitions.ResolveIsolationLevel | spring-r2dbc/src/main/java/org/springframework/r2dbc/connection/R2dbcTransactionManager.java:437-449 | a code resolves iff it is one of the four standard codes, to the level whose code it is; ISOLATION_DEFAULT resolves to nothing |
| TransactionDefinitions.ResolveIsolationCode | spring-r2dbc/src/main/java/org/springframework/r2dbc/connection/R2dbcTransactionManager.java:437-449 | resolving the code of a level gives that level back |
| TransactionDefinitions.DetermineTimeout | spring-r2dbc/src/main/java/org/springframework/r2dbc/connection/R2dbcTransactionManager.java:237-242 | the timeout is positive iff the definition's timeout is, and then equals it; the TIMEOUT_DEFAULT sentinel yields zero |
| Driver.Connection.Execute | spring-r2dbc/src/main/java/org/springframework/r2dbc/connection/R2dbcTransactionManager.java:201-203 | subscribing to a chain on a connection leaves the session, logs the calls and signals the failure that `Subscribe` gives for the old session |
| Driver.Connection.ExecuteSafely | spring-r2dbc/src/main/java/org/springframework/r2dbc/connection/R2dbcTransactionManager.java:352-361 | a chain of error-ignoring steps issues every call and leaves the session of replaying them all |
| Driver.Subscribe | spring-r2dbc/src/main/java/org/springframework/r2dbc/connection/R2dbcTransactionManager.java:201-203 | the meaning of a chain built with `then`, with `onErrorComplete` steps (lines 348-359): calls are issued in order, a swallowed failure goes on, the first other failure stops the chain and is signalled; the lemmas below state this |
| Driver.SubscribeIssuesUpToFirstAbort | spring-r2dbc/src/main/java/org/springframework/r2dbc/connection/R2dbcTransactionManager.java:201-203 | a chain issues exactly its calls up to and including the first one that fails without being ignored |
| Driver.SubscribeReplaysUpToFirstAbort | spring-r2dbc/src/main/java/org/springframework/r2dbc/connection/R2dbcTransactionManager.java:201-203 | the session a chain leaves is the effect of the calls before the first aborting one |
| Driver.SubscribeFailsAtFirstAbort | spring-r2dbc/src/main/java/org/springframework/r2dbc/connection/R2dbcTransactionManager.java:201-203 | a chain signals the error of its first aborting call, and completes iff no call aborts |
| Driver.IssuedPositions | spring-r2dbc/src/main/java/org/springframework/r2dbc/connection/R2dbcTransactionManager.java:201-203 | the i-th issued call is the chain's i-th call; all issued calls but the last completed; a chain stopped early stopped at its last issued call |
| Driver.SwallowingChainCompletes | spring-r2dbc/src/main/java/org/springframework/r2dbc/connection/R2dbcTransactionManager.java:352-361 | a chain whose every step ignores its errors always completes and issues every call |
| Driver.SubscribeThen | spring-r2dbc/src/main/java/org/springframework/r2dbc/connection/R2dbcTransactionManager.java:348 | `first.then(second)`: once the first chain completes, the second runs on the session it left, and the calls of both are issued in order |
| Driver.ReplayThen | spring-r2dbc/src/main/java/org/springframework/r2dbc/connection/R2dbcTransactionManager.java:348 | replaying a concatenation is replaying its two parts one after the other |
| Resources.ConnectionHolder.constructor | spring-r2dbc/src/main/java/org/springframework/r2dbc/connection/R2dbcTransactionManager.java:193 | a new holder wraps the acquired connection with every flag reset |
| Resources.ConnectionHolder.Clear | spring-r2dbc/src/main/java/org/springframework/r2dbc/connection/R2dbcTransactionManager.java:344 | clearing drops the connection and resets every flag and the timeout |
| Resources.TransactionSynchronizationManager.GetResource | spring-r2dbc/src/main/java/org/springframework/r2dbc/connection/R2dbcTransactionManager.java:166 | a holder is found iff one is bound under the key, and it is the bound one |
| Resources.TransactionSynchronizationManager.BindResource | spring-r2dbc/src/main/java/org/springframework/r2dbc/connection/R2dbcTransactionManager.java:212 | binding changes the binding of the key and no other |
| Resources.TransactionSynchronizationManager.UnbindResource | spring-r2dbc/src/main/java/org/springframework/r2dbc/connection/R2dbcTransactionManager.java:312 | unbinding removes the key only and returns what was bound there |
| Resources.UnbindThenBindRestores | spring-r2dbc/src/main/java/org/springframework/r2dbc/connection/R2dbcTransactionManager.java:245-261 | suspending (unbinding) and then resuming (binding back what was unbound) restores the bindings exactly |
| Preparation.IsolationToApply | spring-r2dbc/src/main/java/org/springframework/r2dbc/connection/R2dbcTransactionManager.java:376-388 | a level is applied iff the requested code is a standard one and differs from the connection's current level, and then it is the requested level |
| Preparation.SavedIsolation | spring-r2dbc/src/main/java/org/springframework/r2dbc/connection/R2dbcTransactionManager.java:382-387 | the current level is saved iff the level is about to change |
| Preparation.PreBeginSteps | spring-r2dbc/src/main/java/org/springframework/r2dbc/connection/R2dbcTransactionManager.java:369-402 | the calls before begin: the isolation change iff one is to be applied, first; then the switch to manual commit iff the connection is in auto-commit; none ignores its errors |
| Preparation.PrepareAfterBegin | spring-r2dbc/src/main/java/org/springframework/r2dbc/connection/R2dbcTransactionManager.java:417-425 | the read-only statement is queued iff enforcement is on and the definition is read-only |
| Preparation.BeginChain | spring-r2dbc/src/main/java/org/springframework/r2dbc/connection/R2dbcTransactionManager.java:201-203 | the begin chain: no step ignores its errors, begin sits right after the preparation calls, and its calls are the preparation calls, begin, and the read-only statement iff enforced |
| Preparation.SafeCleanupStep | spring-r2dbc/src/main/java/org/springframework/r2dbc/connection/R2dbcTransactionManager.java:352-361 | a cleanup step is the call with its errors ignored; what that does is stated by `SafeCleanupStepSwallows` |
| Preparation.SafeCleanupStepSwallows | spring-r2dbc/src/main/java/org/springframework/r2dbc/connection/R2dbcTransactionManager.java:352-361 | a cleanup step issues its call and completes whether or not the call fails |
| Preparation.CleanupSteps | spring-r2dbc/src/main/java/org/springframework/r2dbc/connection/R2dbcTransactionManager.java:318-348 | every step of the cleanup chain ignores its errors |
| Preparation.CleanupNeverFails | spring-r2dbc/src/main/java/org/springframework/r2dbc/connection/R2dbcTransactionManager.java:318-348 | cleanup never signals an error, and it issues in order: auto-commit on iff owed, the saved level iff one was saved, the release iff the holder is new |
| Preparation.CleanupRestores | spring-r2dbc/src/main/java/org/springframework/r2dbc/connection/R2dbcTransactionManager.java:320-331 | after cleanup, auto-commit is on if it was owed and its call did not fail, and untouched otherwise; the isolation level is the saved one if one was saved and its call did not fail, and untouched otherwise |
| Preparation.PreparedSession | spring-r2dbc/src/main/java/org/springframework/r2dbc/connection/R2dbcTransactionManager.java:375-399 | once the calls before begin complete, the connection is in manual commit, at the requested level if one was applied and otherwise at its former level |
| Preparation.BeginChainSession | spring-r2dbc/src/main/java/org/springframework/r2dbc/connection/R2dbcTransactionManager.java:201-203 | once the whole begin chain completes, the connection is in a transaction, in manual commit, at the requested level if one was applied and otherwise at its former level |
| Preparation.BeginKeepsUntouchedSettings | spring-r2dbc/src/main/java/org/springframework/r2dbc/connection/R2dbcTransactionManager.java:201-203 | whatever fails in the begin chain, the isolation level stays as it was when no level was saved, and auto-commit stays off when it was off |
| Preparation.ChainOrder | spring-r2dbc/src/main/java/org/springframework/r2dbc/connection/R2dbcTransactionManager.java:201-203 | in preparation-then-begin-then-statement, begin is issued only after every preparation call completed, and the statement only after begin completed |
| Preparation.BeginChainOrder | spring-r2dbc/src/main/java/org/springframework/r2dbc/connection/R2dbcTransactionManager.java:201-203 | the same order for the manager's own begin chain; the read-only statement is issued only when enforced for a read-only definition |
| Preparation.BeginChainCompletes | spring-r2dbc/src/main/java/org/springframework/r2dbc/connection/R2dbcTransactionManager.java:201-203 | a begin chain that completes has issued the preparation calls, begin, and the statement iff it is enforced |
| Preparation.SessionRestoredAfterCleanup | spring-r2dbc/src/main/java/org/springframework/r2dbc/connection/R2dbcTransactionManager.java:201-350 | round trip: whatever begin, commit or rollback did or failed to do, cleanup run with the flags preparation recorded gives back the isolation level and auto-commit mode the connection had before preparation, provided the restoring calls succeed |
| R2dbcTransactions.TranslateOnError | spring-r2dbc/src/main/java/org/springframework/r2dbc/connection/R2dbcTransactionManager.java:272-273 | a failure is translated for the task iff it is an R2dbcException; any other error passes unchanged; the cause is kept |
| R2dbcTransactions.RoundTripSession | spring-r2dbc/src/main/java/org/springframework/r2dbc/connection/R2dbcTransactionManager.java:201-350 | the session round trip over the begin chain, one commit or rollback call and the cleanup chain: isolation and auto-commit come back to their values before begin when the restoring calls succeed |
| R2dbcTransactions.TransactionObject.constructor | spring-r2dbc/src/main/java/org/springframework/r2dbc/connection/R2dbcTransactionManager.java:467-477 | a new transaction object has no holder, no saved level, is not new and owes no auto-commit restoration |
| R2dbcTransactions.TransactionObject.SetConnectionHolderAndNew | spring-r2dbc/src/main/java/org/springframework/r2dbc/connection/R2dbcTransactionManager.java:479-482 | sets the holder and whether it is new, nothing else |
| R2dbcTransactions.TransactionObject.SetConnectionHolder | spring-r2dbc/src/main/java/org/springframework/r2dbc/connection/R2dbcTransactionManager.java:492-494 | sets the holder only |
| R2dbcTransactions.TransactionObject.SetRollbackOnly | spring-r2dbc/src/main/java/org/springframework/r2dbc/connection/R2dbcTransactionManager.java:488-499 | marks the holder rollback-only and changes no other flag; without a holder, fails with an illegal-state error |
| R2dbcTransactions.TransactionObject.HasConnectionHolder | spring-r2dbc/src/main/java/org/springframework/r2dbc/connection/R2dbcTransactionManager.java:501-503 | whether the object holds a holder; used by `IsExistingTransaction` and the illegal-state cases |
| R2dbcTransactions.AcquiresNewConnection | spring-r2dbc/src/main/java/org/springframework/r2dbc/connection/R2dbcTransactionManager.java:187 | begin acquires a new connection iff the object has no holder or its holder is already synchronized; `DoBegin` and `ObtainConnection` state both branches in its terms |
| R2dbcTransactions.AssembleCleanup | spring-r2dbc/src/main/java/org/springframework/r2dbc/connection/R2dbcTransactionManager.java:318-347 | the assembled restoration chain and release step are the ones `RestoreSteps` and `ReleaseSteps` give for the object's flags |
| R2dbcTransactions.ResetConnection | spring-r2dbc/src/main/java/org/springframework/r2dbc/connection/R2dbcTransactionManager.java:333-348 | every cleanup call is issued, in order, with its effect on the session; the holder ends cleared |
| R2dbcTransactions.R2dbcTransactionManager.DoGetTransaction | spring-r2dbc/src/main/java/org/springframework/r2dbc/connection/R2dbcTransactionManager.java:164-169 | a fresh object wrapping the holder bound for the factory, or none, marked not new |
| R2dbcTransactions.R2dbcTransactionManager.IsExistingTransaction | spring-r2dbc/src/main/java/org/springframework/r2dbc/connection/R2dbcTransactionManager.java:172-175 | a transaction exists iff the object has a holder whose transaction is active; `DoBegin` establishes it on success and `DoCleanupAfterCompletion` ends it |
| R2dbcTransactions.R2dbcTransactionManager.ObtainConnection | spring-r2dbc/src/main/java/org/springframework/r2dbc/connection/R2dbcTransactionManager.java:185-199 | with no holder or a synchronized one: a new connection in a new holder marked new, or the acquisition error wrapped as CannotCreateTransaction; the replaced holder is left unchanged. Otherwise the holder is marked synchronized and its connection reused, or an illegal-state error without a connection |
| R2dbcTransactions.R2dbcTransactionManager.PrepareTransactionalConnection | spring-r2dbc/src/main/java/org/springframework/r2dbc/connection/R2dbcTransactionManager.java:369-402 | returns the chain `PreBeginSteps` gives, and records the current level iff it is to change and the restoration of auto-commit iff it is on, before any call runs |
| R2dbcTransactions.R2dbcTransactionManager.BeginOnConnection | spring-r2dbc/src/main/java/org/springframework/r2dbc/connection/R2dbcTransactionManager.java:201-225 | runs preparation, begin and the statement. Success iff the chain completes: the holder is active, a positive timeout is recorded in milliseconds, and it is bound iff new. On failure, a new holder's connection is released and the object reset, nothing is bound, and the error (the release's own if the release fails) is wrapped |
| R2dbcTransactions.R2dbcTransactionManager.OnBeginSuccess | spring-r2dbc/src/main/java/org/springframework/r2dbc/connection/R2dbcTransactionManager.java:204-213 | the transaction becomes active, a positive timeout is recorded as seconds times 1000, and the holder is bound iff it is new |
| R2dbcTransactions.R2dbcTransactionManager.OnBeginFailure | spring-r2dbc/src/main/java/org/springframework/r2dbc/connection/R2dbcTransactionManager.java:214-225 | for a new holder: one release call, the object reset to no holder and not new, and a wrapped error that is the release's error if the release fails; otherwise the error is wrapped as it is |
| R2dbcTransactions.R2dbcTransactionManager.DoBegin | spring-r2dbc/src/main/java/org/springframework/r2dbc/connection/R2dbcTransactionManager.java:179-227 | names the connection begun on and its prior session and log. A replaced synchronized holder and its connection are untouched; a reused holder that fails to begin keeps everything but its synchronized flag. Success iff the begin chain completes: the calls issued, the session, the recorded flags, an active holder on that connection, the connection in a transaction and in manual commit at the applied level, the timeout in milliseconds, whether the holder is new, and a binding iff new. On failure nothing is bound; a connection this begin owns is released, and the error is wrapped (the release's own if the release fails). Acquisition failure and a reused holder without a connection give their own errors |
| R2dbcTransactions.R2dbcTransactionManager.DoSuspend | spring-r2dbc/src/main/java/org/springframework/r2dbc/connection/R2dbcTransactionManager.java:245-251 | the object drops its holder, and the factory binding is removed and returned |
| R2dbcTransactions.R2dbcTransactionManager.DoResume | spring-r2dbc/src/main/java/org/springframework/r2dbc/connection/R2dbcTransactionManager.java:254-261 | the suspended holder is bound back under the factory key; with nothing bound before, that is the only change |
| R2dbcTransactions.R2dbcTransactionManager.Complete | spring-r2dbc/src/main/java/org/springframework/r2dbc/connection/R2dbcTransactionManager.java:267-286 | the shared body of commit and rollback: one call on the holder's connection, its effect, and its failure translated for the task; illegal-state without a holder or a connection |
| R2dbcTransactions.R2dbcTransactionManager.DoCommit | spring-r2dbc/src/main/java/org/springframework/r2dbc/connection/R2dbcTransactionManager.java:264-274 | exactly one commit call on the holder's connection; its failure is translated only if it is an R2dbcException; without a holder, or with a holder whose connection is gone, an illegal-state error |
| R2dbcTransactions.R2dbcTransactionManager.DoRollback | spring-r2dbc/src/main/java/org/springframework/r2dbc/connection/R2dbcTransactionManager.java:277-287 | exactly one rollback call on the holder's connection; its failure is translated only if it is an R2dbcException; without a holder, or with a holder whose connection is gone, an illegal-state error |
| R2dbcTransactions.R2dbcTransactionManager.DoSetRollbackOnly | spring-r2dbc/src/main/java/org/springframework/r2dbc/connection/R2dbcTransactionManager.java:290-301 | the holder becomes rollback-only and nothing else changes |
| R2dbcTransactions.R2dbcTransactionManager.DoCleanupAfterCompletion | spring-r2dbc/src/main/java/org/springframework/r2dbc/connection/R2dbcTransactionManager.java:304-350 | the factory is unbound iff the holder is new (even when an illegal-state error follows). With a connection, cleanup succeeds, issues exactly the calls of `CleanupSteps` with their effect, and leaves the holder cleared and no transaction existing |
| R2dbcTransactions.R2dbcTransactionManager.CompleteThenCleanup | spring-r2dbc/src/main/java/org/springframework/r2dbc/connection/R2dbcTransactionManager.java:264-350 | commit or rollback followed by cleanup: the holder ends cleared, no transaction exists, and the session is the completion call's effect followed by the cleanup chain for the object's flags |
| R2dbcTransactions.R2dbcTransactionManager.TransactionRoundTrip | spring-r2dbc/src/main/java/org/springframework/r2dbc/connection/R2dbcTransactionManager.java:179-350 | round trip on the manager's own operations: for an object as `DoGetTransaction` makes it, a successful begin followed by commit or rollback and cleanup leaves no transaction and gives the connection back its isolation level and auto-commit mode, when the restoring calls succeed |
| R2dbcTransactions.R2dbcTransactionManager.SuspendThenResume | spring-r2dbc/src/main/java/org/springframework/r2dbc/connection/R2dbcTransactionManager.java:245-261 | suspending and then resuming what was suspended leaves the bindings exactly as they were |

## Behaviour of the code worth noting

- Begin acquires a new connection when the object has no holder, or when its holder is already
  synchronized with a transaction. A holder not yet synchronized is reused (line 187).
- When begin fails on a new holder and the release fails too, the release's error is the one
  wrapped; the original error is lost (lines 216-218).
- Commit and rollback translate only an R2dbcException; any other error passes unchanged
  (lines 272-273, 285-286).
- The saved isolation level and the auto-commit flag are recorded while preparation is assembled,
  before any call runs. They stay recorded when the call that uses them fails (lines 385 and 394).
- Cleanup unbinds a new holder before it checks that a holder exists (lines 311-316).

## Left out

- Reactor scheduling, laziness and cancellation: a chain is a list of calls run in order on
  subscription. Every publisher is treated as cold, so the eager `createStatement(...).execute()`
  at line 420 counts as issued when the chain reaches it.
- Logging, and the `debug` branch of the cleanup step (lines 353-360): both paths ignore the error
  in the same way.
- `getRowsUpdated` of the read-only statement: the statement is one call that succeeds or fails.
- Isolation levels are compared by identity, not by the case-insensitive SQL name (line 383);
  vendor-specific levels and subclass overrides of `resolveIsolationLevel`,
  `prepareTransactionalConnection` and `translateException` are not modelled.
- R2dbcTransactions.TranslateOnError: keeps the task and the cause but not the exception class
  chosen by `ConnectionFactoryUtils.convertR2dbcException`, which is not part of this model.
- R2dbcTransactions.R2dbcTransactionManager.OnBeginSuccess: records the timeout in milliseconds as
  `seconds * 1000` on unbounded integers. The overflow of `Duration` and the wall-clock deadline
  that `ConnectionHolder.setTimeoutInMillis` derives are not modelled.
- Resources.TransactionSynchronizationManager.BindResource and UnbindResource are a map update and
  removal. The errors the real manager raises for a key already bound, or unbinding a key that is
  not bound, are not modelled. `TransactionSynchronizationManager.java` and `ConnectionHolder.java`
  are not part of this model; the holder's `clear()` and the "Active Connection is required" check
  of `getConnection()` follow their documented contracts.
- An error thrown by the binding inside `doOnSuccess` (line 212) and then caught by the begin
  error handler is not modelled.
- The connection factory's `create()` and `ConnectionFactoryUtils.releaseConnection` are
  parameters: the outcome of acquisition, and the failure map.
- The debug-only `getConnection()` in `doSetRollbackOnly` (line 296) is left out, as are the
  debug logging of commit and rollback (lines 269-271 and 282-284), the `status` argument, and
  the unused `transaction` argument of `doResume`.
- Configuration: `setConnectionFactory`, `getConnectionFactory`, `obtainConnectionFactory`,
  `setEnforceReadOnly`, `isEnforceReadOnly` and `afterPropertiesSet` (lines 111-161). The
  factory is a key and the enforcement flag a constant.
