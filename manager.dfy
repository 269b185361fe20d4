/**
 * The reactive transaction manager for one connection factory: transaction discovery, begin,
 * suspend, resume, commit, rollback, set-rollback-only and cleanup, over a transaction object
 * that records which holder is in play and which session settings must be restored.
 */
module R2dbcTransactions {
  import opened Wrappers
  import opened TransactionDefinitions
  import opened Driver
  import opened Resources
  import opened Preparation

  /** The driver task whose error is translated. */
  datatype Task = CommitTask | RollbackTask

  /** The precondition an illegal-state error reports. */
  datatype StateViolation =
    | NoConnectionHolder    // the transaction object holds no connection holder
    | NoActiveConnection    // the holder's connection has been dropped

  /** The errors the manager signals. */
  datatype Error =
    | CannotCreateTransaction(cause: Cause)   // "Could not open R2DBC Connection for transaction"
    | Translated(task: Task, cause: Cause)    // an R2dbcException from commit or rollback, translated
    | Propagated(cause: Cause)                // any other error, passed on as it is
    | IllegalState(violation: StateViolation)

  /**
   * The error a commit or rollback signals for a driver failure: only an R2dbcException is
   * translated (for the task at hand); any other error passes unchanged. The cause is kept.
   */
  function TranslateOnError(task: Task, cause: Cause): (e: Error)
    ensures e.Translated? <==> cause.kind == R2dbcError
    ensures e.Translated? || e.Propagated?
    ensures e.Translated? ==> e.task == task
    ensures e.cause == cause
  {
    if cause.kind == R2dbcError then Translated(task, cause) else Propagated(cause)
  }

  /** What the connection factory's create() yields: a connection in some session state, or an error. */
  datatype Acquisition = Acquired(initial: Session) | AcquireFailed(kind: ErrorKind)

  /** The per-invocation transaction object. */
  class TransactionObject {
    var connectionHolder: ConnectionHolder?
    var previousIsolationLevel: Option<IsolationLevel>
    var newConnectionHolder: bool
    var mustRestoreAutoCommit: bool

    constructor ()
      ensures connectionHolder == null && previousIsolationLevel == None
      ensures !newConnectionHolder && !mustRestoreAutoCommit
    {
      connectionHolder := null;
      previousIsolationLevel := None;
      newConnectionHolder, mustRestoreAutoCommit := false, false;
    }

    /** Sets the holder together with whether this transaction created it. */
    method SetConnectionHolderAndNew(holder: ConnectionHolder?, isNew: bool)
      modifies this`connectionHolder, this`newConnectionHolder
      ensures connectionHolder == holder && newConnectionHolder == isNew
    {
      connectionHolder := holder;
      newConnectionHolder := isNew;
    }

    /** Sets the holder only; whether it is new stays as it was. */
    method SetConnectionHolder(holder: ConnectionHolder?)
      modifies this`connectionHolder
      ensures connectionHolder == holder
    {
      connectionHolder := holder;
    }

    predicate HasConnectionHolder()
      reads this
    {
      connectionHolder != null
    }

    /** Marks the holder rollback-only; fails when there is no holder. */
    method SetRollbackOnly() returns (result: Outcome<Error>)
      modifies connectionHolder
      ensures connectionHolder == null ==> result == Fail(IllegalState(NoConnectionHolder))
      ensures connectionHolder != null ==>
        && result == Pass && connectionHolder.rollbackOnly
        && connectionHolder.connection == old(connectionHolder.connection)
        && connectionHolder.transactionActive == old(connectionHolder.transactionActive)
        && connectionHolder.synchronizedWithTransaction == old(connectionHolder.synchronizedWithTransaction)
        && connectionHolder.timeoutInMillis == old(connectionHolder.timeoutInMillis)
    {
      if connectionHolder == null {
        return Fail(IllegalState(NoConnectionHolder));
      }
      connectionHolder.rollbackOnly := true;
      result := Pass;
    }
  }

  /** The holder of a transaction object and the holder's connection, as far as they exist. */
  ghost function HolderFootprint(tx: TransactionObject): set<object>
    reads tx, tx.connectionHolder
  {
    if tx.connectionHolder == null then {}
    else {tx.connectionHolder} + (if tx.connectionHolder.connection == null then {} else {tx.connectionHolder.connection})
  }

  /** True when the transaction object's holder exists and has a connection. */
  predicate HasConnection(tx: TransactionObject)
    reads tx, tx.connectionHolder
  {
    tx.connectionHolder != null && tx.connectionHolder.connection != null
  }

  /**
   * Whether begin acquires a fresh connection: when the object has no holder, or when its holder
   * is already synchronized with a transaction. Only a holder not yet synchronized is reused.
   */
  predicate AcquiresNewConnection(tx: TransactionObject)
    reads tx, tx.connectionHolder
  {
    tx.connectionHolder == null || tx.connectionHolder.synchronizedWithTransaction
  }

  /**
   * Assembles the connection reset of cleanup: auto-commit restoration iff owed, then isolation
   * restoration iff a level was saved, each ignoring its own failure; and the release step iff
   * the holder is new.
   */
  method AssembleCleanup(tx: TransactionObject) returns (afterCleanup: seq<Step>, releaseConnectionStep: seq<Step>)
    ensures afterCleanup == RestoreSteps(tx.mustRestoreAutoCommit, tx.previousIsolationLevel)
    ensures releaseConnectionStep == ReleaseSteps(tx.newConnectionHolder)
  {
    afterCleanup := [];
    if tx.mustRestoreAutoCommit {
      afterCleanup := afterCleanup + [SafeCleanupStep(SetAutoCommit(true))];
    }
    if tx.previousIsolationLevel.Some? {
      afterCleanup := afterCleanup + [SafeCleanupStep(SetIsolationLevel(tx.previousIsolationLevel.value))];
    }
    releaseConnectionStep := [];
    if tx.newConnectionHolder {
      releaseConnectionStep := [SafeCleanupStep(Release)];
    }
  }

  /**
   * The connection reset of cleanup: the restoration steps, then clearing the holder, then the
   * release step; every call is issued, whether or not an earlier one failed.
   */
  method ResetConnection(holder: ConnectionHolder, con: Connection, afterCleanup: seq<Step>,
                         releaseConnectionStep: seq<Step>, faults: Faults)
    requires forall i :: 0 <= i < |afterCleanup| ==> afterCleanup[i].swallowErrors
    requires forall i :: 0 <= i < |releaseConnectionStep| ==> releaseConnectionStep[i].swallowErrors
    modifies holder, con
    ensures holder.IsCleared()
    ensures con.calls == old(con.calls) + Ops(afterCleanup + releaseConnectionStep)
    ensures con.State() == Replay(old(con.State()), afterCleanup + releaseConnectionStep, faults)
  {
    RunInTurn(con.calls, con.State(), afterCleanup, releaseConnectionStep, faults);
    // The restoration steps run first; the release step is reached only when they are done,
    // and the holder is cleared (in a finally block) as that step is assembled, before it runs.
    con.ExecuteSafely(afterCleanup, faults);
    holder.Clear();
    con.ExecuteSafely(releaseConnectionStep, faults);
  }

  /**
   * The session round trip in the terms the manager's methods state it: the begin chain, one
   * completion call, then the cleanup chain for the settings begin recorded.
   */
  lemma RoundTripSession(s0: Session, definition: Definition, enforceReadOnly: bool, beginFaults: Faults, s1: Session,
                         op: Op, completionFaults: Faults, mustRestoreAutoCommit: bool,
                         previous: Option<IsolationLevel>, newHolder: bool, cleanupFaults: Faults)
    requires s1 == Subscribe(s0, BeginChain(definition, s0, enforceReadOnly), beginFaults).session
    requires mustRestoreAutoCommit == s0.autoCommit
    requires previous == (if IsolationToApply(definition.isolationLevel, s0.isolation).Some? then Some(s0.isolation) else None)
    requires op == CommitTransaction || op == RollbackTransaction
    requires SetAutoCommit(true) !in cleanupFaults && SetIsolationLevel(s0.isolation) !in cleanupFaults
    ensures var s3 := Replay(AfterCall(s1, op, completionFaults), CleanupSteps(mustRestoreAutoCommit, previous, newHolder),
                             cleanupFaults);
      s3.isolation == s0.isolation && s3.autoCommit == s0.autoCommit
  {
    var s2 := AfterCall(s1, op, completionFaults);
    assert [Step(op, false)][1..] == [];
    assert Subscribe(s1, [Step(op, false)], completionFaults).session == s2;
    assert previous == SavedIsolation(definition.isolationLevel, s0);
    var steps := CleanupSteps(mustRestoreAutoCommit, previous, newHolder);
    SwallowingChainCompletes(s2, steps, cleanupFaults);
    SessionRestoredAfterCleanup(s0, definition, enforceReadOnly, beginFaults, [Step(op, false)], completionFaults,
                                newHolder, cleanupFaults);
  }

  /** The transaction manager for one connection factory. */
  class R2dbcTransactionManager {
    const connectionFactory: FactoryKey
    const enforceReadOnly: bool

    constructor (connectionFactory: FactoryKey, enforceReadOnly: bool)
      ensures this.connectionFactory == connectionFactory && this.enforceReadOnly == enforceReadOnly
    {
      this.connectionFactory := connectionFactory;
      this.enforceReadOnly := enforceReadOnly;
    }

    /** A new transaction object wrapping whatever holder is bound for the factory, marked not new. */
    method DoGetTransaction(sync: TransactionSynchronizationManager) returns (tx: TransactionObject)
      ensures fresh(tx)
      ensures connectionFactory in sync.resources ==> tx.connectionHolder == sync.resources[connectionFactory]
      ensures connectionFactory !in sync.resources ==> tx.connectionHolder == null
      ensures !tx.newConnectionHolder && tx.previousIsolationLevel == None && !tx.mustRestoreAutoCommit
    {
      tx := new TransactionObject();
      var bound := sync.GetResource(connectionFactory);
      var holder: ConnectionHolder? := match bound case Some(h) => h case None => null;
      tx.SetConnectionHolderAndNew(holder, false);
    }

    /** A transaction exists when the object has a holder whose transaction is active. */
    predicate IsExistingTransaction(tx: TransactionObject)
      reads tx, tx.connectionHolder
    {
      tx.HasConnectionHolder() && tx.connectionHolder.transactionActive
    }

    /**
     * The connection begin runs on. A fresh one from the factory, wrapped in a new holder that
     * the object marks as new, when `AcquiresNewConnection`; otherwise the existing holder is
     * marked synchronized and its connection reused.
     */
    method ObtainConnection(tx: TransactionObject, acquire: Acquisition) returns (r: Result<Connection, Error>)
      modifies tx, tx.connectionHolder
      ensures old(AcquiresNewConnection(tx)) && acquire.AcquireFailed? ==>
        && r == Failure(CannotCreateTransaction(AcquireFailure(acquire.kind)))
        && unchanged(tx) && (tx.connectionHolder != null ==> unchanged(tx.connectionHolder))
      ensures old(AcquiresNewConnection(tx)) && old(tx.connectionHolder) != null ==> unchanged(old(tx.connectionHolder))
      ensures old(AcquiresNewConnection(tx)) && acquire.Acquired? ==>
        && r.Success? && fresh(r.value) && r.value.State() == acquire.initial && r.value.calls == []
        && tx.connectionHolder != null && fresh(tx.connectionHolder) && tx.connectionHolder.connection == r.value
        && !tx.connectionHolder.transactionActive && !tx.connectionHolder.rollbackOnly
        && !tx.connectionHolder.synchronizedWithTransaction && tx.connectionHolder.timeoutInMillis == None
        && tx.newConnectionHolder
        && tx.previousIsolationLevel == old(tx.previousIsolationLevel)
        && tx.mustRestoreAutoCommit == old(tx.mustRestoreAutoCommit)
      ensures !old(AcquiresNewConnection(tx)) ==>
        && unchanged(tx) && tx.connectionHolder.synchronizedWithTransaction
        && tx.connectionHolder.connection == old(tx.connectionHolder.connection)
        && tx.connectionHolder.transactionActive == old(tx.connectionHolder.transactionActive)
        && tx.connectionHolder.rollbackOnly == old(tx.connectionHolder.rollbackOnly)
        && tx.connectionHolder.timeoutInMillis == old(tx.connectionHolder.timeoutInMillis)
        && r == (if tx.connectionHolder.connection == null then Failure(IllegalState(NoActiveConnection))
                 else Success(tx.connectionHolder.connection))
    {
      if tx.connectionHolder == null || tx.connectionHolder.synchronizedWithTransaction {
        match acquire
        case AcquireFailed(kind) =>
          return Failure(CannotCreateTransaction(AcquireFailure(kind)));
        case Acquired(initial) =>
          var con := new Connection(initial);
          var holder := new ConnectionHolder(con);
          tx.SetConnectionHolderAndNew(holder, true);
          return Success(con);
      }
      tx.connectionHolder.synchronizedWithTransaction := true;
      if tx.connectionHolder.connection == null {
        return Failure(IllegalState(NoActiveConnection));
      }
      r := Success(tx.connectionHolder.connection);
    }

    /**
     * Preparation before begin. Records on the transaction object, before any call runs, the
     * level to restore (only when the isolation level is to change) and that auto-commit must be
     * restored (only when the connection is in auto-commit), and returns the queued calls: the
     * isolation change first, then the switch to manual commit.
     */
    method PrepareTransactionalConnection(con: Connection, definition: Definition, tx: TransactionObject)
      returns (prepare: seq<Step>)
      modifies tx`previousIsolationLevel, tx`mustRestoreAutoCommit
      ensures prepare == PreBeginSteps(definition.isolationLevel, con.State())
      ensures tx.previousIsolationLevel ==
        (if IsolationToApply(definition.isolationLevel, con.isolation).Some? then Some(con.isolation)
         else old(tx.previousIsolationLevel))
      ensures tx.mustRestoreAutoCommit == (con.autoCommit || old(tx.mustRestoreAutoCommit))
    {
      prepare := [];
      var isolationLevelToUse := ResolveIsolationLevel(definition.isolationLevel);
      if isolationLevelToUse.Some? && definition.isolationLevel != ISOLATION_DEFAULT {
        var currentIsolation := con.isolation;
        if currentIsolation != isolationLevelToUse.value {
          tx.previousIsolationLevel := Some(currentIsolation);
          prepare := prepare + [Step(SetIsolationLevel(isolationLevelToUse.value), false)];
        }
      }
      if con.autoCommit {
        tx.mustRestoreAutoCommit := true;
        prepare := prepare + [Step(SetAutoCommit(false), false)];
      }
    }

    /**
     * The begin pipeline on the chosen connection: preparation, begin, the read-only statement.
     * On success the holder's transaction becomes active, a positive timeout is recorded in
     * milliseconds, and a new holder is bound under the factory key. On failure a new holder's
     * connection is released and the object reset to no holder, not new; nothing is bound, and
     * the error (the release's own, if the release fails) is wrapped as CannotCreateTransaction.
     */
    method BeginOnConnection(sync: TransactionSynchronizationManager, tx: TransactionObject, con: Connection,
                             definition: Definition, faults: Faults) returns (result: Outcome<Error>)
      requires tx.connectionHolder != null && tx.connectionHolder.connection == con
      modifies sync, tx, tx.connectionHolder, con
      ensures var s0 := old(con.State());
        && tx.previousIsolationLevel ==
             (if IsolationToApply(definition.isolationLevel, s0.isolation).Some? then Some(s0.isolation)
              else old(tx.previousIsolationLevel))
        && tx.mustRestoreAutoCommit == (s0.autoCommit || old(tx.mustRestoreAutoCommit))
      ensures var run := Subscribe(old(con.State()), BeginChain(definition, old(con.State()), enforceReadOnly), faults);
        result.Pass? <==> run.failure == None
      ensures var run := Subscribe(old(con.State()), BeginChain(definition, old(con.State()), enforceReadOnly), faults);
        run.failure == None ==>
          && con.State() == run.session && con.calls == old(con.calls) + run.issued
          && tx.connectionHolder == old(tx.connectionHolder) && tx.newConnectionHolder == old(tx.newConnectionHolder)
          && tx.connectionHolder.transactionActive
          && tx.connectionHolder.connection == con
          && tx.connectionHolder.rollbackOnly == old(tx.connectionHolder.rollbackOnly)
          && tx.connectionHolder.synchronizedWithTransaction == old(tx.connectionHolder.synchronizedWithTransaction)
          && tx.connectionHolder.timeoutInMillis ==
               (if DetermineTimeout(definition) > 0 then Some(DetermineTimeout(definition) * 1000)
                else old(tx.connectionHolder.timeoutInMillis))
          && sync.resources ==
               (if tx.newConnectionHolder then old(sync.resources)[connectionFactory := tx.connectionHolder]
                else old(sync.resources))
      ensures var run := Subscribe(old(con.State()), BeginChain(definition, old(con.State()), enforceReadOnly), faults);
        run.failure != None ==>
          && sync.resources == old(sync.resources)
          && unchanged(old(tx.connectionHolder))
          && (old(tx.newConnectionHolder) ==>
                && con.calls == old(con.calls) + run.issued + [Release]
                && con.State() == AfterCall(run.session, Release, faults)
                && tx.connectionHolder == null && !tx.newConnectionHolder
                && result == Fail(CannotCreateTransaction(
                     if Release in faults then CallFailure(Release, faults[Release]) else run.failure.value)))
          && (!old(tx.newConnectionHolder) ==>
                && con.calls == old(con.calls) + run.issued && con.State() == run.session
                && tx.connectionHolder == old(tx.connectionHolder) && !tx.newConnectionHolder
                && result == Fail(CannotCreateTransaction(run.failure.value)))
    {
      var prepare := PrepareTransactionalConnection(con, definition, tx);
      var failure := con.Execute(prepare + [Step(BeginTransaction, false)] + PrepareAfterBegin(enforceReadOnly, definition), faults);
      if failure.None? {
        OnBeginSuccess(sync, tx, definition);
        result := Pass;
      } else {
        result := OnBeginFailure(tx, con, failure.value, faults);
      }
    }

    /**
     * What a completed begin pipeline does: the transaction becomes active, a positive timeout is
     * recorded in milliseconds (seconds times 1000), and a new holder is bound under the factory key.
     */
    method OnBeginSuccess(sync: TransactionSynchronizationManager, tx: TransactionObject, definition: Definition)
      requires tx.connectionHolder != null
      modifies sync, tx.connectionHolder
      ensures tx.connectionHolder.transactionActive
      ensures tx.connectionHolder.connection == old(tx.connectionHolder.connection)
      ensures tx.connectionHolder.rollbackOnly == old(tx.connectionHolder.rollbackOnly)
      ensures tx.connectionHolder.synchronizedWithTransaction == old(tx.connectionHolder.synchronizedWithTransaction)
      ensures tx.connectionHolder.timeoutInMillis ==
        (if definition.timeout > 0 then Some(definition.timeout * 1000) else old(tx.connectionHolder.timeoutInMillis))
      ensures sync.resources ==
        (if tx.newConnectionHolder then old(sync.resources)[connectionFactory := tx.connectionHolder]
         else old(sync.resources))
    {
      var holder := tx.connectionHolder;
      holder.transactionActive := true;
      var timeout := DetermineTimeout(definition);
      if timeout > 0 {
        holder.timeoutInMillis := Some(timeout * 1000);
      }
      if tx.newConnectionHolder {
        sync.BindResource(connectionFactory, holder);
      }
    }

    /**
     * What a failed begin pipeline does: for a new holder, release the connection and reset the
     * object to no holder, not new; then wrap the error (the release's own, if the release fails)
     * as CannotCreateTransaction.
     */
    method OnBeginFailure(tx: TransactionObject, con: Connection, cause: Cause, faults: Faults)
      returns (result: Outcome<Error>)
      modifies tx`connectionHolder, tx`newConnectionHolder, con
      ensures old(tx.newConnectionHolder) ==>
        && con.calls == old(con.calls) + [Release]
        && con.State() == AfterCall(old(con.State()), Release, faults)
        && tx.connectionHolder == null && !tx.newConnectionHolder
        && result == Fail(CannotCreateTransaction(if Release in faults then CallFailure(Release, faults[Release]) else cause))
      ensures !old(tx.newConnectionHolder) ==>
        unchanged(tx, con) && result == Fail(CannotCreateTransaction(cause))
    {
      var error := cause;
      if tx.newConnectionHolder {
        var releaseFailure := con.Execute([Step(Release, false)], faults);
        assert [Step(Release, false)][1..] == [];
        tx.SetConnectionHolderAndNew(null, false);
        if releaseFailure.Some? {
          error := releaseFailure.value;
        }
      }
      result := Fail(CannotCreateTransaction(error));
    }

    /**
     * Begin. Obtains the connection (acquiring a new one exactly when `AcquiresNewConnection`)
     * and runs the begin pipeline on it. The ghost results name the connection begun on (none
     * when there is no connection to begin on), its session before the pipeline and its call log
     * before the pipeline, and what the pipeline did. A holder that is replaced because it is
     * already synchronized with another transaction is left as it was, and so is its connection.
     */
    method DoBegin(sync: TransactionSynchronizationManager, tx: TransactionObject, definition: Definition,
                   acquire: Acquisition, faults: Faults)
      returns (result: Outcome<Error>, ghost con: Connection?, ghost s0: Session, ghost calls0: seq<Op>, ghost run: Run)
      modifies sync, tx, HolderFootprint(tx)
      // Which connection, and in which state, begin runs on.
      ensures old(AcquiresNewConnection(tx)) ==> (con == null <==> acquire.AcquireFailed?)
      ensures old(AcquiresNewConnection(tx)) && acquire.Acquired? ==>
        fresh(con) && s0 == acquire.initial && calls0 == []
      ensures !old(AcquiresNewConnection(tx)) ==> con == old(tx.connectionHolder.connection)
      ensures !old(AcquiresNewConnection(tx)) && con != null ==> s0 == old(con.State()) && calls0 == old(con.calls)
      // A holder owned by another transaction is never touched.
      ensures old(AcquiresNewConnection(tx)) && old(tx.connectionHolder) != null ==> unchanged(old(tx.connectionHolder))
      ensures old(AcquiresNewConnection(tx)) && old(HasConnection(tx)) ==> unchanged(old(tx.connectionHolder.connection))
      // A reused holder that fails to begin keeps everything but its synchronized flag.
      ensures !old(AcquiresNewConnection(tx)) && result.Fail? ==>
        && old(tx.connectionHolder).connection == old(tx.connectionHolder.connection)
        && old(tx.connectionHolder).transactionActive == old(tx.connectionHolder.transactionActive)
        && old(tx.connectionHolder).rollbackOnly == old(tx.connectionHolder.rollbackOnly)
        && old(tx.connectionHolder).timeoutInMillis == old(tx.connectionHolder.timeoutInMillis)
      // No connection to begin on.
      ensures old(AcquiresNewConnection(tx)) && acquire.AcquireFailed? ==>
        result == Fail(CannotCreateTransaction(AcquireFailure(acquire.kind))) && unchanged(tx)
        && sync.resources == old(sync.resources)
      ensures !old(AcquiresNewConnection(tx)) && con == null ==>
        && result == Fail(IllegalState(NoActiveConnection)) && sync.resources == old(sync.resources)
        && unchanged(tx) && tx.connectionHolder.synchronizedWithTransaction
      // The settings recorded for cleanup.
      ensures con != null ==>
        && tx.previousIsolationLevel ==
             (if IsolationToApply(definition.isolationLevel, s0.isolation).Some? then Some(s0.isolation)
              else old(tx.previousIsolationLevel))
        && tx.mustRestoreAutoCommit == (s0.autoCommit || old(tx.mustRestoreAutoCommit))
      // The begin pipeline completes.
      ensures con != null ==> run == Subscribe(s0, BeginChain(definition, s0, enforceReadOnly), faults)
      ensures con != null ==> (result.Pass? <==> run.failure == None)
      ensures con != null && result.Pass? ==>
        && con.State() == run.session && con.calls == calls0 + run.issued
        && IsExistingTransaction(tx) && tx.connectionHolder.connection == con
        && tx.newConnectionHolder == (old(AcquiresNewConnection(tx)) || old(tx.newConnectionHolder))
        && tx.connectionHolder.synchronizedWithTransaction == !old(AcquiresNewConnection(tx))
        && tx.connectionHolder.timeoutInMillis ==
             (if definition.timeout > 0 then Some(definition.timeout * 1000)
              else if old(AcquiresNewConnection(tx)) then None
              else old(tx.connectionHolder.timeoutInMillis))
        && sync.resources ==
             (if tx.newConnectionHolder then old(sync.resources)[connectionFactory := tx.connectionHolder]
              else old(sync.resources))
      ensures con != null && result.Pass? ==>
        && con.inTransaction && !con.autoCommit
        && con.isolation ==
             (match IsolationToApply(definition.isolationLevel, s0.isolation) case Some(level) => level case None => s0.isolation)
      ensures con != null && result.Pass? && old(AcquiresNewConnection(tx)) ==>
        fresh(tx.connectionHolder) && !tx.connectionHolder.rollbackOnly
      ensures con != null && result.Pass? && !old(AcquiresNewConnection(tx)) ==>
        tx.connectionHolder == old(tx.connectionHolder) && tx.connectionHolder.rollbackOnly == old(tx.connectionHolder.rollbackOnly)
      // The begin pipeline fails: a connection this begin acquired is released.
      ensures con != null && result.Fail? ==>
        && run.failure.Some? && sync.resources == old(sync.resources)
        && ((old(AcquiresNewConnection(tx)) || old(tx.newConnectionHolder)) ==>
              && con.calls == calls0 + run.issued + [Release]
              && con.State() == AfterCall(run.session, Release, faults)
              && tx.connectionHolder == null && !tx.newConnectionHolder
              && result == Fail(CannotCreateTransaction(
                   if Release in faults then CallFailure(Release, faults[Release]) else run.failure.value)))
        && (!(old(AcquiresNewConnection(tx)) || old(tx.newConnectionHolder)) ==>
              && con.calls == calls0 + run.issued && con.State() == run.session
              && tx.connectionHolder == old(tx.connectionHolder) && tx.connectionHolder.synchronizedWithTransaction
              && !tx.newConnectionHolder
              && result == Fail(CannotCreateTransaction(run.failure.value)))
    {
      ghost var acquiresNew := AcquiresNewConnection(tx);
      con := if acquiresNew then null else tx.connectionHolder.connection;
      var obtained := ObtainConnection(tx, acquire);
      if obtained.Failure? {
        // There is no connection, so there is no state for the ghost results to describe.
        s0 :| true;
        calls0 := [];
        run :| true;
        return Fail(obtained.error), con, s0, calls0, run;
      }
      con := obtained.value;
      s0, calls0 := con.State(), con.calls;
      run := Subscribe(s0, BeginChain(definition, s0, enforceReadOnly), faults);
      result := BeginOnConnection(sync, tx, obtained.value, definition, faults);
      if result.Pass? {
        BeginChainSession(s0, definition, enforceReadOnly, faults);
      }
    }

    /** Detaches the holder from the object and unbinds the factory key, returning what was bound. */
    method DoSuspend(sync: TransactionSynchronizationManager, tx: TransactionObject)
      returns (suspended: Option<ConnectionHolder>)
      modifies sync, tx`connectionHolder
      ensures tx.connectionHolder == null
      ensures suspended == old(sync.GetResource(connectionFactory))
      ensures sync.resources == old(sync.resources) - {connectionFactory}
    {
      tx.SetConnectionHolder(null);
      suspended := sync.UnbindResource(connectionFactory);
    }

    /**
     * Binds the suspended holder back under the factory key. Right after a suspend that returned
     * `Some(h)`, this restores the bindings exactly (see `UnbindThenBindRestores`).
     */
    method DoResume(sync: TransactionSynchronizationManager, suspended: ConnectionHolder)
      modifies sync
      ensures sync.resources == old(sync.resources)[connectionFactory := suspended]
      ensures old(sync.GetResource(connectionFactory)) == None ==> sync.resources - {connectionFactory} == old(sync.resources)
    {
      sync.BindResource(connectionFactory, suspended);
    }

    /** Issues one call on the holder's connection; a failure is translated for `task`. */
    method Complete(tx: TransactionObject, op: Op, task: Task, faults: Faults) returns (result: Outcome<Error>)
      modifies HolderFootprint(tx) - {tx.connectionHolder}
      ensures tx.connectionHolder == null ==> result == Fail(IllegalState(NoConnectionHolder))
      ensures tx.connectionHolder != null && tx.connectionHolder.connection == null ==>
        result == Fail(IllegalState(NoActiveConnection))
      ensures HasConnection(tx) ==>
        var con := tx.connectionHolder.connection;
        && con.calls == old(con.calls) + [op]
        && con.State() == AfterCall(old(con.State()), op, faults)
        && result == (if op in faults then Fail(TranslateOnError(task, CallFailure(op, faults[op]))) else Pass)
    {
      if tx.connectionHolder == null {
        return Fail(IllegalState(NoConnectionHolder));
      }
      var con := tx.connectionHolder.connection;
      if con == null {
        return Fail(IllegalState(NoActiveConnection));
      }
      var failure := con.Execute([Step(op, false)], faults);
      assert [Step(op, false)][1..] == [];
      result := match failure case Some(cause) => Fail(TranslateOnError(task, cause)) case None => Pass;
    }

    /** Commit: exactly one commit call on the holder's connection. */
    method DoCommit(tx: TransactionObject, faults: Faults) returns (result: Outcome<Error>)
      modifies HolderFootprint(tx) - {tx.connectionHolder}
      ensures tx.connectionHolder == null ==> result == Fail(IllegalState(NoConnectionHolder))
      ensures tx.connectionHolder != null && tx.connectionHolder.connection == null ==>
        result == Fail(IllegalState(NoActiveConnection))
      ensures HasConnection(tx) ==>
        var con := tx.connectionHolder.connection;
        && con.calls == old(con.calls) + [CommitTransaction]
        && con.State() == AfterCall(old(con.State()), CommitTransaction, faults)
        && result == (if CommitTransaction in faults
                      then Fail(TranslateOnError(CommitTask, CallFailure(CommitTransaction, faults[CommitTransaction])))
                      else Pass)
    {
      result := Complete(tx, CommitTransaction, CommitTask, faults);
    }

    /** Rollback: exactly one rollback call on the holder's connection. */
    method DoRollback(tx: TransactionObject, faults: Faults) returns (result: Outcome<Error>)
      modifies HolderFootprint(tx) - {tx.connectionHolder}
      ensures tx.connectionHolder == null ==> result == Fail(IllegalState(NoConnectionHolder))
      ensures tx.connectionHolder != null && tx.connectionHolder.connection == null ==>
        result == Fail(IllegalState(NoActiveConnection))
      ensures HasConnection(tx) ==>
        var con := tx.connectionHolder.connection;
        && con.calls == old(con.calls) + [RollbackTransaction]
        && con.State() == AfterCall(old(con.State()), RollbackTransaction, faults)
        && result == (if RollbackTransaction in faults
                      then Fail(TranslateOnError(RollbackTask, CallFailure(RollbackTransaction, faults[RollbackTransaction])))
                      else Pass)
    {
      result := Complete(tx, RollbackTransaction, RollbackTask, faults);
    }

    /** Marks the holder rollback-only and changes nothing else. */
    method DoSetRollbackOnly(tx: TransactionObject) returns (result: Outcome<Error>)
      modifies tx.connectionHolder
      ensures tx.connectionHolder == null ==> result == Fail(IllegalState(NoConnectionHolder))
      ensures tx.connectionHolder != null ==>
        && result == Pass && tx.connectionHolder.rollbackOnly
        && tx.connectionHolder.connection == old(tx.connectionHolder.connection)
        && tx.connectionHolder.transactionActive == old(tx.connectionHolder.transactionActive)
        && tx.connectionHolder.synchronizedWithTransaction == old(tx.connectionHolder.synchronizedWithTransaction)
        && tx.connectionHolder.timeoutInMillis == old(tx.connectionHolder.timeoutInMillis)
    {
      result := tx.SetRollbackOnly();
    }

    /**
     * Cleanup. Unbinds the factory key iff the holder is new, then issues, each ignoring its own
     * failure, the auto-commit restoration iff owed, the isolation restoration iff a level was
     * saved and the release iff the holder is new; the holder is cleared in any case. Cleanup
     * signals no error once a holder with a connection is there.
     */
    method DoCleanupAfterCompletion(sync: TransactionSynchronizationManager, tx: TransactionObject, faults: Faults)
      returns (result: Outcome<Error>)
      modifies sync, HolderFootprint(tx)
      ensures unchanged(tx)
      ensures sync.resources ==
        (if tx.newConnectionHolder then old(sync.resources) - {connectionFactory} else old(sync.resources))
      ensures tx.connectionHolder == null ==> result == Fail(IllegalState(NoConnectionHolder))
      ensures tx.connectionHolder != null && old(tx.connectionHolder.connection) == null ==>
        result == Fail(IllegalState(NoActiveConnection)) && unchanged(tx.connectionHolder)
      ensures tx.connectionHolder != null && old(tx.connectionHolder.connection) != null ==>
        var con := old(tx.connectionHolder.connection);
        var steps := CleanupSteps(tx.mustRestoreAutoCommit, tx.previousIsolationLevel, tx.newConnectionHolder);
        && result == Pass
        && tx.connectionHolder.IsCleared() && !IsExistingTransaction(tx)
        && con.calls == old(con.calls) + Ops(steps)
        && con.State() == Replay(old(con.State()), steps, faults)
    {
      if tx.newConnectionHolder {
        var unbound := sync.UnbindResource(connectionFactory);
      }
      if tx.connectionHolder == null {
        return Fail(IllegalState(NoConnectionHolder));
      }
      var holder := tx.connectionHolder;
      if holder.connection == null {
        return Fail(IllegalState(NoActiveConnection));
      }
      var afterCleanup, releaseConnectionStep := AssembleCleanup(tx);
      ResetConnection(holder, holder.connection, afterCleanup, releaseConnectionStep, faults);
      result := Pass;
    }

    /**
     * Commit or rollback on the holder's connection, then cleanup: the connection's session is the
     * one the completion call and then the cleanup chain for the object's flags give.
     */
    method CompleteThenCleanup(sync: TransactionSynchronizationManager, tx: TransactionObject, commit: bool,
                               completionFaults: Faults, cleanupFaults: Faults)
      requires HasConnection(tx)
      modifies sync, HolderFootprint(tx)
      ensures unchanged(tx)
      ensures tx.connectionHolder != null && tx.connectionHolder.IsCleared() && !IsExistingTransaction(tx)
      ensures var con := old(tx.connectionHolder.connection);
        con.State() ==
          Replay(AfterCall(old(con.State()), if commit then CommitTransaction else RollbackTransaction, completionFaults),
                 CleanupSteps(tx.mustRestoreAutoCommit, tx.previousIsolationLevel, tx.newConnectionHolder), cleanupFaults)
    {
      var completed;
      if commit {
        completed := DoCommit(tx, completionFaults);
      } else {
        completed := DoRollback(tx, completionFaults);
      }
      var cleaned := DoCleanupAfterCompletion(sync, tx, cleanupFaults);
    }

    /**
     * A whole transaction on the manager's own operations, for a transaction object as
     * `DoGetTransaction` makes it: begin, then commit or rollback, then cleanup. When begin
     * succeeds, cleanup leaves no transaction behind and gives the connection back with the
     * isolation level and auto-commit mode it had before begin, provided the restoring calls
     * themselves succeed; whether commit or rollback failed makes no difference.
     */
    method TransactionRoundTrip(sync: TransactionSynchronizationManager, tx: TransactionObject, definition: Definition,
                                acquire: Acquisition, commit: bool,
                                beginFaults: Faults, completionFaults: Faults, cleanupFaults: Faults)
      returns (begun: Outcome<Error>, ghost con: Connection?, ghost s0: Session)
      requires tx.previousIsolationLevel == None && !tx.mustRestoreAutoCommit
      modifies sync, tx, HolderFootprint(tx)
      ensures begun.Pass? ==>
        con != null && tx.connectionHolder != null && tx.connectionHolder.IsCleared() && !IsExistingTransaction(tx)
      ensures begun.Pass? && SetAutoCommit(true) !in cleanupFaults && SetIsolationLevel(s0.isolation) !in cleanupFaults ==>
        con.isolation == s0.isolation && con.autoCommit == s0.autoCommit
    {
      ghost var calls0, run;
      begun, con, s0, calls0, run := DoBegin(sync, tx, definition, acquire, beginFaults);
      if begun.Fail? {
        return;
      }
      // What begin recorded, as cleanup will read it.
      ghost var s1 := con.State();
      ghost var mustRestoreAutoCommit, previous := tx.mustRestoreAutoCommit, tx.previousIsolationLevel;
      assert mustRestoreAutoCommit == s0.autoCommit;
      assert previous == (if IsolationToApply(definition.isolationLevel, s0.isolation).Some? then Some(s0.isolation) else None);
      CompleteThenCleanup(sync, tx, commit, completionFaults, cleanupFaults);
      if SetAutoCommit(true) !in cleanupFaults && SetIsolationLevel(s0.isolation) !in cleanupFaults {
        RoundTripSession(s0, definition, enforceReadOnly, beginFaults, s1,
                         if commit then CommitTransaction else RollbackTransaction, completionFaults,
                         mustRestoreAutoCommit, previous, tx.newConnectionHolder, cleanupFaults);
      }
    }

    /**
     * Suspend followed by resume of what was suspended: the bindings of the context are exactly
     * as before, and the transaction object no longer holds the holder.
     */
    method SuspendThenResume(sync: TransactionSynchronizationManager, tx: TransactionObject)
      modifies sync, tx`connectionHolder
      ensures sync.resources == old(sync.resources)
      ensures tx.connectionHolder == null
    {
      var suspended := DoSuspend(sync, tx);
      if suspended.Some? {
        DoResume(sync, suspended.value);
        UnbindThenBindRestores(old(sync.resources), connectionFactory);
      }
    }
  }
}
