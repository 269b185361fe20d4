/**
 * The chains of driver calls the manager assembles: the preparation before begin (isolation
 * change, then manual commit), the begin chain, the read-only statement after begin, and the
 * best-effort restoration chain of cleanup. Also the proofs that these chains are ordered as
 * required and that cleanup gives the connection back with the session settings it had.
 */
module Preparation {
  import opened Wrappers
  import opened TransactionDefinitions
  import opened Driver

  /**
   * The isolation level preparation switches to: the requested level when the request resolves
   * to one of the four standard levels, is not ISOLATION_DEFAULT, and differs from the
   * connection's current level; otherwise nothing is changed.
   */
  function IsolationToApply(code: int, current: IsolationLevel): (r: Option<IsolationLevel>)
    ensures r.Some? <==> IsStandardCode(code) && code != IsolationCode(current)
    ensures r.Some? ==> IsolationCode(r.value) == code && r.value != current
  {
    var resolved := ResolveIsolationLevel(code);
    if resolved.Some? && code != ISOLATION_DEFAULT && resolved.value != current then resolved else None
  }

  /** The level a transaction object saves for restoration: the current one, if it is changed. */
  function SavedIsolation(code: int, s: Session): (r: Option<IsolationLevel>)
    ensures r.Some? <==> IsolationToApply(code, s.isolation).Some?
    ensures r.Some? ==> r.value == s.isolation
  {
    if IsolationToApply(code, s.isolation).Some? then Some(s.isolation) else None
  }

  /**
   * The chain queued before begin: the isolation change, if any, first, then the switch to
   * manual commit when the connection is in auto-commit. Every step aborts on failure.
   */
  function PreBeginSteps(code: int, s: Session): (steps: seq<Step>)
    ensures forall i :: 0 <= i < |steps| ==> !steps[i].swallowErrors
    ensures forall i :: 0 <= i < |steps| ==> steps[i].op.SetIsolationLevel? || steps[i].op == SetAutoCommit(false)
    ensures |steps| == (if IsolationToApply(code, s.isolation).Some? then 1 else 0) + (if s.autoCommit then 1 else 0)
    ensures IsolationToApply(code, s.isolation).Some? ==>
      steps[0] == Step(SetIsolationLevel(IsolationToApply(code, s.isolation).value), false)
    ensures s.autoCommit ==> steps[|steps| - 1] == Step(SetAutoCommit(false), false)
  {
    var isolation := match IsolationToApply(code, s.isolation)
      case Some(level) => [Step(SetIsolationLevel(level), false)]
      case None => [];
    var manualCommit := if s.autoCommit then [Step(SetAutoCommit(false), false)] else [];
    isolation + manualCommit
  }

  /**
   * The chain run right after begin: the "SET TRANSACTION READ ONLY" statement, only when
   * read-only enforcement is configured and the definition is read-only.
   */
  function PrepareAfterBegin(enforceReadOnly: bool, definition: Definition): (steps: seq<Step>)
    ensures Ops(steps) == (if enforceReadOnly && definition.readOnly then [ExecuteReadOnly] else [])
    ensures forall i :: 0 <= i < |steps| ==> !steps[i].swallowErrors
  {
    if enforceReadOnly && definition.readOnly then [Step(ExecuteReadOnly, false)] else []
  }

  /**
   * The whole begin chain for a connection whose session is `s`: the preparation calls, begin,
   * then the read-only statement iff it is enforced. Every step aborts the chain on failure.
   */
  function BeginChain(definition: Definition, s: Session, enforceReadOnly: bool): (steps: seq<Step>)
    ensures forall i :: 0 <= i < |steps| ==> !steps[i].swallowErrors
    ensures |steps| > |PreBeginSteps(definition.isolationLevel, s)|
    ensures steps[|PreBeginSteps(definition.isolationLevel, s)|] == Step(BeginTransaction, false)
    ensures Ops(steps) == Ops(PreBeginSteps(definition.isolationLevel, s)) + [BeginTransaction]
      + (if enforceReadOnly && definition.readOnly then [ExecuteReadOnly] else [])
  {
    var pre := PreBeginSteps(definition.isolationLevel, s);
    var post := PrepareAfterBegin(enforceReadOnly, definition);
    OpsThen(pre + [Step(BeginTransaction, false)], post);
    OpsThen(pre, [Step(BeginTransaction, false)]);
    pre + [Step(BeginTransaction, false)] + post
  }

  /** A cleanup step: its call is issued, and its failure is ignored. */
  function SafeCleanupStep(op: Op): Step
  {
    Step(op, true)
  }

  /** A safe cleanup step completes whether or not its call fails, and the call is issued. */
  lemma SafeCleanupStepSwallows(s: Session, op: Op, faults: Faults)
    ensures Subscribe(s, [SafeCleanupStep(op)], faults) == Run(AfterCall(s, op, faults), [op], None)
  {
    assert [SafeCleanupStep(op)][1..] == [];
  }

  /** The restoration steps of cleanup: auto-commit back on, then the saved isolation level. */
  function RestoreSteps(mustRestoreAutoCommit: bool, previous: Option<IsolationLevel>): seq<Step>
  {
    (if mustRestoreAutoCommit then [SafeCleanupStep(SetAutoCommit(true))] else [])
    + (match previous case Some(level) => [SafeCleanupStep(SetIsolationLevel(level))] case None => [])
  }

  /** The release step of cleanup, present only for a holder the transaction created. */
  function ReleaseSteps(newHolder: bool): seq<Step>
  {
    if newHolder then [SafeCleanupStep(Release)] else []
  }

  /** Every call cleanup issues, in order. */
  function CleanupSteps(mustRestoreAutoCommit: bool, previous: Option<IsolationLevel>, newHolder: bool): (steps: seq<Step>)
    ensures forall i :: 0 <= i < |steps| ==> steps[i].swallowErrors
  {
    RestoreSteps(mustRestoreAutoCommit, previous) + ReleaseSteps(newHolder)
  }

  /**
   * Cleanup never signals an error and issues, in this order, the auto-commit restoration iff it
   * is owed, the isolation restoration iff a level was saved, and the release iff the holder is
   * new.
   */
  lemma CleanupNeverFails(s: Session, mustRestoreAutoCommit: bool, previous: Option<IsolationLevel>,
                          newHolder: bool, faults: Faults)
    ensures Subscribe(s, CleanupSteps(mustRestoreAutoCommit, previous, newHolder), faults).failure == None
    ensures Subscribe(s, CleanupSteps(mustRestoreAutoCommit, previous, newHolder), faults).issued ==
      (if mustRestoreAutoCommit then [SetAutoCommit(true)] else [])
      + (match previous case Some(level) => [SetIsolationLevel(level)] case None => [])
      + (if newHolder then [Release] else [])
  {
    var steps := CleanupSteps(mustRestoreAutoCommit, previous, newHolder);
    SwallowingChainCompletes(s, steps, faults);
    var expected := (if mustRestoreAutoCommit then [SetAutoCommit(true)] else [])
      + (match previous case Some(level) => [SetIsolationLevel(level)] case None => [])
      + (if newHolder then [Release] else []);
    assert |Ops(steps)| == |expected|;
    assert forall i :: 0 <= i < |steps| ==> Ops(steps)[i] == expected[i];
  }

  /**
   * What cleanup does to the session: auto-commit is on afterwards when its restoration was owed
   * and did not fail, and untouched when it was not owed; the isolation level is the saved one
   * when one was saved and its restoration did not fail, and untouched when none was saved.
   */
  lemma {:induction false} CleanupRestores(s: Session, mustRestoreAutoCommit: bool,
                                          previous: Option<IsolationLevel>, newHolder: bool, faults: Faults)
    ensures var after := Subscribe(s, CleanupSteps(mustRestoreAutoCommit, previous, newHolder), faults).session;
      && after.autoCommit == (if mustRestoreAutoCommit && SetAutoCommit(true) !in faults then true else s.autoCommit)
      && after.isolation ==
           (if previous.Some? && SetIsolationLevel(previous.value) !in faults then previous.value else s.isolation)
  {
    var autoCommitStep := if mustRestoreAutoCommit then [SafeCleanupStep(SetAutoCommit(true))] else [];
    var isolationStep := match previous case Some(level) => [SafeCleanupStep(SetIsolationLevel(level))] case None => [];
    var release := ReleaseSteps(newHolder);
    var steps := CleanupSteps(mustRestoreAutoCommit, previous, newHolder);
    assert steps == autoCommitStep + isolationStep + release;
    SwallowingChainCompletes(s, steps, faults);
    ReplayThen(s, autoCommitStep + isolationStep, release, faults);
    ReplayThen(s, autoCommitStep, isolationStep, faults);
    var s1 := Replay(s, autoCommitStep, faults);
    var s2 := Replay(s1, isolationStep, faults);
    if mustRestoreAutoCommit { ReplayOne(s, SafeCleanupStep(SetAutoCommit(true)), faults); }
    if previous.Some? { ReplayOne(s1, SafeCleanupStep(SetIsolationLevel(previous.value)), faults); }
    ReplayKeepsIsolation(s2, release, faults);
    ReplayKeepsAutoCommit(s2, release, faults);
  }

  /**
   * After the calls queued before begin complete, the connection is in manual commit and runs
   * at the requested level when one was to be applied, otherwise at its former level.
   */
  lemma PreparedSession(s: Session, code: int, faults: Faults)
    requires Subscribe(s, PreBeginSteps(code, s), faults).failure == None
    ensures var after := Subscribe(s, PreBeginSteps(code, s), faults).session;
      && !after.autoCommit
      && after.isolation == (match IsolationToApply(code, s.isolation) case Some(level) => level case None => s.isolation)
      && after.inTransaction == s.inTransaction && after.released == s.released
  {
    var steps := PreBeginSteps(code, s);
    SubscribeReplaysUpToFirstAbort(s, steps, faults);
    SubscribeFailsAtFirstAbort(s, steps, faults);
    assert steps[..|steps|] == steps;
    var isolation := match IsolationToApply(code, s.isolation)
      case Some(level) => [Step(SetIsolationLevel(level), false)]
      case None => [];
    var manualCommit := if s.autoCommit then [Step(SetAutoCommit(false), false)] else [];
    assert steps == isolation + manualCommit;
    ReplayThen(s, isolation, manualCommit, faults);
    var s1 := Replay(s, isolation, faults);
    if isolation != [] {
      assert !Aborts(steps[0], faults);
      ReplayOne(s, isolation[0], faults);
    }
    if manualCommit != [] {
      assert !Aborts(steps[|steps| - 1], faults);
      ReplayOne(s1, manualCommit[0], faults);
    }
  }

  /**
   * In a chain made of preparation calls, then begin, then statements, begin is issued only once
   * every preparation call has been issued and completed, and a statement only once begin has
   * completed.
   */
  lemma ChainOrder(s: Session, preSteps: seq<Step>, post: seq<Step>, faults: Faults)
    requires forall i :: 0 <= i < |preSteps| ==> preSteps[i].op != BeginTransaction && preSteps[i].op != ExecuteReadOnly
    requires forall i :: 0 <= i < |post| ==> post[i] == Step(ExecuteReadOnly, false)
    ensures var issued := Subscribe(s, preSteps + [Step(BeginTransaction, false)] + post, faults).issued;
      && (BeginTransaction in issued ==>
            && |issued| > |preSteps| && issued[..|preSteps|] == Ops(preSteps) && issued[|preSteps|] == BeginTransaction
            && forall i :: 0 <= i < |preSteps| ==> !Aborts(preSteps[i], faults))
      && (ExecuteReadOnly in issued ==>
            |post| > 0 && BeginTransaction !in faults && |issued| > |preSteps| + 1 && issued[|preSteps| + 1] == ExecuteReadOnly)
  {
    var chain := preSteps + [Step(BeginTransaction, false)] + post;
    var issued := Subscribe(s, chain, faults).issued;
    IssuedPositions(s, chain, faults);
    if BeginTransaction in issued {
      BeginIssuedAfterPreparation(preSteps, post, chain, issued, faults);
      assert issued[..|preSteps|] == Ops(preSteps);
    }
    if ExecuteReadOnly in issued {
      StatementIssuedAfterBegin(preSteps, post, chain, issued, faults);
    }
  }

  /** The begin half of `ChainOrder`, from where each issued call sits in the chain. */
  lemma BeginIssuedAfterPreparation(preSteps: seq<Step>, post: seq<Step>, chain: seq<Step>, issued: seq<Op>, faults: Faults)
    requires forall i :: 0 <= i < |preSteps| ==> preSteps[i].op != BeginTransaction
    requires chain == preSteps + [Step(BeginTransaction, false)] + post
    requires |issued| <= |chain| && forall i :: 0 <= i < |issued| ==> issued[i] == chain[i].op
    requires forall i :: 0 <= i < |issued| - 1 ==> !Aborts(chain[i], faults)
    requires BeginTransaction in issued
    ensures |issued| > |preSteps| && issued[|preSteps|] == BeginTransaction
    ensures forall i :: 0 <= i < |preSteps| ==> issued[i] == preSteps[i].op && !Aborts(preSteps[i], faults)
  {
    assert forall i :: 0 <= i < |preSteps| ==> chain[i] == preSteps[i];
    assert chain[|preSteps|] == Step(BeginTransaction, false);
    var j :| 0 <= j < |issued| && issued[j] == BeginTransaction;
    assert j >= |preSteps|;
  }

  /** The statement half of `ChainOrder`, from where each issued call sits in the chain. */
  lemma StatementIssuedAfterBegin(preSteps: seq<Step>, post: seq<Step>, chain: seq<Step>, issued: seq<Op>, faults: Faults)
    requires forall i :: 0 <= i < |preSteps| ==> preSteps[i].op != ExecuteReadOnly
    requires forall i :: 0 <= i < |post| ==> post[i] == Step(ExecuteReadOnly, false)
    requires chain == preSteps + [Step(BeginTransaction, false)] + post
    requires |issued| <= |chain| && forall i :: 0 <= i < |issued| ==> issued[i] == chain[i].op
    requires forall i :: 0 <= i < |issued| - 1 ==> !Aborts(chain[i], faults)
    requires ExecuteReadOnly in issued
    ensures |post| > 0 && BeginTransaction !in faults && |issued| > |preSteps| + 1 && issued[|preSteps| + 1] == ExecuteReadOnly
  {
    assert forall i :: 0 <= i < |preSteps| ==> chain[i] == preSteps[i];
    assert chain[|preSteps|] == Step(BeginTransaction, false);
    var j :| 0 <= j < |issued| && issued[j] == ExecuteReadOnly;
    assert j > |preSteps|;
    assert forall i :: |preSteps| < i < |chain| ==> chain[i] == post[i - |preSteps| - 1];
  }

  /**
   * Order of the begin chain: begin is issued only after every call queued before it has been
   * issued and has completed; the read-only statement is issued only after begin completed, and
   * only when enforcement is on and the definition is read-only.
   */
  lemma BeginChainOrder(s: Session, definition: Definition, enforceReadOnly: bool, faults: Faults)
    ensures var pre := PreBeginSteps(definition.isolationLevel, s);
      var issued := Subscribe(s, BeginChain(definition, s, enforceReadOnly), faults).issued;
      && (BeginTransaction in issued ==>
            && |issued| > |pre| && issued[..|pre|] == Ops(pre) && issued[|pre|] == BeginTransaction
            && forall i :: 0 <= i < |pre| ==> pre[i].op !in faults)
      && (ExecuteReadOnly in issued ==>
            enforceReadOnly && definition.readOnly && BeginTransaction !in faults
            && |issued| > |pre| + 1 && issued[|pre| + 1] == ExecuteReadOnly)
  {
    var pre := PreBeginSteps(definition.isolationLevel, s);
    var post := PrepareAfterBegin(enforceReadOnly, definition);
    ChainOrder(s, pre, post, faults);
  }

  /** The calls of a concatenation are the calls of its parts. */
  lemma OpsThen(first: seq<Step>, second: seq<Step>)
    ensures Ops(first + second) == Ops(first) + Ops(second)
  {
    assert forall i :: 0 <= i < |first + second| ==> Ops(first + second)[i] == (Ops(first) + Ops(second))[i];
  }

  /** When the begin chain completes, it has issued exactly its calls, the statement iff enforced. */
  lemma BeginChainCompletes(s: Session, definition: Definition, enforceReadOnly: bool, faults: Faults)
    requires Subscribe(s, BeginChain(definition, s, enforceReadOnly), faults).failure == None
    ensures Subscribe(s, BeginChain(definition, s, enforceReadOnly), faults).issued ==
      Ops(PreBeginSteps(definition.isolationLevel, s)) + [BeginTransaction]
      + (if enforceReadOnly && definition.readOnly then [ExecuteReadOnly] else [])
  {
    var preSteps := PreBeginSteps(definition.isolationLevel, s);
    var chain := BeginChain(definition, s, enforceReadOnly);
    SubscribeIssuesUpToFirstAbort(s, chain, faults);
    SubscribeFailsAtFirstAbort(s, chain, faults);
    assert chain[..|chain|] == chain;
    OpsThen(preSteps + [Step(BeginTransaction, false)], PrepareAfterBegin(enforceReadOnly, definition));
    OpsThen(preSteps, [Step(BeginTransaction, false)]);
  }

  /** When begin and the statement after it complete, the session is the one begin left. */
  lemma BeginThenStatementSession(s: Session, post: seq<Step>, faults: Faults)
    requires forall i :: 0 <= i < |post| ==> post[i] == Step(ExecuteReadOnly, false)
    requires |post| <= 1
    requires Subscribe(s, [Step(BeginTransaction, false)] + post, faults).failure == None
    ensures Subscribe(s, [Step(BeginTransaction, false)] + post, faults).session == Effect(s, BeginTransaction)
  {
    var chain := [Step(BeginTransaction, false)] + post;
    assert chain[1..] == post;
    assert !Aborts(chain[0], faults);
    var s1 := AfterCall(s, BeginTransaction, faults);
    assert Subscribe(s, chain, faults).session == Subscribe(s1, post, faults).session;
    if post != [] {
      assert post[1..] == [];
      assert !Aborts(post[0], faults);
      assert AfterCall(s1, ExecuteReadOnly, faults) == s1;
    }
  }

  /**
   * The session after a begin chain that completes: in a transaction, in manual commit, at the
   * requested level if one was applied and otherwise at its former level, and not released.
   */
  lemma BeginChainSession(s: Session, definition: Definition, enforceReadOnly: bool, faults: Faults)
    requires Subscribe(s, BeginChain(definition, s, enforceReadOnly), faults).failure == None
    ensures var after := Subscribe(s, BeginChain(definition, s, enforceReadOnly), faults).session;
      && after.inTransaction && !after.autoCommit
      && after.isolation ==
           (match IsolationToApply(definition.isolationLevel, s.isolation) case Some(level) => level case None => s.isolation)
      && after.released == s.released
  {
    var pre := PreBeginSteps(definition.isolationLevel, s);
    var rest := [Step(BeginTransaction, false)] + PrepareAfterBegin(enforceReadOnly, definition);
    assert BeginChain(definition, s, enforceReadOnly) == pre + rest;
    SubscribePrefixCompletes(s, pre, rest, faults);
    SubscribeThen(s, pre, rest, faults);
    PreparedSession(s, definition.isolationLevel, faults);
    BeginThenStatementSession(Subscribe(s, pre, faults).session, PrepareAfterBegin(enforceReadOnly, definition), faults);
  }

  /**
   * A setting preparation does not change is one the begin chain never changes, whatever fails:
   * the isolation level when no level was saved, auto-commit when it was off.
   */
  lemma BeginKeepsUntouchedSettings(s0: Session, definition: Definition, enforceReadOnly: bool, faults: Faults)
    ensures var s1 := Subscribe(s0, BeginChain(definition, s0, enforceReadOnly), faults).session;
      && (SavedIsolation(definition.isolationLevel, s0).None? ==> s1.isolation == s0.isolation)
      && (!s0.autoCommit ==> s1.autoCommit == s0.autoCommit)
  {
    var chain := BeginChain(definition, s0, enforceReadOnly);
    SubscribeReplaysUpToFirstAbort(s0, chain, faults);
    var started := chain[..FirstAbort(chain, faults)];
    var preSteps := PreBeginSteps(definition.isolationLevel, s0);
    assert forall i :: 0 <= i < |preSteps| ==> chain[i] == preSteps[i];
    if SavedIsolation(definition.isolationLevel, s0).None? {
      ReplayKeepsIsolation(s0, started, faults);
    }
    if !s0.autoCommit {
      ReplayKeepsAutoCommit(s0, started, faults);
    }
  }

  /**
   * The round trip of preparation and cleanup. Whatever happens to begin, and whatever commit or
   * rollback calls follow, cleanup run with the flags preparation recorded gives the connection
   * back with the isolation level and the auto-commit mode it had before preparation, provided
   * the restoring calls themselves succeed. A setting preparation did not change is never touched.
   */
  lemma {:induction false} SessionRestoredAfterCleanup(s0: Session, definition: Definition, enforceReadOnly: bool,
      beginFaults: Faults, outcome: seq<Step>, outcomeFaults: Faults, newHolder: bool, cleanupFaults: Faults)
    requires forall i :: 0 <= i < |outcome| ==> outcome[i].op == CommitTransaction || outcome[i].op == RollbackTransaction
    requires SetAutoCommit(true) !in cleanupFaults && SetIsolationLevel(s0.isolation) !in cleanupFaults
    ensures var s1 := Subscribe(s0, BeginChain(definition, s0, enforceReadOnly), beginFaults).session;
      var s2 := Subscribe(s1, outcome, outcomeFaults).session;
      var restore := CleanupSteps(s0.autoCommit, SavedIsolation(definition.isolationLevel, s0), newHolder);
      var s3 := Subscribe(s2, restore, cleanupFaults).session;
      s3.isolation == s0.isolation && s3.autoCommit == s0.autoCommit
  {
    var s1 := Subscribe(s0, BeginChain(definition, s0, enforceReadOnly), beginFaults).session;
    var s2 := Subscribe(s1, outcome, outcomeFaults).session;
    var saved := SavedIsolation(definition.isolationLevel, s0);
    CleanupRestores(s2, s0.autoCommit, saved, newHolder, cleanupFaults);
    SubscribeReplaysUpToFirstAbort(s1, outcome, outcomeFaults);
    var done := outcome[..FirstAbort(outcome, outcomeFaults)];
    ReplayKeepsIsolation(s1, done, outcomeFaults);
    ReplayKeepsAutoCommit(s1, done, outcomeFaults);
    BeginKeepsUntouchedSettings(s0, definition, enforceReadOnly, beginFaults);
  }
}
