/**
 * The driver side of the protocol: the calls the manager issues on a connection, the session
 * state those calls change, and the sequential execution of a chain of such calls in which each
 * call may fail. A chain is what the manager assembles with `then`; subscribing to it runs the
 * calls in order and stops at the first failure that is not swallowed.
 */
module Driver {
  import opened Wrappers
  import opened TransactionDefinitions

  /** A call issued on one connection. `Release` is the return of the connection to its factory. */
  datatype Op =
    | SetIsolationLevel(level: IsolationLevel)
    | SetAutoCommit(enabled: bool)
    | BeginTransaction
    | ExecuteReadOnly          // the "SET TRANSACTION READ ONLY" statement
    | CommitTransaction
    | RollbackTransaction
    | Release

  /** Whether a driver error is an R2dbcException or some other exception. */
  datatype ErrorKind = R2dbcError | OtherError

  /** The error a driver interaction signalled. */
  datatype Cause =
    | AcquireFailure(kind: ErrorKind)          // the connection factory's create() failed
    | CallFailure(op: Op, kind: ErrorKind)     // a call on a connection failed

  /** Which calls fail, and with which kind of error. Calls not in the map complete normally. */
  type Faults = map<Op, ErrorKind>

  /** The session state of a connection that the calls above observe or change. */
  datatype Session = Session(isolation: IsolationLevel, autoCommit: bool, inTransaction: bool, released: bool)

  /** The effect of a call that completes normally. A failed call leaves the session as it was. */
  function Effect(s: Session, op: Op): Session
  {
    match op
    case SetIsolationLevel(level) => s.(isolation := level)
    case SetAutoCommit(enabled) => s.(autoCommit := enabled)
    case BeginTransaction => s.(inTransaction := true)
    case ExecuteReadOnly => s
    case CommitTransaction => s.(inTransaction := false)
    case RollbackTransaction => s.(inTransaction := false)
    case Release => s.(released := true)
  }

  /** The session after issuing one call that fails when `faults` says so. */
  function AfterCall(s: Session, op: Op, faults: Faults): Session
  {
    if op in faults then s else Effect(s, op)
  }

  /** One element of a chain; a swallowing step completes even when its call fails. */
  datatype Step = Step(op: Op, swallowErrors: bool)

  /** A step whose failure aborts the rest of the chain. */
  predicate Aborts(step: Step, faults: Faults)
  {
    step.op in faults && !step.swallowErrors
  }

  /** The calls of a chain, in order. */
  function Ops(steps: seq<Step>): (ops: seq<Op>)
    ensures |ops| == |steps|
    ensures forall i :: 0 <= i < |steps| ==> ops[i] == steps[i].op
  {
    if steps == [] then [] else [steps[0].op] + Ops(steps[1..])
  }

  /** The index of the first aborting step of a chain, or its length when none aborts. */
  function FirstAbort(steps: seq<Step>, faults: Faults): (k: nat)
    ensures k <= |steps|
    ensures forall i :: 0 <= i < k ==> !Aborts(steps[i], faults)
    ensures k < |steps| ==> Aborts(steps[k], faults)
  {
    if steps == [] then 0
    else if Aborts(steps[0], faults) then 0
    else 1 + FirstAbort(steps[1..], faults)
  }

  /** The session after issuing every call of `steps`; a failing call has no effect. */
  function Replay(s: Session, steps: seq<Step>, faults: Faults): Session
    decreases |steps|
  {
    if steps == [] then s
    else Replay(AfterCall(s, steps[0].op, faults), steps[1..], faults)
  }

  /** What subscribing to a chain leaves behind. */
  datatype Run = Run(session: Session, issued: seq<Op>, failure: Option<Cause>)

  /**
   * Subscribes to a chain: issues the calls one after the other, ignores the failure of a
   * swallowing step and stops at the first failure of any other step, which the chain signals.
   */
  function Subscribe(s: Session, steps: seq<Step>, faults: Faults): Run
    decreases |steps|
  {
    if steps == [] then Run(s, [], None)
    else if Aborts(steps[0], faults) then
      Run(s, [steps[0].op], Some(CallFailure(steps[0].op, faults[steps[0].op])))
    else
      var rest := Subscribe(AfterCall(s, steps[0].op, faults), steps[1..], faults);
      Run(rest.session, [steps[0].op] + rest.issued, rest.failure)
  }

  /** The number of calls a chain issues: those up to and including the first aborting one. */
  function IssuedCount(steps: seq<Step>, faults: Faults): nat
  {
    var k := FirstAbort(steps, faults);
    if k < |steps| then k + 1 else k
  }

  /**
   * Subscribing issues exactly the calls before the first aborting step and that step itself;
   * when no step aborts, every call is issued.
   */
  lemma {:induction false} SubscribeIssuesUpToFirstAbort(s: Session, steps: seq<Step>, faults: Faults)
    ensures Subscribe(s, steps, faults).issued == Ops(steps[..IssuedCount(steps, faults)])
    decreases |steps|
  {
    if steps == [] {
    } else if Aborts(steps[0], faults) {
      assert steps[..1] == [steps[0]];
    } else {
      var tail := steps[1..];
      SubscribeIssuesUpToFirstAbort(AfterCall(s, steps[0].op, faults), tail, faults);
      var n := IssuedCount(tail, faults);
      assert IssuedCount(steps, faults) == n + 1;
      var prefix := steps[..n + 1];
      assert prefix[0] == steps[0] && prefix[1..] == tail[..n];
      assert Ops(prefix) == [steps[0].op] + Ops(tail[..n]);
    }
  }

  /**
   * The session subscribing leaves is the one that replaying the calls before the first
   * aborting step gives (a failed call changes nothing, an aborting one stops the chain).
   */
  lemma {:induction false} SubscribeReplaysUpToFirstAbort(s: Session, steps: seq<Step>, faults: Faults)
    ensures Subscribe(s, steps, faults).session == Replay(s, steps[..FirstAbort(steps, faults)], faults)
    decreases |steps|
  {
    if steps == [] {
    } else if Aborts(steps[0], faults) {
      assert steps[..0] == [];
    } else {
      var tail := steps[1..];
      SubscribeReplaysUpToFirstAbort(AfterCall(s, steps[0].op, faults), tail, faults);
      var k := FirstAbort(tail, faults);
      assert FirstAbort(steps, faults) == k + 1;
      var prefix := steps[..k + 1];
      assert prefix[0] == steps[0] && prefix[1..] == tail[..k];
    }
  }

  /** A chain signals the error of its first aborting step, and completes when none aborts. */
  lemma {:induction false} SubscribeFailsAtFirstAbort(s: Session, steps: seq<Step>, faults: Faults)
    ensures var k := FirstAbort(steps, faults);
      Subscribe(s, steps, faults).failure ==
        (if k < |steps| then Some(CallFailure(steps[k].op, faults[steps[k].op])) else None)
    decreases |steps|
  {
    if steps != [] && !Aborts(steps[0], faults) {
      var tail := steps[1..];
      SubscribeFailsAtFirstAbort(AfterCall(s, steps[0].op, faults), tail, faults);
      assert FirstAbort(steps, faults) == FirstAbort(tail, faults) + 1;
    }
  }

  /**
   * Position by position: the i-th issued call is the i-th call of the chain, every issued call
   * but the last completed or was swallowed, and a chain stopped early stopped at its last call.
   */
  lemma IssuedPositions(s: Session, steps: seq<Step>, faults: Faults)
    ensures var issued := Subscribe(s, steps, faults).issued;
      && |issued| == IssuedCount(steps, faults) <= |steps|
      && (forall i :: 0 <= i < |issued| ==> issued[i] == steps[i].op)
      && (forall i :: 0 <= i < |issued| - 1 ==> !Aborts(steps[i], faults))
      && (|issued| < |steps| ==> |issued| > 0 && Aborts(steps[|issued| - 1], faults))
  {
    SubscribeIssuesUpToFirstAbort(s, steps, faults);
  }

  /** A chain whose every step swallows its errors always completes and issues every call. */
  lemma {:induction false} SwallowingChainCompletes(s: Session, steps: seq<Step>, faults: Faults)
    requires forall i :: 0 <= i < |steps| ==> steps[i].swallowErrors
    ensures Subscribe(s, steps, faults).failure == None
    ensures Subscribe(s, steps, faults).issued == Ops(steps)
    ensures Subscribe(s, steps, faults).session == Replay(s, steps, faults)
    decreases |steps|
  {
    if steps != [] {
      SwallowingChainCompletes(AfterCall(s, steps[0].op, faults), steps[1..], faults);
    }
  }

  /**
   * A chain assembled with `then` from two chains: when the first completes, the second runs on
   * the session the first left, and the calls of both are issued in order.
   */
  lemma {:induction false} SubscribeThen(s: Session, first: seq<Step>, second: seq<Step>, faults: Faults)
    requires Subscribe(s, first, faults).failure == None
    ensures var r1 := Subscribe(s, first, faults);
      var r2 := Subscribe(r1.session, second, faults);
      Subscribe(s, first + second, faults) == Run(r2.session, r1.issued + r2.issued, r2.failure)
    decreases |first|
  {
    if first == [] {
      assert first + second == second;
    } else {
      var next := AfterCall(s, first[0].op, faults);
      SubscribeThen(next, first[1..], second, faults);
      assert (first + second)[1..] == first[1..] + second;
    }
  }

  /** A chain that completes completes each of its prefixes. */
  lemma {:induction false} SubscribePrefixCompletes(s: Session, first: seq<Step>, second: seq<Step>, faults: Faults)
    requires Subscribe(s, first + second, faults).failure == None
    ensures Subscribe(s, first, faults).failure == None
    decreases |first|
  {
    if first != [] {
      assert (first + second)[0] == first[0];
      assert (first + second)[1..] == first[1..] + second;
      SubscribePrefixCompletes(AfterCall(s, first[0].op, faults), first[1..], second, faults);
    }
  }

  /** Replaying two chains one after the other is replaying their concatenation. */
  lemma {:induction false} ReplayThen(s: Session, first: seq<Step>, second: seq<Step>, faults: Faults)
    ensures Replay(s, first + second, faults) == Replay(Replay(s, first, faults), second, faults)
    decreases |first|
  {
    if first == [] {
      assert first + second == second;
    } else {
      ReplayThen(AfterCall(s, first[0].op, faults), first[1..], second, faults);
      assert (first + second)[1..] == first[1..] + second;
    }
  }

  /**
   * Running two chains one after the other on a connection logs and replays what running their
   * concatenation does.
   */
  lemma RunInTurn(log: seq<Op>, s: Session, first: seq<Step>, second: seq<Step>, faults: Faults)
    ensures log + Ops(first) + Ops(second) == log + Ops(first + second)
    ensures Replay(Replay(s, first, faults), second, faults) == Replay(s, first + second, faults)
  {
    assert Ops(first + second) == Ops(first) + Ops(second) by {
      assert forall i :: 0 <= i < |first + second| ==> Ops(first + second)[i] == (Ops(first) + Ops(second))[i];
    }
    ReplayThen(s, first, second, faults);
  }

  /** Replaying one call is issuing it. */
  lemma ReplayOne(s: Session, step: Step, faults: Faults)
    ensures Replay(s, [step], faults) == AfterCall(s, step.op, faults)
  {
    assert [step][1..] == [];
  }

  /** A chain without an isolation change leaves the isolation level as it was. */
  lemma {:induction false} ReplayKeepsIsolation(s: Session, steps: seq<Step>, faults: Faults)
    requires forall i :: 0 <= i < |steps| ==> !steps[i].op.SetIsolationLevel?
    ensures Replay(s, steps, faults).isolation == s.isolation
    decreases |steps|
  {
    if steps != [] {
      ReplayKeepsIsolation(AfterCall(s, steps[0].op, faults), steps[1..], faults);
    }
  }

  /** A chain without an auto-commit switch leaves auto-commit as it was. */
  lemma {:induction false} ReplayKeepsAutoCommit(s: Session, steps: seq<Step>, faults: Faults)
    requires forall i :: 0 <= i < |steps| ==> !steps[i].op.SetAutoCommit?
    ensures Replay(s, steps, faults).autoCommit == s.autoCommit
    decreases |steps|
  {
    if steps != [] {
      ReplayKeepsAutoCommit(AfterCall(s, steps[0].op, faults), steps[1..], faults);
    }
  }

  /**
   * A driver connection: its session state and the log of every call issued on it, whether the
   * call succeeded or not.
   */
  class Connection {
    var isolation: IsolationLevel
    var autoCommit: bool
    var inTransaction: bool
    var released: bool
    var calls: seq<Op>

    function State(): Session
      reads this
    {
      Session(isolation, autoCommit, inTransaction, released)
    }

    /** A connection as the factory hands it out: nothing has been issued on it yet. */
    constructor (initial: Session)
      ensures State() == initial && calls == []
    {
      isolation := initial.isolation;
      autoCommit := initial.autoCommit;
      inTransaction := initial.inTransaction;
      released := initial.released;
      calls := [];
    }

    /** Subscribes to a chain of calls on this connection. */
    method Execute(steps: seq<Step>, faults: Faults) returns (failure: Option<Cause>)
      modifies this
      ensures var run := Subscribe(old(State()), steps, faults);
        State() == run.session && calls == old(calls) + run.issued && failure == run.failure
    {
      var run := Subscribe(State(), steps, faults);
      isolation, autoCommit := run.session.isolation, run.session.autoCommit;
      inTransaction, released := run.session.inTransaction, run.session.released;
      calls := calls + run.issued;
      failure := run.failure;
    }

    /** Subscribes to a chain whose every step ignores its own failure: every call is issued. */
    method ExecuteSafely(steps: seq<Step>, faults: Faults)
      requires forall i :: 0 <= i < |steps| ==> steps[i].swallowErrors
      modifies this
      ensures calls == old(calls) + Ops(steps)
      ensures State() == Replay(old(State()), steps, faults)
    {
      SwallowingChainCompletes(State(), steps, faults);
      var failure := Execute(steps, faults);
    }
  }
}
