/**
 * The transaction definition as the manager reads it, the four standard isolation levels
 * and the conversions between the definition's integer codes and those levels.
 */
module TransactionDefinitions {
  import opened Wrappers

  /** Isolation level codes and the timeout sentinel of a transaction definition. */
  const ISOLATION_DEFAULT: int := -1
  const ISOLATION_READ_UNCOMMITTED: int := 1
  const ISOLATION_READ_COMMITTED: int := 2
  const ISOLATION_REPEATABLE_READ: int := 4
  const ISOLATION_SERIALIZABLE: int := 8
  const TIMEOUT_DEFAULT: int := -1

  /** The isolation levels a driver connection understands. */
  datatype IsolationLevel = ReadUncommitted | ReadCommitted | RepeatableRead | Serializable

  /** What a caller asks for: an isolation code, a read-only hint and a timeout in seconds. */
  datatype Definition = Definition(isolationLevel: int, readOnly: bool, timeout: int)

  /** The definition code that stands for a driver isolation level. */
  function IsolationCode(level: IsolationLevel): int
  {
    match level
    case ReadUncommitted => ISOLATION_READ_UNCOMMITTED
    case ReadCommitted => ISOLATION_READ_COMMITTED
    case RepeatableRead => ISOLATION_REPEATABLE_READ
    case Serializable => ISOLATION_SERIALIZABLE
  }

  /** The codes of the four standard levels. */
  predicate IsStandardCode(code: int)
  {
    code == ISOLATION_READ_UNCOMMITTED || code == ISOLATION_READ_COMMITTED
    || code == ISOLATION_REPEATABLE_READ || code == ISOLATION_SERIALIZABLE
  }

  /**
   * Maps a definition code to a driver isolation level. Only the four standard codes resolve;
   * ISOLATION_DEFAULT and every other code give no level.
   */
  function ResolveIsolationLevel(code: int): (r: Option<IsolationLevel>)
    ensures r.Some? <==> IsStandardCode(code)
    ensures r.Some? ==> IsolationCode(r.value) == code
    ensures code == ISOLATION_DEFAULT ==> r == None
  {
    if code == ISOLATION_READ_COMMITTED then Some(ReadCommitted)
    else if code == ISOLATION_READ_UNCOMMITTED then Some(ReadUncommitted)
    else if code == ISOLATION_REPEATABLE_READ then Some(RepeatableRead)
    else if code == ISOLATION_SERIALIZABLE then Some(Serializable)
    else None
  }

  /** Resolving the code of a level gives that level back. */
  lemma ResolveIsolationCode(level: IsolationLevel)
    ensures ResolveIsolationLevel(IsolationCode(level)) == Some(level)
  {
    match level
    case ReadUncommitted =>
    case ReadCommitted =>
    case RepeatableRead =>
    case Serializable =>
  }

  /**
   * The timeout, in seconds, that a begin applies: the definition's own value unless it is the
   * TIMEOUT_DEFAULT sentinel, which stands for the zero duration. A deadline is recorded only
   * for a strictly positive result, and that happens exactly when the definition asks for a
   * strictly positive number of seconds.
   */
  function DetermineTimeout(definition: Definition): (seconds: int)
    ensures seconds > 0 <==> definition.timeout > 0
    ensures seconds > 0 ==> seconds == definition.timeout
    ensures seconds != 0 ==> definition.timeout != TIMEOUT_DEFAULT
  {
    if definition.timeout != TIMEOUT_DEFAULT then definition.timeout else 0
  }
}
