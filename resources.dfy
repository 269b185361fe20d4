/**
 * The two collaborators the manager keeps its state in: the connection holder (the unit that is
 * bound into an execution context) and the per-context resource binding. Both are modelled only
 * by the operations the manager uses.
 */
module Resources {
  import opened Wrappers
  import opened Driver

  /** The key under which a connection factory's holder is bound. */
  datatype FactoryKey = FactoryKey(id: nat)

  /** One driver connection plus the transactional flags the manager sets on it. */
  class ConnectionHolder {
    var connection: Connection?
    var transactionActive: bool
    var rollbackOnly: bool
    var synchronizedWithTransaction: bool
    var timeoutInMillis: Option<int>

    /** A holder wrapping a freshly acquired connection, with every flag reset. */
    constructor (con: Connection)
      ensures connection == con
      ensures !transactionActive && !rollbackOnly && !synchronizedWithTransaction
      ensures timeoutInMillis == None
    {
      connection := con;
      transactionActive, rollbackOnly, synchronizedWithTransaction := false, false, false;
      timeoutInMillis := None;
    }

    /** True when the connection reference is dropped and every flag is reset. */
    predicate IsCleared()
      reads this
    {
      connection == null && !transactionActive && !rollbackOnly && !synchronizedWithTransaction
      && timeoutInMillis == None
    }

    /**
     * Drops the connection and resets every flag. The resulting state does not depend on the
     * state before, so clearing twice is the same as clearing once.
     */
    method Clear()
      modifies this
      ensures IsCleared()
    {
      connection := null;
      transactionActive, rollbackOnly, synchronizedWithTransaction := false, false, false;
      timeoutInMillis := None;
    }
  }

  /** The resources bound to one logical execution context, one per factory key. */
  class TransactionSynchronizationManager {
    var resources: map<FactoryKey, ConnectionHolder>

    constructor (initial: map<FactoryKey, ConnectionHolder>)
      ensures resources == initial
    {
      resources := initial;
    }

    /** The holder bound under `key`, if any. */
    function GetResource(key: FactoryKey): (r: Option<ConnectionHolder>)
      reads this
      ensures r.Some? <==> key in resources
      ensures r.Some? ==> resources[key] == r.value
    {
      if key in resources then Some(resources[key]) else None
    }

    /** Binds `holder` under `key`; every other binding stays as it was. */
    method BindResource(key: FactoryKey, holder: ConnectionHolder)
      modifies this
      ensures resources == old(resources)[key := holder]
    {
      resources := resources[key := holder];
    }

    /** Removes the binding of `key` and returns what was bound there. */
    method UnbindResource(key: FactoryKey) returns (unbound: Option<ConnectionHolder>)
      modifies this
      ensures unbound == old(GetResource(key))
      ensures resources == old(resources) - {key}
    {
      unbound := GetResource(key);
      resources := resources - {key};
    }
  }

  /** Unbinding a key and binding back what was there restores the bindings exactly. */
  lemma UnbindThenBindRestores(m: map<FactoryKey, ConnectionHolder>, key: FactoryKey)
    requires key in m
    ensures (m - {key})[key := m[key]] == m
  {
    assert ((m - {key})[key := m[key]]).Keys == m.Keys;
  }
}
