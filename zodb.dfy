/**
 * ramverk/zodb.py: an application-wide connection pool built once from the
 * configured storage, and an environment mixin that leases one connection
 * from it on first use and closes it on exit only if it was opened.
 */
module Zodb {
  import opened Wrappers
  import opened Http

  /** The environment's transaction manager, handed to the pool on open. */
  datatype TransactionManager = TransactionManager(id: nat)

  /** What `settings.storage()` returns. */
  datatype Storage = Storage(name: string)

  /** The root PersistentMapping of a storage. */
  datatype PersistentMapping = StorageRoot(storage: Storage)

  /** ZODB's DB: a connection pool over one storage, counting the calls it receives. */
  class DB {
    const storage: Storage
    ghost var opens: nat
    ghost var closes: nat

    constructor (storage: Storage)
      ensures this.storage == storage
      ensures opens == 0 && closes == 0
    {
      this.storage := storage;
      opens, closes := 0, 0;
    }

    /** `open(transaction_manager=...)`: check out a fresh connection. */
    method Open(transactionManager: TransactionManager) returns (c: Connection)
      modifies this
      ensures fresh(c) && c.pool == this && c.transactionManager == transactionManager && !c.closed
      ensures opens == old(opens) + 1 && closes == old(closes)
    {
      c := new Connection(this, transactionManager);
      opens := opens + 1;
    }
  }

  /** A connection checked out of a DB. */
  class Connection {
    const pool: DB
    const transactionManager: TransactionManager
    var closed: bool

    constructor (pool: DB, transactionManager: TransactionManager)
      ensures this.pool == pool && this.transactionManager == transactionManager && !closed
    {
      this.pool := pool;
      this.transactionManager := transactionManager;
      closed := false;
    }

    /** `close()`: return the connection to its pool. */
    method Close()
      modifies this, pool
      ensures closed
      ensures pool.closes == old(pool.closes) + 1 && pool.opens == old(pool.opens)
    {
      closed := true;
      pool.closes := pool.closes + 1;
    }

    /** `root()`: the root mapping of the pool's storage. */
    function Root(): (m: PersistentMapping)
      ensures m.storage == pool.storage
    {
      StorageRoot(pool.storage)
    }
  }

  /** ZODBStorageMixin: the application side, owning the pool. */
  class ZodbStorageMixin {
    /** The storage `settings.storage()` builds. */
    const storage: Storage
    /** The slot `cached_property` fills on the first access of `_zodb_connection_pool`. */
    var pool: DB?
    /** How many times `settings.storage()` has been called. */
    ghost var storageCalls: nat

    /** A pool, once built, sits over the configured storage, and building it is the one call of `settings.storage()`. */
    ghost predicate Valid()
      reads this
    {
      && (pool != null ==> pool.storage == storage)
      && storageCalls == (if pool == null then 0 else 1)
    }

    constructor (storage: Storage)
      ensures this.storage == storage && pool == null && storageCalls == 0
      ensures Valid()
    {
      this.storage := storage;
      pool := null;
      storageCalls := 0;
    }

    /** `_zodb_connection_pool`: built once from the storage, then shared by every later access. */
    method ConnectionPool() returns (p: DB)
      requires Valid()
      modifies this
      ensures Valid()
      ensures pool == p && p.storage == storage
      ensures old(pool) != null ==> p == old(pool) && storageCalls == old(storageCalls)
      ensures old(pool) == null ==>
                fresh(p) && p.storage == storage && p.opens == 0 && p.closes == 0
                && storageCalls == old(storageCalls) + 1
    {
      if pool == null {
        storageCalls := storageCalls + 1;
        pool := new DB(storage);
      }
      p := pool;
    }
  }

  /** Calls of `open` the application's pool has received, zero before the pool exists. */
  ghost function PoolOpens(app: ZodbStorageMixin): nat
    reads app, app.pool
  {
    if app.pool == null then 0 else app.pool.opens
  }

  /** Calls of `close` the application's pool has received. */
  ghost function PoolCloses(app: ZodbStorageMixin): nat
    reads app, app.pool
  {
    if app.pool == null then 0 else app.pool.closes
  }

  /** Steps of one environment's lease, in order. */
  datatype LeaseEvent = Opened(transactionManager: TransactionManager) | Closed | Forwarded(excInfo: ExcInfo)

  /** How many times a lease trace opened a connection. */
  function OpenCount(events: seq<LeaseEvent>): (n: nat)
    ensures n == 0 <==> forall i :: 0 <= i < |events| ==> !events[i].Opened?
  {
    if events == [] then 0
    else (if events[0].Opened? then 1 else 0) + OpenCount(events[1..])
  }

  /** Opens in a concatenation are the opens of its two parts. */
  lemma {:induction false} OpenCountAppend(a: seq<LeaseEvent>, b: seq<LeaseEvent>)
    ensures OpenCount(a + b) == OpenCount(a) + OpenCount(b)
  {
    if a == [] {
      assert a + b == b;
    } else {
      assert (a + b)[0] == a[0];
      assert (a + b)[1..] == a[1..] + b;
      OpenCountAppend(a[1..], b);
    }
  }

  /** ZODBConnectionMixin: the environment side, leasing one connection on demand. */
  class ZodbConnectionMixin {
    const application: ZodbStorageMixin
    const transactionManager: TransactionManager
    /** `_zodb_connected`, false until the connection is first accessed. */
    var connected: bool
    /** The slot `cached_property` fills on the first access of `_zodb_connection`. */
    var connection: Connection?
    /** The slot `cached_property` fills on the first access of `persistent`. */
    var persistent: Option<PersistentMapping>
    ghost var events: seq<LeaseEvent>

    /**
     * The flag says whether a connection is cached; a cached connection came
     * from the application's pool for this transaction manager; this
     * environment opened exactly as many connections as the flag says.
     */
    ghost predicate Valid()
      reads this, application
    {
      && (connected <==> connection != null)
      && (connection != null ==>
            && application.pool == connection.pool
            && connection.transactionManager == transactionManager)
      && (persistent.Some? ==> connection != null && persistent.value == connection.Root())
      && OpenCount(events) == (if connected then 1 else 0)
    }

    /** A new environment has not touched the pool. */
    constructor (application: ZodbStorageMixin, transactionManager: TransactionManager)
      ensures this.application == application && this.transactionManager == transactionManager
      ensures !connected && connection == null && persistent == None && events == []
      ensures Valid()
    {
      this.application := application;
      this.transactionManager := transactionManager;
      connected := false;
      connection := null;
      persistent := None;
      events := [];
    }

    /**
     * `_zodb_connection`: the first access sets the flag and opens one
     * connection with this environment's transaction manager; later accesses
     * return that same connection and leave the pool alone.
     */
    method ZodbConnection() returns (c: Connection)
      requires Valid() && application.Valid()
      modifies this, application, application.pool
      ensures Valid() && application.Valid() && connected && connection == c
      ensures c.pool.storage == application.storage
      // `settings.storage()` is called only when this access builds the pool
      ensures old(application.pool) == null ==> application.storageCalls == old(application.storageCalls) + 1
      ensures old(application.pool) != null ==> application.storageCalls == old(application.storageCalls)
      ensures persistent == old(persistent)
      // the application's pool is built on the first use by any environment and kept from then on
      ensures old(application.pool) != null ==> application.pool == old(application.pool)
      ensures old(application.pool) == null ==> fresh(application.pool)
      ensures old(connected) ==>
                && c == old(connection) && events == old(events)
                && application.pool == old(application.pool)
                && PoolOpens(application) == old(PoolOpens(application))
                && PoolCloses(application) == old(PoolCloses(application))
      ensures !old(connected) ==>
                && fresh(c) && !c.closed && c.transactionManager == transactionManager
                && events == old(events) + [Opened(transactionManager)]
                && PoolOpens(application) == old(PoolOpens(application)) + 1
                && PoolCloses(application) == old(PoolCloses(application))
    {
      if connection == null {
        connected := true;
        var pool := application.ConnectionPool();
        c := pool.Open(transactionManager);
        connection := c;
        OpenCountAppend(events, [Opened(transactionManager)]);
        events := events + [Opened(transactionManager)];
      } else {
        c := connection;
      }
    }

    /** `persistent`: the root of this environment's single connection, opening it if need be. */
    method Persistent() returns (m: PersistentMapping)
      requires Valid() && application.Valid()
      modifies this, application, application.pool
      ensures Valid() && application.Valid() && connected && persistent == Some(m)
      ensures m == connection.Root() && m.storage == application.storage
      ensures old(application.pool) == null ==> application.storageCalls == old(application.storageCalls) + 1
      ensures old(application.pool) != null ==> application.storageCalls == old(application.storageCalls)
      ensures old(application.pool) != null ==> application.pool == old(application.pool)
      ensures old(application.pool) == null ==> fresh(application.pool)
      ensures PoolCloses(application) == old(PoolCloses(application))
      ensures old(connected) ==>
                && connection == old(connection) && events == old(events)
                && PoolOpens(application) == old(PoolOpens(application))
      ensures !old(connected) ==>
                && events == old(events) + [Opened(transactionManager)]
                && PoolOpens(application) == old(PoolOpens(application)) + 1
    {
      if persistent.None? {
        var c := ZodbConnection();
        persistent := Some(c.Root());
      }
      m := persistent.value;
    }

    /**
     * `__exit__`: close the connection if and only if one was opened, then
     * forward the same exception info to the next mixin and return its answer.
     */
    method Exit(excInfo: ExcInfo, next: ExcInfo -> bool) returns (suppress: bool)
      requires Valid()
      modifies this, connection, application.pool
      ensures Valid()
      ensures suppress == next(excInfo)
      ensures connected == old(connected) && connection == old(connection) && persistent == old(persistent)
      ensures application.pool == old(application.pool)
      ensures events == old(events) + (if old(connected) then [Closed] else []) + [Forwarded(excInfo)]
      ensures PoolOpens(application) == old(PoolOpens(application))
      ensures old(connected) ==> connection.closed && PoolCloses(application) == old(PoolCloses(application)) + 1
      ensures !old(connected) ==> PoolCloses(application) == old(PoolCloses(application))
    {
      if connected {
        connection.Close();
        OpenCountAppend(events, [Closed]);
        events := events + [Closed];
      }
      OpenCountAppend(events, [Forwarded(excInfo)]);
      events := events + [Forwarded(excInfo)];
      suppress := next(excInfo);
    }
  }

  /**
   * Two environments of one application: each leases its own connection, both
   * from the one pool the application builds, and the pool sees two opens.
   */
  method TwoEnvironmentsShareOnePool(app: ZodbStorageMixin, tm1: TransactionManager, tm2: TransactionManager)
    returns (e1: ZodbConnectionMixin, e2: ZodbConnectionMixin)
    requires app.Valid()
    modifies app, app.pool
    ensures app.Valid() && app.storageCalls == 1
    ensures e1.Valid() && e2.Valid() && e1.connected && e2.connected
    ensures app.pool != null && e1.connection.pool == app.pool && e2.connection.pool == app.pool
    ensures old(app.pool) != null ==> app.pool == old(app.pool)
    ensures e1.connection != e2.connection
    ensures e1.events == [Opened(tm1)] && e2.events == [Opened(tm2)]
    ensures PoolOpens(app) == old(PoolOpens(app)) + 2
    ensures PoolCloses(app) == old(PoolCloses(app))
  {
    e1 := new ZodbConnectionMixin(app, tm1);
    var c1 := e1.ZodbConnection();
    e2 := new ZodbConnectionMixin(app, tm2);
    var c2 := e2.ZodbConnection();
  }
}
