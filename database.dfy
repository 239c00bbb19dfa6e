/**
 * The database boundary of the application: the exceptions psycopg2 raises
 * (with the class hierarchy psycopg2 gives them), what one call of a cursor
 * can do, and the pooled connections, seen as a log of what happens to them.
 */
module Database {
  import opened Wrappers

  /** The exceptions that can escape one step of a query. */
  datatype Exception =
    | OperationalError        // connection lost, server unreachable
    | SerializationFailure    // concurrent-transaction conflict under SERIALIZABLE
    | UniqueViolation         // a uniqueness constraint rejected the write
    | OtherDatabaseError      // any other DatabaseError: ProgrammingError, DataError, ...
    | PoolError               // raised by the pool itself, e.g. when it is exhausted
    | TypeError               // malformed query parameters; not a psycopg2 exception

  /** `isinstance(e, psycopg2.OperationalError)`. SerializationFailure is a
      TransactionRollbackError, which psycopg2 derives from OperationalError. */
  predicate IsOperationalError(e: Exception) {
    e.OperationalError? || e.SerializationFailure?
  }

  /** `isinstance(e, psycopg2.DatabaseError)`. The pool's PoolError derives from
      psycopg2.Error only, and TypeError is a Python built-in. */
  predicate IsDatabaseError(e: Exception) {
    IsOperationalError(e) || e.UniqueViolation? || e.OtherDatabaseError?
  }

  /** How a Python call ends: it returns a value or raises. */
  datatype Outcome<V> = Returned(value: V) | Raised(error: Exception)

  /** The `fetch` argument of execute_query. */
  datatype Fetch =
    | FetchAll       // fetch='all'
    | FetchOne       // fetch='one'
    | FetchNothing   // any other value; the callers pass fetch=None

  /** What a query call returns: the rows of fetchall(), the row of fetchone(),
      or Python's None (fetchone() on an empty result, a command, a swallowed error). */
  datatype QueryValue<Row> = AllRows(rows: seq<Row>) | OneRow(row: Row) | NoRow

  /** What the database does on one attempt of a query, an oracle of the model. */
  datatype Response<Row> =
    | AcquireFails(error: Exception)   // pool.getconn() raises
    | SetupFails(error: Exception)     // a call on the fresh connection before execute raises
    | ExecuteFails(error: Exception)   // execute, or the fetch or commit after it, raises
    | Executes(rows: seq<Row>)         // the statement runs; rows is its result set

  /** The value fetch='all' / fetch='one' / anything else returns for a result set. */
  function Fetched<Row>(rows: seq<Row>, fetch: Fetch): (v: QueryValue<Row>)
    ensures fetch.FetchAll? ==> v == AllRows(rows)
    ensures fetch.FetchOne? ==> (v.NoRow? <==> rows == []) && (v.OneRow? ==> v.row == rows[0])
    ensures fetch.FetchNothing? ==> v.NoRow?
  {
    match fetch
    case FetchAll => AllRows(rows)
    case FetchOne => if rows == [] then NoRow else OneRow(rows[0])
    case FetchNothing => NoRow
  }

  /** Number of connections an attempt takes from the pool. */
  function Uses<Row>(resp: Response<Row>): nat {
    if resp.AcquireFails? then 0 else 1
  }

  type ConnId = nat

  /** Messages shown to the user with st.error. */
  datatype Notice = DuplicateEntry | QueryFailed | ConnectionError | InvalidParameters

  /** What happens to pooled connections, and what the user is told, in order. */
  datatype Event =
    | Acquire(conn: ConnId)                // pool.getconn()
    | Release(conn: ConnId, close: bool)   // pool.putconn(conn, close=...)
    | SetSerializable(conn: ConnId)        // conn.set_isolation_level(SERIALIZABLE)
    | Commit(conn: ConnId)
    | Rollback(conn: ConnId)
    | ShowError(notice: Notice)

  /** The pool-level events that are counted per connection. */
  datatype PoolKind = Acquires | Releases | ClosingReleases

  predicate IsKind(e: Event, k: PoolKind) {
    match k
    case Acquires => e.Acquire?
    case Releases => e.Release?
    case ClosingReleases => e.Release? && e.close
  }

  /** The multiset of connections that events of kind k in the log are about. */
  function Tally(log: seq<Event>, k: PoolKind): multiset<ConnId> {
    if log == [] then multiset{}
    else
      var e := log[|log| - 1];
      Tally(log[..|log| - 1], k) + (if IsKind(e, k) then multiset{e.conn} else multiset{})
  }

  lemma {:induction false} TallyAppend(a: seq<Event>, b: seq<Event>, k: PoolKind)
    ensures Tally(a + b, k) == Tally(a, k) + Tally(b, k)
    decreases |b|
  {
    if b == [] {
      assert a + b == a;
    } else {
      var b' := b[..|b| - 1];
      assert (a + b)[..|a + b| - 1] == a + b';
      TallyAppend(a, b', k);
    }
  }

  lemma TallyOne(e: Event, k: PoolKind)
    ensures Tally([e], k) == if IsKind(e, k) then multiset{e.conn} else multiset{}
  {
    assert [e][..0] == [];
  }

  lemma {:induction false} TallyQuiet(t: seq<Event>, k: PoolKind)
    requires forall i | 0 <= i < |t| :: !t[i].Acquire? && !t[i].Release?
    ensures Tally(t, k) == multiset{}
    decreases |t|
  {
    if t != [] {
      TallyQuiet(t[..|t| - 1], k);
    }
  }

  /** Every connection taken from the pool in the log has been handed back:
      each one is returned once, and a second time for each return that closed it. */
  ghost predicate PoolPaired(log: seq<Event>) {
    && Tally(log, Releases) == Tally(log, Acquires) + Tally(log, ClosingReleases)
    && Tally(log, ClosingReleases) <= Tally(log, Acquires)
  }

  lemma PoolPairedAppend(a: seq<Event>, b: seq<Event>)
    requires PoolPaired(a) && PoolPaired(b)
    ensures PoolPaired(a + b)
  {
    TallyAppend(a, b, Acquires);
    TallyAppend(a, b, Releases);
    TallyAppend(a, b, ClosingReleases);
  }

  /** psycopg2's pool keys the connections it has lent out (its `_rused`),
      and putconn of a connection it no longer holds raises
      PoolError("trying to put unkeyed connection"). Lent(held, log) is
      what the pool holds after the acquires and releases of the log, or
      None once such a release has happened. */
  function Lent(held: Option<set<ConnId>>, log: seq<Event>): Option<set<ConnId>>
    decreases |log|
  {
    if log == [] || held.None? then held
    else
      var e := log[0];
      var h := held.value;
      var after := if e.Acquire? then Some(h + {e.conn})
                   else if e.Release? then (if e.conn in h then Some(h - {e.conn}) else None)
                   else held;
      Lent(after, log[1..])
  }

  lemma {:induction false} LentAppend(held: Option<set<ConnId>>, a: seq<Event>, b: seq<Event>)
    ensures Lent(held, a + b) == Lent(Lent(held, a), b)
    decreases |a|
  {
    if a == [] {
      assert a + b == b;
    } else if held.Some? {
      var e := a[0];
      var h := held.value;
      var after := if e.Acquire? then Some(h + {e.conn})
                   else if e.Release? then (if e.conn in h then Some(h - {e.conn}) else None)
                   else held;
      assert (a + b)[0] == e;
      assert (a + b)[1..] == a[1..] + b;
      LentAppend(after, a[1..], b);
    }
  }

  /** A notice, the closing putconn and the plain putconn of one held
      connection: the second release finds no key. */
  lemma ClosedThenReleased(held: set<ConnId>, c: ConnId, notice: Event)
    requires c !in held && notice.ShowError?
    ensures Lent(Some(held + {c}), [notice, Release(c, true), Release(c, false)]).None?
  {
    var t := [notice, Release(c, true), Release(c, false)];
    assert t[1..] == [Release(c, true), Release(c, false)];
    assert t[1..][1..] == [Release(c, false)];
    assert held + {c} - {c} == held;
    assert Lent(Some(held + {c}), t) == Lent(Some(held + {c}), t[1..]);
    assert Lent(Some(held + {c}), t[1..]) == Lent(Some(held), [Release(c, false)]);
    assert Lent(Some(held), [Release(c, false)]) == Lent(None, []);
  }

  /** Two events that are neither acquires nor releases, then the plain
      putconn of one held connection: the pool is back where it began. */
  lemma QuietThenReleased(held: set<ConnId>, c: ConnId, e1: Event, e2: Event)
    requires c !in held && !e1.Acquire? && !e1.Release? && !e2.Acquire? && !e2.Release?
    ensures Lent(Some(held + {c}), [e1, e2, Release(c, false)]) == Some(held)
  {
    var t := [e1, e2, Release(c, false)];
    assert t[1..] == [e2, Release(c, false)];
    assert t[1..][1..] == [Release(c, false)];
    assert held + {c} - {c} == held;
    assert Lent(Some(held + {c}), t) == Lent(Some(held + {c}), t[1..]);
    assert Lent(Some(held + {c}), t[1..]) == Lent(Some(held + {c}), [Release(c, false)]);
    assert Lent(Some(held + {c}), [Release(c, false)]) == Lent(Some(held), []);
  }

  /** Events other than acquires and releases leave the pool as it is. */
  lemma {:induction false} LentQuiet(held: Option<set<ConnId>>, t: seq<Event>)
    requires forall i | 0 <= i < |t| :: !t[i].Acquire? && !t[i].Release?
    ensures Lent(held, t) == held
    decreases |t|
  {
    if t != [] && held.Some? {
      LentQuiet(held, t[1..]);
    }
  }

  /**
   * The state execute_query works on: the connection pool (a log of what
   * happens to its connections, which are numbered in the order they are
   * handed out) and the messages shown to the user.
   */
  class Runtime {
    var log: seq<Event>
    var next: ConnId

    constructor ()
      ensures log == [] && next == 0
    {
      log := [];
      next := 0;
    }

    method GetConn() returns (c: ConnId)
      modifies this
      ensures c == old(next) && next == old(next) + 1
      ensures log == old(log) + [Acquire(c)]
    {
      c := next;
      next := next + 1;
      log := log + [Acquire(c)];
    }

    method PutConn(c: ConnId, close: bool)
      modifies this
      ensures next == old(next) && log == old(log) + [Release(c, close)]
    {
      log := log + [Release(c, close)];
    }

    method SetSerializable(c: ConnId)
      modifies this
      ensures next == old(next) && log == old(log) + [Event.SetSerializable(c)]
    {
      log := log + [Event.SetSerializable(c)];
    }

    method Commit(c: ConnId)
      modifies this
      ensures next == old(next) && log == old(log) + [Event.Commit(c)]
    {
      log := log + [Event.Commit(c)];
    }

    method Rollback(c: ConnId)
      modifies this
      ensures next == old(next) && log == old(log) + [Event.Rollback(c)]
    {
      log := log + [Event.Rollback(c)];
    }

    method ShowError(n: Notice)
      modifies this
      ensures next == old(next) && log == old(log) + [Event.ShowError(n)]
    {
      log := log + [Event.ShowError(n)];
    }
  }
}
