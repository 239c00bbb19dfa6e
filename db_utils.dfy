/**
 * db/db_utils.py: execute_query, the retrying, pool-backed query runner every
 * page goes through, and the helpers built on it that carry logic of their own.
 */
module DbUtils {
  import opened Wrappers
  import opened Database
  import opened Tenacity
  import opened Seqs

  /** The decorator on execute_query: at most 5 attempts, retried on
      OperationalError and DatabaseError, waits of 2^(n-1) seconds in [1, 10]. */
  const Config: Policy := Policy(5, [OperationalErrorClass, DatabaseErrorClass], 1, 1, 10)

  /** What one attempt of execute_query returns or raises. */
  function AttemptOutcome<Row>(resp: Response<Row>, fetch: Fetch): Outcome<QueryValue<Row>> {
    match resp
    case AcquireFails(e) => Raised(e)
    case SetupFails(e) => Raised(e)
    case ExecuteFails(e) => if e.UniqueViolation? then Returned(NoRow) else Raised(e)
    case Executes(rows) => Returned(Fetched(rows, fetch))
  }

  /** The exception that leaves the inner handlers of an attempt, if any. */
  function Escaping<Row>(resp: Response<Row>): Option<Exception> {
    match AttemptOutcome(resp, FetchNothing)
    case Raised(e) => Some(e)
    case Returned(_) => None
  }

  /** The outer `except OperationalError` handler and the `finally` clause,
      for an attempt that holds connection c. */
  function Exit(c: ConnId, escaping: Option<Exception>): seq<Event> {
    (if escaping.Some? && IsOperationalError(escaping.value)
     then [ShowError(ConnectionError), Release(c, true)] else [])
    + [Release(c, false)]
  }

  /** The outer handler and the `finally` clause, whether or not a
      connection was taken. */
  function Handlers(conn: Option<ConnId>, escaping: Option<Exception>): seq<Event> {
    match conn
    case Some(c) => Exit(c, escaping)
    case None =>
      if escaping.Some? && IsOperationalError(escaping.value) then [ShowError(ConnectionError)] else []
  }

  /** What the inner handlers show for an exception raised by execute. */
  function InnerNotice(e: Exception): seq<Event> {
    if e.SerializationFailure? then []
    else if e.UniqueViolation? then [ShowError(DuplicateEntry)]
    else [ShowError(QueryFailed)]
  }

  /** The events inside the `try` of an attempt, after the connection is taken. */
  function Body<Row>(c: ConnId, resp: Response<Row>, fetch: Fetch): seq<Event> {
    match resp
    case AcquireFails(_) => []
    case SetupFails(_) => []
    case ExecuteFails(e) => [SetSerializable(c), Rollback(c)] + InnerNotice(e)
    case Executes(_) => [SetSerializable(c)] + (if fetch.FetchNothing? then [Commit(c)] else [])
  }

  /** The events of one attempt that is given connection number c. */
  function AttemptTrace<Row>(c: ConnId, resp: Response<Row>, fetch: Fetch): seq<Event> {
    if resp.AcquireFails? then
      Handlers(None, Some(resp.error))
    else
      [Acquire(c)] + Body(c, resp, fetch) + Exit(c, Escaping(resp))
  }

  /** Replayed against psycopg2's keyed pool, an attempt meets an unkeyed
      release exactly when it holds a connection and an OperationalError
      escapes: the close=True putconn of the outer handler has already
      dropped the key when `finally` puts the connection back
      (db/db_utils.py:71-79). Otherwise the pool ends as it began. */
  lemma SecondReleaseUnkeyed<Row>(held: set<ConnId>, c: ConnId, resp: Response<Row>, fetch: Fetch)
    requires c !in held
    ensures var after := Lent(Some(held), AttemptTrace(c, resp, fetch));
      && (after.None? <==> !resp.AcquireFails? && Escaping(resp).Some? && IsOperationalError(Escaping(resp).value))
      && (after.Some? ==> after == Some(held))
  {
    var trace := AttemptTrace(c, resp, fetch);
    if resp.AcquireFails? {
      LentQuiet(Some(held), trace);
    } else {
      var body := Body(c, resp, fetch);
      LentAppend(Some(held), [Acquire(c)] + body, Exit(c, Escaping(resp)));
      LentAppend(Some(held), [Acquire(c)], body);
      assert Lent(Some(held), [Acquire(c)]) == Some(held + {c});
      LentQuiet(Some(held + {c}), body);
      assert held + {c} - {c} == held;
      if Escaping(resp).Some? && IsOperationalError(Escaping(resp).value) {
        assert Exit(c, Escaping(resp)) == [ShowError(ConnectionError), Release(c, true), Release(c, false)];
        ClosedThenReleased(held, c, ShowError(ConnectionError));
      } else {
        assert Exit(c, Escaping(resp)) == [Release(c, false)];
      }
    }
  }

  /**
   * One attempt of execute_query (db/db_utils.py:44-79), following its
   * try/except structure: `raised` is the exception in flight, `conn` the
   * connection taken from the pool, if any.
   */
  method ExecuteAttempt<Row>(rt: Runtime, resp: Response<Row>, fetch: Fetch)
    returns (r: Outcome<QueryValue<Row>>)
    modifies rt
    ensures r == AttemptOutcome(resp, fetch)
    ensures rt.log == old(rt.log) + AttemptTrace(old(rt.next), resp, fetch)
    ensures rt.next == old(rt.next) + Uses(resp)
  {
    if resp.AcquireFails? {
      Finish(rt, None, Some(resp.error));
      r := Raised(resp.error);
      return;
    }
    ghost var log0 := rt.log;
    var c := rt.GetConn();
    var raised: Option<Exception>;
    var value: QueryValue<Row> := NoRow;
    if resp.SetupFails? {
      raised := Some(resp.error);
      assert Body(c, resp, fetch) == [];
    } else {
      raised, value := RunStatement(rt, c, resp, fetch);
    }
    Finish(rt, Some(c), raised);
    AppendAssoc(log0, [Acquire(c)], Body(c, resp, fetch));
    AppendAssoc(log0, [Acquire(c)] + Body(c, resp, fetch), Exit(c, Escaping(resp)));
    r := if raised.Some? then Raised(raised.value) else Returned(value);
  }

  /** The outer `except psycopg2.OperationalError` handler and the `finally`
      clause of an attempt (db/db_utils.py:71-79). */
  method Finish(rt: Runtime, conn: Option<ConnId>, raised: Option<Exception>)
    modifies rt
    ensures rt.log == old(rt.log) + Handlers(conn, raised) && rt.next == old(rt.next)
  {
    if raised.Some? && IsOperationalError(raised.value) {
      rt.ShowError(ConnectionError);
      if conn.Some? {
        rt.PutConn(conn.value, true);
      }
    }
    if conn.Some? {
      rt.PutConn(conn.value, false);
    }
  }

  /** The inner `try` of an attempt (db/db_utils.py:49-70): run the statement
      on connection c, fetch or commit, and handle what execute raises. */
  method RunStatement<Row>(rt: Runtime, c: ConnId, resp: Response<Row>, fetch: Fetch)
    returns (raised: Option<Exception>, value: QueryValue<Row>)
    requires resp.ExecuteFails? || resp.Executes?
    modifies rt
    ensures raised == Escaping(resp)
    ensures raised.None? ==> AttemptOutcome(resp, fetch) == Returned(value)
    ensures rt.log == old(rt.log) + Body(c, resp, fetch) && rt.next == old(rt.next)
  {
    rt.SetSerializable(c);
    value := NoRow;
    raised := None;
    if resp.Executes? {
      match fetch
      case FetchAll => value := AllRows(resp.rows);
      case FetchOne => value := if resp.rows == [] then NoRow else OneRow(resp.rows[0]);
      case FetchNothing => rt.Commit(c);
    } else {
      var e := resp.error;
      if e.SerializationFailure? {
        rt.Rollback(c);
        raised := Some(e);
      } else if e.UniqueViolation? {
        rt.Rollback(c);
        rt.ShowError(DuplicateEntry);
      } else {
        rt.Rollback(c);
        rt.ShowError(QueryFailed);
        raised := Some(e);
      }
    }
  }

  // ----- Properties of one attempt -----

  lemma ExitTally(c: ConnId, escaping: Option<Exception>, k: PoolKind)
    ensures var closes := escaping.Some? && IsOperationalError(escaping.value);
      Tally(Exit(c, escaping), k) ==
        match k
        case Acquires => multiset{}
        case Releases => if closes then multiset{c, c} else multiset{c}
        case ClosingReleases => if closes then multiset{c} else multiset{}
  {
    var last := [Release(c, false)];
    TallyOne(Release(c, false), k);
    if escaping.Some? && IsOperationalError(escaping.value) {
      var handler := [ShowError(ConnectionError), Release(c, true)];
      TallyAppend([ShowError(ConnectionError)], [Release(c, true)], k);
      TallyOne(ShowError(ConnectionError), k);
      TallyOne(Release(c, true), k);
      assert handler == [ShowError(ConnectionError)] + [Release(c, true)];
      TallyAppend(handler, last, k);
    } else {
      assert Exit(c, escaping) == [] + last;
    }
  }

  /** Whether an attempt that took a connection gives it back with close=True:
      exactly when an OperationalError (or a SerializationFailure) escapes. */
  predicate ClosesConnection<Row>(resp: Response<Row>) {
    !resp.AcquireFails? && Escaping(resp).Some? && IsOperationalError(Escaping(resp).value)
  }

  lemma AcquiredTally<Row>(c: ConnId, resp: Response<Row>, fetch: Fetch, k: PoolKind)
    requires !resp.AcquireFails?
    ensures Tally(AttemptTrace(c, resp, fetch), k)
         == Tally([Acquire(c)], k) + Tally(Exit(c, Escaping(resp)), k)
  {
    var body := Body(c, resp, fetch);
    var exit := Exit(c, Escaping(resp));
    assert Tally(body, k) == multiset{} by {
      TallyQuiet(body, k);
    }
    assert AttemptTrace(c, resp, fetch) == ([Acquire(c)] + body) + exit;
    TallyAppend([Acquire(c)], body, k);
    TallyAppend([Acquire(c)] + body, exit, k);
  }

  /** The connection an attempt takes is handed back on every exit path: once
      in `finally`, and once before that, with close=True, when an
      OperationalError escapes (db/db_utils.py:71-79). */
  lemma AttemptReturnsConnection<Row>(c: ConnId, resp: Response<Row>, fetch: Fetch)
    ensures var t := AttemptTrace(c, resp, fetch);
      && Tally(t, Acquires) == (if resp.AcquireFails? then multiset{} else multiset{c})
      && Tally(t, ClosingReleases) == (if ClosesConnection(resp) then multiset{c} else multiset{})
      && Tally(t, Releases) == (if resp.AcquireFails? then multiset{}
                               else if ClosesConnection(resp) then multiset{c, c} else multiset{c})
      && PoolPaired(t)
  {
    AttemptTally(c, resp, fetch, Acquires);
    AttemptTally(c, resp, fetch, Releases);
    AttemptTally(c, resp, fetch, ClosingReleases);
    PairedFromTallies(AttemptTrace(c, resp, fetch), c, !resp.AcquireFails?, ClosesConnection(resp));
  }

  /** A log that takes c at most once, and releases it once more for each
      closing release, is paired. */
  lemma PairedFromTallies(t: seq<Event>, c: ConnId, takes: bool, closes: bool)
    requires closes ==> takes
    requires Tally(t, Acquires) == (if takes then multiset{c} else multiset{})
    requires Tally(t, ClosingReleases) == (if closes then multiset{c} else multiset{})
    requires Tally(t, Releases) == (if !takes then multiset{} else if closes then multiset{c, c} else multiset{c})
    ensures PoolPaired(t)
  {
    if takes && closes {
      assert multiset{c, c} == multiset{c} + multiset{c};
    }
  }

  /** The events of kind k in one attempt. */
  lemma AttemptTally<Row>(c: ConnId, resp: Response<Row>, fetch: Fetch, k: PoolKind)
    ensures Tally(AttemptTrace(c, resp, fetch), k) ==
      if resp.AcquireFails? then multiset{}
      else match k
        case Acquires => multiset{c}
        case Releases => if ClosesConnection(resp) then multiset{c, c} else multiset{c}
        case ClosingReleases => if ClosesConnection(resp) then multiset{c} else multiset{}
  {
    if resp.AcquireFails? {
      TallyQuiet(AttemptTrace(c, resp, fetch), k);
    } else {
      AcquiredTally(c, resp, fetch, k);
      TallyOne(Acquire(c), k);
      ExitTally(c, Escaping(resp), k);
    }
  }

  /** fetch='all' and fetch='one' return before conn.commit(); any other
      fetch value commits, and only a statement that ran can commit
      (db/db_utils.py:52-56). */
  lemma AttemptCommits<Row>(c: ConnId, resp: Response<Row>, fetch: Fetch)
    ensures Commit(c) in AttemptTrace(c, resp, fetch) <==> resp.Executes? && fetch.FetchNothing?
    ensures forall i | 0 <= i < |AttemptTrace(c, resp, fetch)| ::
      AttemptTrace(c, resp, fetch)[i].Commit? ==> AttemptTrace(c, resp, fetch)[i] == Commit(c)
  {
  }

  /** Everything execute raises is rolled back; nothing else is
      (db/db_utils.py:57-70). */
  lemma AttemptRollsBack<Row>(c: ConnId, resp: Response<Row>, fetch: Fetch)
    ensures Rollback(c) in AttemptTrace(c, resp, fetch) <==> resp.ExecuteFails?
  {
  }

  /** A UniqueViolation is swallowed: the attempt returns None and tells the
      user "Duplicate entry"; every other exception from execute propagates
      (db/db_utils.py:57-70). */
  lemma AttemptErrorHandling<Row>(c: ConnId, resp: Response<Row>, fetch: Fetch)
    requires resp.ExecuteFails?
    ensures resp.error.UniqueViolation? ==>
      && AttemptOutcome(resp, fetch) == Returned(NoRow)
      && ShowError(DuplicateEntry) in AttemptTrace(c, resp, fetch)
    ensures !resp.error.UniqueViolation? ==> AttemptOutcome(resp, fetch) == Raised(resp.error)
  {
  }

  // ----- The retry loop -----

  /** Attempt number k+1 of execute_query, given connection number c, when
      the database answers attempt k+1 with responses(k). */
  function Call<Row>(responses: nat -> Response<Row>, fetch: Fetch): (nat, ConnId) -> Attempt<QueryValue<Row>> {
    (k: nat, c: ConnId) => Attempt(AttemptOutcome(responses(k), fetch), AttemptTrace(c, responses(k), fetch), Uses(responses(k)))
  }

  /** The whole decorated execute_query call, the pool handing out
      connection number `next` first. */
  function Run<Row>(responses: nat -> Response<Row>, fetch: Fetch, next: ConnId): RunResult<QueryValue<Row>> {
    Tenacity.Run(Config, Call(responses, fetch), next, 1)
  }

  /**
   * execute_query with its @retry decorator (db/db_utils.py:41-79): attempt
   * n uses the database's response responses(n-1); `waits` are the seconds
   * slept between attempts.
   */
  method ExecuteQuery<Row>(rt: Runtime, responses: nat -> Response<Row>, fetch: Fetch)
    returns (r: Final<QueryValue<Row>>, waits: seq<nat>)
    modifies rt
    ensures var run := Run(responses, fetch, old(rt.next));
      && r == run.final && waits == run.waits
      && rt.log == old(rt.log) + run.trace && rt.next == run.next
  {
    ghost var call := Call(responses, fetch);
    ghost var run := Tenacity.Run(Config, call, rt.next, 1);
    ghost var log0 := rt.log;
    var attempt := 1;
    waits := [];
    StartResumes(Config, call, log0, rt.next);
    while true
      invariant Resumes(run, Config, call, log0, waits, rt.log, rt.next, attempt)
      decreases Config.stopAfter - attempt
    {
      ghost var before := rt.log;
      ghost var n := rt.next;
      var o := ExecuteAttempt(rt, responses(attempt - 1), fetch);
      assert call(attempt - 1, n) == Attempt(o, rt.log[|before|..], rt.next - n);
      match Decide(Config, attempt, o)
      case Return(v) =>
        StopResumes(run, Config, call, log0, waits, before, n, attempt, rt.log, rt.next);
        r := Success(v);
        return;
      case Reraise(e) =>
        StopResumes(run, Config, call, log0, waits, before, n, attempt, rt.log, rt.next);
        r := Failure(e);
        return;
      case GiveUp(e) =>
        StopResumes(run, Config, call, log0, waits, before, n, attempt, rt.log, rt.next);
        r := RetryError(e);
        return;
      case RetryAfter(w) =>
        RetryResumes(run, Config, call, log0, waits, before, n, attempt, w, rt.log, rt.next);
        waits := waits + [w];
        attempt := attempt + 1;
    }
  }

  // ----- Properties of the retry loop -----

  /** retry_if_exception_type((OperationalError, DatabaseError)) retries
      exactly the database errors: OperationalError is itself one, and
      PoolError and TypeError are not (db/db_utils.py:41-42). */
  lemma ConfigRetriesDatabaseErrors(e: Exception)
    ensures Retryable(Config, e) <==> IsDatabaseError(e)
  {
    assert Config.retryOn[1..][1..] == [];
  }

  /** wait_exponential(multiplier=1, min=1, max=10) sleeps 1, 2, 4 and 8
      seconds after the first four failed attempts. */
  lemma ConfigSchedule()
    ensures Schedule(Config, 1, 4) == [1, 2, 4, 8]
  {
  }

  /** A call of execute_query makes one to five attempts, records what each
      returned or raised, and sleeps 1, 2, 4, then 8 seconds between them. */
  lemma CallAttempts<Row>(responses: nat -> Response<Row>, fetch: Fetch, n: ConnId)
    ensures var r := Run(responses, fetch, n);
      && 1 <= r.attempts <= 5
      && r.waits == [1, 2, 4, 8][..r.attempts - 1]
      && |r.outcomes| == r.attempts
      && (forall i | 0 <= i < r.attempts :: r.outcomes[i] == AttemptOutcome(responses(i), fetch))
  {
    var call := Call(responses, fetch);
    RunLength(Config, call, n, 1);
    RunWaits(Config, call, n, 1);
    RunOutcomesFollow(Config, call, n, 1, (k: nat) => AttemptOutcome(responses(k), fetch));
    var r := Run(responses, fetch, n);
    ConfigSchedule();
    ScheduleStarts(Config, 1, 4, r.attempts - 1);
  }

  /** Whatever the attempts return or raise, every attempt before the last
      raised a database error: nothing else is retried. */
  lemma CallRetriesOnlyDatabaseErrors<V>(call: (nat, ConnId) -> Attempt<V>, n: ConnId)
    ensures var r := Tenacity.Run(Config, call, n, 1);
      forall i | 0 <= i < |r.outcomes| - 1 :: r.outcomes[i].Raised? && IsDatabaseError(r.outcomes[i].error)
  {
    RunRetriedBeforeLast(Config, call, n, 1);
    RetriedAreDatabaseErrors(Tenacity.Run(Config, call, n, 1).outcomes);
  }

  lemma RetriedAreDatabaseErrors<V>(os: seq<Outcome<V>>)
    requires forall i | 0 <= i < |os| - 1 :: Retried(Config, os[i])
    ensures forall i | 0 <= i < |os| - 1 :: os[i].Raised? && IsDatabaseError(os[i].error)
  {
    forall i | 0 <= i < |os| - 1
      ensures os[i].Raised? && IsDatabaseError(os[i].error)
    {
      ConfigRetriesDatabaseErrors(os[i].error);
    }
  }

  /** The last attempt decides the call: its value is returned, an exception
      that is not a database error propagates as it is, and a database error
      on the fifth attempt becomes RetryError. */
  lemma CallConcludes<Row>(responses: nat -> Response<Row>, fetch: Fetch, n: ConnId)
    ensures var r := Run(responses, fetch, n);
      && r.outcomes != []
      && var last := r.outcomes[|r.outcomes| - 1];
      match r.final
      case Success(v) => last == Returned(v)
      case Failure(e) => last == Raised(e) && !IsDatabaseError(e)
      case RetryError(e) => last == Raised(e) && IsDatabaseError(e) && r.attempts == 5
  {
    RunConcludes(Config, Call(responses, fetch), n, 1);
    ConcludesUnderConfig(Run(responses, fetch, n));
  }

  lemma ConcludesUnderConfig<V>(r: RunResult<V>)
    requires r.outcomes != [] && Concludes(Config, r.final, r.outcomes[|r.outcomes| - 1], r.attempts)
    ensures var last := r.outcomes[|r.outcomes| - 1];
      match r.final
      case Success(v) => last == Returned(v)
      case Failure(e) => last == Raised(e) && !IsDatabaseError(e)
      case RetryError(e) => last == Raised(e) && IsDatabaseError(e) && r.attempts == 5
  {
    var last := r.outcomes[|r.outcomes| - 1];
    if last.Raised? {
      ConfigRetriesDatabaseErrors(last.error);
    }
  }

  /** Every connection a call of execute_query takes from the pool is handed
      back, over all its attempts. */
  lemma CallReturnsConnections<Row>(responses: nat -> Response<Row>, fetch: Fetch, n: ConnId)
    ensures PoolPaired(Run(responses, fetch, n).trace)
  {
    var call := Call(responses, fetch);
    forall k, c ensures PoolPaired(call(k, c).trace) {
      AttemptReturnsConnection(c, responses(k), fetch);
    }
    forall t, u | PoolPaired(t) && PoolPaired(u) ensures PoolPaired(t + u) {
      PoolPairedAppend(t, u);
    }
    RunKeeps(Config, call, n, 1, t => PoolPaired(t));
  }

  /** No commit without a statement that ran and did not fetch. */
  ghost predicate NoCommit(t: seq<Event>) {
    forall i | 0 <= i < |t| :: !t[i].Commit?
  }

  lemma NoCommitAppend(t: seq<Event>, u: seq<Event>)
    requires NoCommit(t) && NoCommit(u)
    ensures NoCommit(t + u)
  {
    forall i | 0 <= i < |t + u| ensures !(t + u)[i].Commit? {
      if i >= |t| {
        assert (t + u)[i] == u[i - |t|];
      }
    }
  }

  /** A query that fetches rows is never committed, on any attempt. */
  lemma CallNeverCommitsFetches<Row>(responses: nat -> Response<Row>, fetch: Fetch, n: ConnId)
    requires !fetch.FetchNothing?
    ensures NoCommit(Run(responses, fetch, n).trace)
  {
    var call := Call(responses, fetch);
    forall k, c ensures NoCommit(call(k, c).trace) {
      AttemptCommits(c, responses(k), fetch);
    }
    forall t, u | NoCommit(t) && NoCommit(u) ensures NoCommit(t + u) {
      NoCommitAppend(t, u);
    }
    RunKeeps(Config, call, n, 1, t => NoCommit(t));
  }

  /** When every attempt raises a database error (a database that stays
      unreachable, say), the call sleeps 1, 2, 4 and 8 seconds and then
      raises RetryError wrapping the fifth attempt's exception. */
  lemma PersistentDatabaseErrorGivesUp<Row>(responses: nat -> Response<Row>, fetch: Fetch, n: ConnId)
    requires forall k | 0 <= k < 5 ::
      AttemptOutcome(responses(k), fetch).Raised? && IsDatabaseError(AttemptOutcome(responses(k), fetch).error)
    ensures var r := Run(responses, fetch, n);
      && r.attempts == 5 && r.waits == [1, 2, 4, 8]
      && r.final == RetryError(AttemptOutcome(responses(4), fetch).error)
  {
    CallAttempts(responses, fetch, n);
    CallConcludes(responses, fetch, n);
  }

  /** A first attempt that breaks a unique constraint ends the call at once:
      execute_query returns None after telling the user "Duplicate entry". */
  lemma DuplicateIsNotRetried<Row>(responses: nat -> Response<Row>, fetch: Fetch, n: ConnId)
    requires responses(0) == ExecuteFails(UniqueViolation)
    ensures var r := Run(responses, fetch, n);
      && r.final == Success(NoRow) && r.attempts == 1 && r.waits == []
      && ShowError(DuplicateEntry) in r.trace
  {
    RunStops(Config, Call(responses, fetch), n, 1);
  }

  /** A first attempt that raises something other than a database error (an
      exhausted pool, a bad parameter) propagates unchanged, without retry. */
  lemma NonDatabaseErrorPropagates<Row>(responses: nat -> Response<Row>, fetch: Fetch, n: ConnId)
    requires AttemptOutcome(responses(0), fetch).Raised?
    requires !IsDatabaseError(AttemptOutcome(responses(0), fetch).error)
    ensures var r := Run(responses, fetch, n);
      && r.final == Failure(AttemptOutcome(responses(0), fetch).error) && r.attempts == 1 && r.waits == []
  {
    ConfigRetriesDatabaseErrors(AttemptOutcome(responses(0), fetch).error);
    RunStops(Config, Call(responses, fetch), n, 1);
  }

  /** The first attempt that returns ends a call that fetched all rows with
      a list of rows, or with None after a swallowed UniqueViolation. */
  lemma CallFetchingAll<Row>(responses: nat -> Response<Row>, n: ConnId)
    ensures var f := Run(responses, FetchAll, n).final;
      f.Success? ==> f.value.AllRows? || f.value.NoRow?
  {
    CallAttempts(responses, FetchAll, n);
    CallConcludes(responses, FetchAll, n);
  }

  /** The same for a call that fetched one row: one row, or None. */
  lemma CallFetchingOne<Row>(responses: nat -> Response<Row>, n: ConnId)
    ensures var f := Run(responses, FetchOne, n).final;
      f.Success? ==> f.value.OneRow? || f.value.NoRow?
  {
    CallAttempts(responses, FetchOne, n);
    CallConcludes(responses, FetchOne, n);
  }

  // ----- get_skus_grouped -----

  /** A row of the skus table. */
  datatype Sku = Sku(id: nat, category: string, name: string)

  /** A dict from category to the list of its rows; Python dicts keep their
      keys in insertion order, which `categories` records. */
  datatype SkuGroups = SkuGroups(categories: seq<string>, byCategory: map<string, seq<Sku>>)

  /** The rows of category c, in query order. */
  function InCategory(skus: seq<Sku>, c: string): (r: seq<Sku>)
    ensures |r| <= |skus|
  {
    if skus == [] then []
    else
      var last := skus[|skus| - 1];
      InCategory(skus[..|skus| - 1], c) + (if last.category == c then [last] else [])
  }

  /** The categories of the rows, each once, in the order they first appear. */
  function FirstSeen(skus: seq<Sku>): seq<string> {
    if skus == [] then []
    else
      var seen := FirstSeen(skus[..|skus| - 1]);
      var c := skus[|skus| - 1].category;
      if c in seen then seen else seen + [c]
  }

  /** The dict get_skus_grouped builds, row by row. */
  function Grouped(skus: seq<Sku>): SkuGroups {
    if skus == [] then SkuGroups([], map[])
    else
      var g := Grouped(skus[..|skus| - 1]);
      var x := skus[|skus| - 1];
      if x.category in g.byCategory then
        g.(byCategory := g.byCategory[x.category := g.byCategory[x.category] + [x]])
      else
        SkuGroups(g.categories + [x.category], g.byCategory[x.category := [x]])
  }

  /** The loop of get_skus_grouped (db/db_utils.py:203-209), on the rows the
      query returned. */
  method GroupByCategory(skus: seq<Sku>) returns (g: SkuGroups)
    ensures g == Grouped(skus)
  {
    var categories: seq<string> := [];
    var grouped: map<string, seq<Sku>> := map[];
    for i := 0 to |skus|
      invariant SkuGroups(categories, grouped) == Grouped(skus[..i])
    {
      var sku := skus[i];
      var cat := sku.category;
      assert skus[..i + 1][..i] == skus[..i];
      ghost var before := SkuGroups(categories, grouped);
      if cat !in grouped {
        grouped := grouped[cat := []];
        categories := categories + [cat];
        assert grouped[cat] + [sku] == [sku];
      }
      grouped := grouped[cat := grouped[cat] + [sku]];
      assert SkuGroups(categories, grouped) == Grouped(skus[..i + 1]);
    }
    assert skus[..|skus|] == skus;
    g := SkuGroups(categories, grouped);
  }

  /** The dict's keys, in order, are the categories of the rows, each once,
      in the order they are first seen. */
  lemma {:induction false} GroupedKeys(skus: seq<Sku>)
    ensures var g := Grouped(skus);
      && g.categories == FirstSeen(skus)
      && g.byCategory.Keys == (set c | c in g.categories)
    decreases |skus|
  {
    if skus != [] {
      GroupedKeys(skus[..|skus| - 1]);
    }
  }

  /** A category is listed exactly when some row has it. */
  lemma {:induction false} FirstSeenMembers(skus: seq<Sku>, c: string)
    ensures c in FirstSeen(skus) <==> exists i | 0 <= i < |skus| :: skus[i].category == c
    decreases |skus|
  {
    if skus != [] {
      var init := skus[..|skus| - 1];
      FirstSeenMembers(init, c);
      if exists i | 0 <= i < |init| :: init[i].category == c {
        var i :| 0 <= i < |init| && init[i].category == c;
        assert skus[i] == init[i];
      }
      if exists i | 0 <= i < |skus| :: skus[i].category == c {
        var i :| 0 <= i < |skus| && skus[i].category == c;
        if i < |init| {
          assert init[i] == skus[i];
        }
      }
    }
  }

  /** No element occurs twice. */
  ghost predicate Distinct<T>(s: seq<T>) {
    forall i, j | 0 <= i < j < |s| :: s[i] != s[j]
  }

  /** No category is listed twice. */
  lemma {:induction false} FirstSeenDistinct(skus: seq<Sku>)
    ensures Distinct(FirstSeen(skus))
    decreases |skus|
  {
    if skus != [] {
      var seen := FirstSeen(skus[..|skus| - 1]);
      FirstSeenDistinct(skus[..|skus| - 1]);
      var c := skus[|skus| - 1].category;
      if c !in seen {
        var cs := seen + [c];
        forall i, j | 0 <= i < j < |cs| ensures cs[i] != cs[j] {
          assert cs[i] == seen[i];
          if j < |seen| {
            assert cs[j] == seen[j];
          } else {
            assert cs[j] == c && seen[i] in seen;
          }
        }
      }
    }
  }

  /** The keys of the dict are exactly the distinct categories of the rows:
      no category is missing, none is invented, none appears twice. */
  lemma GroupedCategories(skus: seq<Sku>, c: string)
    ensures c in Grouped(skus).byCategory <==> exists i | 0 <= i < |skus| :: skus[i].category == c
    ensures Distinct(Grouped(skus).categories)
  {
    GroupedKeys(skus);
    FirstSeenMembers(skus, c);
    FirstSeenDistinct(skus);
  }

  lemma {:induction false} InCategoryAbsent(skus: seq<Sku>, c: string)
    requires forall i | 0 <= i < |skus| :: skus[i].category != c
    ensures InCategory(skus, c) == []
    decreases |skus|
  {
    if skus != [] {
      InCategoryAbsent(skus[..|skus| - 1], c);
    }
  }

  /** Each key holds exactly the rows of its category, in query order. */
  lemma {:induction false} GroupedRows(skus: seq<Sku>)
    ensures var g := Grouped(skus);
      forall c | c in g.byCategory :: g.byCategory[c] == InCategory(skus, c)
    decreases |skus|
  {
    if skus != [] {
      var init := skus[..|skus| - 1];
      var x := skus[|skus| - 1];
      GroupedRows(init);
      var g := Grouped(init);
      if x.category !in g.byCategory {
        GroupedCategories(init, x.category);
        InCategoryAbsent(init, x.category);
      }
    }
  }

  /** The lists of the dict, taken in key order and concatenated. */
  function Flatten(categories: seq<string>, byCategory: map<string, seq<Sku>>): seq<Sku>
    requires forall c | c in categories :: c in byCategory
  {
    if categories == [] then []
    else Flatten(categories[..|categories| - 1], byCategory) + byCategory[categories[|categories| - 1]]
  }

  lemma {:induction false} FlattenOther(categories: seq<string>, m: map<string, seq<Sku>>, c: string, v: seq<Sku>)
    requires forall d | d in categories :: d in m
    requires c !in categories
    ensures Flatten(categories, m[c := v]) == Flatten(categories, m)
    decreases |categories|
  {
    if categories != [] {
      FlattenOther(categories[..|categories| - 1], m, c, v);
    }
  }

  lemma {:induction false} FlattenAppend(categories: seq<string>, m: map<string, seq<Sku>>, c: string, x: Sku)
    requires forall d | d in categories :: d in m
    requires c in categories
    requires Distinct(categories)
    ensures multiset(Flatten(categories, m[c := m[c] + [x]])) == multiset(Flatten(categories, m)) + multiset{x}
    decreases |categories|
  {
    var init := categories[..|categories| - 1];
    var last := categories[|categories| - 1];
    if last == c {
      assert c !in init;
      FlattenOther(init, m, c, m[c] + [x]);
    } else {
      assert c in init;
      FlattenAppend(init, m, c, x);
    }
  }

  lemma FlattenNew(categories: seq<string>, m: map<string, seq<Sku>>, c: string, x: Sku)
    requires forall d | d in categories :: d in m
    requires c !in categories
    ensures multiset(Flatten(categories + [c], m[c := [x]])) == multiset(Flatten(categories, m)) + multiset{x}
  {
    assert (categories + [c])[..|categories + [c]| - 1] == categories;
    FlattenOther(categories, m, c, [x]);
  }

  /** Every row is placed exactly once: the lists of the dict together hold
      the rows of the query, each as often as the query returned it. */
  lemma {:induction false} GroupedKeepsEveryRow(skus: seq<Sku>)
    ensures var g := Grouped(skus);
      && (forall c | c in g.categories :: c in g.byCategory)
      && multiset(Flatten(g.categories, g.byCategory)) == multiset(skus)
    decreases |skus|
  {
    if skus != [] {
      var init := skus[..|skus| - 1];
      var x := skus[|skus| - 1];
      GroupedKeepsEveryRow(init);
      assert skus == init + [x];
      GroupedStep(init, x);
    }
  }

  /** One more row adds exactly that row to the lists of the dict. */
  lemma GroupedStep(init: seq<Sku>, x: Sku)
    requires forall c | c in Grouped(init).categories :: c in Grouped(init).byCategory
    ensures var g := Grouped(init);
      var g' := Grouped(init + [x]);
      && (forall c | c in g'.categories :: c in g'.byCategory)
      && multiset(Flatten(g'.categories, g'.byCategory)) == multiset(Flatten(g.categories, g.byCategory)) + multiset{x}
  {
    var skus := init + [x];
    assert skus[..|skus| - 1] == init;
    GroupedKeys(skus);
    GroupedKeys(init);
    FirstSeenDistinct(init);
    var g := Grouped(init);
    if x.category in g.byCategory {
      FlattenAppend(g.categories, g.byCategory, x.category, x);
    } else {
      FlattenNew(g.categories, g.byCategory, x.category, x);
    }
  }

  /** The rows in the order a page visits them when it iterates over the
      dict's items(): category by category in key order, and within a
      category in query order. */
  function Visited(groups: SkuGroups): seq<Sku>
    requires forall c | c in groups.categories :: c in groups.byCategory
  {
    Flatten(groups.categories, groups.byCategory)
  }

  lemma VisitedStep(groups: SkuGroups, i: nat)
    requires forall c | c in groups.categories :: c in groups.byCategory
    requires i < |groups.categories|
    ensures forall c | c in groups.categories[..i] :: c in groups.byCategory
    ensures forall c | c in groups.categories[..i + 1] :: c in groups.byCategory
    ensures Flatten(groups.categories[..i + 1], groups.byCategory)
         == Flatten(groups.categories[..i], groups.byCategory) + groups.byCategory[groups.categories[i]]
  {
    assert groups.categories[..i + 1][..i] == groups.categories[..i];
  }

  /**
   * get_skus_grouped (db/db_utils.py:201-209): the rows of the skus query,
   * grouped by category. When execute_query returns None instead of a list
   * (a swallowed UniqueViolation), iterating over it raises TypeError.
   */
  method GetSkusGrouped(rt: Runtime, responses: nat -> Response<Sku>) returns (r: Final<SkuGroups>)
    modifies rt
    ensures var run := Run(responses, FetchAll, old(rt.next));
      && rt.log == old(rt.log) + run.trace && rt.next == run.next
      && match run.final
         case Success(AllRows(rows)) => r == Success(Grouped(rows))
         case Success(_) => r == Failure(TypeError)
         case Failure(e) => r == Failure(e)
         case RetryError(e) => r == RetryError(e)
  {
    var q, slept := ExecuteQuery(rt, responses, FetchAll);
    match q
    case Success(AllRows(rows)) =>
      var g := GroupByCategory(rows);
      r := Success(g);
    case Success(_) =>
      r := Failure(TypeError);
    case Failure(e) =>
      r := Failure(e);
    case RetryError(e) =>
      r := RetryError(e);
  }

  // ----- get_locations_by_user_region -----

  /** The merchandiser_region column of a users row. */
  datatype UserRegion = UserRegion(merchandiserRegion: Option<string>)

  /** A row of the locations query: location id and name, and region name. */
  datatype RegionLocation = RegionLocation(id: nat, name: string, regionName: string)

  /** The region to look locations up for: none when the user row is
      missing or its merchandiser_region is NULL or empty. */
  function RegionOf(user: QueryValue<UserRegion>): (region: Option<string>)
    ensures region.Some? <==>
      user.OneRow? && user.row.merchandiserRegion.Some? && user.row.merchandiserRegion.value != ""
    ensures region.Some? ==> region.value == user.row.merchandiserRegion.value
  {
    match user
    case OneRow(UserRegion(Some(name))) => if name == "" then None else Some(name)
    case _ => None
  }

  /**
   * get_locations_by_user_region (db/db_utils.py:85-95): look up the user's
   * region, then the locations of that region. The database answers the
   * second query, which depends on the region name, with
   * locations(region)(k) on attempt k+1.
   */
  method GetLocationsByUserRegion(rt: Runtime, users: nat -> Response<UserRegion>,
                                  locations: string -> (nat -> Response<RegionLocation>))
    returns (r: Final<QueryValue<RegionLocation>>)
    modifies rt
    ensures var first := Run(users, FetchOne, old(rt.next));
      match first.final
      case Success(user) =>
        if RegionOf(user).None? then
          r == Success(AllRows([])) && rt.log == old(rt.log) + first.trace && rt.next == first.next
        else
          var second := Run(locations(RegionOf(user).value), FetchAll, first.next);
          && r == second.final
          && rt.log == old(rt.log) + first.trace + second.trace && rt.next == second.next
      case _ =>
        r == Reraised(first.final) && rt.log == old(rt.log) + first.trace && rt.next == first.next
  {
    var user, slept := ExecuteQuery(rt, users, FetchOne);
    if !user.Success? {
      r := Reraised(user);
      return;
    }
    var region := RegionOf(user.value);
    if region.None? {
      return Success(AllRows([]));
    }
    r, slept := ExecuteQuery(rt, locations(region.value), FetchAll);
  }
}
