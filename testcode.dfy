/**
 * testcode.py: an older execute_query (three attempts, retried only on
 * OperationalError, no serializable isolation, no special case for
 * duplicates) and an older POSM deployment page built on it.
 */
module Testcode {
  import opened Wrappers
  import opened Database
  import opened Tenacity
  import opened Seqs
  import Forms

  /** The decorator on this execute_query: at most 3 attempts, retried on
      OperationalError only, waits of 2^(n-1) seconds in [1, 10]. */
  const TestConfig: Policy := Policy(3, [OperationalErrorClass], 1, 1, 10)

  /** What one attempt returns or raises: every exception propagates. */
  function AttemptOutcome<Row>(resp: Response<Row>, fetch: Fetch): Outcome<QueryValue<Row>> {
    match resp
    case AcquireFails(e) => Raised(e)
    case SetupFails(e) => Raised(e)
    case ExecuteFails(e) => Raised(e)
    case Executes(rows) => Returned(Fetched(rows, fetch))
  }

  /** The exception that leaves the `with` block of an attempt, if any. */
  function Escaping<Row>(resp: Response<Row>): Option<Exception> {
    if resp.Executes? then None else Some(resp.error)
  }

  /** What the two outer handlers do with an escaping exception: an
      OperationalError hands the connection back closed, anything else
      (`except Exception`) rolls it back. */
  function Outer(conn: Option<ConnId>, escaping: Option<Exception>): seq<Event> {
    match escaping
    case None => []
    case Some(e) =>
      if IsOperationalError(e) then
        [ShowError(ConnectionError)] + (if conn.Some? then [Release(conn.value, true)] else [])
      else
        [ShowError(QueryFailed)] + (if conn.Some? then [Rollback(conn.value)] else [])
  }

  /** The outer handlers and the `finally` clause. */
  function Handlers(conn: Option<ConnId>, escaping: Option<Exception>): seq<Event> {
    Outer(conn, escaping) + (if conn.Some? then [Release(conn.value, false)] else [])
  }

  /** The events inside the `with` block: the inner `except TypeError`
      reports bad parameters before re-raising; a command commits. */
  function Body<Row>(c: ConnId, resp: Response<Row>, fetch: Fetch): seq<Event> {
    match resp
    case ExecuteFails(e) => if e.TypeError? then [ShowError(InvalidParameters)] else []
    case Executes(_) => if fetch.FetchNothing? then [Commit(c)] else []
    case _ => []
  }

  /** The events of one attempt that is given connection number c. */
  function AttemptTrace<Row>(c: ConnId, resp: Response<Row>, fetch: Fetch): seq<Event> {
    if resp.AcquireFails? then
      Handlers(None, Some(resp.error))
    else
      [Acquire(c)] + Body(c, resp, fetch) + Handlers(Some(c), Escaping(resp))
  }

  /** Replayed against psycopg2's keyed pool, an attempt meets an unkeyed
      release exactly when it holds a connection and an OperationalError
      escapes: the close=True putconn of the outer handler has already
      dropped the key when `finally` puts the connection back
      (testcode.py:43-57). Otherwise the pool ends as it began. */
  lemma SecondReleaseUnkeyed<Row>(held: set<ConnId>, c: ConnId, resp: Response<Row>, fetch: Fetch)
    requires c !in held
    ensures var after := Lent(Some(held), AttemptTrace(c, resp, fetch));
      && (after.None? <==> !resp.AcquireFails? && Escaping(resp).Some? && IsOperationalError(Escaping(resp).value))
      && (after.Some? ==> after == Some(held))
  {
    var trace := AttemptTrace(c, resp, fetch);
    if resp.AcquireFails? {
      LentQuiet(Some(held), trace);
    } else {
      var body := Body(c, resp, fetch);
      var exit := Handlers(Some(c), Escaping(resp));
      LentAppend(Some(held), [Acquire(c)] + body, exit);
      LentAppend(Some(held), [Acquire(c)], body);
      assert Lent(Some(held), [Acquire(c)]) == Some(held + {c});
      LentQuiet(Some(held + {c}), body);
      assert held + {c} - {c} == held;
      match Escaping(resp)
      case None =>
        assert exit == [Release(c, false)];
      case Some(e) =>
        if IsOperationalError(e) {
          assert exit == [ShowError(ConnectionError), Release(c, true), Release(c, false)];
          ClosedThenReleased(held, c, ShowError(ConnectionError));
        } else {
          assert exit == [ShowError(QueryFailed), Rollback(c), Release(c, false)];
          QuietThenReleased(held, c, ShowError(QueryFailed), Rollback(c));
        }
    }
  }

  /** One attempt of the variant execute_query (testcode.py:27-57). */
  method ExecuteAttempt<Row>(rt: Runtime, resp: Response<Row>, fetch: Fetch)
    returns (r: Outcome<QueryValue<Row>>)
    modifies rt
    ensures r == AttemptOutcome(resp, fetch)
    ensures rt.log == old(rt.log) + AttemptTrace(old(rt.next), resp, fetch)
    ensures rt.next == old(rt.next) + Uses(resp)
  {
    if resp.AcquireFails? {
      Finish(rt, None, Some(resp.error));
      r := Raised(resp.error);
      return;
    }
    ghost var log0 := rt.log;
    var c := rt.GetConn();
    var raised, value := RunStatement(rt, c, resp, fetch);
    Finish(rt, Some(c), raised);
    AppendAssoc(log0, [Acquire(c)], Body(c, resp, fetch));
    AppendAssoc(log0, [Acquire(c)] + Body(c, resp, fetch), Handlers(Some(c), Escaping(resp)));
    r := if raised.Some? then Raised(raised.value) else Returned(value);
  }

  /** The `with` block of an attempt (testcode.py:30-42): run the statement
      on connection c, report a TypeError, fetch or commit. */
  method RunStatement<Row>(rt: Runtime, c: ConnId, resp: Response<Row>, fetch: Fetch)
    returns (raised: Option<Exception>, value: QueryValue<Row>)
    requires !resp.AcquireFails?
    modifies rt
    ensures raised == Escaping(resp)
    ensures raised.None? ==> AttemptOutcome(resp, fetch) == Returned(value)
    ensures rt.log == old(rt.log) + Body(c, resp, fetch) && rt.next == old(rt.next)
  {
    value := NoRow;
    raised := None;
    if resp.Executes? {
      match fetch
      case FetchAll => value := AllRows(resp.rows);
      case FetchOne => value := if resp.rows == [] then NoRow else OneRow(resp.rows[0]);
      case FetchNothing => rt.Commit(c);
    } else {
      if resp.ExecuteFails? && resp.error.TypeError? {
        rt.ShowError(InvalidParameters);
      }
      raised := Some(resp.error);
    }
  }

  /** The handlers `except psycopg2.OperationalError`, `except Exception`
      and the `finally` clause (testcode.py:43-57). */
  method Finish(rt: Runtime, conn: Option<ConnId>, raised: Option<Exception>)
    modifies rt
    ensures rt.log == old(rt.log) + Handlers(conn, raised) && rt.next == old(rt.next)
  {
    if raised.Some? {
      if IsOperationalError(raised.value) {
        rt.ShowError(ConnectionError);
        if conn.Some? {
          rt.PutConn(conn.value, true);
        }
      } else {
        rt.ShowError(QueryFailed);
        if conn.Some? {
          rt.Rollback(conn.value);
        }
      }
    }
    if conn.Some? {
      rt.PutConn(conn.value, false);
    }
  }

  // ----- Properties of one attempt -----

  lemma HandlersTally(c: ConnId, escaping: Option<Exception>, k: PoolKind)
    ensures var closes := escaping.Some? && IsOperationalError(escaping.value);
      Tally(Handlers(Some(c), escaping), k) ==
        match k
        case Acquires => multiset{}
        case Releases => if closes then multiset{c, c} else multiset{c}
        case ClosingReleases => if closes then multiset{c} else multiset{}
  {
    var last := [Release(c, false)];
    TallyOne(Release(c, false), k);
    match escaping
    case None =>
      assert Handlers(Some(c), escaping) == last;
    case Some(e) =>
      var notice := ShowError(if IsOperationalError(e) then ConnectionError else QueryFailed);
      var undo := if IsOperationalError(e) then Release(c, true) else Rollback(c);
      assert Handlers(Some(c), escaping) == ([notice] + [undo]) + last;
      TallyOne(notice, k);
      TallyOne(undo, k);
      TallyAppend([notice], [undo], k);
      TallyAppend([notice] + [undo], last, k);
  }

  predicate ClosesConnection<Row>(resp: Response<Row>) {
    !resp.AcquireFails? && !resp.Executes? && IsOperationalError(resp.error)
  }

  /** The connection an attempt takes is handed back in `finally`, and
      once before that, with close=True, when an OperationalError escapes
      (testcode.py:43-48, 55-57). */
  lemma AcquiredTally<Row>(c: ConnId, resp: Response<Row>, fetch: Fetch, k: PoolKind)
    requires !resp.AcquireFails?
    ensures Tally(AttemptTrace(c, resp, fetch), k)
         == Tally([Acquire(c)], k) + Tally(Handlers(Some(c), Escaping(resp)), k)
  {
    var body := Body(c, resp, fetch);
    var exit := Handlers(Some(c), Escaping(resp));
    assert Tally(body, k) == multiset{} by {
      TallyQuiet(body, k);
    }
    assert AttemptTrace(c, resp, fetch) == ([Acquire(c)] + body) + exit;
    TallyAppend([Acquire(c)], body, k);
    TallyAppend([Acquire(c)] + body, exit, k);
  }

  /** The connection an attempt takes is handed back in `finally`, and
      once before that, with close=True, when an OperationalError escapes
      (testcode.py:43-48, 55-57). */
  lemma AttemptReturnsConnection<Row>(c: ConnId, resp: Response<Row>, fetch: Fetch)
    ensures var t := AttemptTrace(c, resp, fetch);
      && Tally(t, Acquires) == (if resp.AcquireFails? then multiset{} else multiset{c})
      && Tally(t, ClosingReleases) == (if ClosesConnection(resp) then multiset{c} else multiset{})
      && Tally(t, Releases) == (if resp.AcquireFails? then multiset{}
                               else if ClosesConnection(resp) then multiset{c, c} else multiset{c})
      && PoolPaired(t)
  {
    var t := AttemptTrace(c, resp, fetch);
    AttemptTally(c, resp, fetch, Acquires);
    AttemptTally(c, resp, fetch, Releases);
    AttemptTally(c, resp, fetch, ClosingReleases);
    if resp.AcquireFails? {
      assert Tally(t, Releases) == Tally(t, Acquires) + Tally(t, ClosingReleases);
    } else if ClosesConnection(resp) {
      assert Tally(t, Releases) == multiset{c} + multiset{c};
    } else {
      assert Tally(t, Releases) == multiset{c} + multiset{};
    }
  }

  /** The events of kind k in one attempt. */
  lemma AttemptTally<Row>(c: ConnId, resp: Response<Row>, fetch: Fetch, k: PoolKind)
    ensures Tally(AttemptTrace(c, resp, fetch), k) ==
      if resp.AcquireFails? then multiset{}
      else match k
        case Acquires => multiset{c}
        case Releases => if ClosesConnection(resp) then multiset{c, c} else multiset{c}
        case ClosingReleases => if ClosesConnection(resp) then multiset{c} else multiset{}
  {
    if resp.AcquireFails? {
      TallyQuiet(AttemptTrace(c, resp, fetch), k);
    } else {
      AcquiredTally(c, resp, fetch, k);
      TallyOne(Acquire(c), k);
      HandlersTally(c, Escaping(resp), k);
    }
  }

  /** fetch 'all' and 'one' return before conn.commit(); any other value
      commits once the statement has run (testcode.py:38-42). */
  lemma AttemptCommits<Row>(c: ConnId, resp: Response<Row>, fetch: Fetch)
    ensures Commit(c) in AttemptTrace(c, resp, fetch) <==> resp.Executes? && fetch.FetchNothing?
    ensures forall i | 0 <= i < |AttemptTrace(c, resp, fetch)| ::
      AttemptTrace(c, resp, fetch)[i].Commit? ==> AttemptTrace(c, resp, fetch)[i] == Commit(c)
  {
  }

  /** The connection is rolled back exactly when an exception other than an
      OperationalError escapes after it was taken (testcode.py:49-54). */
  lemma AttemptRollsBack<Row>(c: ConnId, resp: Response<Row>, fetch: Fetch)
    ensures Rollback(c) in AttemptTrace(c, resp, fetch) <==>
      !resp.AcquireFails? && !resp.Executes? && !IsOperationalError(resp.error)
  {
  }

  /** A TypeError from execute is reported as invalid parameters, then by
      the generic handler, which rolls back and re-raises it
      (testcode.py:34-37, 49-54). */
  lemma TypeErrorIsReported<Row>(c: ConnId, resp: Response<Row>, fetch: Fetch)
    requires resp == ExecuteFails(TypeError)
    ensures AttemptOutcome(resp, fetch) == Raised(TypeError)
    ensures AttemptTrace(c, resp, fetch) ==
      [Acquire(c), ShowError(InvalidParameters), ShowError(QueryFailed), Rollback(c), Release(c, false)]
  {
  }

  // ----- The retry loop -----

  function Call<Row>(responses: nat -> Response<Row>, fetch: Fetch): (nat, ConnId) -> Attempt<QueryValue<Row>> {
    (k: nat, c: ConnId) => Attempt(AttemptOutcome(responses(k), fetch), AttemptTrace(c, responses(k), fetch), Uses(responses(k)))
  }

  /** The whole decorated call, the pool handing out connection number
      `next` first. */
  function Run<Row>(responses: nat -> Response<Row>, fetch: Fetch, next: ConnId): RunResult<QueryValue<Row>> {
    Tenacity.Run(TestConfig, Call(responses, fetch), next, 1)
  }

  /** The variant execute_query with its @retry decorator
      (testcode.py:25-57). */
  method ExecuteQuery<Row>(rt: Runtime, responses: nat -> Response<Row>, fetch: Fetch)
    returns (r: Final<QueryValue<Row>>, waits: seq<nat>)
    modifies rt
    ensures var run := Run(responses, fetch, old(rt.next));
      && r == run.final && waits == run.waits
      && rt.log == old(rt.log) + run.trace && rt.next == run.next
  {
    ghost var call := Call(responses, fetch);
    ghost var run := Tenacity.Run(TestConfig, call, rt.next, 1);
    ghost var log0 := rt.log;
    var attempt := 1;
    waits := [];
    StartResumes(TestConfig, call, log0, rt.next);
    while true
      invariant Resumes(run, TestConfig, call, log0, waits, rt.log, rt.next, attempt)
      decreases TestConfig.stopAfter - attempt
    {
      ghost var before := rt.log;
      ghost var n := rt.next;
      var o := ExecuteAttempt(rt, responses(attempt - 1), fetch);
      assert call(attempt - 1, n) == Attempt(o, rt.log[|before|..], rt.next - n);
      match Decide(TestConfig, attempt, o)
      case Return(v) =>
        StopResumes(run, TestConfig, call, log0, waits, before, n, attempt, rt.log, rt.next);
        r := Success(v);
        return;
      case Reraise(e) =>
        StopResumes(run, TestConfig, call, log0, waits, before, n, attempt, rt.log, rt.next);
        r := Failure(e);
        return;
      case GiveUp(e) =>
        StopResumes(run, TestConfig, call, log0, waits, before, n, attempt, rt.log, rt.next);
        r := RetryError(e);
        return;
      case RetryAfter(w) =>
        RetryResumes(run, TestConfig, call, log0, waits, before, n, attempt, w, rt.log, rt.next);
        waits := waits + [w];
        attempt := attempt + 1;
    }
  }

  // ----- Properties of the retry loop -----

  /** retry_if_exception_type(psycopg2.OperationalError) retries exactly
      the OperationalErrors, SerializationFailure among them. */
  lemma TestConfigRetriesOperationalErrors(e: Exception)
    ensures Retryable(TestConfig, e) <==> IsOperationalError(e)
  {
    assert TestConfig.retryOn[1..] == [];
  }

  /** A call makes one to three attempts, sleeping 1 and then 2 seconds
      between them, and records what each returned or raised. */
  lemma CallAttempts<Row>(responses: nat -> Response<Row>, fetch: Fetch, n: ConnId)
    ensures var r := Run(responses, fetch, n);
      && 1 <= r.attempts <= 3
      && r.waits == [1, 2][..r.attempts - 1]
      && |r.outcomes| == r.attempts
      && (forall i | 0 <= i < r.attempts :: r.outcomes[i] == AttemptOutcome(responses(i), fetch))
  {
    CallWaits(responses, fetch, n);
    CallOutcomes(responses, fetch, n);
  }

  lemma CallWaits<Row>(responses: nat -> Response<Row>, fetch: Fetch, n: ConnId)
    ensures var r := Run(responses, fetch, n);
      1 <= r.attempts <= 3 && r.waits == [1, 2][..r.attempts - 1]
  {
    var call := Call(responses, fetch);
    RunLength(TestConfig, call, n, 1);
    RunWaits(TestConfig, call, n, 1);
    var r := Run(responses, fetch, n);
    assert Schedule(TestConfig, 1, 2) == [1, 2];
    ScheduleStarts(TestConfig, 1, 2, r.attempts - 1);
  }

  lemma CallOutcomes<Row>(responses: nat -> Response<Row>, fetch: Fetch, n: ConnId)
    ensures var r := Run(responses, fetch, n);
      && |r.outcomes| == r.attempts
      && (forall i | 0 <= i < r.attempts :: r.outcomes[i] == AttemptOutcome(responses(i), fetch))
  {
    var call := Call(responses, fetch);
    RunLength(TestConfig, call, n, 1);
    RunOutcomesFollow(TestConfig, call, n, 1, (k: nat) => AttemptOutcome(responses(k), fetch));
  }

  /** Whatever the attempts return or raise, every attempt before the last
      raised an OperationalError. */
  lemma CallRetriesOnlyOperationalErrors<V>(call: (nat, ConnId) -> Attempt<V>, n: ConnId)
    ensures var r := Tenacity.Run(TestConfig, call, n, 1);
      forall i | 0 <= i < |r.outcomes| - 1 :: r.outcomes[i].Raised? && IsOperationalError(r.outcomes[i].error)
  {
    RunRetriedBeforeLast(TestConfig, call, n, 1);
    RetriedAreOperationalErrors(Tenacity.Run(TestConfig, call, n, 1).outcomes);
  }

  lemma RetriedAreOperationalErrors<V>(os: seq<Outcome<V>>)
    requires forall i | 0 <= i < |os| - 1 :: Retried(TestConfig, os[i])
    ensures forall i | 0 <= i < |os| - 1 :: os[i].Raised? && IsOperationalError(os[i].error)
  {
    forall i | 0 <= i < |os| - 1
      ensures os[i].Raised? && IsOperationalError(os[i].error)
    {
      TestConfigRetriesOperationalErrors(os[i].error);
    }
  }

  /** The last attempt decides the call: its value is returned, an
      exception that is not an OperationalError propagates as it is, and an
      OperationalError on the third attempt becomes RetryError. */
  lemma CallConcludes<Row>(responses: nat -> Response<Row>, fetch: Fetch, n: ConnId)
    ensures var r := Run(responses, fetch, n);
      && r.outcomes != []
      && var last := r.outcomes[|r.outcomes| - 1];
      match r.final
      case Success(v) => last == Returned(v)
      case Failure(e) => last == Raised(e) && !IsOperationalError(e)
      case RetryError(e) => last == Raised(e) && IsOperationalError(e) && r.attempts == 3
  {
    RunConcludes(TestConfig, Call(responses, fetch), n, 1);
    ConcludesUnderTestConfig(Run(responses, fetch, n));
  }

  lemma ConcludesUnderTestConfig<V>(r: RunResult<V>)
    requires r.outcomes != [] && Concludes(TestConfig, r.final, r.outcomes[|r.outcomes| - 1], r.attempts)
    ensures var last := r.outcomes[|r.outcomes| - 1];
      match r.final
      case Success(v) => last == Returned(v)
      case Failure(e) => last == Raised(e) && !IsOperationalError(e)
      case RetryError(e) => last == Raised(e) && IsOperationalError(e) && r.attempts == 3
  {
    var last := r.outcomes[|r.outcomes| - 1];
    if last.Raised? {
      TestConfigRetriesOperationalErrors(last.error);
    }
  }

  /** A TypeError on the first attempt is never retried: the call raises
      it after one attempt. */
  lemma TypeErrorIsNotRetried<Row>(responses: nat -> Response<Row>, fetch: Fetch, n: ConnId)
    requires responses(0) == ExecuteFails(TypeError)
    ensures var r := Run(responses, fetch, n);
      r.final == Failure(TypeError) && r.attempts == 1 && r.waits == []
  {
    TestConfigRetriesOperationalErrors(TypeError);
    assert AttemptOutcome(responses(0), fetch) == Raised(TypeError);
    assert Call(responses, fetch)(0, n).outcome == Raised(TypeError);
    RunStops(TestConfig, Call(responses, fetch), n, 1);
  }

  /** Unlike execute_query in db/db_utils.py, a duplicate is not swallowed
      here: the UniqueViolation is rolled back and raised, without retry. */
  lemma DuplicatePropagates<Row>(responses: nat -> Response<Row>, fetch: Fetch, n: ConnId)
    requires responses(0) == ExecuteFails(UniqueViolation)
    ensures var r := Run(responses, fetch, n);
      && r.final == Failure(UniqueViolation) && r.attempts == 1
      && Rollback(n) in r.trace
  {
    TestConfigRetriesOperationalErrors(UniqueViolation);
    assert AttemptOutcome(responses(0), fetch) == Raised(UniqueViolation);
    assert Call(responses, fetch)(0, n).outcome == Raised(UniqueViolation);
    RunStops(TestConfig, Call(responses, fetch), n, 1);
  }

  /** A database that stays unreachable is tried three times, with sleeps
      of 1 and 2 seconds, and the call raises RetryError. */
  lemma PersistentOperationalErrorGivesUp<Row>(responses: nat -> Response<Row>, fetch: Fetch, n: ConnId)
    requires forall k | 0 <= k < 3 :: responses(k) == ExecuteFails(OperationalError)
    ensures var r := Run(responses, fetch, n);
      r.attempts == 3 && r.waits == [1, 2] && r.final == RetryError(OperationalError)
  {
    CallAttempts(responses, fetch, n);
    CallConcludes(responses, fetch, n);
  }

  /** Every connection a call takes is handed back, over all its attempts. */
  lemma CallReturnsConnections<Row>(responses: nat -> Response<Row>, fetch: Fetch, n: ConnId)
    ensures PoolPaired(Run(responses, fetch, n).trace)
  {
    var call := Call(responses, fetch);
    forall k, c ensures PoolPaired(call(k, c).trace) {
      AttemptReturnsConnection(c, responses(k), fetch);
    }
    forall t, u | PoolPaired(t) && PoolPaired(u) ensures PoolPaired(t + u) {
      PoolPairedAppend(t, u);
    }
    RunKeeps(TestConfig, call, n, 1, t => PoolPaired(t));
  }

  // ----- The deploy page (testcode.py:59-112) -----

  /** A row of `SELECT * FROM outlets`, as far as the page reads it. */
  datatype Outlet = Outlet(id: nat, name: string, outletType: string)

  /** The selectbox label of an outlet (testcode.py:68). */
  function OutletLabel(o: Outlet): string {
    o.name + " (" + o.outletType + ")"
  }

  function OutletPairs(outlets: seq<Outlet>): seq<(string, nat)> {
    seq(|outlets|, i requires 0 <= i < |outlets| => (OutletLabel(outlets[i]), outlets[i].id))
  }

  /** The entries the loop at testcode.py:80-89 appends for the selected
      POSM names, each looked up in posm_dict, with the quantity typed in
      under the key qty_<name>. */
  function Deployed(selected: seq<string>, posmIds: map<string, nat>, quantityOf: string -> nat): seq<Forms.DeployedPosm>
    requires forall n | n in selected :: n in posmIds
  {
    if selected == [] then []
    else
      var name := selected[|selected| - 1];
      Deployed(selected[..|selected| - 1], posmIds, quantityOf)
        + (if quantityOf(name) > 0 then [Forms.DeployedPosm(posmIds[name], quantityOf(name))] else [])
  }

  /** The quantity filter of this page (testcode.py:77-89). */
  method CollectDeployed(selected: seq<string>, posmIds: map<string, nat>, quantityOf: string -> nat)
    returns (deployed: seq<Forms.DeployedPosm>)
    requires forall n | n in selected :: n in posmIds
    ensures deployed == Deployed(selected, posmIds, quantityOf)
  {
    deployed := [];
    for i := 0 to |selected|
      invariant deployed == Deployed(selected[..i], posmIds, quantityOf)
    {
      assert selected[..i + 1][..i] == selected[..i];
      var name := selected[i];
      var quantity := quantityOf(name);
      if quantity > 0 {
        deployed := deployed + [Forms.DeployedPosm(posmIds[name], quantity)];
      }
    }
    assert selected[..|selected|] == selected;
  }

  /** The entries of two selections one after the other are the entries of
      the first followed by those of the second. */
  lemma {:induction false} DeployedAppend(a: seq<string>, b: seq<string>, posmIds: map<string, nat>, quantityOf: string -> nat)
    requires forall n | n in a + b :: n in posmIds
    ensures Deployed(a + b, posmIds, quantityOf) == Deployed(a, posmIds, quantityOf) + Deployed(b, posmIds, quantityOf)
    decreases |b|
  {
    if b == [] {
      assert a + b == a;
    } else {
      var b' := b[..|b| - 1];
      assert (a + b)[..|a + b| - 1] == a + b';
      assert forall n | n in a + b' :: n in a + b;
      DeployedAppend(a, b', posmIds, quantityOf);
    }
  }

  /** Every selected POSM with a quantity above 0 is kept, with that
      quantity, in selection order; the others are dropped
      (testcode.py:88-89). */
  lemma DeployedKeepsPositive(selected: seq<string>, posmIds: map<string, nat>, quantityOf: string -> nat, i: nat)
    requires forall n | n in selected :: n in posmIds
    requires i < |selected|
    ensures var name := selected[i];
      Deployed(selected, posmIds, quantityOf)
      == Deployed(selected[..i], posmIds, quantityOf)
         + (if quantityOf(name) > 0 then [Forms.DeployedPosm(posmIds[name], quantityOf(name))] else [])
         + Deployed(selected[i + 1..], posmIds, quantityOf)
  {
    var name := selected[i];
    assert selected == selected[..i] + [name] + selected[i + 1..];
    assert selected[..i] + [name] == selected[..i + 1];
    assert selected[..i + 1][..i] == selected[..i];
    DeployedAppend(selected[..i + 1], selected[i + 1..], posmIds, quantityOf);
  }

  /** What the page shows and does after the selections are collected
      (testcode.py:94-112). */
  function DeployEffects(button: bool, gps: Option<Forms.Fix>, before: Option<Forms.Photo>, after: Option<Forms.Photo>,
                         deployed: seq<Forms.DeployedPosm>, selected: seq<string>,
                         outletId: nat, userId: nat, store: Forms.Storage): seq<Forms.Effect<Forms.Deployment>>
  {
    Forms.GpsNotice(gps) + ButtonEffects(button, gps, before, after, deployed, selected, outletId, userId, store)
  }

  /** What the deploy button does (testcode.py:102-112). */
  function ButtonEffects(button: bool, gps: Option<Forms.Fix>, before: Option<Forms.Photo>, after: Option<Forms.Photo>,
                         deployed: seq<Forms.DeployedPosm>, selected: seq<string>,
                         outletId: nat, userId: nat, store: Forms.Storage): seq<Forms.Effect<Forms.Deployment>>
  {
    if button && gps.Some? && before.Some? && after.Some? && deployed != [] then
      var beforeKey := store(before.value, "posm_before");
      var afterKey := store(after.value, "posm_after");
      [Forms.Upload("posm_before"), Forms.Upload("posm_after")]
      + if beforeKey.Some? && afterKey.Some? then
          [Forms.Insert(Forms.Deployment(outletId, userId, deployed, beforeKey.value, afterKey.value, gps.value)),
           Forms.Show(Forms.SuccessBox, "POSM Deployed!")]
        else
          [Forms.Show(Forms.ErrorBox, "Image upload failed. Please try again.")]
    else if deployed == [] && selected != [] then
      [Forms.Show(Forms.WarningBox, "Please specify quantities for selected POSMs.")]
    else
      []
  }

  /** The outlet dict of the page; with no outlets, `outlet_dict[None]`
      raises KeyError before anything else happens. */
  function DeployPageEffects(outlets: seq<Outlet>, choice: Option<string>,
                             posmIds: map<string, nat>, selected: seq<string>, quantityOf: string -> nat,
                             button: bool, gps: Option<Forms.Fix>, before: Option<Forms.Photo>, after: Option<Forms.Photo>,
                             userId: nat, store: Forms.Storage): seq<Forms.Effect<Forms.Deployment>>
    requires forall n | n in selected :: n in posmIds
  {
    var outletIds := Forms.LabelMap(OutletPairs(outlets));
    if choice.None? || choice.value !in outletIds then
      [Forms.Crash("KeyError")]
    else
      DeployEffects(button, gps, before, after, Deployed(selected, posmIds, quantityOf), selected,
                    outletIds[choice.value], userId, store)
  }

  /** The module-level deploy page of testcode.py (testcode.py:66-112). */
  method DeployPage(screen: Forms.Screen<Forms.Deployment>, outlets: seq<Outlet>, choice: Option<string>,
                    posmIds: map<string, nat>, selected: seq<string>, quantityOf: string -> nat,
                    button: bool, gps: Option<Forms.Fix>, before: Option<Forms.Photo>, after: Option<Forms.Photo>,
                    userId: nat, store: Forms.Storage)
    requires forall n | n in selected :: n in posmIds
    modifies screen
    ensures screen.shown == old(screen.shown)
      + DeployPageEffects(outlets, choice, posmIds, selected, quantityOf, button, gps, before, after, userId, store)
  {
    var outletIds := Forms.LabelMap(OutletPairs(outlets));
    if choice.None? || choice.value !in outletIds {
      screen.Crash("KeyError");
      return;
    }
    var deployed := CollectDeployed(selected, posmIds, quantityOf);
    Deploy(screen, button, gps, before, after, deployed, selected, outletIds[choice.value], userId, store);
  }

  /** The page once the selections are collected (testcode.py:94-112). */
  method Deploy(screen: Forms.Screen<Forms.Deployment>, button: bool, gps: Option<Forms.Fix>,
                before: Option<Forms.Photo>, after: Option<Forms.Photo>,
                deployed: seq<Forms.DeployedPosm>, selected: seq<string>, outletId: nat, userId: nat, store: Forms.Storage)
    modifies screen
    ensures screen.shown == old(screen.shown)
      + DeployEffects(button, gps, before, after, deployed, selected, outletId, userId, store)
  {
    ghost var shown0 := screen.shown;
    if gps.None? {
      screen.Show(Forms.WarningBox, Forms.WaitingForGps);
    }
    PressButton(screen, button, gps, before, after, deployed, selected, outletId, userId, store);
    AppendAssoc(shown0, Forms.GpsNotice(gps),
                ButtonEffects(button, gps, before, after, deployed, selected, outletId, userId, store));
  }

  /** The deploy button (testcode.py:102-112). */
  method PressButton(screen: Forms.Screen<Forms.Deployment>, button: bool, gps: Option<Forms.Fix>,
                     before: Option<Forms.Photo>, after: Option<Forms.Photo>,
                     deployed: seq<Forms.DeployedPosm>, selected: seq<string>, outletId: nat, userId: nat, store: Forms.Storage)
    modifies screen
    ensures screen.shown == old(screen.shown)
      + ButtonEffects(button, gps, before, after, deployed, selected, outletId, userId, store)
  {
    if button && gps.Some? && before.Some? && after.Some? && deployed != [] {
      var beforeKey := screen.Upload(before.value, "posm_before", store);
      var afterKey := screen.Upload(after.value, "posm_after", store);
      if beforeKey.Some? && afterKey.Some? {
        screen.Insert(Forms.Deployment(outletId, userId, deployed, beforeKey.value, afterKey.value, gps.value));
        screen.Show(Forms.SuccessBox, "POSM Deployed!");
      } else {
        screen.Show(Forms.ErrorBox, "Image upload failed. Please try again.");
      }
    } else if deployed == [] && selected != [] {
      screen.Show(Forms.WarningBox, "Please specify quantities for selected POSMs.");
    }
  }

  /** The deployment is inserted exactly when the button was pressed with
      a GPS fix, both images and at least one POSM kept, and both uploads
      returned a key; the record carries those keys (testcode.py:102-107). */
  lemma DeployCommitsIff(button: bool, gps: Option<Forms.Fix>, before: Option<Forms.Photo>, after: Option<Forms.Photo>,
                         deployed: seq<Forms.DeployedPosm>, selected: seq<string>,
                         outletId: nat, userId: nat, store: Forms.Storage)
    ensures var fx := DeployEffects(button, gps, before, after, deployed, selected, outletId, userId, store);
      && (Forms.Inserts(fx) <==>
           && button && gps.Some? && before.Some? && after.Some? && deployed != []
           && store(before.value, "posm_before").Some? && store(after.value, "posm_after").Some?)
      && (forall i | 0 <= i < |fx| && fx[i].Insert? ::
           fx[i].record == Forms.Deployment(outletId, userId, deployed, store(before.value, "posm_before").value,
                                      store(after.value, "posm_after").value, gps.value))
  {
    var fx := DeployEffects(button, gps, before, after, deployed, selected, outletId, userId, store);
    var bx := ButtonEffects(button, gps, before, after, deployed, selected, outletId, userId, store);
    var g: seq<Forms.Effect<Forms.Deployment>> := Forms.GpsNotice(gps);
    assert fx == g + bx;
    if button && gps.Some? && before.Some? && after.Some? && deployed != [] {
      var beforeKey := store(before.value, "posm_before");
      var afterKey := store(after.value, "posm_after");
      if beforeKey.Some? && afterKey.Some? {
        var record := Forms.Deployment(outletId, userId, deployed, beforeKey.value, afterKey.value, gps.value);
        assert bx == [Forms.Upload("posm_before"), Forms.Upload("posm_after"), Forms.Insert(record),
                      Forms.Show(Forms.SuccessBox, "POSM Deployed!")];
        assert fx[|g| + 2] == Forms.Insert(record);
      } else {
        assert bx == [Forms.Upload("posm_before"), Forms.Upload("posm_after"),
                      Forms.Show(Forms.ErrorBox, "Image upload failed. Please try again.")];
      }
    } else if deployed == [] && selected != [] {
      assert bx == [Forms.Show(Forms.WarningBox, "Please specify quantities for selected POSMs.")];
    } else {
      assert bx == [];
    }
    forall i | 0 <= i < |fx| && fx[i].Insert?
      ensures i >= |g| && fx[i] == bx[i - |g|]
    {
    }
  }
}
