/**
 * The retry decorator of the tenacity library as execute_query configures it:
 * stop after a number of attempts, retry only when the raised exception is an
 * instance of one of the listed classes, and wait an exponentially growing,
 * clamped number of seconds between attempts.
 */
module Tenacity {
  import opened Database
  import opened Seqs

  /** The exception classes a retry_if_exception_type tuple can name. */
  datatype ErrorClass = OperationalErrorClass | DatabaseErrorClass

  predicate IsInstance(e: Exception, c: ErrorClass) {
    match c
    case OperationalErrorClass => IsOperationalError(e)
    case DatabaseErrorClass => IsDatabaseError(e)
  }

  /** @retry(stop=stop_after_attempt(stopAfter),
             wait=wait_exponential(multiplier=multiplier, min=minWait, max=maxWait),
             retry=retry_if_exception_type(retryOn)) */
  datatype Policy = Policy(
    stopAfter: nat,
    retryOn: seq<ErrorClass>,
    multiplier: nat,
    minWait: nat,
    maxWait: nat)

  /** isinstance(e, classes), for a tuple of classes. */
  predicate InstanceOfAny(e: Exception, classes: seq<ErrorClass>) {
    |classes| > 0 && (IsInstance(e, classes[0]) || InstanceOfAny(e, classes[1..]))
  }

  lemma {:induction false} InstanceOfAnyMeans(e: Exception, classes: seq<ErrorClass>)
    ensures InstanceOfAny(e, classes) <==> exists k :: 0 <= k < |classes| && IsInstance(e, classes[k])
    decreases |classes|
  {
    if |classes| > 0 {
      InstanceOfAnyMeans(e, classes[1..]);
      if !IsInstance(e, classes[0]) && InstanceOfAny(e, classes[1..]) {
        var k :| 0 <= k < |classes[1..]| && IsInstance(e, classes[1..][k]);
        assert IsInstance(e, classes[k + 1]);
      }
      if exists k :: 0 <= k < |classes| && IsInstance(e, classes[k]) {
        var k :| 0 <= k < |classes| && IsInstance(e, classes[k]);
        if k > 0 {
          assert classes[1..][k - 1] == classes[k];
        }
      }
    }
  }

  /** retry_if_exception_type: the exception is an instance of one of the classes. */
  predicate Retryable(p: Policy, e: Exception) {
    InstanceOfAny(e, p.retryOn)
  }

  /** m * 2^n, by doubling. */
  function Doubled(m: nat, n: nat): (r: nat)
    ensures m <= r
  {
    if n == 0 then m else 2 * Doubled(m, n - 1)
  }

  lemma {:induction false} DoubledMonotone(m: nat, a: nat, b: nat)
    requires a <= b
    ensures Doubled(m, a) <= Doubled(m, b)
    decreases b
  {
    if a < b {
      DoubledMonotone(m, a, b - 1);
    }
  }

  /** Seconds slept after failed attempt number `attempt` (counted from 1):
      multiplier * 2^(attempt-1), clamped to [minWait, maxWait]. */
  function Backoff(p: Policy, attempt: nat): (w: nat)
    requires attempt >= 1
    ensures p.minWait <= w
    ensures p.minWait <= p.maxWait ==> w <= p.maxWait
  {
    var raw := Doubled(p.multiplier, attempt - 1);
    var capped := if raw < p.maxWait then raw else p.maxWait;
    if capped < p.minWait then p.minWait else capped
  }

  /** Waits never shrink from one attempt to the next. */
  lemma BackoffMonotone(p: Policy, a: nat, b: nat)
    requires 1 <= a <= b
    ensures Backoff(p, a) <= Backoff(p, b)
  {
    DoubledMonotone(p.multiplier, a - 1, b - 1);
  }

  /** What tenacity does once an attempt has ended. */
  datatype Step<V> =
    | Return(value: V)          // the attempt returned: the call returns the value
    | Reraise(error: Exception) // not retryable: the original exception propagates
    | GiveUp(last: Exception)   // retryable but out of attempts: RetryError is raised
    | RetryAfter(wait: nat)     // retryable: sleep, then run the next attempt

  function Decide<V>(p: Policy, attempt: nat, o: Outcome<V>): (s: Step<V>)
    requires attempt >= 1
    ensures s.RetryAfter? ==> attempt < p.stopAfter && s.wait == Backoff(p, attempt)
  {
    match o
    case Returned(v) => Return(v)
    case Raised(e) =>
      if !Retryable(p, e) then Reraise(e)
      else if attempt >= p.stopAfter then GiveUp(e)
      else RetryAfter(Backoff(p, attempt))
  }

  /** How a decorated call ends: it returns, raises the attempt's own
      exception, or raises tenacity.RetryError wrapping the last one. */
  datatype Final<V> = Success(value: V) | Failure(error: Exception) | RetryError(last: Exception)

  /** The way a call ends after a step that does not retry. */
  function Stopped<V>(s: Step<V>): Final<V>
    requires !s.RetryAfter?
  {
    match s
    case Return(v) => Success(v)
    case Reraise(e) => Failure(e)
    case GiveUp(e) => RetryError(e)
  }

  /** A failure, carried over to a call of another result type. */
  function Reraised<V, U>(f: Final<V>): (g: Final<U>)
    requires !f.Success?
    ensures g.Failure? == f.Failure? && g.RetryError? == f.RetryError?
  {
    match f
    case Failure(e) => Failure(e)
    case RetryError(e) => RetryError(e)
  }

  /** One attempt of the decorated function: what it returns or raises, the
      events it causes, and how many connections it takes from the pool. */
  datatype Attempt<V> = Attempt(outcome: Outcome<V>, trace: seq<Event>, uses: nat)

  /** A complete decorated call: how it ends, the number of the attempt it
      ended on, the outcome of every attempt, the waits between attempts, the
      events it caused, and the number the pool gives to the next connection
      afterwards. */
  datatype RunResult<V> = RunResult(
    final: Final<V>,
    attempts: nat,
    outcomes: seq<Outcome<V>>,
    waits: seq<nat>,
    trace: seq<Event>,
    next: ConnId)

  /**
   * The decorated call from attempt number `attempt` on. call(k, c) is
   * attempt number k+1 of the wrapped function when the pool hands out
   * connection number c first.
   */
  function Run<V>(p: Policy, call: (nat, ConnId) -> Attempt<V>, next: ConnId, attempt: nat): RunResult<V>
    requires 1 <= attempt <= p.stopAfter
    decreases p.stopAfter - attempt
  {
    var at := call(attempt - 1, next);
    var s := Decide(p, attempt, at.outcome);
    if s.RetryAfter? then
      var rest := Run(p, call, next + at.uses, attempt + 1);
      RunResult(rest.final, rest.attempts, [at.outcome] + rest.outcomes,
                [s.wait] + rest.waits, at.trace + rest.trace, rest.next)
    else
      RunResult(Stopped(s), attempt, [at.outcome], [], at.trace, next + at.uses)
  }

  /** An attempt that tenacity retries under policy p. */
  ghost predicate Retried<V>(p: Policy, o: Outcome<V>) {
    o.Raised? && Retryable(p, o.error)
  }

  /** How the call's result follows from the outcome of its last attempt. */
  ghost predicate Concludes<V>(p: Policy, f: Final<V>, last: Outcome<V>, attempts: nat) {
    match f
    case Success(v) => last == Returned(v)
    case Failure(e) => last == Raised(e) && !Retryable(p, e)
    case RetryError(e) => last == Raised(e) && Retryable(p, e) && attempts == p.stopAfter
  }

  /** Unfolding a run one attempt: the attempt is retried. */
  lemma RunRetries<V>(p: Policy, call: (nat, ConnId) -> Attempt<V>, n: ConnId, a: nat)
    requires 1 <= a <= p.stopAfter
    requires Decide(p, a, call(a - 1, n).outcome).RetryAfter?
    ensures a < p.stopAfter
    ensures var at := call(a - 1, n);
      var rest := Run(p, call, n + at.uses, a + 1);
      var r := Run(p, call, n, a);
      && r.final == rest.final && r.attempts == rest.attempts && r.next == rest.next
      && r.outcomes == [at.outcome] + rest.outcomes
      && r.waits == [Backoff(p, a)] + rest.waits
      && r.trace == at.trace + rest.trace
  {
  }

  /** Unfolding a run one attempt: the attempt ends the call. */
  lemma RunStops<V>(p: Policy, call: (nat, ConnId) -> Attempt<V>, n: ConnId, a: nat)
    requires 1 <= a <= p.stopAfter
    requires !Decide(p, a, call(a - 1, n).outcome).RetryAfter?
    ensures var at := call(a - 1, n);
      Run(p, call, n, a) == RunResult(Stopped(Decide(p, a, at.outcome)), a, [at.outcome], [], at.trace, n + at.uses)
  {
  }

  /** A run from attempt a on stops within stop_after_attempt attempts, with
      one outcome per attempt and one wait between consecutive attempts. */
  lemma {:induction false} RunLength<V>(p: Policy, call: (nat, ConnId) -> Attempt<V>, n: ConnId, a: nat)
    requires 1 <= a <= p.stopAfter
    ensures var r := Run(p, call, n, a);
      && a <= r.attempts <= p.stopAfter
      && |r.outcomes| == r.attempts - a + 1
      && |r.waits| == r.attempts - a
    decreases p.stopAfter - a
  {
    var at := call(a - 1, n);
    if Decide(p, a, at.outcome).RetryAfter? {
      RunRetries(p, call, n, a);
      RunLength(p, call, n + at.uses, a + 1);
    } else {
      RunStops(p, call, n, a);
    }
  }

  /** The waits tenacity sleeps after attempts from, from + 1, ...: count of them. */
  function Schedule(p: Policy, from: nat, count: nat): (ws: seq<nat>)
    requires from >= 1
    ensures |ws| == count
    decreases count
  {
    if count == 0 then [] else [Backoff(p, from)] + Schedule(p, from + 1, count - 1)
  }

  lemma {:induction false} ScheduleAt(p: Policy, from: nat, count: nat, i: nat)
    requires from >= 1 && i < count
    ensures Schedule(p, from, count)[i] == Backoff(p, from + i)
    decreases count
  {
    if i > 0 {
      ScheduleAt(p, from + 1, count - 1, i - 1);
    }
  }

  lemma {:induction false} ScheduleStarts(p: Policy, from: nat, count: nat, m: nat)
    requires from >= 1 && m <= count
    ensures Schedule(p, from, count)[..m] == Schedule(p, from, m)
    decreases m
  {
    if m > 0 {
      ScheduleStarts(p, from + 1, count - 1, m - 1);
    }
  }

  /** The waits of a schedule never shrink. */
  lemma ScheduleSorted(p: Policy, from: nat, count: nat, i: nat, j: nat)
    requires from >= 1 && i <= j < count
    ensures Schedule(p, from, count)[i] <= Schedule(p, from, count)[j]
  {
    ScheduleAt(p, from, count, i);
    ScheduleAt(p, from, count, j);
    BackoffMonotone(p, from + i, from + j);
  }

  /** The run sleeps the wait_exponential time of each attempt that failed. */
  lemma {:induction false} RunWaits<V>(p: Policy, call: (nat, ConnId) -> Attempt<V>, n: ConnId, a: nat)
    requires 1 <= a <= p.stopAfter
    ensures var r := Run(p, call, n, a);
      r.waits == Schedule(p, a, |r.waits|)
    decreases p.stopAfter - a
  {
    var at := call(a - 1, n);
    if Decide(p, a, at.outcome).RetryAfter? {
      RunRetries(p, call, n, a);
      RunWaits(p, call, n + at.uses, a + 1);
    } else {
      RunStops(p, call, n, a);
    }
  }

  /** Every attempt but the last raised an exception tenacity retries. */
  lemma {:induction false} RunRetriedBeforeLast<V>(p: Policy, call: (nat, ConnId) -> Attempt<V>, n: ConnId, a: nat)
    requires 1 <= a <= p.stopAfter
    ensures var r := Run(p, call, n, a);
      forall i | 0 <= i < |r.outcomes| - 1 :: Retried(p, r.outcomes[i])
    decreases p.stopAfter - a
  {
    var at := call(a - 1, n);
    if Decide(p, a, at.outcome).RetryAfter? {
      RunRetries(p, call, n, a);
      RunRetriedBeforeLast(p, call, n + at.uses, a + 1);
      var rest := Run(p, call, n + at.uses, a + 1);
      var r := Run(p, call, n, a);
      assert forall i | 1 <= i < |r.outcomes| :: r.outcomes[i] == rest.outcomes[i - 1];
    } else {
      RunStops(p, call, n, a);
    }
  }

  /** When what an attempt returns or raises does not depend on the
      connection it gets, the run's outcomes are those of attempts a, a+1, ... */
  lemma {:induction false} RunOutcomesFollow<V>(p: Policy, call: (nat, ConnId) -> Attempt<V>, n: ConnId, a: nat,
                                                outcome: nat -> Outcome<V>)
    requires 1 <= a <= p.stopAfter
    requires forall k, c :: call(k, c).outcome == outcome(k)
    ensures var r := Run(p, call, n, a);
      forall i | 0 <= i < |r.outcomes| :: r.outcomes[i] == outcome(a - 1 + i)
    decreases p.stopAfter - a
  {
    var at := call(a - 1, n);
    if Decide(p, a, at.outcome).RetryAfter? {
      RunRetries(p, call, n, a);
      RunOutcomesFollow(p, call, n + at.uses, a + 1, outcome);
      var later := Run(p, call, n + at.uses, a + 1).outcomes;
      var outcomes := Run(p, call, n, a).outcomes;
      assert outcomes == [at.outcome] + later;
      forall i | 0 <= i < |outcomes|
        ensures outcomes[i] == outcome(a - 1 + i)
      {
        if i == 0 {
          assert outcomes[0] == at.outcome;
        } else {
          assert outcomes[i] == later[i - 1];
        }
      }
    } else {
      RunStops(p, call, n, a);
    }
  }

  /** The last attempt decides the result: its value, its non-retryable
      exception, or a RetryError once the attempts are used up. */
  lemma {:induction false} RunConcludes<V>(p: Policy, call: (nat, ConnId) -> Attempt<V>, n: ConnId, a: nat)
    requires 1 <= a <= p.stopAfter
    ensures var r := Run(p, call, n, a);
      r.outcomes != [] && Concludes(p, r.final, r.outcomes[|r.outcomes| - 1], r.attempts)
    decreases p.stopAfter - a
  {
    var at := call(a - 1, n);
    if Decide(p, a, at.outcome).RetryAfter? {
      RunRetries(p, call, n, a);
      RunConcludes(p, call, n + at.uses, a + 1);
      var rest := Run(p, call, n + at.uses, a + 1);
      var r := Run(p, call, n, a);
      assert r.outcomes[|r.outcomes| - 1] == rest.outcomes[|rest.outcomes| - 1];
    } else {
      RunStops(p, call, n, a);
    }
  }

  /** A run's events are its attempts' events in order: a property of
      event logs that every attempt has and that concatenation keeps, the
      whole run has. */
  lemma {:induction false} RunKeeps<V>(p: Policy, call: (nat, ConnId) -> Attempt<V>, n: ConnId, a: nat,
                                       inv: seq<Event> -> bool)
    requires 1 <= a <= p.stopAfter
    requires forall k, c :: inv(call(k, c).trace)
    requires forall t, u | inv(t) && inv(u) :: inv(t + u)
    ensures inv(Run(p, call, n, a).trace)
    decreases p.stopAfter - a
  {
    var at := call(a - 1, n);
    if Decide(p, a, at.outcome).RetryAfter? {
      RunRetries(p, call, n, a);
      RunKeeps(p, call, n + at.uses, a + 1, inv);
    } else {
      RunStops(p, call, n, a);
    }
  }

  // ----- The retry loop's invariant, for the methods that run it -----

  /** The whole run `run` is what has been done so far (`waits`, and `log`
      after `log0`) followed by the run from attempt `attempt` on. */
  ghost predicate Resumes<V>(run: RunResult<V>, p: Policy, call: (nat, ConnId) -> Attempt<V>,
                             log0: seq<Event>, waits: seq<nat>, log: seq<Event>, next: ConnId, attempt: nat)
  {
    && 1 <= attempt <= p.stopAfter
    && var rest := Run(p, call, next, attempt);
    && run.final == rest.final && run.waits == waits + rest.waits
    && log0 + run.trace == log + rest.trace && run.next == rest.next
  }

  lemma StartResumes<V>(p: Policy, call: (nat, ConnId) -> Attempt<V>, log0: seq<Event>, next: ConnId)
    requires 1 <= p.stopAfter
    ensures Resumes(Run(p, call, next, 1), p, call, log0, [], log0, next, 1)
  {
    var run := Run(p, call, next, 1);
    assert [] + run.waits == run.waits;
  }

  lemma RetryResumes<V>(run: RunResult<V>, p: Policy, call: (nat, ConnId) -> Attempt<V>,
                        log0: seq<Event>, waits: seq<nat>, log: seq<Event>, next: ConnId, attempt: nat,
                        w: nat, log': seq<Event>, next': ConnId)
    requires Resumes(run, p, call, log0, waits, log, next, attempt)
    requires Decide(p, attempt, call(attempt - 1, next).outcome) == RetryAfter(w)
    requires log' == log + call(attempt - 1, next).trace
    requires next' == next + call(attempt - 1, next).uses
    ensures Resumes(run, p, call, log0, waits + [w], log', next', attempt + 1)
  {
    var rest := Run(p, call, next', attempt + 1);
    AppendAssoc(log, call(attempt - 1, next).trace, rest.trace);
    AppendAssoc(waits, [w], rest.waits);
  }

  lemma StopResumes<V>(run: RunResult<V>, p: Policy, call: (nat, ConnId) -> Attempt<V>,
                       log0: seq<Event>, waits: seq<nat>, log: seq<Event>, next: ConnId, attempt: nat,
                       log': seq<Event>, next': ConnId)
    requires Resumes(run, p, call, log0, waits, log, next, attempt)
    requires !Decide(p, attempt, call(attempt - 1, next).outcome).RetryAfter?
    requires log' == log + call(attempt - 1, next).trace
    requires next' == next + call(attempt - 1, next).uses
    ensures run.final == Stopped(Decide(p, attempt, call(attempt - 1, next).outcome))
    ensures run.waits == waits && log0 + run.trace == log' && run.next == next'
  {
  }
}
