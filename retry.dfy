/**
 * The Threads browser adapter's retry wrapper: run an operation up to
 * `max_retries` times, retrying only authentication and posting errors,
 * sleeping `retry_delay * 2^attempt` between attempts and re-raising the
 * last error.
 *
 * The operation may change the adapter's state (a login sets the
 * authenticated flag), so it is a function from a state to its outcome
 * and the next state.
 */
module Retry {
  import opened Py

  function Pow2(k: nat): (r: nat)
    ensures r >= 1
  {
    if k == 0 then 1 else 2 * Pow2(k - 1)
  }

  /** The sleep after failed attempt `k`: `retry_delay * 2^k` seconds. */
  function Backoff(retryDelay: nat, k: nat): nat
  {
    retryDelay * Pow2(k)
  }

  /** The first sleep is `retry_delay`, and each later one doubles the one before. */
  lemma BackoffDoubles(retryDelay: nat, k: nat)
    ensures Backoff(retryDelay, 0) == retryDelay
    ensures Backoff(retryDelay, k + 1) == 2 * Backoff(retryDelay, k)
  {
    calc {
      Backoff(retryDelay, k + 1);
      retryDelay * (2 * Pow2(k));
      2 * (retryDelay * Pow2(k));
    }
  }

  /** The exceptions the wrapper catches: `ThreadsAuthenticationError` and `ThreadsPostingError`. */
  predicate Retryable<T>(o: Outcome<T>)
  {
    o.Raised? && (o.exc.kind == ThreadsAuthenticationError || o.exc.kind == ThreadsPostingError)
  }

  /** What the wrapper ends with: an attempt's outcome, or Python's `None` when it made no attempt. */
  datatype RetryResult<T> = Finished(outcome: Outcome<T>) | NoAttempts

  /** A run of the wrapper: its result, the final state, each attempt's outcome and each sleep. */
  datatype Run<S, T> = Run(result: RetryResult<T>, state: S, outcomes: seq<Outcome<T>>, sleeps: seq<nat>)

  /** The wrapper's behaviour from attempt number `attempt` on. */
  function RetryFrom<S, T>(maxRetries: nat, retryDelay: nat, op: S -> (Outcome<T>, S), s: S, attempt: nat): Run<S, T>
    decreases maxRetries - attempt
  {
    if attempt >= maxRetries then Run(NoAttempts, s, [], [])
    else
      var step := op(s);
      if Retryable(step.0) && attempt < maxRetries - 1 then
        var rest := RetryFrom(maxRetries, retryDelay, op, step.1, attempt + 1);
        Run(rest.result, rest.state, [step.0] + rest.outcomes, [Backoff(retryDelay, attempt)] + rest.sleeps)
      else
        Run(Finished(step.0), step.1, [step.0], [])
  }

  /** The wrapper's behaviour on a fresh call. */
  function Retried<S, T>(maxRetries: nat, retryDelay: nat, op: S -> (Outcome<T>, S), s: S): Run<S, T>
  {
    RetryFrom(maxRetries, retryDelay, op, s, 0)
  }

  /** `_retry_operation`. */
  method RetryOperation<S, T>(maxRetries: nat, retryDelay: nat, op: S -> (Outcome<T>, S), s0: S)
    returns (result: RetryResult<T>, s: S, outcomes: seq<Outcome<T>>, sleeps: seq<nat>)
    ensures Run(result, s, outcomes, sleeps) == Retried(maxRetries, retryDelay, op, s0)
  {
    s := s0;
    outcomes := [];
    sleeps := [];
    var attempt := 0;
    while attempt < maxRetries
      invariant maxRetries > 0 ==> attempt < maxRetries
      invariant |outcomes| == attempt
      invariant var rest := RetryFrom(maxRetries, retryDelay, op, s, attempt);
        Retried(maxRetries, retryDelay, op, s0) == Run(rest.result, rest.state, outcomes + rest.outcomes, sleeps + rest.sleeps)
      decreases maxRetries - attempt
    {
      var step := op(s);
      ghost var rest := RetryFrom(maxRetries, retryDelay, op, step.1, attempt + 1);
      ghost var before, slept := outcomes, sleeps;
      RetryFromStep(maxRetries, retryDelay, op, s, attempt);
      s := step.1;
      outcomes := outcomes + [step.0];
      if Retryable(step.0) && attempt < maxRetries - 1 {
        var pause := Backoff(retryDelay, attempt);
        assert outcomes + rest.outcomes == before + ([step.0] + rest.outcomes);
        sleeps := sleeps + [pause];
        assert sleeps + rest.sleeps == slept + ([pause] + rest.sleeps);
        attempt := attempt + 1;
      } else {
        return Finished(step.0), s, outcomes, sleeps;
      }
    }
    result := NoAttempts;
  }

  /** One attempt of the wrapper: a retryable error before the last allowed attempt sleeps and goes on; anything else ends the run. */
  lemma RetryFromStep<S, T>(maxRetries: nat, retryDelay: nat, op: S -> (Outcome<T>, S), s: S, attempt: nat)
    requires attempt < maxRetries
    ensures var step := op(s);
      var rest := RetryFrom(maxRetries, retryDelay, op, step.1, attempt + 1);
      RetryFrom(maxRetries, retryDelay, op, s, attempt) ==
        if Retryable(step.0) && attempt < maxRetries - 1
        then Run(rest.result, rest.state, [step.0] + rest.outcomes, [Backoff(retryDelay, attempt)] + rest.sleeps)
        else Run(Finished(step.0), step.1, [step.0], [])
  {
  }

  /**
   * What the wrapper promises: with at least one attempt allowed, it makes
   * between one and the allowed number of attempts; every attempt but the last
   * raised a retryable error; it ends with the last attempt's outcome, which
   * is retryable only when every allowed attempt was made; and it sleeps
   * `retry_delay * 2^k` after each failed attempt `k` but the last.
   */
  lemma {:induction false} RetryFromShape<S, T>(maxRetries: nat, retryDelay: nat, op: S -> (Outcome<T>, S), s: S, attempt: nat)
    requires attempt < maxRetries
    ensures var r := RetryFrom(maxRetries, retryDelay, op, s, attempt);
      && 1 <= |r.outcomes| <= maxRetries - attempt
      && r.outcomes[0] == op(s).0
      && r.result == Finished(r.outcomes[|r.outcomes| - 1])
      && (forall k :: 0 <= k < |r.outcomes| - 1 ==> Retryable(r.outcomes[k]))
      && (Retryable(r.outcomes[|r.outcomes| - 1]) ==> |r.outcomes| == maxRetries - attempt)
      && |r.sleeps| == |r.outcomes| - 1
      && (forall k :: 0 <= k < |r.sleeps| ==> r.sleeps[k] == Backoff(retryDelay, attempt + k))
    decreases maxRetries - attempt
  {
    var step := op(s);
    if Retryable(step.0) && attempt < maxRetries - 1 {
      RetryFromShape(maxRetries, retryDelay, op, step.1, attempt + 1);
      var rest := RetryFrom(maxRetries, retryDelay, op, step.1, attempt + 1);
      var r := RetryFrom(maxRetries, retryDelay, op, s, attempt);
      assert r.outcomes == [step.0] + rest.outcomes;
      assert r.sleeps == [Backoff(retryDelay, attempt)] + rest.sleeps;
      forall k | 0 <= k < |r.outcomes| - 1
        ensures Retryable(r.outcomes[k])
      {
        if k > 0 {
          assert r.outcomes[k] == rest.outcomes[k - 1];
        }
      }
      forall k | 0 <= k < |r.sleeps|
        ensures r.sleeps[k] == Backoff(retryDelay, attempt + k)
      {
        if k > 0 {
          assert r.sleeps[k] == rest.sleeps[k - 1];
        }
      }
    }
  }

  /** With no attempt allowed the wrapper calls nothing and returns `None`. */
  lemma NoRetriesAllowed<S, T>(retryDelay: nat, op: S -> (Outcome<T>, S), s: S)
    ensures Retried(0, retryDelay, op, s) == Run(NoAttempts, s, [], [])
  {
  }

  /**
   * An operation that always raises a retryable error is invoked exactly
   * `max_retries` times, and its last error propagates.
   */
  lemma {:induction false} AlwaysRetryable<S, T>(maxRetries: nat, retryDelay: nat, op: S -> (Outcome<T>, S), s: S, attempt: nat)
    requires attempt < maxRetries
    requires forall x :: Retryable(op(x).0)
    ensures |RetryFrom(maxRetries, retryDelay, op, s, attempt).outcomes| == maxRetries - attempt
    ensures RetryFrom(maxRetries, retryDelay, op, s, attempt).result.Finished?
    ensures Retryable(RetryFrom(maxRetries, retryDelay, op, s, attempt).result.outcome)
    decreases maxRetries - attempt
  {
    if attempt < maxRetries - 1 {
      AlwaysRetryable(maxRetries, retryDelay, op, op(s).1, attempt + 1);
    }
  }

  /**
   * An error outside the retryable pair (a `ThreadsMediaError`, say)
   * escapes after a single invocation, as does a first attempt that
   * returns.
   */
  lemma FirstFinalOutcome<S, T>(maxRetries: nat, retryDelay: nat, op: S -> (Outcome<T>, S), s: S)
    requires maxRetries > 0 && !Retryable(op(s).0)
    ensures Retried(maxRetries, retryDelay, op, s) == Run(Finished(op(s).0), op(s).1, [op(s).0], [])
  {
  }

  /**
   * Counting what the operation does: when each invocation raises a
   * counter by between `lo` and `hi`, a run raises it by between `lo` and
   * `hi` times the number of attempts (exactly `c` times that number when
   * `lo == hi == c`).
   */
  lemma {:induction false} RetryCounts<S, T>(maxRetries: nat, retryDelay: nat, op: S -> (Outcome<T>, S), count: S -> int, lo: int, hi: int, s: S, attempt: nat)
    requires forall x :: count(x) + lo <= count(op(x).1) <= count(x) + hi
    ensures var r := RetryFrom(maxRetries, retryDelay, op, s, attempt);
      count(s) + lo * |r.outcomes| <= count(r.state) <= count(s) + hi * |r.outcomes|
    decreases maxRetries - attempt
  {
    if attempt < maxRetries {
      var step := op(s);
      if Retryable(step.0) && attempt < maxRetries - 1 {
        RetryCounts(maxRetries, retryDelay, op, count, lo, hi, step.1, attempt + 1);
        var rest := RetryFrom(maxRetries, retryDelay, op, step.1, attempt + 1);
        assert lo * (1 + |rest.outcomes|) == lo + lo * |rest.outcomes|;
        assert hi * (1 + |rest.outcomes|) == hi + hi * |rest.outcomes|;
      }
    }
  }

  /** When each invocation raises the counter by exactly `c`, a run raises it by `c` times the number of attempts. */
  lemma RetryCountsExactly<S, T>(maxRetries: nat, retryDelay: nat, op: S -> (Outcome<T>, S), count: S -> int, c: int, s: S)
    requires forall x :: count(op(x).1) == count(x) + c
    ensures var r := Retried(maxRetries, retryDelay, op, s);
      count(r.state) == count(s) + c * |r.outcomes|
  {
    RetryCounts(maxRetries, retryDelay, op, count, c, c, s, 0);
  }

  /** An operation that always raises a retryable error and raises the counter by `c` raises it by `c * max_retries` in all. */
  lemma AlwaysRetryableCounts<S, T>(maxRetries: nat, retryDelay: nat, op: S -> (Outcome<T>, S), count: S -> int, c: int, s: S)
    requires maxRetries >= 1
    requires forall x :: Retryable(op(x).0) && count(op(x).1) == count(x) + c
    ensures count(Retried(maxRetries, retryDelay, op, s).state) == count(s) + c * maxRetries
  {
    AlwaysRetryable(maxRetries, retryDelay, op, s, 0);
    RetryCountsExactly(maxRetries, retryDelay, op, count, c, s);
  }

  /** A property of the state that every invocation keeps holds at the end of a run. */
  lemma {:induction false} RetryPreserves<S, T>(maxRetries: nat, retryDelay: nat, op: S -> (Outcome<T>, S), inv: S -> bool, s: S, attempt: nat)
    requires forall x :: inv(x) ==> inv(op(x).1)
    requires inv(s)
    ensures inv(RetryFrom(maxRetries, retryDelay, op, s, attempt).state)
    decreases maxRetries - attempt
  {
    if attempt < maxRetries {
      var step := op(s);
      if Retryable(step.0) && attempt < maxRetries - 1 {
        RetryPreserves(maxRetries, retryDelay, op, inv, step.1, attempt + 1);
      }
    }
  }

  /** When every invocation's outcome has a property, so has every recorded outcome and the one the run ends with. */
  lemma {:induction false} RetryOutcomesFrom<S, T>(maxRetries: nat, retryDelay: nat, op: S -> (Outcome<T>, S), good: Outcome<T> -> bool, s: S, attempt: nat)
    requires forall x :: good(op(x).0)
    ensures var r := RetryFrom(maxRetries, retryDelay, op, s, attempt);
      (forall k :: 0 <= k < |r.outcomes| ==> good(r.outcomes[k])) && (r.result.Finished? ==> good(r.result.outcome))
    decreases maxRetries - attempt
  {
    if attempt < maxRetries {
      var step := op(s);
      if Retryable(step.0) && attempt < maxRetries - 1 {
        RetryOutcomesFrom(maxRetries, retryDelay, op, good, step.1, attempt + 1);
        var rest := RetryFrom(maxRetries, retryDelay, op, step.1, attempt + 1);
        var r := RetryFrom(maxRetries, retryDelay, op, s, attempt);
        assert r.outcomes == [step.0] + rest.outcomes;
        forall k | 0 <= k < |r.outcomes|
          ensures good(r.outcomes[k])
        {
          if k > 0 {
            assert r.outcomes[k] == rest.outcomes[k - 1];
          }
        }
      }
    }
  }

  /** With an attempt left, a run makes between one and the remaining number of attempts and ends with the last one's outcome. */
  lemma {:induction false} RetryLength<S, T>(maxRetries: nat, retryDelay: nat, op: S -> (Outcome<T>, S), s: S, attempt: nat)
    requires attempt < maxRetries
    ensures var r := RetryFrom(maxRetries, retryDelay, op, s, attempt);
      1 <= |r.outcomes| <= maxRetries - attempt && r.result.Finished?
    decreases maxRetries - attempt
  {
    var step := op(s);
    if Retryable(step.0) && attempt < maxRetries - 1 {
      RetryLength(maxRetries, retryDelay, op, step.1, attempt + 1);
    }
  }

  /**
   * An operation whose body is itself a retried call, as `_do_post` is:
   * the inner run's outcome, or `none` when it made no attempt, and its
   * final state.
   */
  function Nested<S, T>(maxRetries: nat, retryDelay: nat, inner: S -> (Outcome<T>, S), none: T): S -> (Outcome<T>, S)
  {
    s => var run := Retried(maxRetries, retryDelay, inner, s);
      (if run.result.Finished? then run.result.outcome else Returned(none), run.state)
  }

  /** Each nested invocation counts between one and `max_retries` inner invocations. */
  lemma NestedStep<S, T>(maxRetries: nat, retryDelay: nat, inner: S -> (Outcome<T>, S), none: T, count: S -> int)
    requires maxRetries >= 1
    requires forall y :: count(inner(y).1) == count(y) + 1
    ensures forall x :: count(x) + 1 <= count(Nested(maxRetries, retryDelay, inner, none)(x).1) <= count(x) + maxRetries
  {
    forall x ensures count(x) + 1 <= count(Nested(maxRetries, retryDelay, inner, none)(x).1) <= count(x) + maxRetries {
      RetryCounts(maxRetries, retryDelay, inner, count, 1, 1, x, 0);
      RetryLength(maxRetries, retryDelay, inner, x, 0);
    }
  }

  /**
   * Retrying an operation that is itself retried multiplies the attempts:
   * when each inner invocation counts one, a run counts between one and
   * `max_retries²`.
   */
  lemma NestedCounts<S, T>(maxRetries: nat, retryDelay: nat, inner: S -> (Outcome<T>, S), none: T, count: S -> int, s: S)
    requires maxRetries >= 1
    requires forall y :: count(inner(y).1) == count(y) + 1
    ensures var r := Retried(maxRetries, retryDelay, Nested(maxRetries, retryDelay, inner, none), s);
      count(s) + 1 <= count(r.state) <= count(s) + maxRetries * maxRetries
  {
    var outer := Nested(maxRetries, retryDelay, inner, none);
    NestedStep(maxRetries, retryDelay, inner, none, count);
    RetryCounts(maxRetries, retryDelay, outer, count, 1, maxRetries, s, 0);
    RetryLength(maxRetries, retryDelay, outer, s, 0);
    var r := Retried(maxRetries, retryDelay, outer, s);
    SquareBound(count(s), count(r.state), |r.outcomes|, maxRetries);
  }

  lemma SquareBound(before: int, after: int, n: nat, m: nat)
    requires 1 <= n <= m
    requires before + 1 * n <= after <= before + m * n
    ensures before + 1 <= after <= before + m * m
  {
    assert m * n <= m * m;
  }

  /** When every inner invocation raises a retryable error, so does a nested one, after `max_retries` of them. */
  lemma NestedExhaustedStep<S, T>(maxRetries: nat, retryDelay: nat, inner: S -> (Outcome<T>, S), none: T, count: S -> int, x: S)
    requires maxRetries >= 1
    requires forall y :: Retryable(inner(y).0) && count(inner(y).1) == count(y) + 1
    ensures Retryable(Nested(maxRetries, retryDelay, inner, none)(x).0)
    ensures count(Nested(maxRetries, retryDelay, inner, none)(x).1) == count(x) + maxRetries
  {
    AlwaysRetryable(maxRetries, retryDelay, inner, x, 0);
    RetryCountsExactly(maxRetries, retryDelay, inner, count, 1, x);
  }

  /**
   * The nested bound is reached: when every inner invocation raises a
   * retryable error, a run makes exactly `max_retries²` inner invocations
   * and ends with a retryable error.
   */
  lemma NestedExhausted<S, T>(maxRetries: nat, retryDelay: nat, inner: S -> (Outcome<T>, S), none: T, count: S -> int, s: S)
    requires maxRetries >= 1
    requires forall y :: Retryable(inner(y).0) && count(inner(y).1) == count(y) + 1
    ensures var r := Retried(maxRetries, retryDelay, Nested(maxRetries, retryDelay, inner, none), s);
      count(r.state) == count(s) + maxRetries * maxRetries && r.result.Finished? && Retryable(r.result.outcome)
  {
    var outer := Nested(maxRetries, retryDelay, inner, none);
    forall x ensures Retryable(outer(x).0) && count(outer(x).1) == count(x) + maxRetries {
      NestedExhaustedStep(maxRetries, retryDelay, inner, none, count, x);
    }
    AlwaysRetryable(maxRetries, retryDelay, outer, s, 0);
    AlwaysRetryableCounts(maxRetries, retryDelay, outer, count, maxRetries, s);
  }

  lemma NestedPreservesStep<S, T>(maxRetries: nat, retryDelay: nat, inner: S -> (Outcome<T>, S), none: T, inv: S -> bool)
    requires forall x :: inv(x) ==> inv(inner(x).1)
    ensures forall x :: inv(x) ==> inv(Nested(maxRetries, retryDelay, inner, none)(x).1)
  {
    forall x | inv(x) ensures inv(Nested(maxRetries, retryDelay, inner, none)(x).1) {
      RetryPreserves(maxRetries, retryDelay, inner, inv, x, 0);
    }
  }

  /** A state property every inner invocation keeps holds after a nested run. */
  lemma NestedPreserves<S, T>(maxRetries: nat, retryDelay: nat, inner: S -> (Outcome<T>, S), none: T, inv: S -> bool, s: S)
    requires forall x :: inv(x) ==> inv(inner(x).1)
    requires inv(s)
    ensures inv(Retried(maxRetries, retryDelay, Nested(maxRetries, retryDelay, inner, none), s).state)
  {
    NestedPreservesStep(maxRetries, retryDelay, inner, none, inv);
    RetryPreserves(maxRetries, retryDelay, Nested(maxRetries, retryDelay, inner, none), inv, s, 0);
  }

  lemma NestedOutcomesStep<S, T>(maxRetries: nat, retryDelay: nat, inner: S -> (Outcome<T>, S), none: T, good: Outcome<T> -> bool)
    requires maxRetries >= 1
    requires forall x :: good(inner(x).0)
    ensures forall x :: good(Nested(maxRetries, retryDelay, inner, none)(x).0)
  {
    forall x ensures good(Nested(maxRetries, retryDelay, inner, none)(x).0) {
      RetryLength(maxRetries, retryDelay, inner, x, 0);
      RetryOutcomesFrom(maxRetries, retryDelay, inner, good, x, 0);
    }
  }

  /** When every inner outcome has a property, a nested run ends with an outcome that has it. */
  lemma NestedOutcomes<S, T>(maxRetries: nat, retryDelay: nat, inner: S -> (Outcome<T>, S), none: T, good: Outcome<T> -> bool, s: S)
    requires maxRetries >= 1
    requires forall x :: good(inner(x).0)
    ensures var r := Retried(maxRetries, retryDelay, Nested(maxRetries, retryDelay, inner, none), s);
      r.result.Finished? && good(r.result.outcome)
  {
    NestedOutcomesStep(maxRetries, retryDelay, inner, none, good);
    RetryLength(maxRetries, retryDelay, Nested(maxRetries, retryDelay, inner, none), s, 0);
    RetryOutcomesFrom(maxRetries, retryDelay, Nested(maxRetries, retryDelay, inner, none), good, s, 0);
  }

  /** Whatever the number of retries, a nested run that ends with an outcome ends with one that has the property. */
  lemma NestedOutcomesIfFinished<S, T>(maxRetries: nat, retryDelay: nat, inner: S -> (Outcome<T>, S), none: T, good: Outcome<T> -> bool, s: S)
    requires forall x :: good(inner(x).0)
    ensures var r := Retried(maxRetries, retryDelay, Nested(maxRetries, retryDelay, inner, none), s);
      r.result.Finished? ==> good(r.result.outcome)
  {
    if maxRetries >= 1 {
      NestedOutcomes(maxRetries, retryDelay, inner, none, good, s);
    }
  }
}
