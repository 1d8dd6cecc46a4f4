/** Retry classification and backoff for finite unit attempts (worker/retry.py). */
module Retry {
  import opened Wrappers

  /** The retry fields of FinitePolicy; its constructor rejects every other combination. */
  datatype PolicyData = Policy(retryBase: int, retryCap: int, claimGrace: int)

  type Policy = p: PolicyData | 1 <= p.retryBase <= p.retryCap && 1 <= p.claimGrace witness Policy(5, 300, 120)

  /** A wait; RateLimitedExecutionError rejects one that is not positive. */
  type Delay = d: int | d > 0 witness 1

  /** What a handler raised, by the class the worker tests for. */
  datatype ErrorClass =
    | CancelledError
    | RateLimitedError(retryAfter: Delay)
    | PermanentError
    | RetryableError
    | ContractError
    | UnexpectedError

  datatype HandlerError = HandlerError(class_: ErrorClass, document: string)

  datatype Outcome = OutcomeSucceeded | OutcomePermanent | OutcomeRetryable | OutcomeRateLimited | OutcomeCancelled

  datatype AttemptOutcome = AttemptOutcome(outcome: Outcome, error: string, retryDelay: Option<int>)

  function Pow2(n: nat): (p: int)
    ensures p >= 1
  {
    if n == 0 then 1 else 2 * Pow2(n - 1)
  }

  function Min(a: int, b: int): int {
    if a <= b then a else b
  }

  function Max(a: int, b: int): int {
    if a >= b then a else b
  }

  /** Exponential backoff with a cap; `attempt` is 1-based. */
  function BackoffDelay(attempt: int, policy: Policy): int {
    Min(policy.retryBase * Pow2(Max(0, attempt - 1)), policy.retryCap)
  }

  function ClassifyError(e: HandlerError, attempt: int, policy: Policy): AttemptOutcome {
    match e.class_
    case CancelledError => AttemptOutcome(OutcomeCancelled, e.document, None)
    case RateLimitedError(after) =>
      AttemptOutcome(OutcomeRateLimited, e.document, Some(Max(BackoffDelay(attempt, policy), after)))
    case PermanentError => AttemptOutcome(OutcomePermanent, e.document, None)
    case RetryableError => AttemptOutcome(OutcomeRetryable, e.document, Some(BackoffDelay(attempt, policy)))
    case ContractError => AttemptOutcome(OutcomePermanent, e.document, None)
    case UnexpectedError => AttemptOutcome(OutcomeRetryable, e.document, Some(BackoffDelay(attempt, policy)))
  }

  predicate RetriesExhausted(maxAttempts: int, attempt: int) {
    attempt >= maxAttempts
  }

  predicate WillRetry(o: Outcome) {
    o.OutcomeRetryable? || o.OutcomeRateLimited?
  }

  /** Every retry waits at least the backoff of its attempt and at least what a rate limit asked for. */
  lemma {:induction false} RetryDelayIsAFloor(e: HandlerError, attempt: int, policy: Policy)
    ensures var o := ClassifyError(e, attempt, policy);
            && (WillRetry(o.outcome) <==> o.retryDelay.Some?)
            && (o.retryDelay.Some? ==> BackoffDelay(attempt, policy) <= o.retryDelay.value)
            && (e.class_.RateLimitedError? ==> o.retryDelay.Some? && e.class_.retryAfter <= o.retryDelay.value)
            && (o.retryDelay.Some? && o.retryDelay.value != BackoffDelay(attempt, policy) ==>
                e.class_ == RateLimitedError(o.retryDelay.value))
  {
  }

  /** The first wait is the base, and each later one twice the one before, up to the cap. */
  lemma {:induction false} BackoffDoubles(attempt: int, policy: Policy)
    ensures attempt <= 1 ==> BackoffDelay(attempt, policy) == policy.retryBase
    ensures attempt >= 1 ==>
              var twice := 2 * BackoffDelay(attempt, policy);
              BackoffDelay(attempt + 1, policy) == if twice <= policy.retryCap then twice else policy.retryCap
  {
    if attempt >= 1 {
      var q := Pow2(attempt - 1);
      assert Pow2(attempt) == 2 * q;
      assert policy.retryBase * (2 * q) == 2 * (policy.retryBase * q);
    }
  }

  lemma {:induction false} Pow2Doubles(m: nat, n: nat)
    requires m <= n
    ensures Pow2(m) <= Pow2(n)
    decreases n - m
  {
    if m < n {
      Pow2Doubles(m + 1, n);
    }
  }

  /** Delays never shrink from one attempt to the next and stay between the base and the cap. */
  lemma {:induction false} BackoffIsMonotoneAndBounded(earlier: int, later: int, policy: Policy)
    requires earlier <= later
    ensures policy.retryBase <= BackoffDelay(earlier, policy) <= BackoffDelay(later, policy) <= policy.retryCap
  {
    var a, b := Max(0, earlier - 1), Max(0, later - 1);
    Pow2Doubles(a, b);
  }

  /** The total wait before the attempt after `attempts` failures. */
  function TotalBackoff(attempts: nat, policy: Policy): int {
    if attempts == 0 then 0 else TotalBackoff(attempts - 1, policy) + BackoffDelay(attempts, policy)
  }

  lemma SeriesGrows(base: int, p: int)
    ensures base * (p - 1) + base * p == base * (2 * p - 1)
  {
  }

  lemma HalfIsLess(base: int, q: int)
    requires base >= 1 && q >= 1
    ensures base * q <= base * (2 * q)
  {
  }

  /** While no delay has reached the cap the waits form the geometric series base * (2^n - 1). */
  lemma {:induction false} UncappedTotalBackoff(attempts: nat, policy: Policy)
    requires attempts > 0 ==> policy.retryBase * Pow2(attempts - 1) <= policy.retryCap
    ensures TotalBackoff(attempts, policy) == policy.retryBase * (Pow2(attempts) - 1)
  {
    if attempts > 0 {
      var p := Pow2(attempts - 1);
      if attempts > 1 {
        HalfIsLess(policy.retryBase, Pow2(attempts - 2));
      }
      UncappedTotalBackoff(attempts - 1, policy);
      SeriesGrows(policy.retryBase, p);
    }
  }
}
