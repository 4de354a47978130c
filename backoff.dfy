/**
 * Exponential backoff with jitter, capped. The random jitter is an input.
 */
module Backoff {

  /** RATE_LIMIT: at most three retries, 1 s initial delay, 10 s cap. */
  const MaxRetries: nat := 3
  const InitialDelayMs: nat := 1000
  const MaxDelayMs: nat := 10000

  /** The value of `Math.random() * 1000`. */
  type Jitter = j: real | 0.0 <= j < 1000.0

  function Pow2(n: nat): (r: nat)
    ensures r >= 1
  {
    if n == 0 then 1 else 2 * Pow2(n - 1)
  }

  lemma {:induction false} Pow2Monotonic(n: nat, m: nat)
    requires n <= m
    ensures Pow2(n) <= Pow2(m)
    decreases m
  {
    if n < m {
      Pow2Monotonic(n, m - 1);
    }
  }

  function Min(a: real, b: real): real
  {
    if a <= b then a else b
  }

  /** The uncapped part of the delay, 1000 * 2^retryCount milliseconds. */
  function ExponentialDelay(retryCount: nat): real
  {
    (InitialDelayMs * Pow2(retryCount)) as real
  }

  /** getBackoffDelay: min(1000 * 2^retryCount + jitter, 10000) milliseconds. */
  function GetBackoffDelay(retryCount: nat, jitter: Jitter): (ms: real)
    ensures ms <= MaxDelayMs as real
    ensures ms >= Min(ExponentialDelay(retryCount), MaxDelayMs as real)
  {
    Min(ExponentialDelay(retryCount) + jitter, MaxDelayMs as real)
  }

  /**
   * The delay lies in [min(1000 * 2^n, 10000), 10000] and is exactly
   * 1000 * 2^n + jitter whenever that stays below the cap.
   */
  lemma BackoffBounds(retryCount: nat, jitter: Jitter)
    ensures Min(ExponentialDelay(retryCount), MaxDelayMs as real) <= GetBackoffDelay(retryCount, jitter)
    ensures GetBackoffDelay(retryCount, jitter) <= MaxDelayMs as real
    ensures ExponentialDelay(retryCount) + jitter < MaxDelayMs as real ==>
              GetBackoffDelay(retryCount, jitter) == ExponentialDelay(retryCount) + jitter
    ensures ExponentialDelay(retryCount) + jitter >= MaxDelayMs as real ==>
              GetBackoffDelay(retryCount, jitter) == MaxDelayMs as real
  {
  }

  /** With the jitter held fixed, a later retry never waits less. */
  lemma BackoffMonotonic(n: nat, m: nat, jitter: Jitter)
    requires n <= m
    ensures GetBackoffDelay(n, jitter) <= GetBackoffDelay(m, jitter)
  {
    Pow2Monotonic(n, m);
  }

  /** From the fourth retry on, 1000 * 2^n is at least 16000 and the cap always applies. */
  lemma BackoffSaturates(retryCount: nat, jitter: Jitter)
    requires retryCount >= 4
    ensures GetBackoffDelay(retryCount, jitter) == MaxDelayMs as real
  {
    Pow2Monotonic(4, retryCount);
    assert Pow2(4) == 16;
  }

  /**
   * For the retry numbers the fetcher can use (1 to 3) the cap never applies:
   * the delay is 2^n seconds plus the jitter, so below 9 seconds.
   */
  lemma BackoffWithinRetryBudget(retryCount: nat, jitter: Jitter)
    requires 1 <= retryCount <= MaxRetries
    ensures GetBackoffDelay(retryCount, jitter) == ExponentialDelay(retryCount) + jitter
    ensures 2000.0 <= GetBackoffDelay(retryCount, jitter) < 9000.0
  {
    assert Pow2(1) == 2 && Pow2(2) == 4 && Pow2(3) == 8;
  }
}
