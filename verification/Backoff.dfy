/** Exponential retry delays in whole seconds. */
module RetryBackoff {
  import opened Prelude

  function Pow2(n: nat): (p: nat)
    ensures p > 0
  {
    if n == 0 then 1 else 2 * Pow2(n - 1)
  }

  datatype BackoffError = NegativeRetryCount | DelayNotPositive

  datatype ExponentialBackoff = ExponentialBackoff(baseDelay: nat, maxDelay: nat)
  {
    predicate Valid() {
      0 < baseDelay <= maxDelay
    }

    /** What the doubling loop computes: the capped geometric sequence. */
    function Delay(retryCount: nat): nat {
      Min(baseDelay * Pow2(retryCount), maxDelay)
    }

    function Bounded(delay: nat): nat {
      Min(delay, maxDelay)
    }

    /** The loop returns early once half of the limit is reached, and never computes past it. */
    method DelayFor(retryCount: int) returns (r: Result<nat, BackoffError>)
      requires Valid()
      ensures r == if retryCount < 0 then Err(NegativeRetryCount) else Ok(Delay(retryCount))
    {
      if retryCount < 0 {
        return Err(NegativeRetryCount);
      }
      var delay := baseDelay;
      for i := 0 to retryCount
        invariant delay == baseDelay * Pow2(i) && delay > 0 && (i > 0 ==> delay < maxDelay)
      {
        if 2 * delay >= maxDelay {
          GrowsPast(retryCount, i);
          return Ok(maxDelay);
        }
        delay := 2 * delay;
      }
      r := Ok(Min(delay, maxDelay));
    }

    lemma {:induction false} GrowsPast(n: nat, i: nat)
      requires i < n && 2 * (baseDelay * Pow2(i)) >= maxDelay
      ensures baseDelay * Pow2(n) >= maxDelay
      decreases n
    {
      assert Pow2(n) == 2 * Pow2(n - 1);
      assert baseDelay * Pow2(n) == 2 * (baseDelay * Pow2(n - 1));
      if i < n - 1 {
        GrowsPast(n - 1, i);
      }
    }

    /** Delays stay inside the configured limits, never shrink, and double until the limit. */
    lemma DelaysGrowToTheLimit(n: nat)
      requires Valid()
      ensures baseDelay <= Delay(n) <= maxDelay
      ensures Delay(n + 1) == Min(2 * Delay(n), maxDelay)
      ensures Delay(0) == baseDelay
    {
      assert baseDelay * Pow2(n + 1) == 2 * (baseDelay * Pow2(n));
      assert baseDelay * Pow2(n) >= baseDelay * 1;
    }
  }
}
