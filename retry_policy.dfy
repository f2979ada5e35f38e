/**
 * The retry-count bound.  The source keeps the bound and the back-off delay in
 * two mutable statics; here they are parameters, with the source's defaults as
 * constants.
 */
module RetryPolicy {

  /** Seconds counted down between a transient fault and the next attempt; 0 means none. */
  const DefaultRetryDelay := 3
  /** How many retries the bound allows; a negative count means no bound. */
  const DefaultRetryCount := 5

  /** Whether retry number `attempt` is still allowed under the bound `count`. */
  function MayRetry(count: int, attempt: int): (ok: bool)
    ensures !ok <==> count >= 0 && attempt > count
  {
    if count >= 0 then
      if attempt > count then false else true
    else
      true
  }

  /** A negative count means unbounded: every retry is allowed. */
  lemma UnboundedAlwaysRetries(count: int, attempt: int)
    requires count < 0
    ensures MayRetry(count, attempt)
  {
  }

  /** Once a retry is refused, every later one is refused too. */
  lemma RefusalIsFinal(count: int, attempt: int, later: int)
    requires !MayRetry(count, attempt)
    requires attempt <= later
    ensures !MayRetry(count, later)
  {
  }

  /** Under a bound, the allowed retries are exactly 0..count (and every negative number). */
  lemma BoundedAllowsExactlyUpToCount(count: int, attempt: int)
    requires count >= 0
    ensures MayRetry(count, attempt) <==> attempt <= count
  {
  }

  /** Under the default bound, retries 0 through 5 are allowed and every later one is refused. */
  lemma DefaultBoundAllowsUpToFive(attempt: int)
    ensures MayRetry(DefaultRetryCount, attempt) <==> attempt <= 5
  {
    BoundedAllowsExactlyUpToCount(DefaultRetryCount, attempt);
  }
}
