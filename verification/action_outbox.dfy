/** Delivery of the transactional outbox: what one attempt records
    (services/agentnexus/internal/actions/outbox.go). */
module ActionOutbox {
  import opened ActionStore
  import opened ActionTypes
  import opened Powers
  import opened Wrappers

  const RETRY_BASE_DELAY: Time := 5 * SECOND
  const RETRY_MAX_DELAY: Time := 5 * 60 * SECOND

  /** Exponential backoff from the base, capped. */
  function RetryDelay(failures: int): Time {
    var doubled := RETRY_BASE_DELAY * Pow2(if failures < 1 then 0 else failures - 1);
    if doubled < RETRY_MAX_DELAY then doubled else RETRY_MAX_DELAY
  }

  method DispatchRetryDelay(attempts: int) returns (delay: Time)
    ensures delay == RetryDelay(attempts)
    ensures RETRY_BASE_DELAY <= delay <= RETRY_MAX_DELAY
  {
    var n := if attempts < 1 then 1 else attempts;
    delay := RETRY_BASE_DELAY;
    for i := 1 to n
      invariant delay == RETRY_BASE_DELAY * Pow2(i - 1) < RETRY_MAX_DELAY
      invariant RETRY_BASE_DELAY <= delay
    {
      delay := delay * 2;
      if delay >= RETRY_MAX_DELAY {
        Pow2Monotone(i, n - 1);
        return RETRY_MAX_DELAY;
      }
    }
  }

  /** The delays an intent actually waits, in seconds, before it is dead-lettered. */
  lemma BackoffSchedule()
    ensures forall n :: 1 <= n < MAX_DISPATCH_ATTEMPTS ==>
              RetryDelay(n) == [5, 10, 20, 40, 80, 160, 300][n - 1] * SECOND
  {
    assert Pow2(3) == 8;
    assert Pow2(4) == 16;
    assert Pow2(5) == 32;
    assert Pow2(6) == 64;
  }

  /** What the store must record about one attempt whose publish returned `failure`. */
  function Outcome(d: Dispatch, failure: Option<string>, now: Time): DispatchOutcome {
    match failure
    case None => DispatchOutcome(true, None, "", false)
    case Some(e) =>
      if d.attempts + 1 >= MAX_DISPATCH_ATTEMPTS then DispatchOutcome(false, None, e, true)
      else DispatchOutcome(false, Some(now + RetryDelay(d.attempts + 1)), e, false)
  }

  lemma OutcomeRespectsBound(d: Dispatch, failure: Option<string>, now: Time)
    requires !Final(d)
    ensures OutcomeFits(d, Outcome(d, failure, now))
    ensures Outcome(d, failure, now).published <==> failure == None
  {
  }
}
