/** The records the circuit breaker works on: its health status, its
    mutable state and the two immutable configuration records, together
    with the defaults a breaker is built with. */
module Types {
  import opened Wrappers

  /** The three health states; a breaker is in exactly one of them. */
  datatype Status = Closed | Open | HalfOpen

  /** The state record of one breaker instance. Timestamps are instants in
      milliseconds; `None` stands for the source's `null`. */
  datatype State = State(
    status: Status,
    failures: nat,
    successes: nat,
    lastFailure: Option<int>,
    nextAttempt: Option<int>
  )

  /** Breaker configuration. `failureThreshold` is the failure count that
      opens the circuit, `successThreshold` the number of half-open
      successes that closes it again, `resetTimeout` the time the circuit
      stays open and `timeout` the per-attempt transport deadline. */
  datatype BreakerConfig = BreakerConfig(
    failureThreshold: nat,
    resetTimeout: nat,
    successThreshold: nat,
    timeout: nat
  )

  /** Retry configuration. An empty `retryOnStatusCodes` means that every
      failure is worth retrying. */
  datatype RetryConfig = RetryConfig(
    maxRetries: nat,
    initialDelay: nat,
    maxDelay: nat,
    backoffFactor: nat,
    retryOnStatusCodes: seq<int>
  )

  const DefaultBreakerConfig: BreakerConfig :=
    BreakerConfig(failureThreshold := 5, resetTimeout := 30000, successThreshold := 3, timeout := 10000)

  const DefaultRetryConfig: RetryConfig :=
    RetryConfig(maxRetries := 3, initialDelay := 1000, maxDelay := 30000, backoffFactor := 2,
                retryOnStatusCodes := [429, 500, 502, 503, 504])

  /** The state a new breaker starts in: closed, no counts, no timestamps. */
  const InitialState: State := State(Closed, 0, 0, None, None)
}
