# LLM circuit breaker — Dafny model

This project models the core of `llm-circuit-breaker`, a TypeScript guard for calls to an HTTP-based LLM endpoint. The core has two parts:

- a three-state circuit breaker (`CLOSED`, `OPEN`, `HALF_OPEN`) that counts failures and successes and stops calls to an unhealthy service for a cool-down period;
- an exponential-backoff retry policy that the breaker's `call` runs for each admitted request.

The transport and the clock are taken out:

- The transport is a function from the zero-based attempt index to that attempt's outcome: `Ok(body)` or `Fail(code)`, where `code` is an optional HTTP status.
- Every instant the source reads with `Date.now()` is passed in as an integer.

With both out, every operation is a pure function over an immutable `State`.

Files and modules:

- `wrappers.dfy` (`Wrappers`): `Option`, used for the nullable timestamps and the optional status code.
- `types.dfy` (`Types`): the `Status` enumeration, the `State` record, `BreakerConfig` and `RetryConfig`, the default configurations and the initial state. `Status` is a three-constructor datatype, so a state is always in exactly one of the three statuses. `lastFailure` and `nextAttempt` are `Option<int>`.
- `backoff.dfy` (`Backoff`): `ShouldRetry`, `GetDelay` (with an exact natural-number `Pow`) and `Wait`, which is reduced to the delay it would sleep.
- `breaker.dfy` (`Breaker`): `CanAttempt`, `OnSuccess`, `OnFailure`, the reachable-state invariant `Inv`, and the failure and success streak lemmas.
- `calls.dfy` (`Calls`): the retry loop `RetryLoop`, one protected `Call`, a sequence of calls `Run`, and the two scenarios from the repository's tests.

Behaviour that follows the code rather than the prose description of the system:

- **Truthiness tests.** The code tests `statusCode` and `nextAttempt` for truthiness, not for presence. So a status code of 0 is treated as "no code" and is always retried within budget. An open circuit whose `nextAttempt` is exactly 0 never admits a probe. `HasCode` and `ResetDue` model these tests as written.
- **Cancellation.** An external abort reaches the retry loop as a failure without a status code, so it is retried like a timeout. It is not a special non-retryable outcome.
- **Constant backoff.** A `backoffFactor` of 1 gives the delay `min(initialDelay, maxDelay)`, not plain `initialDelay`, because of the cap.
- **`onSuccess` outside `HALF_OPEN`.** It only resets `failures`. It does not clear `lastFailure`, and it does the same thing in `OPEN` as in `CLOSED`.
- **The loop's own exit test.** The `for` loop's test `attempt <= maxRetries` never ends the loop. A retry needs `attempt < maxRetries`, so the loop always leaves by `return` or `break` first. `RetryLoop` therefore has only those two exits.

## Model

| member | source | states |
|---|---|---|
| Backoff.ShouldRetry | src/strategies/ExponentialBackoff.ts:18-26 | Nothing is retried once `attempt >= maxRetries`, whatever the code. Within budget: a present non-zero code with a non-empty list is retried iff the code is in the list; no code (or code 0), or an empty list, is always retried. |
| Backoff.NoBudgetNoRetry | src/strategies/ExponentialBackoff.ts:19 | With `maxRetries = 0`, `ShouldRetry` is false for every attempt and code. |
| Backoff.DefaultRetryCodes | src/CircuitBreaker.ts:12-18 | Under the default retry configuration, a non-zero code at an attempt below 3 is retried iff it is 429, 500, 502, 503 or 504. |
| Backoff.Pow | src/strategies/ExponentialBackoff.ts:29 | The power is at least 1 for a factor of at least 1, and 0 for factor 0 with a positive exponent. |
| Backoff.PowOfOne | src/strategies/ExponentialBackoff.ts:29 | A factor of 1 raised to any attempt index is 1. |
| Backoff.PowMonotone | src/strategies/ExponentialBackoff.ts:29 | For a factor of at least 1, the power does not decrease as the exponent grows. |
| Backoff.GetDelay | src/strategies/ExponentialBackoff.ts:28-31 | The delay never exceeds `maxDelay` or `initialDelay * factor^attempt`, and equals one of the two: it is their minimum. |
| Backoff.FirstDelay | src/strategies/ExponentialBackoff.ts:29-30 | The delay after attempt 0 is `min(initialDelay, maxDelay)`. |
| Backoff.ConstantBackoff | src/strategies/ExponentialBackoff.ts:29-30 | With `backoffFactor = 1`, every delay is `min(initialDelay, maxDelay)`. |
| Backoff.DelayMonotone | src/strategies/ExponentialBackoff.ts:29-30 | With `backoffFactor >= 1`, the delay is non-decreasing in the attempt index. |
| Backoff.DefaultSchedule | src/CircuitBreaker.ts:12-18 | Under the default retry configuration, the delays are 1000, 2000 and 4000 ms for attempts 0 to 2. They reach the 30000 ms cap at attempt 5. |
| Backoff.Wait | src/strategies/ExponentialBackoff.ts:33-36 | Waiting after attempt `i` pauses for exactly `GetDelay(i)`, which is never more than `maxDelay`. |
| Breaker.CanAttempt | src/CircuitBreaker.ts:77-90 | `CLOSED` and `HALF_OPEN` admit and leave the state unchanged. `OPEN` with no reset time, a reset time of 0, or `now <= nextAttempt` rejects and leaves the state unchanged. `OPEN` with `now > nextAttempt` admits, moves to `HALF_OPEN`, clears `nextAttempt` and keeps the counters. An admitted call never sees `OPEN`. |
| Breaker.OnSuccess | src/CircuitBreaker.ts:44-58 | In `HALF_OPEN`, reaching `successThreshold` returns exactly the initial state. Below it, only `successes` goes up by one. Outside `HALF_OPEN`, only `failures` becomes 0. |
| Breaker.OnFailure | src/CircuitBreaker.ts:60-75 | `failures` always goes up by one and `lastFailure` becomes `now`. `HALF_OPEN` becomes `OPEN` with `successes = 0` and `nextAttempt = now + resetTimeout`. `CLOSED` reaching `failureThreshold` becomes `OPEN` with that `nextAttempt`. In every other case only the count and the timestamp change. |
| Breaker.InitialStateInv | src/CircuitBreaker.ts:31-37 | The initial state satisfies the invariant when `failureThreshold >= 1`. The invariant says: `nextAttempt` is set iff `OPEN`; `successes` is 0 outside `HALF_OPEN` and below `successThreshold` inside it; `CLOSED` has fewer than `failureThreshold` failures; a failure count above 0 has a `lastFailure`. |
| Breaker.CanAttemptPreservesInv | src/CircuitBreaker.ts:77-90 | The permission check, including the move from `OPEN` to `HALF_OPEN`, preserves the invariant. |
| Breaker.OnSuccessPreservesInv | src/CircuitBreaker.ts:44-58 | The success handler preserves the invariant when `failureThreshold >= 1`. |
| Breaker.OnFailurePreservesInv | src/CircuitBreaker.ts:60-75 | The failure handler preserves the invariant. |
| Breaker.FailureStreak | src/CircuitBreaker.ts:60-75 | From `CLOSED` with no failures, after `k <= failureThreshold` failures the count is `k`. The circuit is still `CLOSED` iff `k < failureThreshold`. At `k = failureThreshold` it is `OPEN` until `resetTimeout` after the last failure. |
| Breaker.SuccessStreak | src/CircuitBreaker.ts:44-53 | From a fresh `HALF_OPEN` probe, `k < successThreshold` successes only set `successes` to `k`. Exactly `successThreshold` successes (at least one) restore the initial state. |
| Calls.RetryLoop | src/CircuitBreaker.ts:100-139 | A loop from attempt `a` makes at most `maxRetries + 1` attempts in total, in index order. Every attempt before the last failed with `attempt < maxRetries && shouldRetry`. The last attempt is a success or a failure that is not retried, and its response is returned. The loop pauses `GetDelay(i)` after each attempt except the last. |
| Calls.LoopStopsAtStopIndex | src/CircuitBreaker.ts:120-137 | The loop from attempt 0 makes `k + 1` attempts iff `k` is the stopping index. The stopping index is the one where every earlier attempt is retried and attempt `k` is not. |
| Calls.Call | src/CircuitBreaker.ts:92-144 | A rejected call returns "circuit open" with no attempt, no pause and the state unchanged. An admitted call makes 1 to `maxRetries + 1` attempts, stops as the loop does, and pauses only between attempts. It then applies exactly one handler to the admitted state: `OnSuccess`, returning the body, or `OnFailure` at settle time, returning the last failure's code. |
| Calls.OpenRejects | src/CircuitBreaker.ts:93-95 | An `OPEN` circuit whose reset time is unset or not yet passed rejects the call without a transport attempt and without changing the state. |
| Calls.ProbeAfterReset | src/CircuitBreaker.ts:82-86 | Once the reset time has passed, the next call is admitted and makes at least one transport attempt, whatever its outcome. |
| Calls.CallPreservesInv | src/CircuitBreaker.ts:92-144 | A whole call preserves the invariant when `failureThreshold >= 1`. |
| Calls.RunPreservesInv | src/CircuitBreaker.ts:44-144 | Any sequence of calls from a state that satisfies the invariant ends in a state that satisfies it. |
| Calls.ReachableInv | src/CircuitBreaker.ts:31-37 | Every state a new breaker reaches through calls satisfies the invariant. |
| Calls.OpensAfterTwoFailedCalls | test/CircuitBreaker.test.ts:26-48 | With threshold 2 and no retries against constant 500s, the first call fails after 1 attempt and stays `CLOSED`. The second fails after 1 attempt and opens the circuit. The third, within the reset time, is rejected with no attempt. |
| Calls.RetriesThroughTransientErrors | test/CircuitBreaker.test.ts:50-70 | With 2 retries, factor 1 and initial delay 10, the sequence 429, 503, 200 returns the body after 3 attempts and pauses of 10 and 10 ms, and leaves the breaker in its initial `CLOSED` state. |

## Left out

- The axios request, the per-attempt timeout (`timeout` in the breaker configuration) and the external abort signal (src/CircuitBreaker.ts:101-118) are I/O and timers. The transport function stands for all of them: a timed-out or aborted attempt is a `Fail` with no code. The `timeout` field is kept in `BreakerConfig` but nothing reads it.
- The `setTimeout` sleep in `wait` is not modelled; only the delay it would sleep is.
- `Date.now()` becomes explicit instants. `Call` takes `admitAt` for the permission check and `settleAt` for the failure handler. The failure handler's two clock reads are treated as one instant.
- Concurrent calls on one breaker instance are unsynchronized in the source; the model only makes calls one after another.
- Floating-point `Math.pow` and fractional or negative numbers: every count, delay, factor, threshold and timeout is a natural number. Timestamps are integers.
- Error objects: the source throws `Error('Circuit breaker is open')` and rethrows the raw transport error. The model returns `CircuitOpen` or `Upstream(code)`, keeping only the status code of the last failure.
- A negative `maxRetries` is excluded by typing it as a natural number. In the source the loop would not run and the failure handler would receive `undefined`.
- Merging partial options into the defaults (src/CircuitBreaker.ts:27-28) and the `getState` copy (src/CircuitBreaker.ts:40-42) are plumbing. The defaults are constants, and the state is a value.
- `Calls.Call` records a failure at a caller-supplied `settleAt`. The model does not tie `settleAt` to `admitAt` plus the pauses taken, because the source's clock is not modelled.
