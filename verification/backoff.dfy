/** The exponential backoff policy: which failures are worth another
    attempt, and how long to wait before it. All quantities are natural
    numbers, so the factor is a whole number and the power is exact. */
module Backoff {
  import opened Wrappers
  import opened Types

  /** A status code that takes part in the list test. The source tests the
      code for truthiness, so an absent code and the code 0 are both
      treated as "no code". */
  predicate HasCode(code: Option<int>) {
    code.Some? && code.value != 0
  }

  /** Whether the failure of attempt `attempt` (zero-based), carrying
      `code`, warrants another attempt. */
  function ShouldRetry(cfg: RetryConfig, attempt: nat, code: Option<int>): (retry: bool)
    // the retry budget is a hard bound, whatever the code
    ensures attempt >= cfg.maxRetries ==> !retry
    // within budget, a code is judged by the list when there is a list
    ensures attempt < cfg.maxRetries && HasCode(code) && |cfg.retryOnStatusCodes| > 0 ==>
              (retry <==> code.value in cfg.retryOnStatusCodes)
    // within budget, a failure without a code, or any failure when the list is empty, is retried
    ensures attempt < cfg.maxRetries && (!HasCode(code) || |cfg.retryOnStatusCodes| == 0) ==> retry
  {
    if attempt >= cfg.maxRetries then false
    else if HasCode(code) && |cfg.retryOnStatusCodes| > 0 then code.value in cfg.retryOnStatusCodes
    else true
  }

  /** With no retry budget nothing is ever retried: one attempt per call. */
  lemma NoBudgetNoRetry(cfg: RetryConfig, attempt: nat, code: Option<int>)
    requires cfg.maxRetries == 0
    ensures !ShouldRetry(cfg, attempt, code)
  {
  }

  /** Under the default configuration, the listed transient codes are
      retried within budget and any other code is not. */
  lemma DefaultRetryCodes(attempt: nat, code: int)
    requires attempt < 3 && code != 0
    ensures ShouldRetry(DefaultRetryConfig, attempt, Some(code)) <==> code in {429, 500, 502, 503, 504}
  {
  }

  /** `base` raised to `exp`, exactly. */
  function Pow(base: nat, exp: nat): (p: nat)
    ensures base >= 1 ==> p >= 1
    ensures base == 0 && exp > 0 ==> p == 0
  {
    if exp == 0 then 1 else base * Pow(base, exp - 1)
  }

  lemma {:induction false} PowOfOne(exp: nat)
    ensures Pow(1, exp) == 1
  {
    if exp > 0 {
      PowOfOne(exp - 1);
    }
  }

  /** With a factor of at least one, the power does not shrink as the
      exponent grows. */
  lemma {:induction false} PowMonotone(base: nat, e1: nat, e2: nat)
    requires base >= 1 && e1 <= e2
    ensures Pow(base, e1) <= Pow(base, e2)
  {
    if e1 < e2 {
      PowMonotone(base, e1, e2 - 1);
      assert Pow(base, e2) == base * Pow(base, e2 - 1);
    }
  }

  lemma MulMonotone(a: nat, b: nat, c: nat)
    requires b <= c
    ensures a * b <= a * c
  {
  }

  function Min(a: nat, b: nat): nat {
    if a <= b then a else b
  }

  /** The delay, in milliseconds, requested after the failure of attempt
      `attempt`: the initial delay grown geometrically, capped. */
  function GetDelay(cfg: RetryConfig, attempt: nat): (delay: nat)
    ensures delay <= cfg.maxDelay
    ensures delay <= cfg.initialDelay * Pow(cfg.backoffFactor, attempt)
    ensures delay == cfg.maxDelay || delay == cfg.initialDelay * Pow(cfg.backoffFactor, attempt)
  {
    Min(cfg.initialDelay * Pow(cfg.backoffFactor, attempt), cfg.maxDelay)
  }

  /** The first delay is the initial delay, capped. */
  lemma FirstDelay(cfg: RetryConfig)
    ensures GetDelay(cfg, 0) == Min(cfg.initialDelay, cfg.maxDelay)
  {
  }

  /** A factor of one gives the same delay before every retry. */
  lemma ConstantBackoff(cfg: RetryConfig, attempt: nat)
    requires cfg.backoffFactor == 1
    ensures GetDelay(cfg, attempt) == Min(cfg.initialDelay, cfg.maxDelay)
  {
    PowOfOne(attempt);
  }

  /** With a factor of at least one, later attempts never wait less. */
  lemma DelayMonotone(cfg: RetryConfig, a1: nat, a2: nat)
    requires cfg.backoffFactor >= 1 && a1 <= a2
    ensures GetDelay(cfg, a1) <= GetDelay(cfg, a2)
  {
    PowMonotone(cfg.backoffFactor, a1, a2);
    MulMonotone(cfg.initialDelay, Pow(cfg.backoffFactor, a1), Pow(cfg.backoffFactor, a2));
  }

  /** The default schedule doubles from one second and hits the 30 s cap
      at the sixth delay. */
  lemma DefaultSchedule()
    ensures GetDelay(DefaultRetryConfig, 0) == 1000
    ensures GetDelay(DefaultRetryConfig, 1) == 2000
    ensures GetDelay(DefaultRetryConfig, 2) == 4000
    ensures GetDelay(DefaultRetryConfig, 4) == 16000
    ensures GetDelay(DefaultRetryConfig, 5) == 30000
  {
  }

  /** The pause taken after the failure of attempt `attempt` before the
      next one; the sleep itself is not modelled, only its length. */
  function Wait(cfg: RetryConfig, attempt: nat): (sleepMs: nat)
    ensures sleepMs == GetDelay(cfg, attempt)
    ensures sleepMs <= cfg.maxDelay
  {
    GetDelay(cfg, attempt)
  }
}
