/** One protected call: the permission check, the retry loop over the
    transport and the single state update that records the call's outcome.
    The transport is a function from the zero-based attempt index to that
    attempt's outcome, so a call's behaviour is a function of its inputs. */
module Calls {
  import opened Wrappers
  import opened Types
  import opened Backoff
  import opened Breaker

  /** What one transport attempt produced: a response body, or a failure
      that may carry an HTTP status code (timeouts, aborts and network
      errors carry none). */
  datatype Response<T> = Ok(body: T) | Fail(code: Option<int>)

  /** What the retry loop did: the response it stopped on, the number of
      transport attempts made, and the pauses it took between them. */
  datatype LoopRun<T> = LoopRun(last: Response<T>, attempts: nat, delays: seq<nat>)

  /** What the caller sees: the body, the open-circuit rejection, or the
      last transport failure rethrown. */
  datatype CallResult<T> = Value(body: T) | CircuitOpen | Upstream(code: Option<int>)

  /** A call's result with the transport attempts it made, the pauses it
      took and the breaker state it leaves. */
  datatype CallReport<T> = CallReport(result: CallResult<T>, attempts: nat, delays: seq<nat>, state: State)

  /** The loop goes on after attempt `attempt` answered `response`. */
  predicate Retries<T>(cfg: RetryConfig, attempt: nat, response: Response<T>) {
    response.Fail? && attempt < cfg.maxRetries && ShouldRetry(cfg, attempt, response.code)
  }

  /** The retry loop from attempt `attempt` on. */
  function RetryLoop<T>(cfg: RetryConfig, transport: nat -> Response<T>, attempt: nat): (run: LoopRun<T>)
    requires attempt <= cfg.maxRetries
    decreases cfg.maxRetries - attempt
    // attempts are made in index order, and never more than the budget allows
    ensures attempt < run.attempts <= cfg.maxRetries + 1
    // every attempt before the last failed in a way worth retrying
    ensures forall i :: attempt <= i < run.attempts - 1 ==> Retries(cfg, i, transport(i))
    // the loop stops on the first response that is not retried, and returns it
    ensures run.last == transport(run.attempts - 1)
    ensures !Retries(cfg, run.attempts - 1, run.last)
    // it pauses between attempts, never after the last one
    ensures |run.delays| == run.attempts - 1 - attempt
    ensures forall j :: 0 <= j < |run.delays| ==> run.delays[j] == GetDelay(cfg, attempt + j)
  {
    var response := transport(attempt);
    if Retries(cfg, attempt, response) then
      var rest := RetryLoop(cfg, transport, attempt + 1);
      LoopRun(rest.last, rest.attempts, [Wait(cfg, attempt)] + rest.delays)
    else
      LoopRun(response, attempt + 1, [])
  }

  /** `k` is where a loop starting at attempt 0 must stop: every earlier
      attempt is retried and attempt `k` is not. */
  ghost predicate StopsAt<T>(cfg: RetryConfig, transport: nat -> Response<T>, k: nat) {
    && k <= cfg.maxRetries
    && (forall i :: 0 <= i < k ==> Retries(cfg, i, transport(i)))
    && !Retries(cfg, k, transport(k))
  }

  /** The loop stops at the one and only stopping index. */
  lemma LoopStopsAtStopIndex<T>(cfg: RetryConfig, transport: nat -> Response<T>, k: nat)
    ensures StopsAt(cfg, transport, k) <==> RetryLoop(cfg, transport, 0).attempts == k + 1
  {
  }

  /** One call at instant `admitAt`; if it fails, the failure is recorded
      at `settleAt`, when the retry loop has ended. */
  function Call<T>(bcfg: BreakerConfig, rcfg: RetryConfig, s: State, admitAt: int, settleAt: int,
                   transport: nat -> Response<T>): (report: CallReport<T>)
    // a rejected call makes no attempt and leaves the state alone
    ensures !CanAttempt(s, admitAt).allowed ==> report == CallReport(CircuitOpen, 0, [], s)
    // an admitted call makes between one and maxRetries + 1 attempts in index order ...
    ensures CanAttempt(s, admitAt).allowed ==>
              && 1 <= report.attempts <= rcfg.maxRetries + 1
              && (forall i :: 0 <= i < report.attempts - 1 ==> Retries(rcfg, i, transport(i)))
              && !Retries(rcfg, report.attempts - 1, transport(report.attempts - 1))
    // ... pausing GetDelay(i) after attempt i only when another attempt follows ...
    ensures CanAttempt(s, admitAt).allowed ==>
              && |report.delays| == report.attempts - 1
              && (forall j :: 0 <= j < |report.delays| ==> report.delays[j] == GetDelay(rcfg, j))
    // ... and records its outcome exactly once: a body through OnSuccess ...
    ensures CanAttempt(s, admitAt).allowed && transport(report.attempts - 1).Ok? ==>
              && report.result == Value(transport(report.attempts - 1).body)
              && report.state == OnSuccess(bcfg, CanAttempt(s, admitAt).state)
    // ... or the last failure through OnFailure
    ensures CanAttempt(s, admitAt).allowed && transport(report.attempts - 1).Fail? ==>
              && report.result == Upstream(transport(report.attempts - 1).code)
              && report.state == OnFailure(bcfg, CanAttempt(s, admitAt).state, settleAt)
  {
    var permission := CanAttempt(s, admitAt);
    if !permission.allowed then
      CallReport(CircuitOpen, 0, [], s)
    else
      var run := RetryLoop(rcfg, transport, 0);
      match run.last
      case Ok(body) => CallReport(Value(body), run.attempts, run.delays, OnSuccess(bcfg, permission.state))
      case Fail(code) => CallReport(Upstream(code), run.attempts, run.delays, OnFailure(bcfg, permission.state, settleAt))
  }

  /** An open circuit before its reset time rejects every call without
      touching the transport. */
  lemma OpenRejects<T>(bcfg: BreakerConfig, rcfg: RetryConfig, s: State, admitAt: int, settleAt: int,
                       transport: nat -> Response<T>)
    requires s.status == Open && (s.nextAttempt.None? || admitAt <= s.nextAttempt.value)
    ensures Call(bcfg, rcfg, s, admitAt, settleAt, transport) == CallReport(CircuitOpen, 0, [], s)
  {
  }

  /** Once the reset time has passed, the next call is let through as a
      half-open probe, whatever it then returns. */
  lemma ProbeAfterReset<T>(bcfg: BreakerConfig, rcfg: RetryConfig, s: State, admitAt: int, settleAt: int,
                           transport: nat -> Response<T>)
    requires s.status == Open && ResetDue(s, admitAt)
    ensures Call(bcfg, rcfg, s, admitAt, settleAt, transport).attempts >= 1
    ensures !Call(bcfg, rcfg, s, admitAt, settleAt, transport).result.CircuitOpen?
  {
  }

  lemma CallPreservesInv<T>(bcfg: BreakerConfig, rcfg: RetryConfig, s: State, admitAt: int, settleAt: int,
                            transport: nat -> Response<T>)
    requires WellFormed(bcfg) && Inv(bcfg, s)
    ensures Inv(bcfg, Call(bcfg, rcfg, s, admitAt, settleAt, transport).state)
  {
  }

  /** The inputs of one call in a sequence of calls. */
  datatype CallInput<T> = CallInput(admitAt: int, settleAt: int, transport: nat -> Response<T>)

  /** The breaker state after the given calls, made one after another. */
  function Run<T>(bcfg: BreakerConfig, rcfg: RetryConfig, s: State, calls: seq<CallInput<T>>): State
    decreases |calls|
  {
    if |calls| == 0 then s
    else
      var c := calls[0];
      Run(bcfg, rcfg, Call(bcfg, rcfg, s, c.admitAt, c.settleAt, c.transport).state, calls[1..])
  }

  /** Every state reached by a sequence of calls from one satisfying the
      invariant satisfies it too. */
  lemma {:induction false} RunPreservesInv<T>(bcfg: BreakerConfig, rcfg: RetryConfig, s: State,
                                              calls: seq<CallInput<T>>)
    requires WellFormed(bcfg) && Inv(bcfg, s)
    ensures Inv(bcfg, Run(bcfg, rcfg, s, calls))
    decreases |calls|
  {
    if |calls| > 0 {
      var c := calls[0];
      CallPreservesInv(bcfg, rcfg, s, c.admitAt, c.settleAt, c.transport);
      RunPreservesInv(bcfg, rcfg, Call(bcfg, rcfg, s, c.admitAt, c.settleAt, c.transport).state, calls[1..]);
    }
  }

  /** Every state a new breaker can reach satisfies the invariant. */
  lemma ReachableInv<T>(bcfg: BreakerConfig, rcfg: RetryConfig, calls: seq<CallInput<T>>)
    requires WellFormed(bcfg)
    ensures Inv(bcfg, Run(bcfg, rcfg, InitialState, calls))
  {
    InitialStateInv(bcfg);
    RunPreservesInv(bcfg, rcfg, InitialState, calls);
  }

  /** A transport that answers every attempt with HTTP 500. */
  function AlwaysServerError(attempt: nat): Response<string> {
    Fail(Some(500))
  }

  /** A transport that answers 429, then 503, then succeeds. */
  function RecoversOnThird(attempt: nat): Response<string> {
    if attempt == 0 then Fail(Some(429))
    else if attempt == 1 then Fail(Some(503))
    else Ok("success")
  }

  /** With a failure threshold of 2 and no retries, against a server that
      always answers 500: the first call fails after one attempt, the second
      fails after one attempt and opens the circuit, the third is rejected
      without an attempt. */
  lemma OpensAfterTwoFailedCalls(t1: int, t2: int, t3: int)
    requires t3 <= t2 + 30000
    ensures
      var bcfg := DefaultBreakerConfig.(failureThreshold := 2);
      var rcfg := DefaultRetryConfig.(maxRetries := 0, initialDelay := 10);
      var r1 := Call(bcfg, rcfg, InitialState, t1, t1, AlwaysServerError);
      var r2 := Call(bcfg, rcfg, r1.state, t2, t2, AlwaysServerError);
      var r3 := Call(bcfg, rcfg, r2.state, t3, t3, AlwaysServerError);
      && r1.result == Upstream(Some(500)) && r1.attempts == 1 && r1.state.status == Closed
      && r2.result == Upstream(Some(500)) && r2.attempts == 1 && r2.state.status == Open
      && r3.result == CircuitOpen && r3.attempts == 0 && r3.state == r2.state
  {
  }

  /** With two retries and a constant delay, 429 then 503 then 200 is
      answered with the body after three attempts and two equal pauses, and
      the circuit stays closed with a clean record. */
  lemma RetriesThroughTransientErrors(admitAt: int, settleAt: int)
    ensures
      var rcfg := DefaultRetryConfig.(maxRetries := 2, initialDelay := 10, backoffFactor := 1);
      Call(DefaultBreakerConfig, rcfg, InitialState, admitAt, settleAt, RecoversOnThird)
        == CallReport(Value("success"), 3, [10, 10], InitialState)
  {
  }
}
