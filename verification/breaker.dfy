/** The three-state breaker state machine: the permission check and the
    two handlers that record the outcome of a call. Every transition is a
    pure function of the state; `now` is the instant the source would read
    from its clock. */
module Breaker {
  import opened Wrappers
  import opened Types

  /** The answer of the permission check together with the state it leaves. */
  datatype Permission = Permission(allowed: bool, state: State)

  /** The open circuit's reset time is set and has passed. The source tests
      `nextAttempt` for truthiness, so a reset time of exactly 0 counts as
      unset and never lets a probe through. */
  predicate ResetDue(s: State, now: int) {
    s.nextAttempt.Some? && s.nextAttempt.value != 0 && now > s.nextAttempt.value
  }

  /** May a call go ahead at `now`? An open circuit whose reset time has
      passed is moved to half-open as part of answering. */
  function CanAttempt(s: State, now: int): (p: Permission)
    // closed and half-open circuits admit every call and stay as they are
    ensures s.status != Open ==> p.allowed && p.state == s
    // an open circuit rejects until its reset time has passed
    ensures s.status == Open && (s.nextAttempt.None? || now <= s.nextAttempt.value) ==>
              !p.allowed && p.state == s
    ensures s.status == Open && s.nextAttempt == Some(0) ==> !p.allowed && p.state == s
    // after the reset time it admits one probe, half-open, counters untouched
    ensures s.status == Open && ResetDue(s, now) ==>
              p.allowed && p.state == s.(status := HalfOpen, nextAttempt := None)
    ensures p.allowed ==> p.state.status != Open
    ensures !p.allowed ==> p.state == s
  {
    match s.status
    case Closed => Permission(true, s)
    case HalfOpen => Permission(true, s)
    case Open =>
      if ResetDue(s, now) then Permission(true, s.(status := HalfOpen, nextAttempt := None))
      else Permission(false, s)
  }

  /** Records a successful call. */
  function OnSuccess(cfg: BreakerConfig, s: State): (r: State)
    // enough half-open successes close the circuit, back to the initial state
    ensures s.status == HalfOpen && s.successes + 1 >= cfg.successThreshold ==> r == InitialState
    // fewer only count the success
    ensures s.status == HalfOpen && s.successes + 1 < cfg.successThreshold ==>
              r == s.(successes := s.successes + 1)
    // elsewhere a success clears the failure count and nothing else
    ensures s.status != HalfOpen ==> r == s.(failures := 0)
    ensures r.status == s.status || (s.status == HalfOpen && r.status == Closed)
  {
    if s.status == HalfOpen then
      var counted := s.(successes := s.successes + 1);
      if counted.successes >= cfg.successThreshold then
        counted.(status := Closed, failures := 0, successes := 0, lastFailure := None, nextAttempt := None)
      else
        counted
    else
      s.(failures := 0)
  }

  /** Records a failed call at `now`. */
  function OnFailure(cfg: BreakerConfig, s: State, now: int): (r: State)
    // every failure is counted and timestamped
    ensures r.failures == s.failures + 1 && r.lastFailure == Some(now)
    // a failed half-open probe reopens the circuit at once
    ensures s.status == HalfOpen ==>
              r.status == Open && r.successes == 0 && r.nextAttempt == Some(now + cfg.resetTimeout)
    // a closed circuit opens when the count reaches the threshold
    ensures s.status == Closed && s.failures + 1 >= cfg.failureThreshold ==>
              r.status == Open && r.successes == s.successes && r.nextAttempt == Some(now + cfg.resetTimeout)
    // otherwise only the count and the timestamp change
    ensures s.status == Open || (s.status == Closed && s.failures + 1 < cfg.failureThreshold) ==>
              r == s.(failures := s.failures + 1, lastFailure := Some(now))
  {
    var counted := s.(failures := s.failures + 1, lastFailure := Some(now));
    if s.status == HalfOpen then
      counted.(status := Open, nextAttempt := Some(now + cfg.resetTimeout), successes := 0)
    else if s.status == Closed && counted.failures >= cfg.failureThreshold then
      counted.(status := Open, nextAttempt := Some(now + cfg.resetTimeout))
    else
      counted
  }

  /** The configurations the invariant below is stated for: a breaker must
      need at least one failure to open. */
  predicate WellFormed(cfg: BreakerConfig) {
    cfg.failureThreshold >= 1
  }

  /** What holds of every state a breaker can reach. */
  predicate Inv(cfg: BreakerConfig, s: State) {
    // a reset time is pending exactly while the circuit is open
    && (s.nextAttempt.Some? <==> s.status == Open)
    // successes are only counted while half-open, and stay below the closing threshold
    && (s.status != HalfOpen ==> s.successes == 0)
    && (s.status == HalfOpen && s.successes > 0 ==> s.successes < cfg.successThreshold)
    // a closed circuit has seen fewer failures than would open it
    && (s.status == Closed ==> s.failures < cfg.failureThreshold)
    // a failure on record has a timestamp
    && (s.failures > 0 ==> s.lastFailure.Some?)
  }

  lemma InitialStateInv(cfg: BreakerConfig)
    requires WellFormed(cfg)
    ensures Inv(cfg, InitialState)
  {
  }

  lemma CanAttemptPreservesInv(cfg: BreakerConfig, s: State, now: int)
    requires Inv(cfg, s)
    ensures Inv(cfg, CanAttempt(s, now).state)
  {
  }

  lemma OnSuccessPreservesInv(cfg: BreakerConfig, s: State)
    requires WellFormed(cfg) && Inv(cfg, s)
    ensures Inv(cfg, OnSuccess(cfg, s))
  {
  }

  lemma OnFailurePreservesInv(cfg: BreakerConfig, s: State, now: int)
    requires Inv(cfg, s)
    ensures Inv(cfg, OnFailure(cfg, s, now))
  {
  }

  /** The state after a failure at each of the given instants, in order. */
  function FailAt(cfg: BreakerConfig, s: State, times: seq<int>): State
    decreases |times|
  {
    if |times| == 0 then s
    else OnFailure(cfg, FailAt(cfg, s, times[..|times| - 1]), times[|times| - 1])
  }

  /** From a closed circuit with a clean record, the first
      `failureThreshold - 1` failures keep it closed and the next one opens
      it until `resetTimeout` after that failure. */
  lemma {:induction false} FailureStreak(cfg: BreakerConfig, s: State, times: seq<int>)
    requires WellFormed(cfg) && s.status == Closed && s.failures == 0
    requires |times| <= cfg.failureThreshold
    ensures FailAt(cfg, s, times).failures == |times|
    ensures FailAt(cfg, s, times).status == Closed <==> |times| < cfg.failureThreshold
    ensures |times| == cfg.failureThreshold ==>
              FailAt(cfg, s, times).status == Open &&
              FailAt(cfg, s, times).nextAttempt == Some(times[|times| - 1] + cfg.resetTimeout)
  {
    if |times| > 0 {
      FailureStreak(cfg, s, times[..|times| - 1]);
    }
  }

  /** The state after `k` successes. */
  function SucceedTimes(cfg: BreakerConfig, s: State, k: nat): State {
    if k == 0 then s else OnSuccess(cfg, SucceedTimes(cfg, s, k - 1))
  }

  /** From a fresh half-open probe, successes are counted until
      `successThreshold` of them close the circuit and clear its record. */
  lemma {:induction false} SuccessStreak(cfg: BreakerConfig, s: State, k: nat)
    requires s.status == HalfOpen && s.successes == 0
    requires k <= cfg.successThreshold
    ensures k < cfg.successThreshold ==> SucceedTimes(cfg, s, k) == s.(successes := k)
    ensures 0 < k == cfg.successThreshold ==> SucceedTimes(cfg, s, k) == InitialState
  {
    if k > 0 {
      SuccessStreak(cfg, s, k - 1);
    }
  }
}
