/** Retrying an operation (src/retry.rs): the configuration, the delay
    before the next attempt, and the attempt-counting loop.

    The operation's successive outcomes are an input sequence, and sleeping
    is not modelled: the loop reports the delay it would wait before each
    retry. Exponential growth is computed in `f64` by the source; the model
    keeps the multiplier as its bit pattern and names that delay by the
    attempt index it is computed from. */
module Retry {
  import opened Base
  import opened Errors

  /** `std::time::Duration`, as a whole number of nanoseconds. */
  datatype Duration = Duration(nanos: nat)

  const NANOS_PER_SEC: nat := 1_000_000_000
  const NANOS_PER_MILLI: nat := 1_000_000

  function FromSecs(secs: u64): Duration
  {
    Duration(secs * NANOS_PER_SEC)
  }

  function FromMillis(millis: u64): Duration
  {
    Duration(millis * NANOS_PER_MILLI)
  }

  /** `Duration::min`. */
  function MinDuration(a: Duration, b: Duration): (r: Duration)
    ensures r.nanos <= a.nanos && r.nanos <= b.nanos
    ensures r == a || r == b
  {
    if a.nanos <= b.nanos then a else b
  }

  /** An IEEE-754 double, kept as its bit pattern. */
  datatype F64 = F64(bits: bv64)

  /** 2.0 as an IEEE-754 double. */
  const TWO: F64 := F64(0x4000_0000_0000_0000)

  datatype RetryConfig = RetryConfig(
    maxAttempts: u32,
    initialBackoff: Duration,
    maxBackoff: Duration,
    backoffMultiplier: F64,
    respectRetryAfter: bool)

  /** `RetryConfig::default()`, which `RetryConfig::new()` returns too. */
  function DefaultConfig(): (c: RetryConfig)
    ensures c.maxAttempts == 3
    ensures c.initialBackoff == FromMillis(500) && c.initialBackoff.nanos == 500_000_000
    ensures c.maxBackoff == FromSecs(60) && c.maxBackoff.nanos == 60_000_000_000
    ensures c.backoffMultiplier == TWO
    ensures c.respectRetryAfter
  {
    RetryConfig(3, FromMillis(500), FromSecs(60), TWO, true)
  }

  datatype ConfigField = MaxAttemptsField | InitialBackoffField | MaxBackoffField | MultiplierField

  /** `a` and `b` agree on every field except possibly `f`. */
  predicate ConfigAgreeExcept(a: RetryConfig, b: RetryConfig, f: ConfigField)
  {
    && (f == MaxAttemptsField || a.maxAttempts == b.maxAttempts)
    && (f == InitialBackoffField || a.initialBackoff == b.initialBackoff)
    && (f == MaxBackoffField || a.maxBackoff == b.maxBackoff)
    && (f == MultiplierField || a.backoffMultiplier == b.backoffMultiplier)
    && a.respectRetryAfter == b.respectRetryAfter
  }

  function WithMaxAttempts(c: RetryConfig, attempts: u32): (r: RetryConfig)
    ensures ConfigAgreeExcept(c, r, MaxAttemptsField) && r.maxAttempts == attempts
  {
    c.(maxAttempts := attempts)
  }

  function WithInitialBackoff(c: RetryConfig, d: Duration): (r: RetryConfig)
    ensures ConfigAgreeExcept(c, r, InitialBackoffField) && r.initialBackoff == d
  {
    c.(initialBackoff := d)
  }

  function WithMaxBackoff(c: RetryConfig, d: Duration): (r: RetryConfig)
    ensures ConfigAgreeExcept(c, r, MaxBackoffField) && r.maxBackoff == d
  {
    c.(maxBackoff := d)
  }

  function WithBackoffMultiplier(c: RetryConfig, m: F64): (r: RetryConfig)
    ensures ConfigAgreeExcept(c, r, MultiplierField) && r.backoffMultiplier == m
  {
    c.(backoffMultiplier := m)
  }

  /** The builder chain of the source's test: each setting lands in its
      own field and the others keep their defaults. */
  lemma BuilderChainExample()
    ensures var c := WithMaxBackoff(WithInitialBackoff(WithMaxAttempts(DefaultConfig(), 5), FromSecs(1)), FromSecs(30));
      && c.maxAttempts == 5 && c.initialBackoff == FromSecs(1) && c.maxBackoff == FromSecs(30)
      && c.backoffMultiplier == TWO && c.respectRetryAfter
  {
  }

  /** The delay before a retry: a fixed one, or the exponential one for an
      attempt index, which the source computes in floating point. */
  datatype Backoff = Fixed(delay: Duration) | Exponential(attemptIndex: u32)

  /** `calculate_backoff`. */
  function CalculateBackoff(c: RetryConfig, attempt: u32, retryAfter: Option<u64>): (b: Backoff)
    ensures c.respectRetryAfter && retryAfter.Some? ==>
      && b.Fixed?
      && b.delay.nanos <= c.maxBackoff.nanos
      && (b.delay == FromSecs(retryAfter.value) || b.delay == c.maxBackoff)
      && (FromSecs(retryAfter.value).nanos <= c.maxBackoff.nanos ==> b.delay == FromSecs(retryAfter.value))
    ensures !(c.respectRetryAfter && retryAfter.Some?) ==> b == Exponential(attempt)
  {
    if c.respectRetryAfter && retryAfter.Some? then Fixed(MinDuration(FromSecs(retryAfter.value), c.maxBackoff))
    else Exponential(attempt)
  }

  /** A server-requested delay does not depend on how many attempts were made. */
  lemma RetryAfterIgnoresAttempt(c: RetryConfig, a1: u32, a2: u32, secs: u64)
    requires c.respectRetryAfter
    ensures CalculateBackoff(c, a1, Some(secs)) == CalculateBackoff(c, a2, Some(secs))
  {
  }

  /** The source's test: with the default configuration a 10 s request is honoured as is. */
  lemma RetryAfterExample()
    ensures CalculateBackoff(WithInitialBackoff(DefaultConfig(), FromSecs(1)), 0, Some(10)) == Fixed(FromSecs(10))
  {
  }

  /** The most calls the loop makes: `max_attempts`, but always at least one. */
  function CallLimit(c: RetryConfig): (n: nat)
    ensures n >= 1 && n >= c.maxAttempts
  {
    if c.maxAttempts < 1 then 1 else c.maxAttempts
  }

  /** Does the loop stop after the call with 0-based index `k`? It does on
      success, on an error that is not retryable, and once `k + 1` calls
      reach the attempt limit. */
  predicate StopsAt<T>(c: RetryConfig, outcomes: seq<Result<T, Error>>, k: nat)
    requires k < |outcomes|
  {
    outcomes[k].Ok? || !IsRetryable(outcomes[k].error) || k + 1 >= c.maxAttempts
  }

  /** `retry_with_backoff` over the outcomes its calls would produce, in
      order. It returns the outcome of its last call, the number of calls and
      the delays it waited between them. */
  method RetryWithBackoff<T>(c: RetryConfig, outcomes: seq<Result<T, Error>>)
    returns (result: Result<T, Error>, calls: nat, delays: seq<Backoff>)
    requires |outcomes| >= CallLimit(c)
    ensures 1 <= calls <= CallLimit(c)
    ensures result == outcomes[calls - 1]
    ensures StopsAt(c, outcomes, calls - 1)
    ensures forall i :: 0 <= i < calls - 1 ==> !StopsAt(c, outcomes, i)
    ensures |delays| == calls - 1
    ensures forall i :: 0 <= i < calls - 1 ==>
      outcomes[i].Err? && delays[i] == CalculateBackoff(c, i as u32, RetryAfter(outcomes[i].error))
  {
    var attempt: u32 := 0;
    delays := [];
    while true
      invariant attempt < CallLimit(c)
      invariant |delays| == attempt
      invariant forall i :: 0 <= i < attempt ==> !StopsAt(c, outcomes, i)
      invariant forall i :: 0 <= i < attempt ==>
        outcomes[i].Err? && delays[i] == CalculateBackoff(c, i as u32, RetryAfter(outcomes[i].error))
      decreases CallLimit(c) - attempt
    {
      attempt := attempt + 1;
      var outcome := outcomes[attempt - 1];
      if outcome.Ok? {
        return outcome, attempt, delays;
      }
      if !IsRetryable(outcome.error) {
        return outcome, attempt, delays;
      }
      if attempt >= c.maxAttempts {
        return outcome, attempt, delays;
      }
      var backoff := CalculateBackoff(c, attempt - 1, RetryAfter(outcome.error));
      delays := delays + [backoff];
    }
  }

  /** A success after retryable failures, within the attempt limit, is
      returned by exactly the call that produced it. */
  lemma SucceedsAfterFailures<T>(c: RetryConfig, outcomes: seq<Result<T, Error>>, k: nat, calls: nat)
    requires |outcomes| >= CallLimit(c)
    requires k < CallLimit(c) && outcomes[k].Ok?
    requires forall i :: 0 <= i < k ==> outcomes[i].Err? && IsRetryable(outcomes[i].error)
    requires 1 <= calls <= CallLimit(c)
    requires StopsAt(c, outcomes, calls - 1)
    requires forall i :: 0 <= i < calls - 1 ==> !StopsAt(c, outcomes, i)
    ensures calls == k + 1
  {
    assert StopsAt(c, outcomes, k);
    assert forall i :: 0 <= i < k ==> !StopsAt(c, outcomes, i);
  }

  /** An error that is not retryable ends the loop at the call that produced it. */
  lemma NonRetryableStops<T>(c: RetryConfig, outcomes: seq<Result<T, Error>>, calls: nat)
    requires |outcomes| >= CallLimit(c)
    requires outcomes[0].Err? && !IsRetryable(outcomes[0].error)
    requires 1 <= calls <= CallLimit(c)
    requires forall i :: 0 <= i < calls - 1 ==> !StopsAt(c, outcomes, i)
    ensures calls == 1
  {
    assert StopsAt(c, outcomes, 0);
  }

  /** When every call fails with a retryable error, the loop makes exactly
      `max_attempts` calls (at least one) and returns the last error. */
  lemma ExhaustsAttempts<T>(c: RetryConfig, outcomes: seq<Result<T, Error>>, calls: nat)
    requires |outcomes| >= CallLimit(c)
    requires forall i :: 0 <= i < |outcomes| ==> outcomes[i].Err? && IsRetryable(outcomes[i].error)
    requires 1 <= calls <= CallLimit(c)
    requires StopsAt(c, outcomes, calls - 1)
    requires forall i :: 0 <= i < calls - 1 ==> !StopsAt(c, outcomes, i)
    ensures calls == CallLimit(c)
  {
  }
}
