/** Timeouts and restart backoff: durations as the platform represents them, with saturating arithmetic. */
module Config {
  import opened Prelude

  const U64_MAX: nat := 0xFFFF_FFFF_FFFF_FFFF
  const NANOS_PER_SEC: nat := 1_000_000_000

  type u64 = n: int | 0 <= n <= 0xFFFF_FFFF_FFFF_FFFF

  datatype Duration = Duration(secs: u64, nanos: u32)

  const MAX_DURATION := Duration(0xFFFF_FFFF_FFFF_FFFF, 999_999_999)

  predicate WellFormed(d: Duration) {
    d.nanos < NANOS_PER_SEC
  }

  /** The length of a duration in nanoseconds, as a mathematical number. */
  function Length(d: Duration): nat {
    d.secs * NANOS_PER_SEC + d.nanos
  }

  function FromMillis(millis: u64): (d: Duration)
    ensures WellFormed(d) && Length(d) == millis * 1_000_000
  {
    Duration(millis / 1000, (millis % 1000) * 1_000_000)
  }

  function FromSecs(secs: u64): (d: Duration)
    ensures WellFormed(d) && Length(d) == secs * NANOS_PER_SEC
  {
    Duration(secs, 0)
  }

  /** Multiplication carries nanoseconds into seconds, and saturates when the seconds overflow. */
  function SaturatingMul(d: Duration, factor: u32): Duration {
    var total: nat := d.nanos * factor;
    var secs: nat := d.secs * factor + total / NANOS_PER_SEC;
    if secs > U64_MAX then MAX_DURATION else Duration(secs, total % NANOS_PER_SEC)
  }

  function Shorter(a: Duration, b: Duration): Duration {
    if b.secs < a.secs || (b.secs == a.secs && b.nanos < a.nanos) then b else a
  }

  function Pow2(n: nat): (p: nat)
    ensures p >= 1
  {
    if n == 0 then 1 else 2 * Pow2(n - 1)
  }

  datatype Settings = Settings(
    loginReadinessSeconds: u64,
    gracefulStopSeconds: u64,
    forcedStopSeconds: u64,
    backoffMinimumMillis: u64,
    backoffMaximumSeconds: u64)
  {
    function BackoffMinimum(): Duration {
      FromMillis(backoffMinimumMillis)
    }

    function BackoffMaximum(): Duration {
      FromSecs(backoffMaximumSeconds)
    }

    /** The first complaint about the timeouts, if any. */
    function Validate(): Option<string> {
      if loginReadinessSeconds == 0 then Some("login_readiness_timeout_seconds must be nonzero")
      else if gracefulStopSeconds == 0 then Some("graceful_stop_timeout_seconds must be nonzero")
      else if forcedStopSeconds == 0 then Some("forced_stop_timeout_seconds must be nonzero")
      else if backoffMinimumMillis == 0 then Some("restart_backoff_minimum_milliseconds must be nonzero")
      else if Shorter(BackoffMinimum(), BackoffMaximum()) != BackoffMinimum() then
        Some("restart_backoff_minimum_milliseconds exceeds restart_backoff_maximum_seconds")
      else None
    }

    function RestartDelay(attempt: u32): Duration {
      var shift := Min(SaturatingSub(attempt, 1), 31);
      Pow2Fits(shift);
      Shorter(SaturatingMul(BackoffMinimum(), Pow2(shift)), BackoffMaximum())
    }

    /** The delay before the start command with the given attempt number. */
    function DelayBefore(attempt: u32): Duration {
      RestartDelay(SaturatingSub(attempt, 1))
    }
  }

  lemma {:induction false} Pow2Fits(n: nat)
    requires n <= 31
    ensures Pow2(n) <= 0x8000_0000
  {
    Pow2Monotone(n, 31);
    assert Pow2(8) == 0x100 && Pow2(16) == 0x100 * Pow2(8) && Pow2(24) == 0x100 * Pow2(16);
    assert Pow2(31) == 0x80 * Pow2(24);
  }

  lemma {:induction false} Pow2Monotone(m: nat, n: nat)
    requires m <= n
    ensures Pow2(m) <= Pow2(n)
    decreases n - m
  {
    if m == n {
    } else {
      Pow2Monotone(m, n - 1);
    }
  }

  lemma ShorterIsMin(a: Duration, b: Duration)
    requires WellFormed(a) && WellFormed(b)
    ensures WellFormed(Shorter(a, b)) && Length(Shorter(a, b)) == Min(Length(a), Length(b))
  {
  }

  lemma ProductOfSum(a: nat, b: nat, factor: nat)
    ensures (a * NANOS_PER_SEC + b) * factor == (a * factor) * NANOS_PER_SEC + b * factor
  {
  }

  /** Carrying whole seconds out of the nanoseconds keeps the length. */
  lemma CarryKeepsLength(secs: nat, total: nat)
    ensures secs * NANOS_PER_SEC + total == (secs + total / NANOS_PER_SEC) * NANOS_PER_SEC + total % NANOS_PER_SEC
  {
  }

  /** Saturation loses only what no duration can hold. */
  lemma SaturatingMulIsExact(d: Duration, factor: u32)
    requires WellFormed(d)
    ensures WellFormed(SaturatingMul(d, factor))
    ensures Length(SaturatingMul(d, factor)) == Min(Length(d) * factor, Length(MAX_DURATION))
  {
    ProductOfSum(d.secs, d.nanos, factor);
    CarryKeepsLength(d.secs * factor, d.nanos * factor);
  }

  /** Despite saturation, the delay is exactly min(minimum * 2^k, maximum). */
  lemma DelayIsExact(c: Settings, attempt: u32)
    ensures var shift := Min(SaturatingSub(attempt, 1), 31);
            && WellFormed(c.RestartDelay(attempt))
            && Length(c.RestartDelay(attempt)) ==
               Min(Length(c.BackoffMinimum()) * Pow2(shift), Length(c.BackoffMaximum()))
  {
    var shift := Min(SaturatingSub(attempt, 1), 31);
    Pow2Fits(shift);
    SaturatingMulIsExact(c.BackoffMinimum(), Pow2(shift));
    ShorterIsMin(SaturatingMul(c.BackoffMinimum(), Pow2(shift)), c.BackoffMaximum());
  }

  lemma ProductMonotone(a: nat, b: nat, c: nat)
    requires b <= c
    ensures a * b <= a * c
  {
  }

  /** Later attempts never wait less. */
  lemma DelaysNeverDecrease(c: Settings, a: u32, b: u32)
    requires a <= b
    ensures Length(c.RestartDelay(a)) <= Length(c.RestartDelay(b))
  {
    DelayIsExact(c, a);
    DelayIsExact(c, b);
    var i, j := Min(SaturatingSub(a, 1), 31), Min(SaturatingSub(b, 1), 31);
    Pow2Monotone(i, j);
    ProductMonotone(Length(c.BackoffMinimum()), Pow2(i), Pow2(j));
  }

  /** Validated settings are exactly those with nonzero timeouts and minimum at most maximum; delays lie between. */
  lemma ValidatedDelaysAreBounded(c: Settings, attempt: u32)
    ensures c.Validate().None? <==>
              && c.loginReadinessSeconds > 0 && c.gracefulStopSeconds > 0 && c.forcedStopSeconds > 0
              && c.backoffMinimumMillis > 0
              && c.backoffMinimumMillis <= c.backoffMaximumSeconds * 1000
    ensures c.Validate().None? ==>
              0 < Length(c.BackoffMinimum()) <= Length(c.RestartDelay(attempt)) <= Length(c.BackoffMaximum())
  {
    MinimumIsShorter(c);
    if c.Validate().None? {
      OrderedDelaysAreBounded(c, attempt);
    }
  }

  lemma MinimumIsShorter(c: Settings)
    ensures Shorter(c.BackoffMinimum(), c.BackoffMaximum()) == c.BackoffMinimum() <==>
              c.backoffMinimumMillis <= c.backoffMaximumSeconds * 1000
  {
    ShorterIsMin(c.BackoffMinimum(), c.BackoffMaximum());
  }

  lemma OrderedDelaysAreBounded(c: Settings, attempt: u32)
    requires 0 < c.backoffMinimumMillis <= c.backoffMaximumSeconds * 1000
    ensures 0 < Length(c.BackoffMinimum()) <= Length(c.RestartDelay(attempt)) <= Length(c.BackoffMaximum())
  {
    DelayIsExact(c, attempt);
    ProductMonotone(Length(c.BackoffMinimum()), 1, Pow2(Min(SaturatingSub(attempt, 1), 31)));
  }
}
