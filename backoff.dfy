/** The exponential back-off shared by the battery and thermal recovery
    strategies: `delay_for_attempt` of both error modules.  Durations are
    whole milliseconds; the `f64` product is taken in exact arithmetic. */
module Backoff {
  import opened Text

  /** `f64::powi` with a non-negative exponent. */
  function Pow(m: real, n: nat): real {
    if n == 0 then 1.0 else m * Pow(m, n - 1)
  }

  function Min(a: nat, b: nat): nat {
    if a <= b then a else b
  }

  /** The un-truncated delay of attempt `n`: `base * multiplier^n`. */
  function ExactDelay(baseMs: nat, multiplier: real, n: nat): real {
    baseMs as real * Pow(multiplier, n)
  }

  /** `delay_for_attempt`: the first attempt waits the base delay; attempt
      `n > 0` waits the exact delay in milliseconds, truncated to `u64` and
      capped at the maximum delay. */
  function DelayForAttempt(baseMs: nat, multiplier: real, maxDelayMs: nat, attempt: nat): (r: nat)
    ensures attempt == 0 ==> r == baseMs
    ensures attempt > 0 ==> r <= maxDelayMs
    ensures (attempt > 0 && ExactDelay(baseMs, multiplier, attempt) >= maxDelayMs as real
             && maxDelayMs <= U64_MAX) ==> r == maxDelayMs
    ensures (attempt > 0 && 0.0 <= ExactDelay(baseMs, multiplier, attempt) < maxDelayMs as real
             && ExactDelay(baseMs, multiplier, attempt) < (U64_MAX + 1) as real) ==>
              r as real <= ExactDelay(baseMs, multiplier, attempt) < r as real + 1.0
    ensures attempt > 0 && ExactDelay(baseMs, multiplier, attempt) < 0.0 ==> r == 0
  {
    if attempt == 0 then baseMs
    else
      var exact := ExactDelay(baseMs, multiplier, attempt);
      var ms := SaturatingCast(exact, U64_MAX);
      assert exact >= maxDelayMs as real && maxDelayMs <= U64_MAX ==> ms >= maxDelayMs by {
        if exact >= maxDelayMs as real && maxDelayMs <= U64_MAX && exact < (U64_MAX + 1) as real {
          assert (maxDelayMs as real) <= exact < ms as real + 1.0;
        }
      }
      Min(ms, maxDelayMs)
  }

  lemma {:induction false} PowAtLeastOne(m: real, n: nat)
    requires m >= 1.0
    ensures Pow(m, n) >= 1.0
  {
    if n > 0 {
      PowAtLeastOne(m, n - 1);
      var p := Pow(m, n - 1);
      assert m * p - p == (m - 1.0) * p;
      assert (m - 1.0) * p >= 0.0;
    }
  }

  lemma {:induction false} PowMonotone(m: real, a: nat, b: nat)
    requires m >= 1.0
    requires a <= b
    ensures Pow(m, a) <= Pow(m, b)
  {
    if a < b {
      PowMonotone(m, a, b - 1);
      PowAtLeastOne(m, b - 1);
      var p := Pow(m, b - 1);
      assert m * p - p == (m - 1.0) * p;
      assert (m - 1.0) * p >= 0.0;
    }
  }

  /** A larger exponent gives a larger exact delay. */
  lemma ExactDelayMonotone(baseMs: nat, multiplier: real, a: nat, b: nat)
    requires multiplier >= 1.0
    requires a <= b
    ensures ExactDelay(baseMs, multiplier, a) <= ExactDelay(baseMs, multiplier, b)
  {
    PowMonotone(multiplier, a, b);
    var pa, pb := Pow(multiplier, a), Pow(multiplier, b);
    assert baseMs as real * pb - baseMs as real * pa == baseMs as real * (pb - pa);
  }

  /** With a multiplier of at least one, later attempts never wait less. */
  lemma DelayMonotone(baseMs: nat, multiplier: real, maxDelayMs: nat, a: nat, b: nat)
    requires multiplier >= 1.0
    requires 0 < a <= b
    ensures DelayForAttempt(baseMs, multiplier, maxDelayMs, a)
              <= DelayForAttempt(baseMs, multiplier, maxDelayMs, b)
  {
    var xa, xb := ExactDelay(baseMs, multiplier, a), ExactDelay(baseMs, multiplier, b);
    ExactDelayMonotone(baseMs, multiplier, a, b);
    SaturatingCastMonotone(xa, xb, U64_MAX);
    assert DelayForAttempt(baseMs, multiplier, maxDelayMs, a) == Min(SaturatingCast(xa, U64_MAX), maxDelayMs);
    assert DelayForAttempt(baseMs, multiplier, maxDelayMs, b) == Min(SaturatingCast(xb, U64_MAX), maxDelayMs);
  }
}
