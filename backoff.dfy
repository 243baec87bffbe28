/**
 * Reconnect delays of the Android signaling client: the exponential backoff
 * `calculateBackoffMs` and the +/- 20 % jitter added to it before a retry is
 * posted.
 */
module Backoff {
  /** Base delay of the first retry, in milliseconds. */
  const BaseMs: nat := 1000
  /** Ceiling of the exponential backoff, in milliseconds. */
  const MaxMs: nat := 60000

  function Min(a: int, b: int): int {
    if a <= b then a else b
  }

  function Pow2(n: nat): (p: nat)
    ensures p >= 1 && BaseMs * p >= BaseMs
  {
    if n == 0 then 1 else 2 * Pow2(n - 1)
  }

  lemma {:induction false} Pow2Monotone(m: nat, n: nat)
    requires m <= n
    ensures Pow2(m) <= Pow2(n)
    decreases n
  {
    if m < n {
      Pow2Monotone(m, n - 1);
    }
  }

  /**
   * `calculateBackoffMs`: `(1000 * 2.0^(attempts - 1)).toInt()`, capped at
   * 60000. For `attempts >= 1` the power is a whole number (an overflow to
   * infinity saturates `toInt` and is then capped); below 1 it is a fraction
   * whose product with 1000 `toInt` truncates.
   */
  function BackoffMs(attempts: int): (d: nat)
    ensures attempts >= 1 ==> BaseMs <= d <= MaxMs
  {
    if attempts >= 1 then Min(BaseMs * Pow2(attempts - 1), MaxMs)
    else Shrunk(BaseMs, 1 - attempts)
  }

  /** `x / 2^n`, the truncated product of `x` with a negative power of two,
      computed by halving `n` times. */
  function Shrunk(x: nat, n: nat): nat {
    if n == 0 then x else Shrunk(x / 2, n - 1)
  }

  /** The delay doubles from one attempt to the next until the ceiling. */
  lemma BackoffDoubles(attempts: int)
    requires attempts >= 1
    ensures BackoffMs(attempts + 1) == Min(2 * BackoffMs(attempts), MaxMs)
  {
  }

  /** Attempts 1 to 6 wait 1000 * 2^(attempts - 1) ms (1 s up to 32 s). */
  lemma {:induction false} BackoffBeforeCap(attempts: int)
    requires 1 <= attempts <= 6
    ensures BackoffMs(attempts) == BaseMs * Pow2(attempts - 1)
  {
    Pow2Monotone(attempts - 1, 5);
    assert Pow2(5) == 32;
  }

  /** From attempt 7 on, the ceiling of 60 s applies. */
  lemma {:induction false} BackoffCapped(attempts: int)
    requires attempts >= 7
    ensures BackoffMs(attempts) == MaxMs
  {
    Pow2Monotone(6, attempts - 1);
    assert Pow2(6) == 64;
  }

  /** More failed attempts never shorten the wait. */
  lemma {:induction false} BackoffMonotone(a: int, b: int)
    requires 1 <= a <= b
    ensures BackoffMs(a) <= BackoffMs(b)
  {
    Pow2Monotone(a - 1, b - 1);
  }

  /** `(delayMs * 0.2).toInt()`; exact for every value `BackoffMs` yields. */
  function JitterRange(d: nat): int {
    d / 5
  }

  /**
   * `Random.nextInt(-r, r + 1)` with `r = JitterRange(d)`. The random draw is
   * the parameter `rnd`; every draw lands in the closed range.
   */
  function Jitter(d: nat, rnd: nat): (j: int)
    ensures -JitterRange(d) <= j <= JitterRange(d)
  {
    rnd % (2 * JitterRange(d) + 1) - JitterRange(d)
  }

  /** Every jitter value of the range is drawn by some `rnd`. */
  lemma JitterCoversRange(d: nat, j: int)
    requires -JitterRange(d) <= j <= JitterRange(d)
    ensures Jitter(d, (j + JitterRange(d)) as nat) == j
  {
  }

  /** Kotlin's `coerceAtLeast(0)`. */
  function CoerceAtLeastZero(x: int): nat {
    if x < 0 then 0 else x
  }

  /** `(delayMs + jitter).coerceAtLeast(0)`: within 20 % of the backoff. */
  function JitteredDelay(d: nat, rnd: nat): (r: nat)
    ensures d - JitterRange(d) <= r <= d + JitterRange(d)
  {
    CoerceAtLeastZero(d + Jitter(d, rnd))
  }
}
