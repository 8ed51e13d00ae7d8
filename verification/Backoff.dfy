/** Retry policy and the capped exponential backoff of the delivery queue. */
module Backoff {
  import opened Wrappers
  import opened Domain

  datatype RetryPolicyFields = RetryPolicyFields(maxAttempts: nat, initialBackoffMs: nat, maxBackoffMs: nat)

  /** What `RetryPolicy::new` lets through. */
  type RetryPolicy = p: RetryPolicyFields |
    0 < p.maxAttempts && p.initialBackoffMs <= p.maxBackoffMs <= U64_MAX
    witness RetryPolicyFields(8, 1000, 60000)

  function Pow2(n: nat): (r: nat)
    ensures r >= 1
  {
    if n == 0 then 1 else 2 * Pow2(n - 1)
  }

  function Min(a: int, b: int): int { if a <= b then a else b }

  function SaturatingMul(a: nat, b: nat): nat { Min(a * b, U64_MAX) }

  /** The delay as the code computes it: a saturating product with a shift capped at 63. */
  function RetryDelayMs(policy: RetryPolicy, attempt: nat): nat {
    var saturatingSub := if attempt == 0 then 0 else attempt - 1;
    var shift := Min(saturatingSub, 63);
    Min(SaturatingMul(policy.initialBackoffMs, Pow2(shift)), policy.maxBackoffMs)
  }

  /** The instant before which a retried row is not leased again; `None` when it leaves 64 bits. */
  function RetryNotBeforeMs(policy: RetryPolicy, attempt: nat, nowMs: Millis): Option<Millis> {
    var delay := RetryDelayMs(policy, attempt);
    if delay > I64_MAX || nowMs + delay > I64_MAX then None else Some(nowMs + delay)
  }

  lemma {:induction false} Pow2Monotone(m: nat, n: nat)
    requires m <= n
    ensures Pow2(m) <= Pow2(n)
    decreases n
  {
    if m < n {
      Pow2Monotone(m, n - 1);
    }
  }

  lemma MulMonotone(a: nat, b: nat, c: nat)
    requires b <= c
    ensures a * b <= a * c
  {
  }

  lemma SaturationIsHidden(product: nat, cap: nat)
    requires cap <= I64_MAX
    ensures Min(Min(product, U64_MAX), cap) == Min(product, cap)
  {
  }

  lemma LargeShiftsReachTheCap(initial: nat, shift: nat, cap: nat)
    requires 63 < shift && cap <= I64_MAX
    ensures Min(initial * Pow2(63), cap) == Min(initial * Pow2(shift), cap)
  {
    if initial > 0 {
      Pow2At63();
      Pow2Monotone(63, shift);
      ProductExceeds(initial, Pow2(63), I64_MAX);
      ProductExceeds(initial, Pow2(shift), I64_MAX);
    }
  }

  /** With a cap that fits 63 bits, neither the saturation nor the capped shift is visible. */
  lemma BackoffIsCappedExponential(policy: RetryPolicy, attempt: nat)
    requires 1 <= attempt
    requires policy.maxBackoffMs <= I64_MAX
    ensures RetryDelayMs(policy, attempt) == Min(policy.initialBackoffMs * Pow2(attempt - 1), policy.maxBackoffMs)
  {
    var initial, shift := policy.initialBackoffMs, Min(attempt - 1, 63);
    SaturationIsHidden(initial * Pow2(shift), policy.maxBackoffMs);
    if attempt - 1 > 63 {
      LargeShiftsReachTheCap(initial, attempt - 1, policy.maxBackoffMs);
    }
  }

  lemma ProductExceeds(a: nat, b: nat, cap: nat)
    requires 1 <= a && cap < b
    ensures cap < a * b
  {
    MulMonotone(b, 1, a);
  }

  lemma Pow2At63()
    ensures Pow2(63) == I64_MAX + 1
  {
    for n := 0 to 9
      invariant Pow2(7 * n) == PowerOf128(n)
    {
      Pow2Plus7(7 * n);
    }
  }

  function PowerOf128(n: nat): nat { if n == 0 then 1 else 128 * PowerOf128(n - 1) }

  lemma Pow2Plus7(n: nat)
    ensures Pow2(n + 7) == 128 * Pow2(n)
  {
    assert Pow2(n + 2) == 4 * Pow2(n);
    assert Pow2(n + 4) == 16 * Pow2(n);
    assert Pow2(n + 6) == 64 * Pow2(n);
  }

  lemma CappedGrows(initial: nat, product: nat, later: nat, cap: nat)
    requires initial <= product <= later && initial <= cap <= U64_MAX
    ensures initial <= Min(Min(product, U64_MAX), cap) <= Min(Min(later, U64_MAX), cap) <= cap
  {
  }

  /** The delay lies between the two bounds and never shrinks from one attempt to the next. */
  lemma BackoffIsBoundedAndMonotone(policy: RetryPolicy, attempt: nat, later: nat)
    requires 1 <= attempt <= later
    ensures policy.initialBackoffMs <= RetryDelayMs(policy, attempt) <= policy.maxBackoffMs
    ensures RetryDelayMs(policy, attempt) <= RetryDelayMs(policy, later)
  {
    var initial := policy.initialBackoffMs;
    var shift, laterShift := Min(attempt - 1, 63), Min(later - 1, 63);
    Pow2Monotone(shift, laterShift);
    MulMonotone(initial, 1, Pow2(shift));
    MulMonotone(initial, Pow2(shift), Pow2(laterShift));
    CappedGrows(initial, initial * Pow2(shift), initial * Pow2(laterShift), policy.maxBackoffMs);
  }
}
