/** `src/backoff.rs`: exponential backoff with full jitter, in milliseconds. */
module Backoff {
  import opened Prelude

  const U128_MAX := 0x1_0000_0000_0000_0000_0000_0000_0000_0000 - 1

  /** The largest value `Duration::as_millis` returns: u64 seconds and 999 ms. */
  const MAX_MILLIS := TWO_64 * 1000 - 1

  function Min(a: nat, b: nat): nat { if a <= b then a else b }

  function Pow2(n: nat): (p: nat)
    ensures p >= 1
  {
    if n == 0 then 1 else 2 * Pow2(n - 1)
  }

  function SaturatingMul(a: nat, b: nat): nat { Min(a * b, U128_MAX) }

  function SaturatingPow2(n: nat): nat { Min(Pow2(n), U128_MAX) }

  /** The upper end of the jitter range, in the source's saturating u128 arithmetic. */
  function Cap(attempt: nat, minMillis: nat, maxMillis: nat): nat {
    Min(SaturatingMul(minMillis, SaturatingPow2(attempt)), maxMillis)
  }

  /** The delay for the random draw `draw` from `0..=Cap(..)`, after the cast to u64. */
  function NextDelay(attempt: nat, minMillis: nat, maxMillis: nat, draw: nat): nat {
    if Cap(attempt, minMillis, maxMillis) == 0 then 0 else draw % TWO_64
  }

  /** Saturation is invisible: the cap is the exact `min(max, min * 2^attempt)`. */
  lemma CapIsExact(attempt: nat, minMillis: nat, maxMillis: nat)
    requires minMillis <= MAX_MILLIS && maxMillis <= MAX_MILLIS
    ensures Cap(attempt, minMillis, maxMillis) == Min(minMillis * Pow2(attempt), maxMillis)
  {
    var p := Pow2(attempt);
    if minMillis > 0 && p > U128_MAX {
      ProductAtLeast(minMillis, p);
      ProductAtLeast(minMillis, U128_MAX);
    }
  }

  lemma ProductAtLeast(a: nat, b: nat)
    requires a > 0
    ensures a * b >= b
  {}

  lemma {:induction false} Pow2Monotone(m: nat, n: nat)
    requires m <= n
    ensures Pow2(m) <= Pow2(n)
  {
    if m < n {
      Pow2Monotone(m, n - 1);
    }
  }

  lemma MulMonotone(a: nat, p: nat, q: nat)
    requires p <= q
    ensures a * p <= a * q
  {}

  /** A later attempt never has a smaller cap. */
  lemma CapMonotone(earlier: nat, later: nat, minMillis: nat, maxMillis: nat)
    requires earlier <= later
    requires minMillis <= MAX_MILLIS && maxMillis <= MAX_MILLIS
    ensures Cap(earlier, minMillis, maxMillis) <= Cap(later, minMillis, maxMillis)
  {
    CapIsExact(earlier, minMillis, maxMillis);
    CapIsExact(later, minMillis, maxMillis);
    Pow2Monotone(earlier, later);
    MulMonotone(minMillis, Pow2(earlier), Pow2(later));
  }

  /** Every jittered delay respects both the configured maximum and the exponential bound. */
  lemma DelayBounded(attempt: nat, minMillis: nat, maxMillis: nat, draw: nat)
    requires minMillis <= MAX_MILLIS && maxMillis <= MAX_MILLIS
    requires draw <= Cap(attempt, minMillis, maxMillis)
    ensures NextDelay(attempt, minMillis, maxMillis, draw) <= maxMillis
    ensures NextDelay(attempt, minMillis, maxMillis, draw) <= minMillis * Pow2(attempt)
  {
    CapIsExact(attempt, minMillis, maxMillis);
    assert draw % TWO_64 <= draw;
  }

  // ---------- the whole range, and how it grows ----------

  /** At the first attempt the cap is the minimum; each attempt doubles it until it reaches the maximum. */
  lemma CapDoubles(attempt: nat, minMillis: nat, maxMillis: nat)
    requires minMillis <= MAX_MILLIS && maxMillis <= MAX_MILLIS
    ensures Cap(0, minMillis, maxMillis) == if minMillis <= maxMillis then minMillis else maxMillis
    ensures var twice := 2 * Cap(attempt, minMillis, maxMillis);
      Cap(attempt + 1, minMillis, maxMillis) == if twice <= maxMillis then twice else maxMillis
  {
    CapIsExact(0, minMillis, maxMillis);
    CapIsExact(attempt, minMillis, maxMillis);
    CapIsExact(attempt + 1, minMillis, maxMillis);
    TwiceAround(minMillis, Pow2(attempt));
  }

  lemma TwiceAround(a: nat, p: nat)
    ensures a * (2 * p) == 2 * (a * p)
  {}

  /** With any minimum the cap ends at the maximum. */
  lemma {:induction false} CapReachesMaximum(attempt: nat, minMillis: nat, maxMillis: nat)
    requires 0 < minMillis <= MAX_MILLIS && maxMillis <= MAX_MILLIS && maxMillis <= attempt
    ensures Cap(attempt, minMillis, maxMillis) == maxMillis
  {
    CapIsExact(attempt, minMillis, maxMillis);
    Pow2Outgrows(attempt);
    ProductAtLeast(minMillis, Pow2(attempt));
    assert minMillis * Pow2(attempt) >= Pow2(attempt);
  }

  lemma {:induction false} Pow2Outgrows(n: nat)
    ensures Pow2(n) > n
  {
    if n > 0 { Pow2Outgrows(n - 1); }
  }

  /**
   The wait is the draw itself: while the cap fits 64 bits every wait from nothing to the cap is
   that of one draw and no other, and there is no waiting at all if and only if the cap is zero.
   */
  lemma DelayIsDraw(attempt: nat, minMillis: nat, maxMillis: nat)
    requires minMillis <= MAX_MILLIS && maxMillis <= MAX_MILLIS && Cap(attempt, minMillis, maxMillis) < TWO_64
    ensures forall draw :: 0 <= draw <= Cap(attempt, minMillis, maxMillis) ==>
              NextDelay(attempt, minMillis, maxMillis, draw) == draw
    ensures (forall draw :: 0 <= draw <= Cap(attempt, minMillis, maxMillis) ==>
               NextDelay(attempt, minMillis, maxMillis, draw) == 0)
            <==> Cap(attempt, minMillis, maxMillis) == 0
  {
    hide Cap;
    var cap := Cap(attempt, minMillis, maxMillis);
    assert cap > 0 ==> NextDelay(attempt, minMillis, maxMillis, cap) == cap;
  }
}
