/** Retry delays: int64 nanoseconds, doubling with the attempt and capped at the eleventh. */
module Backoff {

  const MAX_INT64: int := 0x7FFF_FFFF_FFFF_FFFF
  const TWO_63: int := 0x8000_0000_0000_0000
  const TWO_64: int := 0x1_0000_0000_0000_0000

  /** int64 multiplication keeps the low 64 bits, read as a signed number. */
  function Wrap64(x: int): (r: int)
    ensures -TWO_63 <= r <= MAX_INT64
    ensures r == x <==> -TWO_63 <= x <= MAX_INT64
  {
    (x + TWO_63) % TWO_64 - TWO_63
  }

  function Pow2(n: nat): (r: nat)
    ensures r >= 1
  {
    if n == 0 then 1 else 2 * Pow2(n - 1)
  }

  /** max(0, min(attempt-1, 10)) */
  function Shift(attempt: int): (s: nat)
    ensures s <= 10
  {
    if attempt <= 1 then 0 else if attempt - 1 < 10 then attempt - 1 else 10
  }

  /** The delay the dispatcher adds after failed attempt number `attempt`. */
  function RetryBackoff(base: int, attempt: int): int {
    Wrap64(base * Pow2(Shift(attempt)))
  }

  /** The delays after attempts 1..n, added up. */
  function TotalWait(base: int, n: nat): int {
    if n == 0 then 0 else TotalWait(base, n - 1) + RetryBackoff(base, n)
  }

  /** No delay up to attempt `m` leaves int64. A check on configuration values alone. */
  predicate FitsInt64(base: int, m: nat) {
    m == 0 || base * Pow2(Shift(m)) <= MAX_INT64
  }

  lemma {:induction false} Pow2Monotone(a: nat, b: nat)
    requires a <= b
    ensures Pow2(a) <= Pow2(b)
    decreases b
  {
    if a < b {
      Pow2Monotone(a, b - 1);
    }
  }

  lemma Pow2Values()
    ensures Pow2(10) == 1024 && Pow2(11) == 2048
  {
  }

  lemma ProductMonotone(base: int, a: int, b: int)
    requires base > 0 && a <= b
    ensures base * a <= base * b
  {
  }

  /** Every delay up to attempt `m` is the mathematical one exactly when the m-th product fits. */
  lemma BackoffExactIff(base: int, m: nat)
    requires base > 0
    ensures FitsInt64(base, m) <==> forall k | 1 <= k <= m :: RetryBackoff(base, k) == base * Pow2(Shift(k))
  {
    if FitsInt64(base, m) {
      forall k | 1 <= k <= m
        ensures RetryBackoff(base, k) == base * Pow2(Shift(k))
      {
        Pow2Monotone(Shift(k), Shift(m));
        ProductMonotone(base, Pow2(Shift(k)), Pow2(Shift(m)));
        ProductMonotone(base, 0, Pow2(Shift(k)));
      }
    } else {
      assert RetryBackoff(base, m) != base * Pow2(Shift(m));
    }
  }

  /** With any number of attempts the bound on the base delay is 2^53 - 1 nanoseconds. */
  lemma BackoffNeverOverflowsIff(base: int)
    requires base > 0
    ensures base <= 0x1F_FFFF_FFFF_FFFF <==> forall m: nat :: FitsInt64(base, m)
  {
    Pow2Values();
    if base <= 0x1F_FFFF_FFFF_FFFF {
      forall m: nat
        ensures FitsInt64(base, m)
      {
        Pow2Monotone(Shift(m), 10);
        ProductMonotone(base, Pow2(Shift(m)), 1024);
      }
    } else {
      assert !FitsInt64(base, 11);
    }
  }

  /** One nanosecond past the bound, the eleventh delay comes out 292 years in the past. */
  lemma OverflowWitness()
    ensures RetryBackoff(0x20_0000_0000_0000, 11) == -TWO_63
  {
  }

  /** A configured base whose delays do not all fit has a first one that does not, and that one is negative. */
  lemma {:induction false} FirstOverflow(base: int, m: nat) returns (k: nat)
    requires 1 <= base <= MAX_INT64 && !FitsInt64(base, m)
    ensures 2 <= k <= m && FitsInt64(base, k - 1) && RetryBackoff(base, k) < 0
  {
    if FitsInt64(base, m - 1) {
      k := m;
      OneTooFar(base, m);
    } else {
      k := FirstOverflow(base, m - 1);
    }
  }

  /** Doubling a product that fits leaves int64 by less than its range. */
  lemma OneTooFar(base: int, k: nat)
    requires 1 <= base <= MAX_INT64 && k >= 1 && FitsInt64(base, k - 1) && !FitsInt64(base, k)
    ensures k >= 2 && RetryBackoff(base, k) < 0
  {
    if k >= 2 {
      assert Shift(k) == Shift(k - 1) + 1;
      assert base * Pow2(Shift(k)) == 2 * (base * Pow2(Shift(k - 1)));
    }
  }

  lemma BackoffNonNegative(base: int, m: nat, k: nat)
    requires base > 0 && FitsInt64(base, m) && 1 <= k <= m
    ensures RetryBackoff(base, k) >= base
  {
    BackoffExactIff(base, m);
    ProductMonotone(base, 1, Pow2(Shift(k)));
  }

  lemma FitsInt64Before(base: int, m: nat)
    requires base > 0 && m > 1 && FitsInt64(base, m)
    ensures FitsInt64(base, m - 1)
  {
  }

  /** The sum of the multipliers of the first m delays: doubling for eleven attempts, then linear. */
  function WaitFactor(m: nat): int {
    if m <= 11 then Pow2(m) - 1 else 2047 + 1024 * (m - 11)
  }

  lemma WaitFactorStep(m: nat)
    requires m >= 1
    ensures WaitFactor(m) == WaitFactor(m - 1) + Pow2(Shift(m))
  {
  }

  /** Wrapping around only ever shortens a delay. */
  lemma WrapShortens(base: int, k: nat)
    requires base > 0
    ensures RetryBackoff(base, k) <= base * Pow2(Shift(k))
    ensures k >= 1 && !FitsInt64(base, k) ==> RetryBackoff(base, k) < base * Pow2(Shift(k))
  {
    ProductMonotone(base, 0, Pow2(Shift(k)));
  }

  /**
   * The total delay is the closed form, doubling for eleven attempts and then linear, exactly when the largest
   * delay fits int64; otherwise it is shorter.
   */
  lemma {:induction false} TotalWaitClosedForm(base: int, m: nat)
    requires base > 0
    ensures TotalWait(base, m) <= base * WaitFactor(m)
    ensures TotalWait(base, m) == base * WaitFactor(m) <==> FitsInt64(base, m)
  {
    if m > 0 {
      TotalWaitClosedForm(base, m - 1);
      WrapShortens(base, m);
      WaitFactorStep(m);
      Distribute(base, WaitFactor(m - 1), Pow2(Shift(m)));
      if FitsInt64(base, m) {
        BackoffExactIff(base, m);
        if m > 1 {
          FitsInt64Before(base, m);
        }
      }
    }
  }

  lemma Distribute(a: int, b: int, c: int)
    ensures a * (b + c) == a * b + a * c
  {
  }
}
