/** computeBackoff: doubling with a ceiling. */
module Backoff {
  import opened Credentials

  const QUOTA_BACKOFF_BASE: Time := SECOND
  const QUOTA_BACKOFF_MAX: Time := 30 * 60 * SECOND

  function Pow2(n: nat): (p: nat)
    ensures p > 0
  {
    if n == 0 then 1 else 2 * Pow2(n - 1)
  }

  function Min(a: int, b: int): int {
    if a < b then a else b
  }

  lemma {:induction false} Pow2Monotone(m: nat, n: nat)
    requires m <= n
    ensures Pow2(m) <= Pow2(n)
  {
    if m < n {
      Pow2Monotone(m, n - 1);
    }
  }

  function Doubled(base: Time, n: nat): Time {
    if n == 0 then base else 2 * Doubled(base, n - 1)
  }

  lemma {:induction false} DoubledIsPow2(base: Time, n: nat)
    ensures Doubled(base, n) == base * Pow2(n)
  {
    if n > 0 {
      DoubledIsPow2(base, n - 1);
      assert base * (2 * Pow2(n - 1)) == 2 * (base * Pow2(n - 1));
    }
  }

  lemma {:induction false} DoubledGrows(base: Time, m: nat, n: nat)
    requires 0 <= base && m <= n
    ensures 0 <= Doubled(base, m) <= Doubled(base, n)
  {
    if m < n {
      DoubledGrows(base, m, n - 1);
    } else if m > 0 {
      DoubledGrows(base, m - 1, n - 1);
    }
  }

  function BackoffAt(level: int, base: Time, maxBackoff: Time): Time {
    if level <= 0 then base else Min(base * Pow2(level), maxBackoff)
  }

  /**
   * The loop computes min(base * 2^level, max). `doublings` counts its rounds, however large the level, and
   * `peak` is the largest value it ever holds.
   */
  method ComputeBackoff(level: int, base: Time, maxBackoff: Time)
    returns (d: Time, ghost doublings: nat, ghost peak: Time)
    ensures 0 <= base ==> d == BackoffAt(level, base, maxBackoff)
    ensures 0 < base <= maxBackoff ==> peak < 2 * maxBackoff
    ensures doublings > 0 ==> doublings <= level && base * Pow2(doublings - 1) < maxBackoff
  {
    doublings, peak := 0, base;
    if level <= 0 {
      return base, doublings, peak;
    }
    d := base;
    var i := 0;
    while i < level && d < maxBackoff
      invariant 0 <= i <= level
      invariant d == Doubled(base, i)
      invariant doublings == i && (i > 0 ==> Doubled(base, i - 1) < maxBackoff)
      invariant peak == d && (0 < base <= maxBackoff ==> d < 2 * maxBackoff)
    {
      d := d * 2;
      i := i + 1;
      doublings, peak := i, d;
    }
    if 0 <= base {
      DoubledGrows(base, i, level);
    }
    DoubledIsPow2(base, level);
    if i > 0 {
      DoubledIsPow2(base, i - 1);
    }
    if d > maxBackoff {
      d := maxBackoff;
    }
  }

  lemma BackoffMonotone(level: int, level': int, base: Time, maxBackoff: Time)
    requires 0 <= base <= maxBackoff && level <= level'
    ensures BackoffAt(level, base, maxBackoff) <= BackoffAt(level', base, maxBackoff)
  {
    if 0 < level {
      Pow2Monotone(level, level');
      assert base * Pow2(level) <= base * Pow2(level');
    } else if 0 < level' {
      Pow2Monotone(0, level');
      assert base * 1 <= base * Pow2(level');
    }
  }

  /** At the shipped constants eleven doublings reach the ceiling, and no value needs more than 42 bits. */
  lemma ShippedBackoff(level: int, doublings: nat)
    requires doublings > 0 ==> QUOTA_BACKOFF_BASE * Pow2(doublings - 1) < QUOTA_BACKOFF_MAX
    ensures doublings <= 11
    ensures 2 * QUOTA_BACKOFF_MAX < 0x400_0000_0000
    ensures 1_000_000_000 <= BackoffAt(level, QUOTA_BACKOFF_BASE, QUOTA_BACKOFF_MAX) <= 1_800_000_000_000
    ensures level <= 0 ==> BackoffAt(level, QUOTA_BACKOFF_BASE, QUOTA_BACKOFF_MAX) == 1_000_000_000
    ensures level >= 11 ==> BackoffAt(level, QUOTA_BACKOFF_BASE, QUOTA_BACKOFF_MAX) == 1_800_000_000_000
  {
    assert Pow2(5) == 32;
    assert Pow2(9) == 16 * Pow2(5);
    assert Pow2(11) == 2048;
    if doublings > 11 {
      Pow2Monotone(11, doublings - 1);
      assert false;
    }
    if level >= 11 {
      Pow2Monotone(11, level);
    }
    BackoffMonotone(if level <= 0 then level else 0, level, QUOTA_BACKOFF_BASE, QUOTA_BACKOFF_MAX);
  }
}
