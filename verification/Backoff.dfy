/** Restart backoff arithmetic on 64-bit nanosecond durations. */
module Backoff {
  import opened Common

  newtype int64 = x: int | -0x8000_0000_0000_0000 <= x <= 0x7fff_ffff_ffff_ffff

  const SECOND: int64 := 1_000_000_000
  const DEFAULT_CAP: int64 := 30 * SECOND

  function Pow2(n: nat): nat {
    if n == 0 then 1 else 2 * Pow2(n - 1)
  }

  lemma {:induction false} Pow2Monotone(a: nat, b: nat)
    requires a <= b
    ensures 1 <= Pow2(a) <= Pow2(b)
    decreases b
  {
    if a < b {
      Pow2Monotone(a, b - 1);
    } else if b > 0 {
      Pow2Monotone(b - 1, b - 1);
    }
  }

  lemma Pow2At29()
    ensures Pow2(29) == 0x2000_0000
  {
    assert Pow2(10) == 1024;
    assert Pow2(20) == 1048576;
  }

  /** The cap actually in force: a non-positive setting means the default. */
  function EffectiveCap(maxBackoff: int64): int64 {
    if maxBackoff <= 0 then DEFAULT_CAP else maxBackoff
  }

  /** The wait before the given (1-indexed) restart. Every operation is on `int64`,
      so accepting this definition already shows that no intermediate result wraps. */
  function ComputeRestartBackoff(attempt: int64, maxBackoff: int64): int64 {
    var cap := EffectiveCap(maxBackoff);
    var n := if attempt < 1 then 1 else attempt;
    if n > 30 then
      cap
    else
      Pow2Monotone((n - 1) as nat, 29);
      Pow2At29();
      var base := (Pow2((n - 1) as nat) as int64) * SECOND;
      if base > cap then cap else base
  }

  /** The uncapped exponential schedule over unbounded integers. */
  function Ideal(attempt: nat): int
    requires attempt >= 1
  {
    Pow2(attempt - 1) * SECOND as int
  }

  lemma BackoffBounds(attempt: int64, maxBackoff: int64)
    ensures 0 < ComputeRestartBackoff(attempt, maxBackoff) <= EffectiveCap(maxBackoff)
    ensures maxBackoff > 0 ==> EffectiveCap(maxBackoff) == maxBackoff
    ensures maxBackoff <= 0 && attempt >= 6 ==> ComputeRestartBackoff(attempt, maxBackoff) == 30_000_000_000
  {
    var n := if attempt < 1 then 1 else attempt;
    if n <= 30 {
      Pow2Monotone(0, (n - 1) as nat);
    }
    if 6 <= n <= 30 {
      Pow2Monotone(5, (n - 1) as nat);
      assert Pow2(5) == 32;
    }
  }

  lemma BackoffMonotone(a: int64, b: int64, maxBackoff: int64)
    requires a <= b
    ensures ComputeRestartBackoff(a, maxBackoff) <= ComputeRestartBackoff(b, maxBackoff)
  {
    BackoffBounds(a, maxBackoff);
    var m := if a < 1 then 1 else a;
    var n := if b < 1 then 1 else b;
    if n <= 30 {
      Pow2Monotone((m - 1) as nat, (n - 1) as nat);
    }
  }

  /** The schedule is min(2^(attempt-1) s, cap) up to attempt 30, and beyond it exactly
      when the cap does not exceed the ideal value. */
  lemma BackoffIsCappedDoubling(attempt: int64, maxBackoff: int64)
    requires attempt >= 1
    ensures ComputeRestartBackoff(attempt, maxBackoff) as int == Min(Ideal(attempt as nat), EffectiveCap(maxBackoff) as int)
            <==> attempt <= 30 || EffectiveCap(maxBackoff) as int <= Ideal(attempt as nat)
  {
  }

  /** A cap of at most 2^30 s makes the closed form hold for every attempt. */
  lemma BackoffClosedForm(attempt: int64, maxBackoff: int64)
    requires attempt >= 1
    requires EffectiveCap(maxBackoff) as int <= 0x4000_0000 * SECOND as int
    ensures ComputeRestartBackoff(attempt, maxBackoff) as int == Min(Ideal(attempt as nat), EffectiveCap(maxBackoff) as int)
  {
    if attempt > 30 {
      Pow2At29();
      assert Pow2(30) == 0x4000_0000;
      Pow2Monotone(30, (attempt - 1) as nat);
    }
    BackoffIsCappedDoubling(attempt, maxBackoff);
  }

  /** One nanosecond more and attempt 31 jumps straight to the cap. */
  lemma ClosedFormFailsAboveTheBound()
    ensures var cap: int64 := 0x4000_0000 * SECOND + 1;
            ComputeRestartBackoff(31, cap) == cap && Ideal(31) < cap as int
  {
    Pow2At29();
    assert Pow2(30) == 0x4000_0000;
  }

  /** Total time spent in backoff by a run with n restarts. */
  function TotalBackoff(n: nat, maxBackoff: int64): int
    requires n <= 0x7fff_ffff_ffff_ffff
  {
    if n == 0 then 0 else TotalBackoff(n - 1, maxBackoff) + ComputeRestartBackoff(n as int64, maxBackoff) as int
  }

  /** m restarts are still doubling: 2^(m-1) s fits under the cap and 2^m s does not. */
  predicate DoublingsUnder(m: nat, cap: int) {
    && (m > 0 ==> Ideal(m) <= cap)
    && cap < Ideal(m + 1)
  }

  /** (2^n - 1) s while doubling, then one cap for each further restart. */
  lemma {:induction false} TotalBackoffClosedForm(n: nat, m: nat, maxBackoff: int64)
    requires n <= 0x7fff_ffff_ffff_ffff
    requires EffectiveCap(maxBackoff) as int <= 0x4000_0000 * SECOND as int
    requires DoublingsUnder(m, EffectiveCap(maxBackoff) as int)
    ensures TotalBackoff(n, maxBackoff) ==
            if n <= m then (Pow2(n) - 1) * SECOND as int
            else (Pow2(m) - 1) * SECOND as int + (n - m) * EffectiveCap(maxBackoff) as int
  {
    hide ComputeRestartBackoff;
    if n > 0 {
      TotalBackoffClosedForm(n - 1, m, maxBackoff);
      OneBackoff(n, m, maxBackoff);
      if n > m {
        CapSteps(n - m, EffectiveCap(maxBackoff) as int);
      }
    }
  }

  /** The n-th restart waits 2^(n-1) s while doubling and the cap after that. */
  lemma OneBackoff(n: nat, m: nat, maxBackoff: int64)
    requires 1 <= n <= 0x7fff_ffff_ffff_ffff
    requires EffectiveCap(maxBackoff) as int <= 0x4000_0000 * SECOND as int
    requires DoublingsUnder(m, EffectiveCap(maxBackoff) as int)
    ensures ComputeRestartBackoff(n as int64, maxBackoff) as int
            == if n <= m then (Pow2(n) - 1) * SECOND as int - (Pow2(n - 1) - 1) * SECOND as int
               else EffectiveCap(maxBackoff) as int
  {
    hide ComputeRestartBackoff;
    BackoffClosedForm(n as int64, maxBackoff);
    if n <= m {
      Pow2Monotone(n - 1, m - 1);
      assert Ideal(n) <= Ideal(m);
      assert Pow2(n) == 2 * Pow2(n - 1);
    } else {
      Pow2Monotone(m, n - 1);
      assert Ideal(m + 1) <= Ideal(n);
    }
  }

  lemma CapSteps(k: int, cap: int)
    ensures (k - 1) * cap + cap == k * cap
  {
  }
}
