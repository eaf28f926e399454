/** The wait before a reconnect (crates/openalpaca_mcp/src/lifecycle.rs), against the formula it stands for. */
module Backoff {
  const U64_MAX: int := 0xFFFF_FFFF_FFFF_FFFF

  newtype U32 = x: int | 0 <= x < 0x1_0000_0000
  newtype U64 = x: int | 0 <= x <= U64_MAX

  /** A duration, in nanoseconds. */
  type Duration = nat

  const MAX_BACKOFF: Duration := FromMillis(1600)

  function FromMillis(ms: U64): Duration {
    ms as nat * 1_000_000
  }

  function Min(a: int, b: int): int {
    if a <= b then a else b
  }

  function Pow2(n: nat): (r: nat)
    ensures r > 0
  {
    if n == 0 then 1 else 2 * Pow2(n - 1)
  }

  lemma {:induction false} Pow2Grows(m: nat, n: nat)
    requires m <= n
    ensures Pow2(m) <= Pow2(n) && (m < n ==> 2 * Pow2(m) <= Pow2(n))
    decreases n
  {
    if m < n { Pow2Grows(m, n - 1); }
  }

  lemma Pow2Of20()
    ensures Pow2(20) == 0x10_0000
  {
    assert Pow2(5) == 32;
    assert Pow2(10) == 1024;
    assert Pow2(15) == 32768;
  }

  function SaturatingMul(a: U64, b: U64): U64 {
    Min(a as int * b as int, U64_MAX) as U64
  }

  function ShiftedOne(shift: nat): U64
    requires shift <= 20
  {
    Pow2Grows(shift, 20);
    Pow2Of20();
    Pow2(shift) as U64
  }

  function BackoffForAttempt(attempt: U32, base: U64, max: Duration): Duration {
    if attempt == 0 then 0
    else
      var shift := Min(attempt as int - 1, 20);
      Min(FromMillis(SaturatingMul(base, ShiftedOne(shift))), max)
  }

  /** What its documentation says: the base doubled for each attempt after the first, up to the cap. */
  function Doubling(attempt: nat, base: nat, max: Duration): Duration
    requires attempt > 0
  {
    Min(base * Pow2(attempt - 1) * 1_000_000, max)
  }

  lemma Scaled(base: nat, m: nat, n: nat)
    requires m <= n
    ensures base * Pow2(m) <= base * Pow2(n)
  {
    Pow2Grows(m, n);
    var a, b := Pow2(m), Pow2(n);
    assert base * (b - a) >= 0;
  }

  /** Where the clamped shift still reaches the cap, clamping and saturating cannot be told from doubling. */
  ghost predicate ReachesCap(base: U64, max: Duration) {
    base == 0 || FromMillis(SaturatingMul(base, 0x10_0000)) >= max
  }

  lemma SameUntilClamped(attempt: U32, base: U64, max: Duration)
    requires attempt > 0 && ReachesCap(base, max)
    ensures BackoffForAttempt(attempt, base, max) == Doubling(attempt as nat, base as nat, max)
  {
    var n := attempt as nat - 1;
    Pow2Of20();
    if n <= 20 {
      Scaled(base as nat, n, 20);
    } else {
      Scaled(base as nat, 20, n);
    }
  }

  lemma DiffersOnceClamped(base: U64, max: Duration)
    requires !ReachesCap(base, max)
    ensures BackoffForAttempt(22, base, max) < Doubling(22, base as nat, max)
  {
    Pow2Of20();
    assert Pow2(21) == 2 * Pow2(20);
    assert base as nat * Pow2(21) == 2 * (base as nat * Pow2(20));
  }

  /** The formula holds for every attempt exactly when the base is zero or twenty doublings reach the cap. */
  lemma DoublesExactlyWhen(base: U64, max: Duration)
    ensures (forall attempt: U32 | attempt > 0 ::
               BackoffForAttempt(attempt, base, max) == Doubling(attempt as nat, base as nat, max))
       <==> ReachesCap(base, max)
  {
    if ReachesCap(base, max) {
      forall attempt: U32 | attempt > 0
        ensures BackoffForAttempt(attempt, base, max) == Doubling(attempt as nat, base as nat, max)
      {
        SameUntilClamped(attempt, base, max);
      }
    } else {
      DiffersOnceClamped(base, max);
      assert BackoffForAttempt(22 as U32, base, max) != Doubling(22 as U32 as nat, base as nat, max);
    }
  }

  /** In particular for every cap of up to 2^20 milliseconds, and so for the default one. */
  lemma DoublesUpToCap(attempt: U32, base: U64, max: Duration)
    requires attempt > 0 && max <= FromMillis(0x10_0000)
    ensures BackoffForAttempt(attempt, base, max) == Doubling(attempt as nat, base as nat, max)
  {
    SameUntilClamped(attempt, base, max);
  }

  lemma DoublesByDefault(attempt: U32, base: U64)
    requires attempt > 0
    ensures BackoffForAttempt(attempt, base, MAX_BACKOFF) == Doubling(attempt as nat, base as nat, MAX_BACKOFF)
  {
    DoublesUpToCap(attempt, base, MAX_BACKOFF);
  }

  /** Later attempts never wait less, and none waits longer than the cap, whatever the cap. */
  lemma NeverLessNeverMore(a: U32, b: U32, base: U64, max: Duration)
    requires a <= b
    ensures BackoffForAttempt(a, base, max) <= BackoffForAttempt(b, base, max) <= max
  {
    if a > 0 {
      Scaled(base as nat, Min(a as int - 1, 20), Min(b as int - 1, 20));
    }
  }
}
