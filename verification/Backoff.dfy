/** Exponential backoff between crash retries (`backoffDuration` and the clamps of `New` in
    internal/coordinator/coordinator.go). Durations are nanoseconds; the multiplier is a real. */
module Backoff {

  datatype Backoff = Backoff(base: int, multiplier: real, jitter: int) {
    predicate Valid() { base > 0 && multiplier > 0.0 && jitter > 0 }
  }

  const SECOND := 1_000_000_000

  /** The clamps `New` applies to the configured values. */
  function Clamp(raw: Backoff): (b: Backoff)
    ensures b.Valid()
    ensures b.base == raw.base || (raw.base <= 0 && b.base == 5_000_000_000)
    ensures b.multiplier == raw.multiplier || (raw.multiplier <= 0.0 && b.multiplier == 2.0)
    ensures b.jitter == raw.jitter || (raw.jitter <= 0 && b.jitter == 1_000_000_000)
  {
    Backoff(if raw.base <= 0 then 5 * SECOND else raw.base,
            if raw.multiplier <= 0.0 then 2.0 else raw.multiplier,
            if raw.jitter <= 0 then SECOND else raw.jitter)
  }

  function Pow(m: real, n: nat): (p: real)
    requires m > 0.0
    ensures p > 0.0
  {
    if n == 0 then 1.0 else m * Pow(m, n - 1)
  }

  /** The delay before jitter: base * multiplier^(attempt-1). */
  function Exponential(b: Backoff, attempt: nat): (d: real)
    requires b.Valid() && attempt >= 1
    ensures d > 0.0
  {
    b.base as real * Pow(b.multiplier, attempt - 1)
  }

  /** `backoffDuration`; `noise` is what `rand.Int63n(jitter)` returned. */
  function Duration(b: Backoff, attempt: nat, noise: nat): (d: int)
    requires b.Valid() && attempt >= 1 && noise < b.jitter
    ensures 0 <= d
    ensures Exponential(b, attempt) - 1.0 < d as real < Exponential(b, attempt) + b.jitter as real
    ensures Exponential(b, attempt) - 1.0 < (d - noise) as real <= Exponential(b, attempt)
  {
    Exponential(b, attempt).Floor + noise
  }

  /** Exponential(1) + ... + Exponential(n). */
  function Series(b: Backoff, n: nat): (t: real)
    requires b.Valid()
    ensures t >= 0.0 && (n > 0 ==> t > 0.0)
  {
    if n == 0 then 0.0 else Series(b, n - 1) + Exponential(b, n)
  }

  /** The bound on the backoff of attempts 1 to n: a geometric sum plus n jitters. */
  function Budget(b: Backoff, n: nat): real
    requires b.Valid()
  {
    Series(b, n) + (n * b.jitter) as real
  }

  lemma {:induction false} SeriesMonotone(b: Backoff, m: nat, n: nat)
    requires b.Valid() && m <= n
    ensures Series(b, m) <= Series(b, n)
    decreases n
  {
    if m < n {
      SeriesMonotone(b, m, n - 1);
    }
  }

  lemma BudgetMonotone(b: Backoff, m: nat, n: nat)
    requires b.Valid() && m <= n
    ensures 0.0 <= Budget(b, m) <= Budget(b, n)
  {
    SeriesMonotone(b, m, n);
    assert 0 <= m * b.jitter <= n * b.jitter by {
      assert (n - m) * b.jitter >= 0;
    }
  }

  /** Retrying at attempt `n` after having waited for some attempts below it stays within the budget. */
  lemma WaitStaysInBudget(b: Backoff, waited: int, last: nat, n: nat, noise: nat)
    requires b.Valid() && last < n && noise < b.jitter
    requires waited as real <= Budget(b, last)
    ensures (waited + Duration(b, n, noise)) as real < Budget(b, n)
  {
    BudgetMonotone(b, last, n - 1);
    assert n * b.jitter == (n - 1) * b.jitter + b.jitter;
  }

  /** The exponential part in closed form: a geometric series in the multiplier. */
  lemma {:induction false} SeriesIsGeometric(b: Backoff, n: nat)
    requires b.Valid()
    ensures (b.multiplier - 1.0) * Series(b, n) == b.base as real * (Pow(b.multiplier, n) - 1.0)
  {
    if n > 0 {
      SeriesIsGeometric(b, n - 1);
      GeometricStep(b.multiplier, Series(b, n - 1), b.base as real, Pow(b.multiplier, n - 1));
    }
  }

  lemma GeometricStep(m: real, g: real, base: real, p: real)
    requires (m - 1.0) * g == base * (p - 1.0)
    ensures (m - 1.0) * (g + base * p) == base * (m * p - 1.0)
  {
    assert (m - 1.0) * (base * p) == base * (m * p) - base * p;
  }

  /** The first retry waits for the base delay before jitter, and each further one multiplies it. */
  lemma BackoffGrows(b: Backoff, attempt: nat)
    requires b.Valid() && attempt >= 1
    ensures Exponential(b, 1) == b.base as real
    ensures Exponential(b, attempt + 1) == b.multiplier * Exponential(b, attempt)
  {
    assert Pow(b.multiplier, 0) == 1.0;
    var p := Pow(b.multiplier, attempt - 1);
    assert Pow(b.multiplier, attempt) == b.multiplier * p;
    assert b.base as real * (b.multiplier * p) == b.multiplier * (b.base as real * p);
  }
}
