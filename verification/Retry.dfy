/** `internal/retry/scheduler.go`: which failures are retried, and after how long. Durations
    are nanoseconds; the arithmetic is over ideal reals. */
module Retry {
  import opened Domain

  const SECOND := 1_000_000_000

  datatype BackoffPolicy = BackoffPolicy(initialInterval: int, maxInterval: int, multiplier: real, maxRetries: int)

  const DEFAULT := BackoffPolicy(5 * SECOND, 3600 * SECOND, 2.0, 5)

  function Initial(p: BackoffPolicy): int {
    if p.initialInterval <= 0 then 5 * SECOND else p.initialInterval
  }

  function Max(p: BackoffPolicy): int {
    if p.maxInterval <= 0 then 3600 * SECOND else p.maxInterval
  }

  function Multiplier(p: BackoffPolicy): real {
    if p.multiplier <= 1.0 then 2.0 else p.multiplier
  }

  function Pow(m: real, n: nat): real {
    if n == 0 then 1.0 else m * Pow(m, n - 1)
  }

  function Exponent(attempt: int): nat {
    if attempt <= 0 then 0 else attempt - 1
  }

  function Uncapped(attempt: int, p: BackoffPolicy): real {
    Initial(p) as real * Pow(Multiplier(p), Exponent(attempt))
  }

  /** The upper end of the jitter interval. */
  function Cap(attempt: int, p: BackoffPolicy): int {
    var c := Uncapped(attempt, p);
    if c > Max(p) as real then Max(p) else c.Floor
  }

  /** The draw stands for the default generator's value or a custom generator's result. */
  function CalculateBackoff(attempt: int, p: BackoffPolicy, draw: int -> int): int {
    var cap := Cap(attempt, p);
    if cap <= 0 then 0 else draw(cap)
  }

  predicate IsRetryable(statusCode: int, networkError: bool) {
    networkError || statusCode == 408 || statusCode == 429 || (500 <= statusCode < 600)
  }

  lemma {:induction false} PowAtLeastBernoulli(m: real, n: nat)
    requires m > 1.0
    ensures Pow(m, n) >= 1.0 + n as real * (m - 1.0)
  {
    if n > 0 {
      PowAtLeastBernoulli(m, n - 1);
      var d, k := m - 1.0, (n - 1) as real;
      MulKeepsOrder(m, 1.0 + k * d, Pow(m, n - 1));
      assert m * (1.0 + k * d) == 1.0 + (k + 1.0) * d + k * (d * d);
      MulKeepsOrder(k, 0.0, d * d);
    }
  }

  lemma MulKeepsOrder(x: real, a: real, b: real)
    requires x >= 0.0 && a <= b
    ensures x * a <= x * b
  {
  }

  lemma PowGrows(m: real, n: nat)
    requires m > 1.0
    ensures Pow(m, n) <= Pow(m, n + 1)
  {
    PowAtLeastBernoulli(m, n);
    MulKeepsOrder(Pow(m, n), 1.0, m);
  }

  lemma UncappedGrows(attempt: int, p: BackoffPolicy)
    ensures 1.0 <= Uncapped(attempt, p) <= Uncapped(attempt + 1, p)
  {
    var m, n := Multiplier(p), Exponent(attempt);
    PowAtLeastBernoulli(m, n);
    MulKeepsOrder(n as real, 0.0, m - 1.0);
    PowGrows(m, n);
    hide Pow;
    MulKeepsOrder(Initial(p) as real, 1.0, Pow(m, n));
    MulKeepsOrder(Initial(p) as real, Pow(m, n), Pow(m, Exponent(attempt + 1)));
  }

  /** The cap is positive and within MaxInterval for every policy, also a zero or negative one. */
  lemma CapBounds(attempt: int, p: BackoffPolicy)
    ensures 0 < Cap(attempt, p) <= Max(p)
  {
    UncappedGrows(attempt, p);
    hide Uncapped;
  }

  lemma CapGrows(attempt: int, p: BackoffPolicy)
    ensures Cap(attempt, p) <= Cap(attempt + 1, p)
  {
    UncappedGrows(attempt, p);
    hide Uncapped;
  }

  lemma {:induction false} CapMonotone(a: int, b: int, p: BackoffPolicy)
    requires a <= b
    ensures Cap(a, p) <= Cap(b, p)
    decreases b - a
  {
    if a < b {
      CapMonotone(a, b - 1, p);
      CapGrows(b - 1, p);
    }
  }

  /** The first interval is the initial one, within MaxInterval; zero and negative settings stand for
      five seconds and an hour. */
  lemma CapStarts(attempt: int, p: BackoffPolicy)
    requires attempt <= 1
    ensures var initial := if p.initialInterval > 0 then p.initialInterval else 5_000_000_000;
            var max := if p.maxInterval > 0 then p.maxInterval else 3_600_000_000_000;
            Cap(attempt, p) == if initial < max then initial else max
  {
    assert Pow(Multiplier(p), Exponent(attempt)) == 1.0;
    hide Pow;
  }

  lemma UncappedMultiplies(attempt: int, p: BackoffPolicy)
    requires attempt >= 1
    ensures Uncapped(attempt + 1, p) == Multiplier(p) * Uncapped(attempt, p)
  {
    var i, m, x := Initial(p) as real, Multiplier(p), Pow(Multiplier(p), Exponent(attempt));
    assert Pow(m, Exponent(attempt + 1)) == m * x;
    hide Pow;
    assert i * (m * x) == m * (i * x);
  }

  lemma RealProduct(k: int, n: int)
    ensures (k * n) as real == k as real * n as real
  {
  }

  /** With a whole multiplier every uncapped interval is a whole number of nanoseconds. */
  lemma {:induction false} UncappedIsWhole(attempt: int, p: BackoffPolicy, k: int) returns (n: int)
    requires Multiplier(p) == k as real
    ensures Uncapped(attempt, p) == n as real
    decreases Exponent(attempt)
  {
    if attempt <= 1 {
      assert Pow(Multiplier(p), Exponent(attempt)) == 1.0;
      n := Initial(p);
    } else {
      var before := UncappedIsWhole(attempt - 1, p, k);
      UncappedMultiplies(attempt - 1, p);
      RealProduct(k, before);
      n := k * before;
    }
  }

  lemma MultipleIsLarger(k: int, n: int)
    requires k >= 1 && n > 0
    ensures k * n >= n
  {
  }

  lemma CapIs(attempt: int, p: BackoffPolicy)
    ensures Cap(attempt, p) == if Uncapped(attempt, p) > Max(p) as real then Max(p) else Uncapped(attempt, p).Floor
  {
  }

  /** Exponential growth: with a whole multiplier, each cap is the multiple of the one before, up to
      MaxInterval. A multiplier of at most one stands for two. */
  lemma CapMultiplies(attempt: int, p: BackoffPolicy, k: int)
    requires attempt >= 1 && k as real == if p.multiplier > 1.0 then p.multiplier else 2.0
    ensures var max := if p.maxInterval > 0 then p.maxInterval else 3_600_000_000_000;
            Cap(attempt + 1, p) == if k * Cap(attempt, p) < max then k * Cap(attempt, p) else max
  {
    var n := UncappedIsWhole(attempt, p, k);
    UncappedMultiplies(attempt, p);
    RealProduct(k, n);
    hide Uncapped, Cap;
    CapIs(attempt, p);
    CapIs(attempt + 1, p);
    var n' := k * n;
    assert Uncapped(attempt + 1, p) == n' as real;
    if n > Max(p) {
      MultipleIsLarger(k, n);
      MultipleIsLarger(k, Max(p));
    }
  }

  lemma PartIsLess(m: real, e: real)
    requires m > 0.0 && e < 1.0
    ensures m * e < m
  {
    var d := 1.0 - e;
    assert m * d > 0.0;
    assert m * d == m - m * e;
  }

  lemma PartsRounded(m: real, c: real, e: real, v: real, d: real)
    requires m > 0.0 && 0.0 <= e < 1.0 && v == m * c + m * e && d <= v < d + 1.0
    ensures m * c - 1.0 < d < m * c + m
  {
    MulKeepsOrder(m, 0.0, e);
    PartIsLess(m, e);
  }

  lemma ProductRounded(m: real, c: real, u: real, v: real, d: real)
    requires m > 0.0 && c <= u < c + 1.0 && v == m * u && d <= v < d + 1.0
    ensures m * c - 1.0 < d < m * c + m
  {
    PartsRounded(m, c, u - c, v, d);
  }

  /** With any other multiplier the same holds but for the rounding down of both caps. */
  lemma CapMultipliesRounded(attempt: int, p: BackoffPolicy)
    requires attempt >= 1
    requires Cap(attempt, p) < if p.maxInterval > 0 then p.maxInterval else 3_600_000_000_000
    ensures var m := if p.multiplier > 1.0 then p.multiplier else 2.0;
            var max := if p.maxInterval > 0 then p.maxInterval else 3_600_000_000_000;
            var cap, next := Cap(attempt, p) as real, Cap(attempt + 1, p) as real;
            next == max as real || m * cap - 1.0 < next < m * cap + m
  {
    UncappedMultiplies(attempt, p);
    hide Uncapped, Cap;
    CapIs(attempt, p);
    CapIs(attempt + 1, p);
    if Cap(attempt + 1, p) != Max(p) {
      ProductRounded(Multiplier(p), Cap(attempt, p) as real, Uncapped(attempt, p), Uncapped(attempt + 1, p), Cap(attempt + 1, p) as real);
    }
  }

  /** A number of doublings (or weaker growth steps) that is enough for any initial interval. */
  lemma EnoughSteps(p: BackoffPolicy) returns (steps: nat)
    ensures Pow(Multiplier(p), steps) > Max(p) as real
  {
    var d := Multiplier(p) - 1.0;
    steps := (Max(p) as real / d).Floor + 1;
    MulKeepsOrder(d, Max(p) as real / d, steps as real);
    PowAtLeastBernoulli(Multiplier(p), steps);
  }

  /** However slowly it grows, the cap reaches MaxInterval after finitely many attempts and stays there. */
  lemma CapReachesMax(p: BackoffPolicy) returns (n: nat)
    ensures forall attempt: int :: attempt >= n ==> Cap(attempt, p) == Max(p)
  {
    var steps := EnoughSteps(p);
    n := steps + 1;
    hide Pow;
    MulKeepsOrder(Pow(Multiplier(p), steps), 1.0, Initial(p) as real);
    assert Uncapped(n, p) > Max(p) as real;
    hide Uncapped;
    assert Cap(n, p) == Max(p);
    hide Cap;
    forall attempt: int | attempt >= n
      ensures Cap(attempt, p) == Max(p)
    {
      CapMonotone(n, attempt, p);
      CapBounds(attempt, p);
    }
  }

  /** A delay lies in [0, cap] exactly when the generator keeps to its interval: the default
      one draws from [0, cap], a custom one is not clamped. */
  lemma BackoffWithinCapIff(attempt: int, p: BackoffPolicy, draw: int -> int)
    ensures 0 <= CalculateBackoff(attempt, p, draw) <= Cap(attempt, p) <==> 0 <= draw(Cap(attempt, p)) <= Cap(attempt, p)
  {
    CapBounds(attempt, p);
  }

  function SumOfCaps(p: BackoffPolicy, lo: int, hi: int): (s: int)
    ensures s >= 0
    decreases hi - lo
  {
    if hi < lo then 0 else CapBounds(hi, p); SumOfCaps(p, lo, hi - 1) + Cap(hi, p)
  }

  lemma {:induction false} SumOfCapsGrows(p: BackoffPolicy, lo: int, k: int, hi: int)
    requires k <= hi
    ensures SumOfCaps(p, lo, k) <= SumOfCaps(p, lo, hi)
    decreases hi - k
  {
    if k < hi {
      SumOfCapsGrows(p, lo, k, hi - 1);
      CapBounds(hi, p);
    }
  }
}
