/** Retry delays (swarm-core/types.rs) and the retry loop (swarm-runtime/retry.rs), over exact
    reals: a delay is a number of seconds and a multiplier is finite. What remains of floating point
    is its range: a factor below the least or above the greatest number has vanished or is infinite. */
module Retrying {
  import opened Wrappers
  import opened Core

  type Attempt = n: nat | n < 0x1_0000_0000

  // The last attempt whose exponent still fits an `i32`.
  const LAST_EXACT: Attempt := 0x8000_0000

  datatype Strategy = Fixed | ExponentialBackoff(multiplier: real)

  datatype RetryPolicy = RetryPolicy(maxAttempts: Attempt, initial: real, max: real, strategy: Strategy)
  {
    // Durations are never negative.
    predicate Valid() {
      initial >= 0.0 && max >= 0.0
    }

    // The multiplier makes delays grow.
    predicate Grows() {
      strategy.ExponentialBackoff? && strategy.multiplier > 1.0
    }
  }

  function Min(a: real, b: real): real {
    if a <= b then a else b
  }

  // A product by name, so that proofs choose which facts about it they look at.
  function Times(a: real, b: real): real {
    a * b
  }

  lemma TimesMonotone(a: real, b: real, c: real)
    requires a <= b && c >= 0.0
    ensures Times(a, c) <= Times(b, c) && Times(c, a) <= Times(c, b)
  {
  }

  lemma TimesUnit(a: real)
    ensures Times(1.0, a) == a && Times(a, 1.0) == a && Times(0.0, a) == 0.0 && Times(a, 0.0) == 0.0
  {
  }

  lemma TimesSum(a: real, b: real, c: real)
    ensures Times(a, b + c) == Times(a, b) + Times(a, c)
    ensures Times(b + c, a) == Times(b, a) + Times(c, a)
  {
  }

  function Pow(m: real, n: nat): real {
    if n == 0 then 1.0 else Times(m, Pow(m, n - 1))
  }

  // `(attempt - 1) as i32` wraps around.
  function Exponent(attempt: Attempt): int
    requires attempt > 0
  {
    if attempt <= LAST_EXACT then attempt - 1 else attempt - 1 - 0x1_0000_0000
  }

  function PowI(m: real, e: int): real
    requires m > 0.0
  {
    if e >= 0 then Pow(m, e) else (PowPositive(m, -e); 1.0 / Pow(m, -e))
  }

  // The range of positive factors that the arithmetic can tell from zero and from infinity.
  datatype Format = Format(least: real, greatest: real)
  {
    predicate Valid() {
      0.0 < least <= 1.0 <= greatest
    }

    predicate Fits(factor: real) {
      least <= factor <= greatest
    }
  }

  function DelayForAttempt(f: Format, p: RetryPolicy, attempt: Attempt): real {
    if attempt == 0 then 0.0
    else if p.strategy.Fixed? then Min(p.initial, p.max)
    else if p.strategy.multiplier <= 0.0 then p.max
    else
      var factor := PowI(p.strategy.multiplier, Exponent(attempt));
      if !f.Fits(factor) then p.max else Min(Times(p.initial, factor), p.max)
  }

  // ---- Powers ----

  lemma {:induction false} PowPositive(m: real, n: nat)
    requires m > 0.0
    ensures Pow(m, n) > 0.0
  {
    if n > 0 {
      PowPositive(m, n - 1);
    }
  }

  lemma PowAtLeastOne(m: real, n: nat)
    requires m >= 1.0
    ensures Pow(m, n) >= 1.0
  {
    hide Times;
    if n > 0 {
      PowAtLeastOne(m, n - 1);
      TimesMonotone(1.0, m, Pow(m, n - 1));
      TimesUnit(Pow(m, n - 1));
    }
  }

  lemma {:induction false} PowGrows(m: real, n: nat, k: nat)
    requires m >= 1.0 && n <= k
    ensures 1.0 <= Pow(m, n) <= Pow(m, k)
    decreases k
  {
    hide Times;
    PowAtLeastOne(m, n);
    if n < k {
      PowGrows(m, n, k - 1);
      TimesMonotone(1.0, m, Pow(m, k - 1));
      TimesUnit(Pow(m, k - 1));
    }
  }

  lemma PowAboveOne(m: real, n: nat)
    requires m > 1.0 && n > 0
    ensures Pow(m, n) > 1.0
  {
    hide Times;
    PowGrows(m, 1, n);
    assert Pow(m, 0) == 1.0;
    TimesUnit(m);
  }

  lemma Reciprocals(a: real, b: real)
    requires 0.0 < a <= b
    ensures 0.0 < 1.0 / b <= 1.0 / a
  {
    assert (1.0 / a - 1.0 / b) * (a * b) == b - a;
  }

  lemma PowIGrows(m: real, e: int, f: int)
    requires m >= 1.0 && e <= f
    ensures 0.0 < PowI(m, e) <= PowI(m, f)
    ensures e >= 0 ==> PowI(m, e) >= 1.0
    ensures m > 1.0 && e < 0 ==> PowI(m, e) < 1.0
  {
    if e >= 0 {
      PowGrows(m, e, f);
    } else {
      PowGrows(m, -e, -e);
      Reciprocals(1.0, Pow(m, -e));
      if f >= 0 {
        PowGrows(m, f, f);
      } else {
        PowGrows(m, -f, -e);
        Reciprocals(Pow(m, -f), Pow(m, -e));
      }
      if m > 1.0 {
        PowAboveOne(m, -e);
        assert 1.0 / Pow(m, -e) * Pow(m, -e) == 1.0;
      }
    }
  }

  // ---- Single delays ----

  // No delay exceeds the cap, at any attempt and for any multiplier.
  lemma DelayIsCapped(f: Format, p: RetryPolicy, attempt: Attempt)
    requires p.Valid()
    ensures 0.0 <= DelayForAttempt(f, p, attempt) <= p.max
  {
    if attempt > 0 && p.strategy.ExponentialBackoff? && p.strategy.multiplier > 0.0 {
      var (m, e) := (p.strategy.multiplier, Exponent(attempt));
      PowPositive(m, if e >= 0 then e else -e);
      var factor := PowI(m, e);
      assert e < 0 ==> factor * Pow(m, -e) == 1.0;
      assert factor > 0.0;
      TimesMonotone(0.0, p.initial, factor);
    }
  }

  // For a multiplier of at least one, delays are nondecreasing as long as the exponent fits, and
  // also when the factor becomes infinite on the way.
  lemma DelaysNondecreasing(f: Format, p: RetryPolicy, a: Attempt, b: Attempt)
    requires f.Valid() && p.Valid() && 0 < a <= b <= LAST_EXACT
    requires p.strategy.Fixed? || p.strategy.multiplier >= 1.0
    ensures DelayForAttempt(f, p, a) <= DelayForAttempt(f, p, b)
  {
    DelayIsCapped(f, p, a);
    hide Times, PowI;
    if p.strategy.ExponentialBackoff? {
      PowIGrows(p.strategy.multiplier, Exponent(a), Exponent(b));
      TimesMonotone(PowI(p.strategy.multiplier, Exponent(a)), PowI(p.strategy.multiplier, Exponent(b)), p.initial);
    }
  }

  // The factor is neither vanished nor infinite, although the exponent has wrapped or the first delay
  // is zero, and gives a delay below the cap.
  predicate Dips(f: Format, p: RetryPolicy, attempt: Attempt)
    requires p.Grows() && attempt > 0
  {
    var factor := PowI(p.strategy.multiplier, Exponent(attempt));
    (attempt > LAST_EXACT || p.initial == 0.0) && f.Fits(factor) && Times(p.initial, factor) < p.max
  }

  lemma DelayByBranch(f: Format, p: RetryPolicy, attempt: Attempt)
    requires f.Valid() && p.Valid() && p.Grows() && attempt > 0
    ensures var delay := DelayForAttempt(f, p, attempt);
            if Dips(f, p, attempt) then
              && delay == Times(p.initial, PowI(p.strategy.multiplier, Exponent(attempt))) < p.max
              && delay <= p.initial && (delay == p.initial <==> p.initial == 0.0)
            else if attempt > LAST_EXACT || p.initial == 0.0 || p.initial >= p.max then delay == p.max
            else p.initial <= delay <= p.max
  {
    hide Times, PowI;
    var factor := PowI(p.strategy.multiplier, Exponent(attempt));
    PowIGrows(p.strategy.multiplier, Exponent(attempt), Exponent(attempt));
    TimesUnit(p.initial);
    TimesUnit(factor);
    if attempt <= LAST_EXACT {
      TimesMonotone(1.0, factor, p.initial);
    } else if p.initial > 0.0 {
      Shrinks(p.initial, factor);
    }
  }

  // Two growing delays, of any two attempts, for any first delay and any cap, are in order exactly
  // when the later one does not dip or the earlier one dips already.
  lemma DelaysNondecreasingIff(f: Format, p: RetryPolicy, a: Attempt, b: Attempt)
    requires f.Valid() && p.Valid() && p.Grows() && 0 < a <= b
    ensures DelayForAttempt(f, p, a) <= DelayForAttempt(f, p, b) <==> (Dips(f, p, b) ==> Dips(f, p, a))
  {
    hide Times, PowI, DelayForAttempt, Dips;
    DelayByBranch(f, p, a);
    DelayByBranch(f, p, b);
    DelayIsCapped(f, p, a);
    if b <= LAST_EXACT {
      DelaysNondecreasing(f, p, a, b);
    }
    if Dips(f, p, a) && Dips(f, p, b) {
      DipsAreInOrder(f, p, a, b);
    }
    DipsLate(f, p, b);
  }

  lemma DipsLate(f: Format, p: RetryPolicy, attempt: Attempt)
    requires p.Grows() && attempt > 0
    ensures Dips(f, p, attempt) ==> attempt > LAST_EXACT || p.initial == 0.0
  {
  }

  lemma DipsAreInOrder(f: Format, p: RetryPolicy, a: Attempt, b: Attempt)
    requires p.Valid() && p.Grows() && 0 < a <= b && Dips(f, p, a) && Dips(f, p, b)
    ensures Times(p.initial, PowI(p.strategy.multiplier, Exponent(a))) <= Times(p.initial, PowI(p.strategy.multiplier, Exponent(b)))
  {
    hide Times, PowI;
    var m := p.strategy.multiplier;
    TimesUnit(PowI(m, Exponent(a)));
    TimesUnit(PowI(m, Exponent(b)));
    if p.initial > 0.0 {
      PowIGrows(m, Exponent(a), Exponent(b));
      TimesMonotone(PowI(m, Exponent(a)), PowI(m, Exponent(b)), p.initial);
    }
  }

  const DEFAULT_POLICY := RetryPolicy(3, 0.5, 30.0, ExponentialBackoff(2.0))

  // The default strategy in any format that tells a quarter from zero and some 2^-n not (for a double
  // n is 1075): right after the wrap the cap is returned, and at the last attempt the delay is a
  // quarter of the first.
  lemma DefaultStrategyDrops(f: Format, n: int)
    requires f.Valid() && 2 < n <= 0x8000_0000 && PowI(2.0, -n) < f.least <= 0.25
    ensures DelayForAttempt(f, DEFAULT_POLICY, 1) == 0.5
    ensures DelayForAttempt(f, DEFAULT_POLICY, LAST_EXACT + 1) == 30.0
    ensures DelayForAttempt(f, DEFAULT_POLICY, 0xFFFF_FFFF) == 0.125
  {
    PowIGrows(2.0, -0x8000_0000, -n);
    assert Exponent(1) == 0 && Exponent(LAST_EXACT + 1) == -0x8000_0000 && Exponent(0xFFFF_FFFF) == -2;
    assert Pow(2.0, 0) == 1.0;
    assert Pow(2.0, 1) == 2.0 * Pow(2.0, 0);
    assert Pow(2.0, 2) == 2.0 * Pow(2.0, 1);
    assert PowI(2.0, -2) == 0.25;
  }

  lemma Shrinks(a: real, f: real)
    requires a > 0.0 && f < 1.0
    ensures Times(a, f) < a
  {
    assert a * (1.0 - f) > 0.0;
    assert a * f == a - a * (1.0 - f);
  }

  // A fixed strategy waits the first delay, as far as the cap allows, a multiplier that is not positive
  // the cap, and nobody waits before the first attempt.
  lemma DelayWithoutGrowth(f: Format, p: RetryPolicy, attempt: Attempt)
    ensures attempt == 0 ==> DelayForAttempt(f, p, attempt) == 0.0
    ensures attempt > 0 && p.strategy == Fixed ==>
              DelayForAttempt(f, p, attempt) == if p.initial <= p.max then p.initial else p.max
    ensures attempt > 0 && p.strategy.ExponentialBackoff? && p.strategy.multiplier <= 0.0 ==>
              DelayForAttempt(f, p, attempt) == p.max
  {
  }

  // ---- Total delay ----

  function Total(f: Format, p: RetryPolicy, retries: Attempt): real {
    if retries == 0 then 0.0 else Total(f, p, retries - 1) + DelayForAttempt(f, p, retries)
  }

  lemma {:induction false} TotalWithinCap(f: Format, p: RetryPolicy, retries: Attempt)
    requires p.Valid()
    ensures 0.0 <= Total(f, p, retries) <= Times(retries as real, p.max)
  {
    hide Times, DelayForAttempt;
    TimesUnit(p.max);
    if retries > 0 {
      TotalWithinCap(f, p, retries - 1);
      DelayIsCapped(f, p, retries);
      TimesSum(p.max, (retries - 1) as real, 1.0);
    }
  }

  function Geometric(m: real, n: nat): real {
    if n == 0 then 0.0 else Geometric(m, n - 1) + Pow(m, n - 1)
  }

  lemma {:induction false} GeometricSum(m: real, n: nat)
    ensures Times(Geometric(m, n), m - 1.0) == Pow(m, n) - 1.0
  {
    if n > 0 {
      GeometricSum(m, n - 1);
      SeriesStep(Geometric(m, n - 1), Pow(m, n - 1), m);
    }
  }

  lemma SeriesStep(g: real, q: real, m: real)
    ensures Times(g + q, m - 1.0) == Times(g, m - 1.0) + Times(m, q) - q
  {
  }

  // The factor is infinite although the delay it stands for is below the cap, as it is for a first
  // delay of zero: the cap is returned instead.
  predicate Blown(f: Format, p: RetryPolicy, attempt: Attempt)
    requires p.Grows()
  {
    && 0 < attempt <= LAST_EXACT
    && Pow(p.strategy.multiplier, attempt - 1) > f.greatest
    && Times(p.initial, Pow(p.strategy.multiplier, attempt - 1)) < p.max
  }

  lemma DelayOfGrowing(f: Format, p: RetryPolicy, attempt: Attempt)
    requires f.Valid() && p.Valid() && p.Grows() && 0 < attempt <= LAST_EXACT
    ensures var exact := Times(p.initial, Pow(p.strategy.multiplier, attempt - 1));
            if Blown(f, p, attempt) then DelayForAttempt(f, p, attempt) == p.max > exact
            else DelayForAttempt(f, p, attempt) == Min(exact, p.max)
  {
    hide Times, Pow;
    PowGrows(p.strategy.multiplier, 0, attempt - 1);
  }

  lemma {:induction false} TotalWithinSeries(f: Format, p: RetryPolicy, retries: Attempt)
    requires f.Valid() && p.Valid() && p.Grows() && retries <= LAST_EXACT
    requires forall i: Attempt | i <= retries :: !Blown(f, p, i)
    ensures Total(f, p, retries) <= Times(p.initial, Geometric(p.strategy.multiplier, retries))
  {
    hide Times, Pow, DelayForAttempt, Blown;
    var m := p.strategy.multiplier;
    TimesUnit(p.initial);
    if retries > 0 {
      TotalWithinSeries(f, p, retries - 1);
      DelayOfGrowing(f, p, retries);
      TimesSum(p.initial, Geometric(m, retries - 1), Pow(m, retries - 1));
    }
  }

  // Before a blown attempt every delay is the exact one, so the total is the exact series.
  lemma {:induction false} TotalBeforeBlown(f: Format, p: RetryPolicy, retries: Attempt, blown: Attempt)
    requires f.Valid() && p.Valid() && p.Grows() && retries < blown && Blown(f, p, blown)
    requires forall i: Attempt | i < blown :: !Blown(f, p, i)
    ensures Total(f, p, retries) == Times(p.initial, Geometric(p.strategy.multiplier, retries))
  {
    hide Times, Pow, DelayForAttempt;
    var m := p.strategy.multiplier;
    TimesUnit(p.initial);
    if retries > 0 {
      TotalBeforeBlown(f, p, retries - 1, blown);
      DelayOfGrowing(f, p, retries);
      PowGrows(m, retries - 1, blown - 1);
      TimesMonotone(Pow(m, retries - 1), Pow(m, blown - 1), p.initial);
      TimesSum(p.initial, Geometric(m, retries - 1), Pow(m, retries - 1));
    }
  }

  // The whole wait stays below the geometric series initial * (m^n - 1) / (m - 1).
  predicate WithinSeries(f: Format, p: RetryPolicy, retries: Attempt)
    requires p.Grows()
  {
    var m := p.strategy.multiplier;
    Total(f, p, retries) <= p.initial * (Pow(m, retries) - 1.0) / (m - 1.0)
  }

  lemma SeriesIsClosedForm(f: Format, p: RetryPolicy, retries: Attempt)
    requires p.Grows()
    ensures WithinSeries(f, p, retries) <==> Total(f, p, retries) <= Times(p.initial, Geometric(p.strategy.multiplier, retries))
  {
    hide Pow, Geometric, Total, Times;
    var m := p.strategy.multiplier;
    GeometricSum(m, retries);
    Divide(p.initial, Geometric(m, retries), m - 1.0, Pow(m, retries) - 1.0);
  }

  // The total stays within the series for every number of retries up to `n` exactly when none of
  // these attempts is blown.
  lemma TotalIsBoundedIff(f: Format, p: RetryPolicy, n: Attempt)
    requires f.Valid() && p.Valid() && p.Grows() && n <= LAST_EXACT
    ensures (forall i: Attempt | i <= n :: WithinSeries(f, p, i)) <==> (forall i: Attempt | i <= n :: !Blown(f, p, i))
  {
    hide Total, Times, Pow, WithinSeries, Blown, Geometric;
    if forall i: Attempt | i <= n :: !Blown(f, p, i) {
      forall i: Attempt | i <= n ensures WithinSeries(f, p, i) {
        TotalWithinSeries(f, p, i);
        SeriesIsClosedForm(f, p, i);
      }
    } else {
      var any: Attempt :| any <= n && Blown(f, p, any);
      var first := FirstBlown(f, p, any);
      BlownExceeds(f, p, first);
    }
  }

  lemma {:induction false} FirstBlown(f: Format, p: RetryPolicy, any: Attempt) returns (first: Attempt)
    requires p.Grows() && Blown(f, p, any)
    ensures first <= any && Blown(f, p, first) && forall i: Attempt | i < first :: !Blown(f, p, i)
    decreases any
  {
    hide Blown;
    first := any;
    if i: Attempt :| i < any && Blown(f, p, i) {
      first := FirstBlown(f, p, i);
    }
  }

  lemma BlownExceeds(f: Format, p: RetryPolicy, first: Attempt)
    requires f.Valid() && p.Valid() && p.Grows() && Blown(f, p, first) && forall i: Attempt | i < first :: !Blown(f, p, i)
    ensures !WithinSeries(f, p, first)
  {
    hide Times, Pow, DelayForAttempt, WithinSeries;
    var m := p.strategy.multiplier;
    TotalBeforeBlown(f, p, first - 1, first);
    DelayOfGrowing(f, p, first);
    TimesSum(p.initial, Geometric(m, first - 1), Pow(m, first - 1));
    SeriesIsClosedForm(f, p, first);
  }

  // A caller who keeps the cap within reach of representable factors is always within the series.
  lemma ReachableCapIsNeverBlown(f: Format, p: RetryPolicy, attempt: Attempt)
    requires p.Valid() && p.Grows() && p.max <= Times(p.initial, f.greatest)
    ensures !Blown(f, p, attempt)
  {
    hide Times, Pow;
    if Blown(f, p, attempt) {
      TimesMonotone(f.greatest, Pow(p.strategy.multiplier, attempt - 1), p.initial);
      assert false;
    }
  }

  // A first delay of zero with a positive cap is blown as soon as the factor is infinite.
  lemma ZeroDelayIsBlownIff(f: Format, p: RetryPolicy, attempt: Attempt)
    requires p.Grows() && p.initial == 0.0 < p.max && 0 < attempt <= LAST_EXACT
    ensures Blown(f, p, attempt) <==> Pow(p.strategy.multiplier, attempt - 1) > f.greatest
  {
    hide Pow;
    TimesUnit(Pow(p.strategy.multiplier, attempt - 1));
  }

  const IMPATIENT_POLICY := RetryPolicy(3, 0.0, 30.0, ExponentialBackoff(2.0))

  // An instance: retrying at once, but for the cap of half a minute that comes when 2^n is infinite
  // (for a double n is 1024). The series is zero, and the total is the cap.
  lemma ZeroDelayBlows(f: Format, n: Attempt)
    requires f.Valid() && 0 < n < LAST_EXACT && Pow(2.0, n - 1) <= f.greatest < Pow(2.0, n)
    ensures Blown(f, IMPATIENT_POLICY, n + 1) && !WithinSeries(f, IMPATIENT_POLICY, n + 1)
    ensures DelayForAttempt(f, IMPATIENT_POLICY, n) == 0.0 && DelayForAttempt(f, IMPATIENT_POLICY, n + 1) == 30.0
  {
    hide Pow, WithinSeries;
    var p := IMPATIENT_POLICY;
    forall i: Attempt | i < n + 1 ensures !Blown(f, p, i) {
      if i > 0 {
        PowGrows(2.0, i - 1, n - 1);
      }
    }
    TimesUnit(Pow(2.0, n));
    BlownExceeds(f, p, n + 1);
    DelayOfGrowing(f, p, n);
    TimesUnit(Pow(2.0, n - 1));
    DelayOfGrowing(f, p, n + 1);
  }

  lemma Divide(a: real, g: real, d: real, e: real)
    requires d > 0.0 && Times(g, d) == e
    ensures a * e / d == Times(a, g)
  {
    assert a * e == a * g * d;
    assert (a * g * d) / d == a * g;
  }

  // ---- Jitter and the loop ----

  predicate JitterFraction(fraction: real) {
    0.0 <= fraction < 0.1
  }

  function DelayBeforeRetry(f: Format, p: RetryPolicy, jitter: bool, attempt: Attempt, fraction: real): real {
    var delay := DelayForAttempt(f, p, attempt);
    if jitter then Min(delay + Times(delay, fraction), p.max) else delay
  }

  // Jitter only lengthens a delay, by less than a tenth, and never past the cap.
  lemma JitterStaysWithinCap(f: Format, p: RetryPolicy, jitter: bool, attempt: Attempt, fraction: real)
    requires p.Valid() && JitterFraction(fraction)
    ensures DelayForAttempt(f, p, attempt) <= DelayBeforeRetry(f, p, jitter, attempt, fraction) <= p.max
    ensures DelayBeforeRetry(f, p, jitter, attempt, fraction) <= Times(1.1, DelayForAttempt(f, p, attempt))
  {
    hide DelayForAttempt;
    DelayIsCapped(f, p, attempt);
    var delay := DelayForAttempt(f, p, attempt);
    hide Times;
    Tenth(delay, fraction);
  }

  // Exactly: the fraction is added to the delay, as far as the cap allows.
  lemma JitterAdds(f: Format, p: RetryPolicy, attempt: Attempt, fraction: real)
    requires p.Valid()
    ensures var (plain, waited) := (DelayForAttempt(f, p, attempt), DelayBeforeRetry(f, p, true, attempt, fraction));
            waited == if plain * (1.0 + fraction) <= p.max then plain * (1.0 + fraction) else p.max
  {
    hide DelayForAttempt;
    assert DelayForAttempt(f, p, attempt) * (1.0 + fraction) == DelayForAttempt(f, p, attempt) + Times(DelayForAttempt(f, p, attempt), fraction);
  }

  lemma Tenth(delay: real, fraction: real)
    requires 0.0 <= delay && 0.0 <= fraction < 0.1
    ensures 0.0 <= Times(delay, fraction) && delay + Times(delay, fraction) <= Times(1.1, delay)
  {
    TimesMonotone(0.0, fraction, delay);
    TimesMonotone(fraction, 0.1, delay);
  }

  predicate Final<T>(r: Result<T, SwarmError>) {
    r.Ok? || !r.error.IsRetryable()
  }

  function Sum(s: seq<real>): real {
    if s == [] then 0.0 else Sum(s[..|s| - 1]) + s[|s| - 1]
  }

  // The waits of a run: each is the one its attempt asks for, and none is shorter than the plain
  // delay or longer than the cap.
  ghost predicate Waits(f: Format, p: RetryPolicy, jitter: bool, fractions: nat -> real, slept: seq<real>) {
    && |slept| <= p.maxAttempts
    && (forall i | 0 <= i < |slept| :: slept[i] == DelayBeforeRetry(f, p, jitter, i + 1, fractions(i)))
  }

  lemma {:induction false} WaitsAreBounded(f: Format, p: RetryPolicy, jitter: bool, fractions: nat -> real, slept: seq<real>)
    requires p.Valid() && Waits(f, p, jitter, fractions, slept) && forall i :: JitterFraction(fractions(i))
    ensures forall i | 0 <= i < |slept| :: DelayForAttempt(f, p, i + 1) <= slept[i] <= p.max
    ensures Total(f, p, |slept|) <= Sum(slept) <= Times(|slept| as real, p.max)
    ensures !jitter ==> Sum(slept) == Total(f, p, |slept|)
  {
    hide Times, DelayForAttempt, DelayBeforeRetry;
    TimesUnit(p.max);
    if slept != [] {
      var last := |slept| - 1;
      WaitsAreBounded(f, p, jitter, fractions, slept[..last]);
      JitterStaysWithinCap(f, p, jitter, last + 1, fractions(last));
      NoJitter(f, p, last + 1, fractions(last));
      TimesSum(p.max, last as real, 1.0);
    }
  }

  lemma NoJitter(f: Format, p: RetryPolicy, attempt: Attempt, fraction: real)
    ensures DelayBeforeRetry(f, p, false, attempt, fraction) == DelayForAttempt(f, p, attempt)
  {
  }

  // A call that timed out or lost its channel is worth another one; no other error is.
  predicate WorthRetrying<T>(r: Result<T, SwarmError>) {
    r.Err? && match r.error case TaskTimeout(_) => true case ChannelError => true case _ => false
  }

  // The operation is called again exactly after such errors and at most `maxAttempts` times more; the
  // result is that of the last call, and `WaitsAreBounded` bounds the waits in between.
  method Execute<T>(f: Format, p: RetryPolicy, jitter: bool, call: nat -> Result<T, SwarmError>, fractions: nat -> real)
      returns (r: Result<T, SwarmError>, calls: nat, slept: seq<real>)
    ensures 1 <= calls <= p.maxAttempts + 1 && r == call(calls - 1)
    ensures forall i: nat | i < calls - 1 :: WorthRetrying(call(i))
    ensures !WorthRetrying(r) || calls == p.maxAttempts + 1
    ensures |slept| == calls - 1 && Waits(f, p, jitter, fractions, slept)
  {
    hide DelayBeforeRetry;
    var attempt: Attempt := 0;
    slept := [];
    while true
      invariant attempt <= p.maxAttempts && |slept| == attempt
      invariant forall i: nat | i < attempt :: WorthRetrying(call(i))
      invariant Waits(f, p, jitter, fractions, slept)
      decreases p.maxAttempts - attempt
    {
      r := call(attempt);
      if Final(r) || attempt >= p.maxAttempts {
        return r, attempt + 1, slept;
      }
      attempt := attempt + 1;
      var delay := DelayBeforeRetry(f, p, jitter, attempt, fractions(attempt - 1));
      slept := slept + [delay];
    }
  }
}
