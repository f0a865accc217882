/** Node-level retries (engine/core/src/retry_policy.cpp). Durations are
  milliseconds; a double is a real, and the jitter generator is its draw u. */
module Retries {
  import opened ExecutionPolicies

  datatype ErrorClass =
    | ErrUnspecified | ErrTransient | ErrResourceExhausted | ErrPermanent | ErrValidation | ErrAuthorization | ErrCanceled

  datatype ErrorCategory = Transient | ResourceLost | Permanent | Validation | Authorization | Aborted | Unknown

  datatype RetryPolicy = RetryPolicy(maxAttempts: nat, base: int, cap: int, multiplier: real, jitter: real)

  datatype RetryPolicySet = RetryPolicySet(internal: RetryPolicy, browser: RetryPolicy, externalIo: RetryPolicy)

  datatype RetryDecision = RetryAfter(backoff: int) | DeadLetter | FailNow

  function ForClass(s: RetryPolicySet, k: ResourceClass): RetryPolicy {
    match k
    case Browser => s.browser
    case ExternalIo => s.externalIo
    case Internal => s.internal
  }

  function ClassifyError(e: ErrorClass): ErrorCategory {
    match e
    case ErrTransient => Transient
    case ErrResourceExhausted => ResourceLost
    case ErrPermanent => Permanent
    case ErrValidation => Validation
    case ErrAuthorization => Authorization
    case ErrCanceled => Aborted
    case ErrUnspecified => Unknown
  }

  predicate NeverRetried(c: ErrorCategory) {
    c.Permanent? || c.Validation? || c.Authorization? || c.Aborted?
  }

  predicate IsRetryableCategory(c: ErrorCategory) {
    c.Transient? || c.ResourceLost?
  }

  // ------------------------------------------------------------------------
  // Backoff
  // ------------------------------------------------------------------------

  function Times(x: real, y: real): real {
    x * y
  }

  function Power(m: real, n: nat): real {
    if n == 0 then 1.0 else Times(Power(m, n - 1), m)
  }

  function Least(x: real, y: real): real {
    if x <= y then x else y
  }

  /** The documented delay: base * m^n, capped. */
  function CappedGrowth(base: real, m: real, n: nat, cap: real): real {
    Least(Times(base, Power(m, n)), cap)
  }

  function Clamp(j: real): real {
    if j < 0.0 then 0.0 else if j > 1.0 then 1.0 else j
  }

  /** What the loop computes: growth stops at the first product to reach the
    cap. */
  function LoopDelay(base: real, m: real, n: nat, cap: real): real
    decreases n
  {
    if n == 0 then base
    else if Times(base, m) >= cap then cap
    else LoopDelay(Times(base, m), m, n - 1, cap)
  }

  function Scaled(delay: real, j: real, u: real): int {
    var factor := if j > 0.0 then (1.0 - j) + u * (2.0 * j) else 1.0;
    var scaled := Times(delay, factor);
    if scaled < 0.0 then 0 else scaled.Floor
  }

  function Backoff(p: RetryPolicy, failedAttempt: nat, u: real): int {
    var n := if failedAttempt > 0 then failedAttempt - 1 else 0;
    Scaled(Least(LoopDelay(p.base as real, p.multiplier, n, p.cap as real), p.cap as real), Clamp(p.jitter), u)
  }

  /** The growth loop, and the cap after it. */
  method GrowDelay(base: real, m: real, exp: nat, cap: real) returns (delay: real)
    ensures delay == Least(LoopDelay(base, m, exp, cap), cap)
  {
    hide Times;
    delay := base;
    for i := 0 to exp
      invariant LoopDelay(delay, m, exp - i, cap) == LoopDelay(base, m, exp, cap)
    {
      delay := Times(delay, m);
      if delay >= cap {
        delay := cap;
        break;
      }
    }
    delay := Least(delay, cap);
  }

  method ComputeBackoff(p: RetryPolicy, failedAttempt: nat, u: real) returns (backoff: int)
    requires 0.0 <= u < 1.0
    ensures backoff == Backoff(p, failedAttempt, u)
  {
    hide LoopDelay, Least;
    var exp := if failedAttempt > 0 then failedAttempt - 1 else 0;
    var delay := GrowDelay(p.base as real, p.multiplier, exp, p.cap as real);
    var jitter := Clamp(p.jitter);
    if jitter > 0.0 {
      var factor := (1.0 - jitter) + u * (2.0 * jitter);
      delay := delay * factor;
    } else {
      assert delay * 1.0 == delay;
    }
    if delay < 0.0 { delay := 0.0; }
    backoff := delay.Floor;
  }

  lemma {:induction false} PowerSplit(m: real, n: nat)
    ensures Power(m, n + 1) == m * Power(m, n)
  {
    if n > 0 {
      PowerSplit(m, n - 1);
      assert Power(m, n + 1) == Power(m, n) * m == m * Power(m, n - 1) * m;
    }
  }

  lemma {:induction false} PowerSign(m: real, n: nat)
    requires m >= 0.0
    ensures Power(m, n) >= 0.0
    ensures m >= 1.0 ==> Power(m, n) >= 1.0
    ensures m <= 1.0 ==> Power(m, n) <= 1.0
  {
    if n > 0 {
      PowerSign(m, n - 1);
      ProductBounds(Power(m, n - 1), m);
    }
  }

  lemma Monotone(a: real, b: real, x: real)
    requires a <= b && x >= 0.0
    ensures a * x <= b * x
    ensures a < b && x > 0.0 ==> a * x < b * x
  {
    var d := b - a;
    assert d * x >= 0.0;
    assert b * x == (a + d) * x == a * x + d * x;
    if a < b && x > 0.0 { assert d * x > 0.0; }
  }

  lemma ProductBounds(x: real, y: real)
    requires x >= 0.0 && y >= 0.0
    ensures x * y >= 0.0
    ensures x >= 1.0 && y >= 1.0 ==> x * y >= 1.0
    ensures x <= 1.0 && y <= 1.0 ==> x * y <= 1.0
  {
    Monotone(0.0, x, y);
    if x >= 1.0 {
      Monotone(1.0, x, y);
      assert x * y >= 1.0 * y == y;
    }
    if x <= 1.0 {
      Monotone(x, 1.0, y);
      assert x * y <= 1.0 * y == y;
    }
  }

  /** The loop computes the documented delay exactly here. Growth by a factor of
    at least 1 always does; a shrinking delay fails when the first product is
    cut to the cap and the last would have fallen below it again. */
  lemma {:induction false} DelayIsCappedGrowthIff(base: real, m: real, n: nat, cap: real)
    requires base >= 0.0 && m >= 0.0
    ensures Least(LoopDelay(base, m, n, cap), cap) == CappedGrowth(base, m, n, cap) <==>
            m >= 1.0 || n == 0 || Times(base, m) < cap || Times(base, Power(m, n)) >= cap
    decreases n
  {
    if n == 0 {
      assert Times(base, Power(m, 0)) == base;
    } else {
      hide Times, Power;
      WholeProduct(base, m, n);
      if Times(base, m) < cap {
        DelayIsCappedGrowthIff(Times(base, m), m, n - 1, cap);
      }
    }
  }

  /** The product after n steps, seen from the first one. */
  lemma WholeProduct(base: real, m: real, n: nat)
    requires base >= 0.0 && m >= 0.0 && n > 0
    ensures var next := Times(base, m);
      && next >= 0.0 && Times(base, Power(m, n)) == Times(next, Power(m, n - 1))
      && (m < 1.0 ==> Times(next, m) <= next)
      && (m >= 1.0 ==> Times(base, Power(m, n)) >= next)
  {
    var next := base * m;
    PowerSplit(m, n - 1);
    Reassociate(base, m, Power(m, n - 1));
    ProductBounds(base, m);
    PowerSign(m, n - 1);
    if m < 1.0 { ShrinksBy(next, m); } else { GrowsBy(next, Power(m, n - 1)); }
  }

  lemma Reassociate(a: real, b: real, c: real)
    ensures a * (b * c) == a * b * c
  {
  }

  lemma GrowsBy(x: real, f: real)
    requires x >= 0.0 && f >= 1.0
    ensures x * f >= x
  {
    Monotone(1.0, f, x);
  }

  lemma ShrinksBy(x: real, f: real)
    requires x >= 0.0 && 0.0 <= f <= 1.0
    ensures x * f <= x
  {
    Monotone(f, 1.0, x);
  }

  /** The documented formula fails for a shrinking multiplier. */
  lemma ShrinkingMultiplierIsCut()
    ensures Least(LoopDelay(100.0, 0.5, 2, 40.0), 40.0) == 40.0 && CappedGrowth(100.0, 0.5, 2, 40.0) == 25.0
  {
    assert Power(0.5, 1) == Power(0.5, 0) * 0.5 == 0.5;
    assert Power(0.5, 2) == 0.25;
  }

  /** A jitter factor: in [1 - j, 1 + j), and exactly 1 without jitter. */
  ghost predicate IsFactor(j: real, factor: real) {
    1.0 - j <= factor && if j > 0.0 then factor < 1.0 + j else factor == 1.0
  }

  lemma ScaledIs(delay: real, j: real, u: real) returns (factor: real)
    requires delay >= 0.0 && 0.0 <= j <= 1.0 && 0.0 <= u < 1.0
    ensures IsFactor(j, factor) && Scaled(delay, j, u) == Times(delay, factor).Floor
  {
    factor := if j > 0.0 then (1.0 - j) + u * (2.0 * j) else 1.0;
    hide Times;
    if j > 0.0 { FactorRange(j, u); }
    TimesSign(delay, factor);
    TimesIs(delay, 1.0);
  }

  /** With no base there is no backoff, whatever the jitter. */
  lemma ZeroBackoff(p: RetryPolicy, k: nat, u: real)
    requires 0.0 <= u < 1.0 && p.base == 0 && p.cap >= 0 && p.multiplier >= 1.0
    ensures Backoff(p, k, u) == 0
  {
    hide Power, LoopDelay, Scaled, Times;
    var n := if k > 0 then k - 1 else 0;
    DelayIsCappedGrowthIff(0.0, p.multiplier, n, p.cap as real);
    TimesIs(Power(p.multiplier, n), 0.0);
    TimesIs(0.0, Power(p.multiplier, n));
    var factor := ScaledIs(0.0, Clamp(p.jitter), u);
    TimesIs(factor, 0.0);
    TimesIs(0.0, factor);
  }

  /** The backoff after attempt k is the documented delay times a factor in
    [1 - j, 1 + j), rounded down; without jitter it is the delay itself. */
  lemma BackoffBounds(p: RetryPolicy, k: nat, u: real)
    requires 0.0 <= u < 1.0 && p.base >= 0 && p.cap >= 0 && p.multiplier >= 1.0
    ensures var n := if k > 0 then k - 1 else 0;
      var delay, j := CappedGrowth(p.base as real, p.multiplier, n, p.cap as real), Clamp(p.jitter);
      var backoff := Backoff(p, k, u);
      && Times(delay, 1.0 - j) - 1.0 < backoff as real <= Times(delay, 1.0 + j)
      && (j > 0.0 && delay > 0.0 ==> backoff as real < Times(delay, 1.0 + j))
      && (j == 0.0 ==> backoff == delay.Floor)
      && 0 <= backoff <= 2 * p.cap
      && exists factor :: IsFactor(j, factor) && backoff == Times(delay, factor).Floor
  {
    hide Times, Power, LoopDelay, Scaled;
    var n := if k > 0 then k - 1 else 0;
    var base, cap, j := p.base as real, p.cap as real, Clamp(p.jitter);
    DelayIsCappedGrowthIff(base, p.multiplier, n, cap);
    PowerSign(p.multiplier, n);
    var delay := CappedGrowth(base, p.multiplier, n, cap);
    assert Times(base, Power(p.multiplier, n)) >= 0.0 by { TimesSign(base, Power(p.multiplier, n)); }
    ScaledBounds(delay, j, u);
    var factor := ScaledIs(delay, j, u);
    DoubleBound(delay, j, cap);
  }

  lemma TimesSign(x: real, y: real)
    requires x >= 0.0 && y >= 0.0
    ensures Times(x, y) >= 0.0
    ensures x > 0.0 && y > 0.0 ==> Times(x, y) > 0.0
  {
  }

  lemma DoubleBound(delay: real, j: real, cap: real)
    requires 0.0 <= delay <= cap && 0.0 <= j <= 1.0
    ensures Times(delay, 1.0 + j) <= cap + cap
  {
    hide Times;
    TimesMonotone(delay, 1.0 + j, 2.0);
    TimesIs(delay, 2.0);
  }

  lemma ScaledBounds(delay: real, j: real, u: real)
    requires delay >= 0.0 && 0.0 <= j <= 1.0 && 0.0 <= u < 1.0
    ensures var r, low, high := Scaled(delay, j, u), Times(delay, 1.0 - j), Times(delay, 1.0 + j);
      && r >= 0 && low - 1.0 < r as real <= high
      && (j > 0.0 && delay > 0.0 ==> r as real < high)
      && (j == 0.0 ==> r == delay.Floor)
  {
    var factor := if j > 0.0 then (1.0 - j) + u * (2.0 * j) else 1.0;
    hide Times;
    var low, x, high := Times(delay, 1.0 - j), Times(delay, factor), Times(delay, 1.0 + j);
    ProductRange(delay, j, u, factor);
    FloorRange(low, x, high);
    TimesIs(delay, 1.0);
  }

  lemma FloorRange(low: real, x: real, high: real)
    requires 0.0 <= x && low <= x <= high
    ensures x.Floor >= 0 && low - 1.0 < x.Floor as real <= high
    ensures x < high ==> x.Floor as real < high
  {
  }

  lemma ProductRange(delay: real, j: real, u: real, factor: real)
    requires delay >= 0.0 && 0.0 <= j <= 1.0 && 0.0 <= u < 1.0
    requires factor == if j > 0.0 then (1.0 - j) + u * (2.0 * j) else 1.0
    ensures 0.0 <= Times(delay, 1.0 - j) <= Times(delay, factor) <= Times(delay, 1.0 + j)
    ensures delay > 0.0 && j > 0.0 ==> Times(delay, factor) < Times(delay, 1.0 + j)
  {
    if j > 0.0 { FactorRange(j, u); }
    hide Times;
    TimesMonotone(delay, 0.0, 1.0 - j);
    TimesMonotone(delay, 1.0 - j, factor);
    TimesMonotone(delay, factor, 1.0 + j);
    TimesIs(delay, 0.0);
  }

  lemma TimesMonotone(x: real, a: real, b: real)
    requires a <= b && x >= 0.0
    ensures Times(x, a) <= Times(x, b)
    ensures a < b && x > 0.0 ==> Times(x, a) < Times(x, b)
  {
    var d := b - a;
    TimesSign(x, d);
    TimesAdds(x, a, d);
    hide Times;
    assert a + d == b;
  }

  lemma TimesAdds(x: real, a: real, d: real)
    ensures Times(x, a + d) == Times(x, a) + Times(x, d)
  {
  }

  lemma TimesIs(x: real, y: real)
    ensures Times(x, y) == x * y == y * x
    ensures y == 0.0 ==> Times(x, y) == 0.0
    ensures y == 1.0 ==> Times(x, y) == x
    ensures y == 2.0 ==> Times(x, y) == x + x
  {
  }

  lemma FactorRange(j: real, u: real)
    requires 0.0 < j <= 1.0 && 0.0 <= u < 1.0
    ensures var factor := (1.0 - j) + u * (2.0 * j); 1.0 - j <= factor < 1.0 + j && factor >= 0.0
  {
    Monotone(0.0, u, 2.0 * j);
    Monotone(u, 1.0, 2.0 * j);
  }

  /** Jitter comes after the cap, so the cap does not bound the backoff. */
  lemma JitterExceedsCap()
    ensures Scaled(Least(LoopDelay(10000.0, 2.0, 0, 10000.0), 10000.0), 0.25, 0.9) == 12000
  {
    assert 10000.0 * ((1.0 - 0.25) + 0.9 * (2.0 * 0.25)) == 12000.0;
  }

  // ------------------------------------------------------------------------
  // The decision
  // ------------------------------------------------------------------------

  function DecideRetry(p: RetryPolicy, failedAttempt: nat, e: ErrorClass, hasHint: bool, hint: bool, backoff: int):
      RetryDecision {
    var category := ClassifyError(e);
    if NeverRetried(category) then FailNow
    else
      var retryable := if category.Unknown? then hasHint && hint
                       else if hasHint && !hint then false
                       else IsRetryableCategory(category);
      if !retryable then FailNow
      else if failedAttempt >= p.maxAttempts then DeadLetter
      else RetryAfter(backoff)
  }

  /** A retry needs a retryable error and budget left; a retryable error without
    budget is dead-lettered; everything else fails at once. Only an explicit
    hint makes an unclassified error retryable, and no hint overrides the floor. */
  lemma DecisionMeaning(p: RetryPolicy, k: nat, e: ErrorClass, hasHint: bool, hint: bool, backoff: int)
    ensures var d := DecideRetry(p, k, e, hasHint, hint, backoff);
      && (d.RetryAfter? ==> k < p.maxAttempts)
      && (d.DeadLetter? ==> k >= p.maxAttempts)
      && (!d.FailNow? <==> if e.ErrTransient? || e.ErrResourceExhausted? then !hasHint || hint
                           else e.ErrUnspecified? && hasHint && hint)
  {
  }

  /** The two retry tests of the engine differ on exactly the error classes that
    only decide_retry treats as final (engine/core/src/envelope.cpp). */
  function ShouldConsiderRetry(completed: bool, statusCanceled: bool, e: ErrorClass, hasHint: bool, hint: bool): bool {
    if completed || statusCanceled then false
    else
      match e
      case ErrPermanent => false
      case ErrCanceled => false
      case ErrTransient => hint || !hasHint
      case ErrResourceExhausted => hint || !hasHint
      case _ => hint
  }

  lemma RetryTestsAgreeIff(p: RetryPolicy, k: nat, e: ErrorClass, hasHint: bool, hint: bool, backoff: int)
    requires hint ==> hasHint
    ensures ShouldConsiderRetry(false, false, e, hasHint, hint) == !DecideRetry(p, k, e, hasHint, hint, backoff).FailNow?
            <==> !(hint && (e.ErrValidation? || e.ErrAuthorization?))
  {
  }
}
