/**
 * The two delay calculations, in exact arithmetic: the executor's, whose attempts count from one
 * (crates/agentverify-runtime/src/executor.rs), and the recovery crate's, whose attempts count
 * from zero (crates/agentverify-recovery/src/lib.rs).
 */
module Backoff {
  import opened Common
  import opened Contracts

  const DEFAULT_INITIAL: nat := 100
  const DEFAULT_MAX: nat := 5000
  const DEFAULT_MULTIPLIER: real := 2.0

  function Times(a: real, b: real): real {
    a * b
  }

  function Pow(b: real, n: nat): real {
    if n == 0 then 1.0 else Times(b, Pow(b, n - 1))
  }

  /** A float-to-integer cast rounds toward zero; an unsigned one also saturates at zero. */
  function Truncate(x: real): int {
    if x < 0.0 then -((-x).Floor) else x.Floor
  }

  function TruncateUnsigned(x: real): nat {
    Max(0, Truncate(x))
  }

  function CappedExponential(initial: nat, multiplier: real, steps: nat, max: nat): nat {
    Min(TruncateUnsigned(Times(initial as real, Pow(multiplier, steps))), max)
  }

  /** The wait after the given attempt of an executor run, in milliseconds. */
  function ExecutorDelay(attempt: nat, recovery: Option<RecoveryConfig>): nat
    requires attempt >= 1
  {
    if recovery.Some? && recovery.value.backoff.Some? then
      var b := recovery.value.backoff.value;
      match b.kind
      case Linear => Min(b.initial * attempt, b.max)
      case Exponential => CappedExponential(b.initial, b.multiplier, attempt - 1, b.max)
    else CappedExponential(DEFAULT_INITIAL, DEFAULT_MULTIPLIER, attempt - 1, DEFAULT_MAX)
  }

  /** The cap that applies to a recovery configuration. */
  function DelayCap(recovery: Option<RecoveryConfig>): nat {
    if recovery.Some? && recovery.value.backoff.Some? then recovery.value.backoff.value.max else DEFAULT_MAX
  }

  datatype RecoveryBackoffType = Fixed | LinearGrowth | ExponentialGrowth

  datatype RecoveryBackoff = RecoveryBackoff(kind: RecoveryBackoffType, initial: nat, max: nat, multiplier: real)

  function Uncapped(b: RecoveryBackoff, attempt: nat): int {
    match b.kind
    case Fixed => b.initial
    case LinearGrowth => b.initial + Truncate(Times(Times(b.initial as real, b.multiplier), attempt as real))
    case ExponentialGrowth => Truncate(Times(b.initial as real, Pow(b.multiplier, attempt)))
  }

  function RecoveryDelay(b: RecoveryBackoff, attempt: nat): int {
    Min(Uncapped(b, attempt), b.max)
  }

  lemma ScaleUp(a: real, x: real, y: real)
    requires a >= 0.0 && x <= y
    ensures a * x <= a * y
  {
  }

  lemma {:induction false} PowersGrow(b: real, m: nat, n: nat)
    requires b >= 1.0 && m <= n
    ensures 1.0 <= Pow(b, m) <= Pow(b, n)
    decreases n
  {
    if n > 0 {
      PowersGrow(b, n - 1, n - 1);
      ScaleUp(Pow(b, n - 1), 1.0, b);
      if m < n {
        PowersGrow(b, m, n - 1);
      } else {
        assert m == n;
      }
    }
  }

  lemma TruncateGrows(x: real, y: real)
    requires x <= y
    ensures Truncate(x) <= Truncate(y)
  {
  }

  lemma ProductGrows(a: real, x: real, y: real)
    requires a >= 0.0 && 0.0 <= x <= y
    ensures 0 <= Truncate(Times(a, x)) <= Truncate(Times(a, y))
  {
    ScaleUp(a, 0.0, x);
    ScaleUp(a, x, y);
  }

  lemma CappedExponentialGrows(initial: nat, multiplier: real, m: nat, n: nat, max: nat)
    requires multiplier >= 1.0 && m <= n
    ensures CappedExponential(initial, multiplier, m, max) <= CappedExponential(initial, multiplier, n, max)
  {
    hide Times, Truncate;
    PowersGrow(multiplier, m, n);
    ProductGrows(initial as real, Pow(multiplier, m), Pow(multiplier, n));
  }

  predicate Grows(recovery: Option<RecoveryConfig>) {
    recovery.Some? && recovery.value.backoff.Some? ==> recovery.value.backoff.value.multiplier >= 1.0
  }

  /** The executor's delay never exceeds the cap, and never shrinks when the multiplier is at least one. */
  lemma ExecutorDelayIsCappedAndMonotone(m: nat, n: nat, recovery: Option<RecoveryConfig>)
    requires 1 <= m <= n
    ensures ExecutorDelay(n, recovery) <= DelayCap(recovery)
    ensures Grows(recovery) ==> ExecutorDelay(m, recovery) <= ExecutorDelay(n, recovery)
  {
    if recovery.Some? && recovery.value.backoff.Some? {
      var b := recovery.value.backoff.value;
      if b.kind.Linear? {
        assert b.initial * m <= b.initial * n;
      } else if b.multiplier >= 1.0 {
        CappedExponentialGrows(b.initial, b.multiplier, m - 1, n - 1, b.max);
      }
    } else {
      CappedExponentialGrows(DEFAULT_INITIAL, DEFAULT_MULTIPLIER, m - 1, n - 1, DEFAULT_MAX);
    }
  }

  lemma LinearRecoveryGrows(b: RecoveryBackoff, m: nat, n: nat)
    requires b.kind.LinearGrowth? && b.multiplier >= 1.0 && m <= n
    ensures 0 <= Uncapped(b, m) <= Uncapped(b, n)
  {
    NonNegative(b.initial as real, b.multiplier);
    var slope := Times(b.initial as real, b.multiplier);
    hide Times, Truncate;
    ProductGrows(slope, m as real, n as real);
  }

  lemma ExponentialRecoveryGrows(b: RecoveryBackoff, m: nat, n: nat)
    requires b.kind.ExponentialGrowth? && b.multiplier >= 1.0 && m <= n
    ensures 0 <= Uncapped(b, m) <= Uncapped(b, n)
  {
    hide Times, Truncate;
    PowersGrow(b.multiplier, m, n);
    ProductGrows(b.initial as real, Pow(b.multiplier, m), Pow(b.multiplier, n));
  }

  /** So does the recovery delay. */
  lemma RecoveryDelayIsCappedAndMonotone(b: RecoveryBackoff, m: nat, n: nat)
    requires m <= n
    ensures RecoveryDelay(b, n) <= b.max
    ensures b.multiplier >= 1.0 ==> 0 <= RecoveryDelay(b, m) <= RecoveryDelay(b, n)
  {
    if b.multiplier >= 1.0 {
      if b.kind.LinearGrowth? {
        LinearRecoveryGrows(b, m, n);
      } else if b.kind.ExponentialGrowth? {
        ExponentialRecoveryGrows(b, m, n);
      }
    }
  }

  /** The same settings, written for the recovery crate. */
  function AsRecovery(b: BackoffConfig): RecoveryBackoff {
    RecoveryBackoff(if b.kind.Linear? then LinearGrowth else ExponentialGrowth, b.initial, b.max, b.multiplier)
  }

  lemma {:induction false} PowersStayNonNegative(b: real, n: nat)
    requires b >= 0.0
    ensures Pow(b, n) >= 0.0
  {
    if n > 0 {
      PowersStayNonNegative(b, n - 1);
      ScaleUp(b, 0.0, Pow(b, n - 1));
    }
  }

  /** With exponential growth, both written for the same settings, they agree at an attempt under a cap. */
  predicate ExponentialDelayAgrees(
    initial: nat, multiplier: real, strategy: RecoveryStrategy, attempts: nat, n: nat, max: nat)
    requires n >= 1
  {
    var b := BackoffConfig(Exponential, initial, max, multiplier);
    ExecutorDelay(n, Some(RecoveryConfig(strategy, attempts, Some(b)))) == RecoveryDelay(AsRecovery(b), n - 1)
  }

  /** They agree at all attempts under all caps, one counting from one and the other from zero. */
  ghost predicate ExponentialDelaysAgree(initial: nat, multiplier: real, strategy: RecoveryStrategy, attempts: nat) {
    forall n: nat, max: nat | n >= 1 :: ExponentialDelayAgrees(initial, multiplier, strategy, attempts, n, max)
  }

  /** They differ exactly where the recovery crate's delay is negative, and the executor's saturates at zero. */
  lemma ExponentialDelayAgreesIff(
    initial: nat, multiplier: real, strategy: RecoveryStrategy, attempts: nat, n: nat, max: nat)
    requires n >= 1
    ensures ExponentialDelayAgrees(initial, multiplier, strategy, attempts, n, max) <==>
            Times(initial as real, Pow(multiplier, n - 1)) > -1.0
  {
    hide Times, Pow;
    SaturationShows(Times(initial as real, Pow(multiplier, n - 1)), max);
  }

  lemma SaturationShows(x: real, max: nat)
    ensures Min(TruncateUnsigned(x), max) == Min(Truncate(x), max) <==> x > -1.0
  {
  }

  lemma NonNegative(a: real, b: real)
    requires a >= 0.0 && b >= 0.0
    ensures a * b >= 0.0
  {
  }

  /** A factor between minus one and zero keeps what is between it and one there. */
  lemma StaysBetween(b: real, p: real)
    requires -1.0 <= b < 0.0 && b <= p <= 1.0
    ensures b <= Times(b, p) <= 1.0
  {
    NonNegative(-b, 1.0 - p);
    NonNegative(-b, p + 1.0);
  }

  lemma {:induction false} SmallPowersStaySmall(b: real, n: nat)
    requires -1.0 <= b < 0.0 && n >= 1
    ensures b <= Pow(b, n) <= 1.0
  {
    if n > 1 {
      hide Times;
      SmallPowersStaySmall(b, n - 1);
      StaysBetween(b, Pow(b, n - 1));
    } else {
      FirstPower(b);
    }
  }

  lemma FirstPower(b: real)
    ensures Pow(b, 1) == b
  {
    assert Pow(b, 1) == Times(b, Pow(b, 0));
  }

  lemma AboveMinusOne(i: real, b: real)
    requires i >= 1.0 && b < 0.0 && Times(i, b) > -1.0
    ensures b > -1.0
  {
    NonNegative(i - 1.0, -b);
  }

  lemma Larger(i: real, b: real, p: real)
    requires i >= 0.0 && b <= p && Times(i, b) > -1.0
    ensures Times(i, p) > -1.0
  {
    NonNegative(i, p - b);
  }

  lemma NothingTimes(p: real)
    ensures Times(0.0, p) == 0.0 && Times(p, 0.0) == 0.0 && Times(p, 1.0) == p
  {
  }

  lemma NeverBelow(i: real, multiplier: real, n: nat)
    requires (i == 0.0 || i >= 1.0) && Times(i, multiplier) > -1.0
    ensures Times(i, Pow(multiplier, n)) > -1.0
  {
    hide Times;
    NothingTimes(Pow(multiplier, n));
    NothingTimes(i);
    if i > 0.0 && multiplier >= 0.0 {
      PowersStayNonNegative(multiplier, n);
      Larger(i, 0.0, Pow(multiplier, n));
    } else if i > 0.0 && n >= 1 {
      AboveMinusOne(i, multiplier);
      SmallPowersStaySmall(multiplier, n);
      Larger(i, multiplier, Pow(multiplier, n));
    }
  }

  /** With exponential growth they agree exactly unless the first delay after the initial one is negative. */
  lemma ExponentialDelaysAgreeIff(initial: nat, multiplier: real, strategy: RecoveryStrategy, attempts: nat)
    ensures ExponentialDelaysAgree(initial, multiplier, strategy, attempts) <==>
            Times(initial as real, multiplier) > -1.0
  {
    hide Times, Pow, ExponentialDelayAgrees;
    if Times(initial as real, multiplier) > -1.0 {
      forall n: nat, max: nat | n >= 1 ensures ExponentialDelayAgrees(initial, multiplier, strategy, attempts, n, max) {
        NeverBelow(initial as real, multiplier, n - 1);
        ExponentialDelayAgreesIff(initial, multiplier, strategy, attempts, n, max);
      }
    } else {
      FirstPower(multiplier);
      ExponentialDelayAgreesIff(initial, multiplier, strategy, attempts, 2, 0);
      assert !ExponentialDelayAgrees(initial, multiplier, strategy, attempts, 2, 0);
    }
  }

  lemma LinearStep(i: nat, n: nat)
    requires n >= 1
    ensures i * n == i + i * (n - 1)
    ensures Truncate(Times(Times(i as real, 1.0), (n - 1) as real)) == i * (n - 1)
  {
    assert i as real * 1.0 * (n - 1) as real == (i * (n - 1)) as real;
  }

  /** With linear growth, both written for the same settings, they agree at an attempt under a cap. */
  predicate LinearDelayAgrees(
    initial: nat, multiplier: real, strategy: RecoveryStrategy, attempts: nat, n: nat, max: nat)
    requires n >= 1
  {
    var b := BackoffConfig(Linear, initial, max, multiplier);
    ExecutorDelay(n, Some(RecoveryConfig(strategy, attempts, Some(b)))) == RecoveryDelay(AsRecovery(b), n - 1)
  }

  /** They agree at all attempts under all caps. */
  ghost predicate LinearDelaysAgree(initial: nat, multiplier: real, strategy: RecoveryStrategy, attempts: nat) {
    forall n: nat, max: nat | n >= 1 :: LinearDelayAgrees(initial, multiplier, strategy, attempts, n, max)
  }

  lemma LinearDelaySame(initial: nat, multiplier: real, strategy: RecoveryStrategy, attempts: nat, n: nat, max: nat)
    requires n >= 1 && (initial == 0 || multiplier == 1.0)
    ensures LinearDelayAgrees(initial, multiplier, strategy, attempts, n, max)
  {
    hide Times, Truncate;
    if initial == 0 {
      NoDelay(multiplier, n);
    } else {
      LinearStep(initial, n);
    }
  }

  /**
   * They do for a multiplier of one, and for no other unless there is no delay at all: the executor ignores
   * the multiplier and the recovery crate does not.
   */
  lemma LinearDelaysAgreeExactlyAtOne(initial: nat, multiplier: real, strategy: RecoveryStrategy, attempts: nat)
    ensures LinearDelaysAgree(initial, multiplier, strategy, attempts) <==> multiplier == 1.0 || initial == 0
  {
    hide LinearDelayAgrees;
    if multiplier == 1.0 || initial == 0 {
      forall n: nat, max: nat | n >= 1 ensures LinearDelayAgrees(initial, multiplier, strategy, attempts, n, max) {
        LinearDelaySame(initial, multiplier, strategy, attempts, n, max);
      }
    } else {
      var n, max := LinearDelayDiffers(initial, multiplier, strategy, attempts);
    }
  }

  lemma LinearDelayDiffers(initial: nat, multiplier: real, strategy: RecoveryStrategy, attempts: nat)
    returns (n: nat, max: nat)
    requires multiplier != 1.0 && initial >= 1
    ensures n >= 1 && !LinearDelayAgrees(initial, multiplier, strategy, attempts, n, max)
  {
    hide Times, Truncate;
    n, max := LinearDelaysDiffer(initial, multiplier);
  }

  lemma NoDelay(multiplier: real, n: nat)
    requires n >= 1
    ensures 0 * n == 0 && Truncate(Times(Times(0 as real, multiplier), (n - 1) as real)) == 0
  {
    assert 0 as real * multiplier == 0.0;
  }

  lemma Spread(i: real, g: real, k: real)
    requires i >= 1.0 && k * g >= 1.0
    ensures i * (1.0 + g) * k >= i * k + 1.0
    ensures i * (1.0 - g) * k <= i * k - 1.0
  {
    ScaleUp(i, 1.0, k * g);
    var d := i * (k * g);
    assert d >= i * 1.0 == i;
    assert i * (1.0 + g) * k == i * k + d;
    assert i * (1.0 - g) * k == i * k - d;
  }

  lemma Reaches(g: real) returns (k: nat)
    requires g > 0.0
    ensures k as real * g >= 1.0
  {
    k := (1.0 / g).Floor + 1;
    ScaleUp(g, 1.0 / g, k as real);
  }

  lemma TruncateApart(x: real, n: nat)
    requires x >= n as real + 1.0 || x <= n as real - 1.0
    requires n >= 1
    ensures Truncate(x) != n
  {
  }

  /** Far enough out, a multiplier other than one is off by at least one millisecond. */
  lemma FarApart(initial: nat, multiplier: real) returns (k: nat)
    requires multiplier != 1.0 && initial >= 1
    ensures k >= 1 && initial * k >= 1
    ensures var x := Times(Times(initial as real, multiplier), k as real);
            x >= (initial * k) as real + 1.0 || x <= (initial * k) as real - 1.0
  {
    var g := if multiplier > 1.0 then multiplier - 1.0 else 1.0 - multiplier;
    k := Reaches(g);
    assert k >= 1;
    Spread(initial as real, g, k as real);
    assert initial as real * k as real == (initial * k) as real;
  }

  lemma LinearDelaysDiffer(initial: nat, multiplier: real) returns (n: nat, max: nat)
    requires multiplier != 1.0 && initial >= 1
    ensures n >= 1
    ensures Min(initial * n, max)
            != Min(initial + Truncate(Times(Times(initial as real, multiplier), (n - 1) as real)), max)
  {
    var k := FarApart(initial, multiplier);
    hide Times, Truncate;
    n := k + 1;
    LinearStep(initial, n);
    max := initial * n + 1;
    TruncateApart(Times(Times(initial as real, multiplier), k as real), initial * k);
  }
}
