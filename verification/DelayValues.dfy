/**
 * The delays as whole numbers, for multipliers that are whole (crates/agentverify-runtime/src/executor.rs,
 * crates/agentverify-recovery/src/lib.rs).
 */
module DelayValues {
  import opened Common
  import opened Contracts
  import opened Backoff

  function Power(base: nat, n: nat): nat {
    if n == 0 then 1 else base * Power(base, n - 1)
  }

  lemma ProductIsWhole(a: nat, b: nat)
    ensures Times(a as real, b as real) == (a * b) as real
  {
  }

  lemma {:induction false} PowerIsWhole(base: nat, n: nat)
    ensures Pow(base as real, n) == Power(base, n) as real
  {
    if n > 0 {
      PowerIsWhole(base, n - 1);
      ProductIsWhole(base, Power(base, n - 1));
    }
  }

  /** A number between two whole ones is cut to the lower. */
  lemma TruncateIs(x: real, n: nat)
    requires n as real <= x < (n + 1) as real
    ensures Truncate(x) == n && TruncateUnsigned(x) == n
    ensures Truncate(-x) + n == 0 && TruncateUnsigned(-x) == 0
  {
    assert x.Floor == n;
    assert x > 0.0 ==> -(-x) == x;
  }

  /** Without settings the delays are 100, 200, 400 and so on, up to 5000 milliseconds. */
  lemma DefaultDelays(attempt: nat)
    requires attempt >= 1
    ensures ExecutorDelay(attempt, None) == Min(100 * Power(2, attempt - 1), 5000)
  {
    CappedIs(100, 2, attempt - 1, 5000);
  }

  lemma CappedIs(initial: nat, multiplier: nat, steps: nat, max: nat)
    ensures CappedExponential(initial, multiplier as real, steps, max) == Min(initial * Power(multiplier, steps), max)
  {
    PowerIsWhole(multiplier, steps);
    ProductIsWhole(initial, Power(multiplier, steps));
    TruncateIs((initial * Power(multiplier, steps)) as real, initial * Power(multiplier, steps));
    hide Times, Truncate;
  }

  /** With settings they grow by the initial delay, or by a factor, from the initial one on. */
  lemma ExecutorDelays(attempt: nat, config: RecoveryConfig, multiplier: nat)
    requires attempt >= 1 && config.backoff.Some? && config.backoff.value.multiplier == multiplier as real
    ensures var b := config.backoff.value;
            ExecutorDelay(attempt, Some(config)) ==
            Min(match b.kind
                case Linear => b.initial * attempt
                case Exponential => b.initial * Power(multiplier, attempt - 1), b.max)
  {
    var b := config.backoff.value;
    CappedIs(b.initial, multiplier, attempt - 1, b.max);
    hide CappedExponential;
  }

  /** The recovery crate counts its attempts from zero, and its linear growth starts at the initial delay. */
  lemma RecoveryDelays(b: RecoveryBackoff, attempt: nat, multiplier: nat)
    requires b.multiplier == multiplier as real
    ensures RecoveryDelay(b, attempt) ==
            Min(match b.kind
                case Fixed => b.initial
                case LinearGrowth => b.initial + b.initial * multiplier * attempt
                case ExponentialGrowth => b.initial * Power(multiplier, attempt), b.max)
  {
    ProductIsWhole(b.initial, multiplier);
    ProductIsWhole(b.initial * multiplier, attempt);
    var linear := b.initial * multiplier * attempt;
    TruncateIs(linear as real, linear);
    PowerIsWhole(multiplier, attempt);
    ProductIsWhole(b.initial, Power(multiplier, attempt));
    TruncateIs((b.initial * Power(multiplier, attempt)) as real, b.initial * Power(multiplier, attempt));
    hide Times, Truncate, Pow, Power;
  }
}
