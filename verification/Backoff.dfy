/** scheduler.py, _backoff: exponential delays with a cap and optional jitter. */
module Backoff {

  function Pow2(n: nat): (p: real)
    ensures p >= 1.0
  {
    if n == 0 then 1.0 else 2.0 * Pow2(n - 1)
  }

  function Min(a: real, b: real): real {
    if a < b then a else b
  }

  /** The delay before jitter; attempts count from 1. */
  function Capped(base: real, cap: real, attempt: nat): real
    requires attempt >= 1
  {
    Min(base * Pow2(attempt - 1), cap)
  }

  /** max(0.0, delay * factor) */
  function Jittered(delay: real, factor: real): (d: real)
    ensures d >= 0.0
  {
    if delay * factor < 0.0 then 0.0 else delay * factor
  }

  /** The delay for a given factor: the capped exponential times the factor, never negative. */
  lemma DelayForFactor(base: real, cap: real, attempt: nat, factor: real)
    requires attempt >= 1
    ensures base * Pow2(attempt - 1) <= cap ==>
      Delay(base, cap, attempt, factor) ==
        (if base * Pow2(attempt - 1) * factor < 0.0 then 0.0 else base * Pow2(attempt - 1) * factor)
    ensures base * Pow2(attempt - 1) > cap ==>
      Delay(base, cap, attempt, factor) == if cap * factor < 0.0 then 0.0 else cap * factor
  {
    hide Pow2;
  }

  /** `factor` is 1 when jitter is off, and random.uniform(0.8, 1.2) otherwise. */
  function Delay(base: real, cap: real, attempt: nat, factor: real): (d: real)
    requires attempt >= 1
    ensures d >= 0.0
  {
    Jittered(Capped(base, cap, attempt), factor)
  }

  /** Each delay doubles the one before it until the cap. */
  lemma DoublesUntilCap(base: real, cap: real, attempt: nat)
    requires base >= 0.0 && cap >= 0.0 && attempt >= 1
    ensures Delay(base, cap, attempt + 1, 1.0) == Min(2.0 * Delay(base, cap, attempt, 1.0), cap)
    ensures Delay(base, cap, attempt, 1.0) <= Delay(base, cap, attempt + 1, 1.0)
  {
    CappedIs(base, cap, attempt);
    CappedIs(base, cap, attempt + 1);
    hide Capped, Pow2;
    UnitFactor(Capped(base, cap, attempt));
    UnitFactor(Capped(base, cap, attempt + 1));
  }

  lemma UnitFactor(x: real)
    ensures x * 1.0 == x
  {
  }

  /** Time waited over the first |factors| retries of a task. */
  function TotalWait(base: real, cap: real, factors: seq<real>): real {
    if factors == [] then 0.0
    else
      TotalWait(base, cap, factors[..|factors| - 1]) + Delay(base, cap, |factors|, factors[|factors| - 1])
  }

  function PlainWait(base: real, cap: real, retries: nat): real {
    if retries == 0 then 0.0 else PlainWait(base, cap, retries - 1) + Capped(base, cap, retries)
  }

  /** base * 2^n, doubling step by step. */
  function Doubled(base: real, n: nat): (d: real)
    ensures base >= 0.0 ==> d >= 0.0
  {
    if n == 0 then base else 2.0 * Doubled(base, n - 1)
  }

  lemma {:induction false} DoubledIsPower(base: real, n: nat)
    ensures Doubled(base, n) == base * Pow2(n)
  {
    if n > 0 {
      DoubledIsPower(base, n - 1);
      Associates(base, Pow2(n - 1));
    }
  }

  lemma CappedIs(base: real, cap: real, attempt: nat)
    requires attempt >= 1
    ensures Capped(base, cap, attempt) == Min(Doubled(base, attempt - 1), cap)
  {
    DoubledIsPower(base, attempt - 1);
  }

  lemma Associates(x: real, y: real)
    ensures 2.0 * (x * y) == x * (2.0 * y)
  {
  }

  /** Without a cap the waits add up to a geometric sum; the cap can only shorten them. */
  lemma {:induction false} GeometricSum(base: real, cap: real, retries: nat)
    requires base >= 0.0 && cap >= 0.0
    ensures 0.0 <= PlainWait(base, cap, retries) <= Doubled(base, retries) - base
    ensures retries >= 1 && Doubled(base, retries - 1) <= cap ==>
      PlainWait(base, cap, retries) == Doubled(base, retries) - base
  {
    if retries > 0 {
      GeometricSum(base, cap, retries - 1);
      CappedIs(base, cap, retries);
      hide Pow2, Capped;
    }
  }

  lemma {:induction false} CappedSum(base: real, cap: real, retries: nat)
    ensures PlainWait(base, cap, retries) <= retries as real * cap
  {
    if retries > 0 {
      CappedSum(base, cap, retries - 1);
      OneMore((retries - 1) as real, cap);
      CappedIs(base, cap, retries);
      hide Pow2, Capped, Doubled;
    }
  }

  lemma OneMore(n: real, cap: real)
    ensures (n + 1.0) * cap == n * cap + cap
  {
  }

  /** The smaller of base * (2^R - 1) and R * cap. */
  function ClosedForm(base: real, cap: real, retries: nat): real {
    Min(base * (Pow2(retries) - 1.0), retries as real * cap)
  }

  lemma PlainWaitBounded(base: real, cap: real, retries: nat)
    requires base >= 0.0 && cap >= 0.0
    ensures 0.0 <= PlainWait(base, cap, retries) <= ClosedForm(base, cap, retries)
  {
    GeometricSum(base, cap, retries);
    CappedSum(base, cap, retries);
    DoubledMinusBase(base, retries);
    hide PlainWait, Doubled, Pow2;
  }

  /** While the cap is not reached the geometric sum is exact. */
  lemma UncappedWait(base: real, cap: real, retries: nat)
    requires base >= 0.0 && cap >= 0.0 && retries >= 1 && base * Pow2(retries - 1) <= cap
    ensures PlainWait(base, cap, retries) == base * (Pow2(retries) - 1.0)
  {
    GeometricSum(base, cap, retries);
    DoubledIsPower(base, retries - 1);
    DoubledMinusBase(base, retries);
    hide PlainWait, Doubled, Pow2;
  }

  lemma DoubledMinusBase(base: real, n: nat)
    ensures base * (Pow2(n) - 1.0) == Doubled(base, n) - base
  {
    DoubledIsPower(base, n);
    OneLess(base, Pow2(n));
    hide Doubled, Pow2;
  }

  lemma OneLess(base: real, p: real)
    ensures base * (p - 1.0) == base * p - base
  {
  }

  lemma DelayWithinJitter(base: real, cap: real, attempt: nat, factor: real)
    requires base >= 0.0 && cap >= 0.0 && attempt >= 1 && 0.8 <= factor <= 1.2
    ensures 0.8 * Capped(base, cap, attempt) <= Delay(base, cap, attempt, factor) <= 1.2 * Capped(base, cap, attempt)
  {
    CappedIs(base, cap, attempt);
    hide Capped, Pow2, Jittered;
    Scaled(Capped(base, cap, attempt), factor);
  }

  lemma Scaled(x: real, factor: real)
    requires x >= 0.0 && 0.8 <= factor <= 1.2
    ensures 0.8 * x <= Jittered(x, factor) <= 1.2 * x
  {
    NonNegative(x, factor - 0.8);
    NonNegative(x, 1.2 - factor);
    Distributes(x, factor);
  }

  lemma Distributes(x: real, factor: real)
    ensures x * (factor - 0.8) == x * factor - 0.8 * x
    ensures x * (1.2 - factor) == 1.2 * x - x * factor
  {
  }

  lemma NonNegative(x: real, y: real)
    requires x >= 0.0 && y >= 0.0
    ensures x * y >= 0.0
  {
  }

  lemma {:induction false} JitterBounded(base: real, cap: real, factors: seq<real>)
    requires base >= 0.0 && cap >= 0.0
    requires forall k :: 0 <= k < |factors| ==> 0.8 <= factors[k] <= 1.2
    ensures 0.8 * PlainWait(base, cap, |factors|) <= TotalWait(base, cap, factors)
      <= 1.2 * PlainWait(base, cap, |factors|)
  {
    hide Delay, Capped, Pow2;
    if factors != [] {
      JitterBounded(base, cap, factors[..|factors| - 1]);
      DelayWithinJitter(base, cap, |factors|, factors[|factors| - 1]);
    }
  }

  /** All retries of a task together wait at most 1.2 times the smaller of the two closed forms. */
  lemma TotalWaitBounded(base: real, cap: real, factors: seq<real>)
    requires base >= 0.0 && cap >= 0.0
    requires forall k :: 0 <= k < |factors| ==> 0.8 <= factors[k] <= 1.2
    ensures TotalWait(base, cap, factors) <= 1.2 * ClosedForm(base, cap, |factors|)
  {
    hide PlainWait, TotalWait, ClosedForm;
    JitterBounded(base, cap, factors);
    PlainWaitBounded(base, cap, |factors|);
  }
}
