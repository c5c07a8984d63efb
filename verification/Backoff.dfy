/** Decorrelated jitter: one sleep, and chains of sleeps. */
module Backoff {
  import opened Foundation

  /** Durations travel through the formula as unsigned 64-bit milliseconds. */
  function SaturatingTriple(ms: nat): nat {
    Min(3 * ms, U64_MAX)
  }

  /** The upper end of the range the random draw is taken from. */
  function High(base: Duration, previous: Duration): Duration {
    Max(SaturatingTriple(previous), base)
  }

  /** What `random_range` may return. */
  predicate InRange(base: Duration, previous: Duration, draw: nat) {
    base <= draw <= High(base, previous)
  }

  /** Some draw from the range gives this delay. */
  ghost predicate IsDelay(base: Duration, cap: Duration, previous: Duration, delay: Duration) {
    exists draw: nat :: InRange(base, previous, draw) && delay == Min(draw, cap)
  }

  /** Which delays a draw can give: from the base to three times the previous sleep,
      that product kept to 64 bits and at least the base, and all of it capped. The
      range is never empty, whatever the cap and the previous sleep. */
  lemma DelaysAreAnInterval(base: Duration, cap: Duration, previous: Duration, delay: Duration)
    ensures IsDelay(base, cap, previous, delay)
       <==> Min(base, cap) <= delay <= Min(cap, Max(Min(3 * previous, 0xFFFF_FFFF_FFFF_FFFF), base))
  {
    if Min(base, cap) <= delay <= Min(High(base, previous), cap) {
      var draw := if delay < cap then delay else Max(base, cap);
      assert InRange(base, previous, draw) && delay == Min(draw, cap);
    }
  }

  /** So no delay is more than three times the previous sleep, or the base. */
  lemma DelayIsBounded(base: Duration, cap: Duration, previous: Duration, delay: Duration)
    requires IsDelay(base, cap, previous, delay)
    ensures Min(base, cap) <= delay <= Min(cap, Max(3 * previous, base))
  {
    DelaysAreAnInterval(base, cap, previous, delay);
  }

  /** One sleep, from a draw that may be any value of the range. */
  method DecorrelatedJitter(base: Duration, cap: Duration, previous: Duration, draw: nat) returns (delay: Duration)
    requires InRange(base, previous, draw)
    ensures IsDelay(base, cap, previous, delay) && delay == Min(draw, cap)
    ensures Min(base, cap) <= delay <= Min(cap, Max(3 * previous, base))
  {
    delay := Min(draw, cap);
  }

  // ------------------------------------------------------------------------ chains

  function Previous(base: Duration, sleeps: seq<Duration>, i: nat): Duration
    requires i < |sleeps|
  {
    if i == 0 then base else sleeps[i - 1]
  }

  /** Consecutive sleeps: the first starts from `base`, each later one from the
      one before it. */
  ghost predicate Chain(base: Duration, cap: Duration, sleeps: seq<Duration>) {
    forall i :: 0 <= i < |sleeps| ==>
      IsDelay(base, cap, Previous(base, sleeps, i), sleeps[i])
  }

  lemma ChainPrefix(base: Duration, cap: Duration, sleeps: seq<Duration>, n: nat)
    requires Chain(base, cap, sleeps) && n <= |sleeps|
    ensures Chain(base, cap, sleeps[..n])
  {
    forall i | 0 <= i < n
      ensures IsDelay(base, cap, Previous(base, sleeps[..n], i), sleeps[..n][i])
    {
      assert IsDelay(base, cap, Previous(base, sleeps, i), sleeps[i]);
      assert Previous(base, sleeps[..n], i) == Previous(base, sleeps, i);
    }
  }

  lemma ChainGrows(base: Duration, cap: Duration, sleeps: seq<Duration>, delay: Duration)
    requires Chain(base, cap, sleeps)
    requires IsDelay(base, cap, if sleeps == [] then base else sleeps[|sleeps| - 1], delay)
    ensures Chain(base, cap, sleeps + [delay])
  {
    var more := sleeps + [delay];
    forall i | 0 <= i < |more|
      ensures IsDelay(base, cap, Previous(base, more, i), more[i])
    {
      if i < |sleeps| {
        assert IsDelay(base, cap, Previous(base, sleeps, i), sleeps[i]);
        assert Previous(base, more, i) == Previous(base, sleeps, i);
      }
    }
  }

  function Pow3(n: nat): nat {
    if n == 0 then 1 else 3 * Pow3(n - 1)
  }

  function Sum(sleeps: seq<Duration>): nat {
    if sleeps == [] then 0 else Sum(sleeps[..|sleeps| - 1]) + sleeps[|sleeps| - 1]
  }

  /** The base after n triplings. */
  function Growth(base: Duration, n: nat): nat {
    if n == 0 then base else 3 * Growth(base, n - 1)
  }

  lemma {:induction false} GrowthIsPower(base: Duration, n: nat)
    ensures Growth(base, n) == Pow3(n) * base
  {
    if n > 0 {
      GrowthIsPower(base, n - 1);
    }
  }

  lemma NextSleepGrowth(base: Duration, cap: Duration, previous: Duration, growth: nat, delay: Duration)
    requires IsDelay(base, cap, previous, delay) && previous <= growth && base <= growth
    ensures Min(base, cap) <= delay <= Min(cap, 3 * growth)
  {
    DelayIsBounded(base, cap, previous, delay);
  }

  lemma {:induction false} NthSleepGrowth(base: Duration, cap: Duration, sleeps: seq<Duration>, n: nat)
    requires Chain(base, cap, sleeps) && n < |sleeps|
    ensures Min(base, cap) <= sleeps[n] <= Min(cap, Growth(base, n + 1))
    ensures Growth(base, n + 1) >= base
  {
    if n > 0 {
      NthSleepGrowth(base, cap, sleeps, n - 1);
    }
    NextSleepGrowth(base, cap, Previous(base, sleeps, n), Growth(base, n), sleeps[n]);
  }

  lemma {:induction false} ChainTotalGrowth(base: Duration, cap: Duration, sleeps: seq<Duration>)
    requires Chain(base, cap, sleeps)
    ensures Times(|sleeps|, Min(base, cap)) <= Sum(sleeps) <= Times(|sleeps|, cap)
    ensures 2 * Sum(sleeps) <= Growth(base, |sleeps| + 1) - 3 * base
  {
    if sleeps != [] {
      var n := |sleeps| - 1;
      ChainPrefix(base, cap, sleeps, n);
      ChainTotalGrowth(base, cap, sleeps[..n]);
      NthSleepGrowth(base, cap, sleeps, n);
    }
  }

  /** The n-th consecutive sleep (counting from zero) is at most 3^(n+1) times the
      base and never leaves [min(base, cap), cap], saturation notwithstanding. */
  lemma NthSleep(base: Duration, cap: Duration, sleeps: seq<Duration>, n: nat)
    requires Chain(base, cap, sleeps) && n < |sleeps|
    ensures Min(base, cap) <= sleeps[n] <= Min(cap, Pow3(n + 1) * base)
  {
    NthSleepGrowth(base, cap, sleeps, n);
    GrowthIsPower(base, n + 1);
  }

  /** The total of a chain of n sleeps, by the cap and by the growth; doubled, to
      stay with whole numbers: 2 * sum <= base * (3^(n+1) - 3). */
  lemma ChainTotal(base: Duration, cap: Duration, sleeps: seq<Duration>)
    requires Chain(base, cap, sleeps)
    ensures |sleeps| * Min(base, cap) <= Sum(sleeps) <= |sleeps| * cap
    ensures 2 * Sum(sleeps) <= Pow3(|sleeps| + 1) * base - 3 * base
  {
    ChainTotalGrowth(base, cap, sleeps);
    GrowthIsPower(base, |sleeps| + 1);
    TimesIsProduct(|sleeps|, cap);
    TimesIsProduct(|sleeps|, Min(base, cap));
  }

  /** The n-th sleep is in [min(base, cap), min(cap, 3^n * base)], and n sleeps
      together are at most n * cap and at most base * (3^(n+1) - 3) / 2. */
  ghost predicate Bounded(base: Duration, cap: Duration, sleeps: seq<Duration>) {
    && (forall i :: 0 <= i < |sleeps| ==> Min(base, cap) <= sleeps[i] <= Min(cap, Pow3(i + 1) * base))
    && Sum(sleeps) <= |sleeps| * cap
    && 2 * Sum(sleeps) <= Pow3(|sleeps| + 1) * base - 3 * base
  }

  lemma ChainsAreBounded(base: Duration, cap: Duration, sleeps: seq<Duration>)
    requires Chain(base, cap, sleeps)
    ensures Bounded(base, cap, sleeps)
  {
    forall i | 0 <= i < |sleeps|
      ensures Min(base, cap) <= sleeps[i] <= Min(cap, Pow3(i + 1) * base)
    {
      NthSleep(base, cap, sleeps, i);
    }
    ChainTotal(base, cap, sleeps);
  }
}
