/**
 Back-off arithmetic of the adapter retry policy
 (services/adapter-runtime/src/retry/adapter-retry-policy.js). The random jitter is a
 parameter between 0 and 999.
 */
module RetryPolicy {

  datatype Policy = Policy(baseDelayMs: int, backoffMultiplier: int, maxDelayMs: int, jitterEnabled: bool)

  function Min(a: int, b: int): int { if a <= b then a else b }

  function Pow(m: int, n: nat): int
  {
    if n == 0 then 1 else m * Pow(m, n - 1)
  }

  predicate IsJitter(j: int)
  {
    0 <= j < 1000
  }

  /** calculateAdapterRetryDelay. */
  function Delay(attempt: int, p: Policy, random: int): int
  {
    var jitter := if p.jitterEnabled then random else 0;
    Min(p.baseDelayMs * Pow(p.backoffMultiplier, if attempt < 0 then 0 else attempt) + jitter, p.maxDelayMs)
  }

  /** A base that is no negative time, growing by a factor of at least one. */
  predicate Sane(p: Policy)
  {
    p.baseDelayMs >= 0 && p.backoffMultiplier >= 1
  }

  lemma {:induction false} PowGrows(m: int, a: nat, b: nat)
    requires m >= 1 && a <= b
    ensures 1 <= Pow(m, a) <= Pow(m, b)
  {
    if b > 0 {
      if a == b {
        PowGrows(m, a - 1, b - 1);
      } else {
        PowGrows(m, a, b - 1);
      }
    }
  }

  lemma MulGrows(x: int, a: int, b: int)
    requires x >= 0 && a <= b
    ensures x * a <= x * b
  {
  }

  /** Undelayed steps grow with the attempt. */
  lemma StepGrows(p: Policy, a: nat, b: nat)
    requires Sane(p) && a <= b
    ensures p.baseDelayMs <= p.baseDelayMs * Pow(p.backoffMultiplier, a) <= p.baseDelayMs * Pow(p.backoffMultiplier, b)
  {
    PowGrows(p.backoffMultiplier, a, b);
    MulGrows(p.baseDelayMs, 1, Pow(p.backoffMultiplier, a));
    MulGrows(p.baseDelayMs, Pow(p.backoffMultiplier, a), Pow(p.backoffMultiplier, b));
  }

  /** Every delay lies between the base delay and the cap. */
  lemma DelayBounds(attempt: int, p: Policy, jitter: int)
    requires Sane(p) && IsJitter(jitter)
    ensures Min(p.baseDelayMs, p.maxDelayMs) <= Delay(attempt, p, jitter) <= p.maxDelayMs
    ensures attempt < 0 ==> Delay(attempt, p, jitter) == Delay(0, p, jitter)
  {
    StepGrows(p, if attempt < 0 then 0 else attempt, if attempt < 0 then 0 else attempt);
  }

  // ---------------------------------------------------------------- monotone, exactly when

  /** Whatever the jitters, the delay never drops from one attempt to the next. */
  ghost predicate NeverDecreases(p: Policy)
  {
    forall k: nat, j, j' :: IsJitter(j) && IsJitter(j') ==> Delay(k, p, j) <= Delay(k + 1, p, j')
  }

  /** The first step gains at least the largest jitter, or already reaches the cap. */
  predicate OutgrowsJitter(p: Policy)
  {
    !p.jitterEnabled
    || p.baseDelayMs * (p.backoffMultiplier - 1) >= 999
    || p.maxDelayMs <= p.baseDelayMs * p.backoffMultiplier
  }

  lemma GainAtLeastFirst(p: Policy, k: nat)
    requires Sane(p)
    ensures var b, m := p.baseDelayMs, p.backoffMultiplier;
            b * Pow(m, k + 1) - b * Pow(m, k) >= b * (m - 1)
  {
    var b, m := p.baseDelayMs, p.backoffMultiplier;
    PowGrows(m, 0, k);
    MulGrows(b * (m - 1), 1, Pow(m, k));
    assert b * Pow(m, k + 1) - b * Pow(m, k) == b * (m - 1) * Pow(m, k);
  }

  lemma {:induction false} NeverDecreasesIff(p: Policy)
    requires Sane(p)
    ensures NeverDecreases(p) <==> OutgrowsJitter(p)
  {
    var b, m := p.baseDelayMs, p.backoffMultiplier;
    if OutgrowsJitter(p) {
      forall k: nat, j, j' | IsJitter(j) && IsJitter(j')
        ensures Delay(k, p, j) <= Delay(k + 1, p, j')
      {
        GainAtLeastFirst(p, k);
        StepGrows(p, k, k + 1);
        StepGrows(p, 1, k + 1);
        assert Pow(m, 1) == m * Pow(m, 0) == m;
      }
    } else {
      assert Pow(m, 0) == 1 && Pow(m, 1) == m * Pow(m, 0);
      assert Delay(0, p, 999) == Min(b + 999, p.maxDelayMs);
      assert Delay(0 + 1, p, 0) == b * m;
    }
  }

  /** The shipped setting: a base of at least a second that at least doubles. */
  lemma {:induction false} SecondBaseDoublingNeverDecreases(p: Policy)
    requires p.baseDelayMs >= 1000 && p.backoffMultiplier >= 2
    ensures NeverDecreases(p)
  {
    MulGrows(p.baseDelayMs, 1, p.backoffMultiplier - 1);
    NeverDecreasesIff(p);
  }

  // ---------------------------------------------------------------- the cap

  lemma {:induction false} PowExceeds(m: int, n: nat)
    requires m >= 2
    ensures Pow(m, n) > n
  {
    if n > 0 {
      PowExceeds(m, n - 1);
      MulGrows(Pow(m, n - 1), 2, m);
    }
  }

  /** Once the jitter-free delay is at the cap, every later delay is, whatever the jitter. */
  lemma StaysAtCap(p: Policy, k: nat, later: nat, jitter: int)
    requires Sane(p) && k <= later && IsJitter(jitter)
    requires Delay(k, p, 0) == p.maxDelayMs
    ensures Delay(later, p, jitter) == p.maxDelayMs
  {
    StepGrows(p, k, later);
  }

  /** A positive base that at least doubles reaches the cap, and by attempt `maxDelayMs`. */
  lemma ReachesCap(p: Policy, later: nat, jitter: int)
    requires p.baseDelayMs >= 1 && p.backoffMultiplier >= 2 && IsJitter(jitter)
    requires later >= p.maxDelayMs
    ensures Delay(later, p, jitter) == p.maxDelayMs
  {
    PowExceeds(p.backoffMultiplier, later);
    MulGrows(Pow(p.backoffMultiplier, later), 1, p.baseDelayMs);
  }

  // ---------------------------------------------------------------- the total wait

  /** The jitter-free delays of attempts 0 to n - 1, added up. */
  function TotalDelay(p: Policy, n: nat): int
  {
    if n == 0 then 0 else TotalDelay(p, n - 1) + Delay(n - 1, p, 0)
  }

  lemma GeometricStep(b: int, m: int, power: int, total: int)
    requires (m - 1) * total == b * (power - 1)
    ensures (m - 1) * (total + b * power) == b * (m * power - 1)
  {
    var step := b * power;
    assert (m - 1) * (total + step) == (m - 1) * total + (m - 1) * step;
    assert (m - 1) * step == m * step - step;
    assert m * step == b * (m * power);
    assert b * (power - 1) == step - b;
    assert b * (m * power - 1) == b * (m * power) - b;
  }

  /** Below the cap the delays form a geometric series. */
  lemma {:induction false} TotalBelowCap(p: Policy, n: nat)
    requires Sane(p)
    requires n > 0 ==> p.baseDelayMs * Pow(p.backoffMultiplier, n - 1) <= p.maxDelayMs
    ensures (p.backoffMultiplier - 1) * TotalDelay(p, n) == p.baseDelayMs * (Pow(p.backoffMultiplier, n) - 1)
  {
    var b, m := p.baseDelayMs, p.backoffMultiplier;
    if n > 0 {
      if n > 1 {
        StepGrows(p, n - 2, n - 1);
      }
      TotalBelowCap(p, n - 1);
      GeometricStep(b, m, Pow(m, n - 1), TotalDelay(p, n - 1));
      assert Delay(n - 1, p, 0) == b * Pow(m, n - 1);
    }
  }

  /** Doubling from `base`, n attempts below the cap wait base * (2^n - 1) in all. */
  lemma DoublingTotal(p: Policy, n: nat)
    requires p.baseDelayMs >= 0 && p.backoffMultiplier == 2
    requires n > 0 ==> p.baseDelayMs * Pow(2, n - 1) <= p.maxDelayMs
    ensures TotalDelay(p, n) == p.baseDelayMs * (Pow(2, n) - 1)
  {
    TotalBelowCap(p, n);
  }
}
