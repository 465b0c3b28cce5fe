/** Worker settings and the capped exponential retry delay. */
module Backoff {

  /** `worker_*` settings; delays and the visibility timeout are whole seconds. */
  datatype Settings = Settings(maxRetries: int, backoffBase: int, backoffMax: int, visibilityTimeout: int)
  {
    /** What the settings validators enforce. */
    predicate Valid() {
      0 <= maxRetries && 0 < backoffBase <= backoffMax && 0 < visibilityTimeout
    }
  }

  function Pow2(n: nat): (p: nat)
    ensures 1 <= p
  {
    if n == 0 then 1 else 2 * Pow2(n - 1)
  }

  function Min(a: int, b: int): int {
    if a <= b then a else b
  }

  function RetryDelaySeconds(s: Settings, attempts: int): int {
    if attempts <= 0 then
      s.backoffBase
    else
      Min(s.backoffBase * Pow2(attempts - 1), s.backoffMax)
  }

  /** The same delay as an iteration: start at the base, double, never exceed the cap. */
  function Doubling(s: Settings, attempts: int): int
    decreases attempts
  {
    if attempts <= 1 then s.backoffBase else Min(2 * Doubling(s, attempts - 1), s.backoffMax)
  }

  lemma {:induction false} DelayIsDoubling(s: Settings, attempts: int)
    requires s.Valid()
    ensures RetryDelaySeconds(s, attempts) == Doubling(s, attempts)
    decreases attempts
  {
    if attempts >= 2 {
      DelayIsDoubling(s, attempts - 1);
      var previous := s.backoffBase * Pow2(attempts - 2);
      assert s.backoffBase * Pow2(attempts - 1) == 2 * previous by {
        assert Pow2(attempts - 1) == 2 * Pow2(attempts - 2);
      }
      assert RetryDelaySeconds(s, attempts - 1) == Min(previous, s.backoffMax);
    }
  }

  /** The delay never shrinks with more attempts and stays between the base and the cap. */
  lemma {:induction false} DelayMonotone(s: Settings, fewer: int, more: int)
    requires s.Valid() && fewer <= more
    ensures s.backoffBase <= RetryDelaySeconds(s, fewer) <= RetryDelaySeconds(s, more) <= s.backoffMax
    decreases more - fewer
  {
    if fewer == more {
      DelayInRange(s, more);
    } else {
      DelayMonotone(s, fewer, more - 1);
      DelayIsDoubling(s, more - 1);
      DelayIsDoubling(s, more);
    }
  }

  lemma {:induction false} DelayInRange(s: Settings, attempts: int)
    requires s.Valid()
    ensures s.backoffBase <= RetryDelaySeconds(s, attempts) <= s.backoffMax
    decreases attempts
  {
    DelayIsDoubling(s, attempts);
    if attempts >= 2 {
      DelayInRange(s, attempts - 1);
      DelayIsDoubling(s, attempts - 1);
    }
  }

  function TotalDelay(s: Settings, n: nat): int {
    if n == 0 then 0 else TotalDelay(s, n - 1) + RetryDelaySeconds(s, n)
  }

  /** What n uncapped delays add up to, and the last of them. */
  lemma GeometricStep(s: Settings, n: nat)
    requires n > 0
    ensures s.backoffBase * (Pow2(n) - 1) == s.backoffBase * (Pow2(n - 1) - 1) + s.backoffBase * Pow2(n - 1)
    ensures n > 1 ==> s.backoffBase * Pow2(n - 1) == 2 * (s.backoffBase * Pow2(n - 2))
  {
    assert Pow2(n) == 2 * Pow2(n - 1);
    if n > 1 {
      assert Pow2(n - 1) == 2 * Pow2(n - 2);
    }
  }

  lemma {:induction false} TotalDelayAtMostCapEach(s: Settings, n: nat)
    requires s.Valid()
    ensures TotalDelay(s, n) <= n * s.backoffMax
  {
    if n > 0 {
      TotalDelayAtMostCapEach(s, n - 1);
      DelayInRange(s, n);
      assert n * s.backoffMax == (n - 1) * s.backoffMax + s.backoffMax;
    }
  }

  lemma {:induction false} TotalDelayGeometric(s: Settings, n: nat)
    requires s.Valid()
    ensures TotalDelay(s, n) <= s.backoffBase * (Pow2(n) - 1)
    ensures n > 0 ==>
              (TotalDelay(s, n) == s.backoffBase * (Pow2(n) - 1) <==> s.backoffBase * Pow2(n - 1) <= s.backoffMax)
  {
    if n > 0 {
      TotalDelayGeometric(s, n - 1);
      GeometricStep(s, n);
      var last := s.backoffBase * Pow2(n - 1);
      var earlier := s.backoffBase * (Pow2(n - 1) - 1);
      assert TotalDelay(s, n) == TotalDelay(s, n - 1) + Min(last, s.backoffMax);
      assert TotalDelay(s, n - 1) <= earlier;
    }
  }

  /** Total waiting over the first n retries; the geometric bound is met exactly until the cap bites. */
  lemma TotalDelayBound(s: Settings, n: nat)
    requires s.Valid()
    ensures TotalDelay(s, n) <= Min(n * s.backoffMax, s.backoffBase * (Pow2(n) - 1))
    ensures n > 0 ==>
              (TotalDelay(s, n) == s.backoffBase * (Pow2(n) - 1) <==> s.backoffBase * Pow2(n - 1) <= s.backoffMax)
  {
    TotalDelayAtMostCapEach(s, n);
    TotalDelayGeometric(s, n);
  }
}
