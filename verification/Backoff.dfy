/** Retry delays over int64 nanoseconds. */
module Backoff {

  const MAX_INT64: int := 0x7FFF_FFFF_FFFF_FFFF

  /** Go's int64 multiplication by two, with wrap-around. */
  function Double64(d: int): int {
    var doubled := 2 * d;
    if doubled > MAX_INT64 then doubled - 0x1_0000_0000_0000_0000
    else if doubled < -MAX_INT64 - 1 then doubled + 0x1_0000_0000_0000_0000
    else doubled
  }

  function Pow2(n: nat): (p: nat)
    ensures p >= 1
  {
    if n == 0 then 1 else 2 * Pow2(n - 1)
  }

  function Min(a: int, b: int): int { if a < b then a else b }

  /** The delay the policy calls for after `attempts` failures. */
  function Delay(initial: int, maximum: int, attempts: nat): (delay: int)
    requires attempts >= 1
    ensures 0 < initial <= maximum ==> initial <= delay <= maximum
  {
    Min(maximum, initial * Pow2(attempts - 1))
  }

  lemma PowStep(initial: int, n: nat)
    ensures initial * Pow2(n + 1) == 2 * (initial * Pow2(n))
  {}

  lemma {:induction false} PowGrows(initial: int, n: nat, m: nat)
    requires initial > 0 && n <= m
    ensures initial * Pow2(n) <= initial * Pow2(m)
    decreases m
  {
    if n < m {
      PowGrows(initial, n, m - 1);
      PowStep(initial, m - 1);
    }
  }

  /** The relay's loop: it halves the limit instead of doubling past it, so it never
      overflows and computes the policy's delay for every configuration. */
  method RelayDelay(initial: int, maximum: int, attempts: nat) returns (delay: int)
    requires 0 < initial <= maximum <= MAX_INT64 && attempts >= 1
    ensures delay == Delay(initial, maximum, attempts)
    ensures initial <= delay <= maximum
  {
    delay := initial;
    var i := 1;
    while i < attempts && delay < maximum
      invariant 1 <= i <= attempts
      invariant delay == Delay(initial, maximum, i)
      invariant initial <= delay <= maximum
    {
      PowStep(initial, i - 1);
      if delay > maximum / 2 {
        delay := maximum;
      } else {
        assert Double64(delay) == 2 * delay;
        delay := Double64(delay);
      }
      i := i + 1;
    }
    PowGrows(initial, i - 1, attempts - 1);
  }

  /** The webhook dispatcher's loop: it doubles first and clamps afterwards. */
  function DispatchStep(delay: int, maximum: int): int {
    var doubled := Double64(delay);
    if doubled > maximum then maximum else doubled
  }

  function DispatchDelay(initial: int, maximum: int, attempts: nat): int
    requires attempts >= 1
  {
    if attempts == 1 then initial
    else
      var before := DispatchDelay(initial, maximum, attempts - 1);
      if before < maximum then DispatchStep(before, maximum) else before
  }

  method WebhookDelay(initial: int, maximum: int, attempts: nat) returns (delay: int)
    requires attempts >= 1
    ensures delay == DispatchDelay(initial, maximum, attempts)
  {
    delay := initial;
    var i := 1;
    while i < attempts && delay < maximum
      invariant 1 <= i <= attempts
      invariant delay == DispatchDelay(initial, maximum, i)
    {
      delay := Double64(delay);
      if delay > maximum {
        delay := maximum;
      }
      i := i + 1;
    }
    DispatchSettles(initial, maximum, i, attempts);
  }

  /** Once the limit is reached the delay no longer changes. */
  lemma {:induction false} DispatchSettles(initial: int, maximum: int, n: nat, m: nat)
    requires 1 <= n <= m && (n == m || DispatchDelay(initial, maximum, n) >= maximum)
    ensures DispatchDelay(initial, maximum, m) == DispatchDelay(initial, maximum, n)
    decreases m
  {
    if n < m {
      DispatchSettles(initial, maximum, n, m - 1);
    }
  }

  /** No delay below the limit overflows when it is doubled. */
  ghost predicate DoublingFits(initial: int, maximum: int) {
    forall k: nat :: initial * Pow2(k) < maximum ==> 2 * (initial * Pow2(k)) <= MAX_INT64
  }

  lemma {:induction false} LoopsAgree(initial: int, maximum: int, attempts: nat)
    requires 0 < initial <= maximum <= MAX_INT64 && DoublingFits(initial, maximum) && attempts >= 1
    ensures DispatchDelay(initial, maximum, attempts) == Delay(initial, maximum, attempts)
  {
    if attempts > 1 {
      LoopsAgree(initial, maximum, attempts - 1);
      PowStep(initial, attempts - 2);
    }
  }

  /** The dispatcher computes the policy's delay at every attempt exactly when no delay
      below the limit overflows on doubling; a limit whose double fits in int64 is enough. */
  lemma DispatcherFollowsPolicyIff(initial: int, maximum: int)
    requires 0 < initial <= maximum <= MAX_INT64
    ensures (forall n: nat | n >= 1 :: DispatchDelay(initial, maximum, n) == Delay(initial, maximum, n)) <==> DoublingFits(initial, maximum)
    ensures 2 * maximum <= MAX_INT64 ==> DoublingFits(initial, maximum)
  {
    if DoublingFits(initial, maximum) {
      forall n: nat | n >= 1 ensures DispatchDelay(initial, maximum, n) == Delay(initial, maximum, n) { LoopsAgree(initial, maximum, n); }
    } else {
      var k: nat :| initial * Pow2(k) < maximum && 2 * (initial * Pow2(k)) > MAX_INT64;
      PowStep(initial, k);
      if DispatchDelay(initial, maximum, k + 1) == Delay(initial, maximum, k + 1) {
        assert DispatchDelay(initial, maximum, k + 2) == Double64(initial * Pow2(k)) < 0;
        assert Delay(initial, maximum, k + 2) == maximum;
      }
    }
  }

  /** Past that bound the dispatcher's doubling wraps around and schedules a retry in the past. */
  lemma DispatcherCanWrap()
    ensures exists initial, maximum ::
      0 < initial <= maximum <= MAX_INT64 && DispatchDelay(initial, maximum, 2) < 0 < Delay(initial, maximum, 2)
  {
    var initial, maximum := 0x4000_0000_0000_0000, MAX_INT64;
    assert DispatchDelay(initial, maximum, 1) == initial;
    assert DispatchDelay(initial, maximum, 2) == Double64(initial);
    assert Pow2(1) == 2 * Pow2(0);
    assert Delay(initial, maximum, 2) == maximum;
  }

  /** The relay's jitter: half the delay plus the clock modulo the other half. */
  function Jitter(delay: int, clock: nat): (jittered: int)
    requires delay >= 0
    ensures delay / 2 <= jittered <= delay
  {
    delay / 2 + clock % (delay / 2 + 1)
  }
}
