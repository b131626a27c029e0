/**
 * The reconnect delay of the dashboard's stream connector
 * (web/dashboard/src/hooks/useTelemetryData.ts): 1000 ms after a reset,
 * doubled each time a reconnect timer fires, never above 30000 ms.
 */
module Backoff {

  /** The value `retryDelayRef` is reset to, in milliseconds. */
  const InitialDelay: int := 1000

  /** The cap of `Math.min(retryDelayRef.current * 2, 30000)`. */
  const MaxDelay: int := 30000

  /** What a firing reconnect timer does to the delay. */
  function NextDelay(delay: int): (r: int)
    ensures r <= MaxDelay
    ensures r == 2 * delay || r == MaxDelay
    ensures 0 < delay ==> delay <= r || r == MaxDelay
    ensures r == Min(2 * delay, MaxDelay)
  {
    if delay * 2 < MaxDelay then delay * 2 else MaxDelay
  }

  function Pow2(n: nat): nat {
    if n == 0 then 1 else 2 * Pow2(n - 1)
  }

  function Min(a: int, b: int): int {
    if a <= b then a else b
  }

  /** The delay after `n` timer firings since the last reset. */
  function DelayAfter(n: nat): int {
    if n == 0 then InitialDelay else NextDelay(DelayAfter(n - 1))
  }

  /**
   * The delay after `n` firings with no open in between is
   * min(1000 * 2^n, 30000); so the k-th consecutive failure waits
   * min(1000 * 2^(k-1), 30000).
   */
  lemma {:induction false} DelayClosedForm(n: nat)
    ensures DelayAfter(n) == Min(InitialDelay * Pow2(n), MaxDelay)
  {
    if n > 0 {
      DelayClosedForm(n - 1);
      assert InitialDelay * Pow2(n) == 2 * (InitialDelay * Pow2(n - 1));
    }
  }

  /** The delay always lies between the floor and the cap. */
  lemma {:induction false} DelayBounds(n: nat)
    ensures InitialDelay <= DelayAfter(n) <= MaxDelay
  {
    if n > 0 {
      DelayBounds(n - 1);
    }
  }

  /** Three consecutive failures wait 1 s, 2 s and 4 s; from the fifth firing on the wait is 30 s. */
  lemma DelaySchedule()
    ensures DelayAfter(0) == 1000 && DelayAfter(1) == 2000 && DelayAfter(2) == 4000
    ensures forall n: nat :: n >= 5 ==> DelayAfter(n) == MaxDelay
  {
    forall n: nat | n >= 5 ensures DelayAfter(n) == MaxDelay {
      DelayClosedForm(n);
      PowGrows(n);
    }
  }

  lemma {:induction false} PowGrows(n: nat)
    requires n >= 5
    ensures Pow2(n) >= 32
  {
    if n > 5 {
      PowGrows(n - 1);
    }
  }
}
