/** Capped doubling, as both the persistence worker and the bridge's reconnect use it. */
module Backoffs {

  function Min(a: nat, b: nat): nat {
    if a <= b then a else b
  }

  function NextDelay(delay: nat, cap: nat): nat {
    Min(delay * 2, cap)
  }

  /** The k-th delay slept, counting from zero. */
  function Delay(initial: nat, cap: nat, k: nat): nat {
    if k == 0 then initial else NextDelay(Delay(initial, cap, k - 1), cap)
  }

  function Pow2(k: nat): nat {
    if k == 0 then 1 else 2 * Pow2(k - 1)
  }

  /** Closed form: doubled k times, cut off at the cap. Only the very first delay is never cut. */
  lemma {:induction false} DelayClosedForm(initial: nat, cap: nat, k: nat)
    ensures Delay(initial, cap, k) == if k == 0 || initial * Pow2(k) <= cap then initial * Pow2(k) else cap
  {
    if k > 0 {
      DelayClosedForm(initial, cap, k - 1);
      Doubling(initial, Pow2(k - 1));
    }
  }

  lemma Doubling(a: nat, b: nat)
    ensures a * (2 * b) == 2 * (a * b)
  {
  }

  /** The delays slept over the first `n` failures in a row. */
  function Delays(initial: nat, cap: nat, n: nat): (ds: seq<nat>)
    ensures |ds| == n
  {
    seq(n, k requires 0 <= k < n => Delay(initial, cap, k))
  }
}
