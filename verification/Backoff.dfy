/** Retry delays of the NAS sync service (`computeBackoffMs`). */
module Backoff {

  function Pow2(k: nat): (r: nat)
    ensures r >= 1
  {
    if k == 0 then 1 else 2 * Pow2(k - 1)
  }

  /** Exponential delay, capped at `maxMs`. */
  function ComputeBackoffMs(retryCount: nat, baseMs: int, maxMs: int): int {
    var delay := baseMs * Pow2(retryCount);
    if delay <= maxMs then delay else maxMs
  }

  /** `d` is the delay after `k` earlier failures: the doubled base, or the cap where that is lower. */
  predicate IsDelay(d: int, k: nat, baseMs: int, maxMs: int) {
    d <= maxMs && d <= baseMs * Pow2(k) && (d == maxMs || d == baseMs * Pow2(k))
  }

  /** The delay never exceeds the cap, and is the cap exactly from where the doubled base reaches it. */
  lemma DelayLaw(k: nat, baseMs: int, maxMs: int)
    ensures IsDelay(ComputeBackoffMs(k, baseMs, maxMs), k, baseMs, maxMs)
    ensures ComputeBackoffMs(k, baseMs, maxMs) == maxMs <==> baseMs * Pow2(k) >= maxMs
    ensures baseMs >= 0 && maxMs >= 0 ==> 0 <= ComputeBackoffMs(k, baseMs, maxMs) <= ComputeBackoffMs(k + 1, baseMs, maxMs)
  {
    if baseMs >= 0 {
      assert baseMs * Pow2(k + 1) == baseMs * Pow2(k) + baseMs * Pow2(k) && baseMs * Pow2(k) >= 0;
    }
  }

  /** The delays after failures 0 .. k-1, added up. */
  function TotalBackoff(k: nat, baseMs: int, maxMs: int): int {
    if k == 0 then 0 else TotalBackoff(k - 1, baseMs, maxMs) + ComputeBackoffMs(k - 1, baseMs, maxMs)
  }

  /** While no delay reaches the cap, the total is a geometric sum. */
  lemma {:induction false} TotalBackoffUncapped(k: nat, baseMs: int, maxMs: int)
    requires Uncapped(k, baseMs, maxMs)
    ensures TotalBackoff(k, baseMs, maxMs) == baseMs * (Pow2(k) - 1)
  {
    if k > 0 {
      TotalBackoffUncapped(k - 1, baseMs, maxMs);
      var p := Pow2(k - 1);
      assert baseMs * (p - 1) + baseMs * p == baseMs * (2 * p - 1);
    }
  }

  /** No delay before the `k`th reaches the cap. */
  ghost predicate Uncapped(k: nat, baseMs: int, maxMs: int) {
    forall i: nat :: i < k ==> baseMs * Pow2(i) <= maxMs
  }

  /** The first `m` delays stay below the cap, and all later ones before the `k`th reach it. */
  ghost predicate CappedFrom(m: nat, k: nat, baseMs: int, maxMs: int) {
    m <= k && Uncapped(m, baseMs, maxMs) && forall i: nat :: m <= i < k ==> baseMs * Pow2(i) >= maxMs
  }

  /** With the cap, the total is a geometric sum and then a multiple of the cap. */
  lemma {:induction false} TotalBackoffCapped(m: nat, k: nat, baseMs: int, maxMs: int)
    requires CappedFrom(m, k, baseMs, maxMs)
    ensures TotalBackoff(k, baseMs, maxMs) == baseMs * (Pow2(m) - 1) + (k - m) * maxMs
    decreases k
  {
    if k == m {
      TotalBackoffUncapped(k, baseMs, maxMs);
    } else {
      TotalBackoffCapped(m, k - 1, baseMs, maxMs);
      assert (k - 1 - m) * maxMs + maxMs == (k - m) * maxMs;
    }
  }

  /** Instants that respect every delay are far apart in total. */
  ghost predicate Spaced(instants: seq<int>, baseMs: int, maxMs: int) {
    forall i :: 0 <= i < |instants| - 1 ==>
      instants[i] + ComputeBackoffMs(i, baseMs, maxMs) <= instants[i + 1]
  }

  lemma {:induction false} SpacedTotal(instants: seq<int>, k: nat, baseMs: int, maxMs: int)
    requires Spaced(instants, baseMs, maxMs) && k < |instants|
    ensures instants[0] + TotalBackoff(k, baseMs, maxMs) <= instants[k]
  {
    if k > 0 {
      SpacedTotal(instants, k - 1, baseMs, maxMs);
    }
  }

  /** With the cap, that is a geometric sum and then a multiple of the cap. */
  lemma SpacedCapped(instants: seq<int>, m: nat, k: nat, baseMs: int, maxMs: int)
    requires Spaced(instants, baseMs, maxMs) && k < |instants| && CappedFrom(m, k, baseMs, maxMs)
    ensures baseMs * (Pow2(m) - 1) + (k - m) * maxMs <= instants[k] - instants[0]
  {
    SpacedTotal(instants, k, baseMs, maxMs);
    TotalBackoffCapped(m, k, baseMs, maxMs);
  }

  /** Without the cap, that is a geometric sum. */
  lemma SpacedUncapped(instants: seq<int>, k: nat, baseMs: int, maxMs: int)
    requires Spaced(instants, baseMs, maxMs) && k < |instants| && Uncapped(k, baseMs, maxMs)
    ensures baseMs * (Pow2(k) - 1) <= instants[k] - instants[0]
  {
    SpacedTotal(instants, k, baseMs, maxMs);
    TotalBackoffUncapped(k, baseMs, maxMs);
  }
}
