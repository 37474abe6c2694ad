/**
  The supervise loop of one extension (internal/extensions/supervisor.go) with its restart
  policy (internal/extensions/manifest.go). What happens to the child and what the operator
  does meanwhile is a script of turns, one per pass of the loop.
*/
module Supervisor {
  import opened Common

  // ---- the restart policy ----

  datatype Policy = Unset | Always | OnFailure | Never

  /** As a validated manifest gives it: nothing negative. */
  datatype Restart = Restart(policy: Policy, initial: nat, max: nat, maxFailures: nat)

  /** Defaults for whatever is zero. A limit of zero failures becomes five, not unlimited. */
  function EffectiveRestart(r: Restart): (e: Restart)
    ensures 0 < e.initial <= e.max && e.maxFailures > 0 && e.policy != Unset
    ensures r.policy != Unset ==> e.policy == r.policy
    ensures r.initial > 0 ==> e.initial == r.initial
    ensures r.initial > 0 && r.max >= r.initial ==> e.max == r.max
    ensures r.maxFailures > 0 ==> e.maxFailures == r.maxFailures
    ensures r.policy == Unset ==> e.policy == OnFailure
    ensures r.initial == 0 ==> e.initial == 1_000_000_000
    ensures r.max == 0 && e.initial <= 30_000_000_000 ==> e.max == 30_000_000_000
    ensures e.max == r.max || e.max == 30_000_000_000 || e.max == e.initial
    ensures r.maxFailures == 0 ==> e.maxFailures == 5
  {
    var policy := if r.policy == Unset then OnFailure else r.policy;
    var initial := if r.initial == 0 then SECOND else r.initial;
    var max := if r.max == 0 then 30 * SECOND else r.max;
    Restart(policy, initial, if initial > max then initial else max, if r.maxFailures == 0 then 5 else r.maxFailures)
  }

  // ---- backoff ----

  function Pow2(n: nat): (p: nat)
    ensures p >= 1
  {
    if n == 0 then 1 else 2 * Pow2(n - 1)
  }

  /** What is meant: initial * 2^(failures-1), capped, failures counting from one. */
  function Capped(initial: nat, max: nat, failures: int): nat {
    var w := initial * Pow2(if failures < 1 then 0 else failures - 1);
    if w >= max then max else w
  }

  /** What the loop leaves in `wait` after k doublings; None once it has returned the cap. */
  function Doubled(initial: int, max: int, k: nat): int {
    if k == 0 then initial else
      var before := Doubled(initial, max, k - 1);
      if k > 1 && before >= max then before else Double(before, max)
  }

  function Double(wait: int, max: int): int {
    var w := Wrap64(wait * 2);
    if w >= max then max else w
  }

  function Backoff(initial: int, max: int, failures: int): int {
    Doubled(initial, max, if failures < 1 then 0 else failures - 1)
  }

  method ComputeBackoff(policy: Restart, failures: int) returns (wait: int)
    ensures wait == Backoff(policy.initial, policy.max, failures)
  {
    var n := if failures < 1 then 1 else failures;
    wait := policy.initial;
    var i := 1;
    while i < n
      invariant 1 <= i <= n && wait == Doubled(policy.initial, policy.max, i - 1)
      invariant i > 1 ==> wait < policy.max
    {
      wait := Wrap64(wait * 2);
      if wait >= policy.max {
        CapStays(policy.initial, policy.max, i, n - 1);
        return policy.max;
      }
      i := i + 1;
    }
  }

  lemma {:induction false} CapStays(initial: int, max: int, i: nat, n: nat)
    requires 1 <= i <= n && Doubled(initial, max, i) >= max
    ensures Doubled(initial, max, n) == Doubled(initial, max, i)
  {
    if i < n {
      CapStays(initial, max, i, n - 1);
    }
  }

  lemma DoubleCapped(v: nat, max: nat)
    requires 0 < max < TWO_63 / 2
    ensures Double(if v >= max then max else v, max) == if 2 * v >= max then max else 2 * v
  {
  }

  lemma PowTwice(a: nat, k: nat)
    requires k > 0
    ensures a * Pow2(k) == 2 * (a * Pow2(k - 1))
  {
  }

  lemma {:induction false} CappedFrom(initial: nat, max: nat, k: nat)
    requires 0 < initial <= max < TWO_63 / 2
    ensures Doubled(initial, max, k) == if initial * Pow2(k) >= max then max else initial * Pow2(k)
  {
    if k > 0 {
      CappedFrom(initial, max, k - 1);
      var v := initial * Pow2(k - 1);
      PowTwice(initial, k);
      DoubleCapped(v, max);
    }
  }

  /** Below 2^62 nanoseconds nothing wraps, and the loop computes what is meant. */
  lemma BackoffIsCapped(initial: nat, max: nat, failures: int)
    requires 0 < initial <= max < TWO_63 / 2
    ensures Backoff(initial, max, failures) == Capped(initial, max, failures)
  {
    CappedFrom(initial, max, if failures < 1 then 0 else failures - 1);
  }

  /** So a cap is safe for every initial backoff and failure count exactly when it is below 2^62. */
  lemma BackoffSafeIff(max: nat)
    requires 0 < max < TWO_63
    ensures max < TWO_63 / 2 <==>
            forall initial: nat, failures: int :: 0 < initial <= max ==>
                Backoff(initial, max, failures) == Capped(initial, max, failures)
  {
    if max < TWO_63 / 2 {
      forall initial: nat, failures: int | 0 < initial <= max
        ensures Backoff(initial, max, failures) == Capped(initial, max, failures)
      {
        BackoffIsCapped(initial, max, failures);
      }
    } else {
      WrapsAtHalf(max);
    }
  }

  lemma WrapsAtHalf(max: nat)
    requires TWO_63 / 2 <= max < TWO_63
    ensures Backoff(TWO_63 / 2, max, 2) == -TWO_63 && Capped(TWO_63 / 2, max, 2) == max
  {
    assert Doubled(TWO_63 / 2, max, 0) == TWO_63 / 2;
    assert Wrap64(TWO_63) == -TWO_63;
    assert Pow2(1) == 2 * Pow2(0);
  }

  lemma {:induction false} PowMonotone(a: nat, b: nat)
    requires a <= b
    ensures Pow2(a) <= Pow2(b)
  {
    if a < b {
      PowMonotone(a, b - 1);
    }
  }

  /** Waits never shrink as failures mount, and stay within [initial, max]. */
  lemma BackoffMonotone(r: Restart, f: int, g: int)
    requires EffectiveRestart(r).max < TWO_63 / 2 && f <= g
    ensures var e := EffectiveRestart(r);
            e.initial <= Backoff(e.initial, e.max, f) <= Backoff(e.initial, e.max, g) <= e.max
  {
    var e := EffectiveRestart(r);
    BackoffIsCapped(e.initial, e.max, f);
    BackoffIsCapped(e.initial, e.max, g);
    var a, b := if f < 1 then 0 else f - 1, if g < 1 then 0 else g - 1;
    PowMonotone(a, b);
    ScaleMonotone(e.initial, Pow2(a), Pow2(b));
    ScaleMonotone(e.initial, 1, Pow2(a));
  }

  lemma ScaleMonotone(a: nat, x: nat, y: nat)
    requires x <= y
    ensures a * x <= a * y
  {
  }
}
