/** The retry clock of src/account.c: geometric backoff under a cap, spread by
  jitter. */
module RetryClock {
  import opened Registration

  /** A retry is never scheduled at once, and never further than the jitter
    allows from the delay it spreads. */
  lemma JitterBounds(delay: nat, jitter: real, random: nat)
    ensures delay > 0 ==> ApplyJitter(delay, jitter, random) >= 1
    ensures delay == 0 ==> ApplyJitter(delay, jitter, random) == 0
    ensures var span := JitterSpan(delay, jitter);
            delay - span / 2 <= ApplyJitter(delay, jitter, random) <= delay + span / 2 + 1
  {
    var span := JitterSpan(delay, jitter);
    assert 0 <= random % (span + 1) <= span;
  }

  lemma ScaleGrows(d: nat, d': nat, backoff: real)
    requires d <= d'
    ensures Scale(d, backoff) <= Scale(d', backoff)
  {
    if backoff > 0.0 {
      assert (d' as real - d as real) * backoff >= 0.0;
      assert d as real * backoff <= d' as real * backoff;
    }
  }

  /** No delay exceeds the cap, except a first one that was configured to. */
  lemma {:induction false} BackoffCapped(delay: nat, maxMs: nat, backoff: real, left: nat)
    ensures Backoff(delay, maxMs, backoff, left) <= if left == 0 && delay > maxMs then delay else maxMs
    decreases left
  {
    if left != 0 && Scale(delay, backoff) < maxMs { BackoffCapped(Scale(delay, backoff), maxMs, backoff, left - 1); }
  }

  /** The first delay, multiplied `n` times. */
  function Scaled(delay: nat, backoff: real, n: nat): nat
    decreases n
  {
    if n == 0 then delay else Scaled(Scale(delay, backoff), backoff, n - 1)
  }

  /** The cap was reached by one of the first `n` multiplications. */
  predicate ReachesCap(delay: nat, maxMs: nat, backoff: real, n: nat) {
    exists k :: 1 <= k <= n && Scaled(delay, backoff, k) >= maxMs
  }

  /** Attempt `n` waits the first delay multiplied `n` times, or the cap once that
    has been reached. */
  lemma {:induction false} BackoffIsGeometric(delay: nat, maxMs: nat, backoff: real, n: nat)
    ensures Backoff(delay, maxMs, backoff, n)
         == if ReachesCap(delay, maxMs, backoff, n) then maxMs else Scaled(delay, backoff, n)
    decreases n
  {
    if n > 0 {
      var next := Scale(delay, backoff);
      assert Scaled(delay, backoff, 1) == Scaled(next, backoff, 0) == next;
      if next < maxMs {
        BackoffIsGeometric(next, maxMs, backoff, n - 1);
        if ReachesCap(delay, maxMs, backoff, n) {
          var k :| 1 <= k <= n && Scaled(delay, backoff, k) >= maxMs;
          assert k > 1 && Scaled(delay, backoff, k) == Scaled(next, backoff, k - 1);
          assert ReachesCap(next, maxMs, backoff, n - 1);
        }
        if ReachesCap(next, maxMs, backoff, n - 1) {
          var k :| 1 <= k <= n - 1 && Scaled(next, backoff, k) >= maxMs;
          assert Scaled(delay, backoff, k + 1) == Scaled(next, backoff, k);
        }
      }
    }
  }

  /** Attempt `n + 1` waits no less than attempt `n`. */
  predicate WaitsNoLess(delay: nat, maxMs: nat, backoff: real, n: nat) {
    Backoff(delay, maxMs, backoff, n) <= Backoff(delay, maxMs, backoff, n + 1)
  }

  /** The first delay is within the cap, and the factor does not shrink it. */
  predicate Climbs(delay: nat, maxMs: nat, backoff: real) {
    delay <= maxMs && delay <= Scale(delay, backoff)
  }

  /** A policy that waits no less at first goes on so. */
  lemma {:induction false} BackoffClimbs(delay: nat, maxMs: nat, backoff: real, left: nat)
    requires Climbs(delay, maxMs, backoff)
    ensures WaitsNoLess(delay, maxMs, backoff, left)
    decreases left
  {
    BackoffCapped(delay, maxMs, backoff, left);
    if left != 0 && Scale(delay, backoff) < maxMs {
      ScaleGrows(delay, Scale(delay, backoff), backoff);
      BackoffClimbs(Scale(delay, backoff), maxMs, backoff, left - 1);
    }
  }

  /** Before jitter, consecutive attempts never wait less if and only if the first
    delay is within the cap and the factor does not shrink it. */
  lemma {:induction false} BackoffMonotoneExactly(delay: nat, maxMs: nat, backoff: real)
    ensures (forall n: nat :: WaitsNoLess(delay, maxMs, backoff, n)) <==> Climbs(delay, maxMs, backoff)
  {
    if Climbs(delay, maxMs, backoff) {
      forall n: nat ensures WaitsNoLess(delay, maxMs, backoff, n) {
        BackoffClimbs(delay, maxMs, backoff, n);
      }
    } else {
      FirstStepFalls(delay, maxMs, backoff);
      assert !WaitsNoLess(delay, maxMs, backoff, 0);
    }
  }

  lemma FirstStepFalls(delay: nat, maxMs: nat, backoff: real)
    requires !Climbs(delay, maxMs, backoff)
    ensures Backoff(delay, maxMs, backoff, 0) > Backoff(delay, maxMs, backoff, 1)
  {
    var next := Backoff(delay, maxMs, backoff, 1);
    assert next == if Scale(delay, backoff) >= maxMs then maxMs else Scale(delay, backoff);
  }

  // ---------------------------------------------------------------------
  // With jitter
  // ---------------------------------------------------------------------

  /** The delay armed for attempt `n` of a policy. */
  function ArmedDelay(p: RetryPolicy, jitter: real, n: nat, random: nat): nat {
    ApplyJitter(Unjittered(p, n), jitter, random)
  }

  function Unjittered(p: RetryPolicy, n: nat): nat {
    Backoff(p.initialMs, p.maxMs, p.backoff, n)
  }

  /** It is what the account arms. */
  lemma ArmedIsRetryDelay(a: Account, cfg: RegConfig, random: nat)
    ensures RetryDelay(a, cfg, random) == ArmedDelay(a.policy, cfg.jitter, a.attempt, random)
  {
  }

  /** Whatever the random numbers, attempt `n + 1` waits no less than attempt `n`. */
  ghost predicate NeverShrinks(p: RetryPolicy, jitter: real, n: nat) {
    NeverAbove(p, jitter, n, n + 1)
  }

  ghost predicate NeverAbove(p: RetryPolicy, jitter: real, n: nat, m: nat) {
    forall r: nat, r': nat :: ArmedDelay(p, jitter, n, r) <= ArmedDelay(p, jitter, m, r')
  }

  lemma SpanGrows(d: nat, d': nat, jitter: real)
    requires d <= d'
    ensures JitterSpan(d, jitter) <= JitterSpan(d', jitter)
  {
    if jitter > 0.0 {
      var j := if jitter > 1.0 then 1.0 else jitter;
      assert (d' as real - d as real) * j >= 0.0;
      assert d as real * j * 2.0 <= d' as real * j * 2.0;
    }
  }

  /** The two ends of the spread. */
  lemma JitterEnds(d: nat, jitter: real)
    ensures ApplyJitter(d, jitter, 0) <= d <= ApplyJitter(d, jitter, JitterSpan(d, jitter))
    ensures JitterSpan(d, jitter) > 0 ==> d < ApplyJitter(d, jitter, JitterSpan(d, jitter))
    ensures JitterSpan(d, jitter) == 0 ==> forall r: nat :: ApplyJitter(d, jitter, r) == d
  {
    var span := JitterSpan(d, jitter);
    assert 0 % (span + 1) == 0 && span % (span + 1) == span;
  }

  /** A climbing backoff under a cap stops climbing. */
  lemma {:induction false} BackoffSettles(p: RetryPolicy, n: nat) returns (m: nat)
    requires Climbs(p.initialMs, p.maxMs, p.backoff)
    ensures m >= n && Unjittered(p, m) == Unjittered(p, m + 1) && Unjittered(p, n) <= Unjittered(p, m)
    decreases p.maxMs - Unjittered(p, n)
  {
    BackoffClimbs(p.initialMs, p.maxMs, p.backoff, n);
    BackoffCapped(p.initialMs, p.maxMs, p.backoff, n);
    BackoffCapped(p.initialMs, p.maxMs, p.backoff, n + 1);
    if Unjittered(p, n) == Unjittered(p, n + 1) {
      m := n;
    } else {
      m := BackoffSettles(p, n + 1);
    }
  }

  lemma ShrinksWhere(p: RetryPolicy, jitter: real, n: nat)
    requires Unjittered(p, n + 1) < Unjittered(p, n)
          || (Unjittered(p, n + 1) == Unjittered(p, n) && JitterSpan(Unjittered(p, n), jitter) > 0)
    ensures !NeverShrinks(p, jitter, n)
  {
    hide ApplyJitter, JitterSpan;
    var (d, d') := (Unjittered(p, n), Unjittered(p, n + 1));
    JitterEnds(d, jitter);
    JitterEnds(d', jitter);
    assert ArmedDelay(p, jitter, n, JitterSpan(d, jitter)) > ArmedDelay(p, jitter, n + 1, 0);
  }

  /** The delays that are really armed never shrink, whatever the random numbers,
    if and only if the backoff itself climbs and no delay of it is spread at
    all: a backoff that has stopped climbing shrinks under any jitter. */
  lemma {:induction false} DelaysNeverShrinkExactly(p: RetryPolicy, jitter: real)
    ensures (forall n: nat :: NeverShrinks(p, jitter, n))
            <==> Climbs(p.initialMs, p.maxMs, p.backoff) && forall n: nat :: JitterSpan(Unjittered(p, n), jitter) == 0
  {
    hide ApplyJitter, JitterSpan, Climbs;
    if !Climbs(p.initialMs, p.maxMs, p.backoff) {
      FirstStepFalls(p.initialMs, p.maxMs, p.backoff);
      ShrinksWhere(p, jitter, 0);
    } else if n: nat :| JitterSpan(Unjittered(p, n), jitter) != 0 {
      var m := BackoffSettles(p, n);
      SpanGrows(Unjittered(p, n), Unjittered(p, m), jitter);
      ShrinksWhere(p, jitter, m);
    } else {
      forall n: nat ensures NeverShrinks(p, jitter, n) {
        BackoffClimbs(p.initialMs, p.maxMs, p.backoff, n);
        JitterEnds(Unjittered(p, n), jitter);
        JitterEnds(Unjittered(p, n + 1), jitter);
      }
    }
  }

  /** A constant backoff of a second under the cap, spread by half: the second
    delay can be a third of the first. */
  lemma {:induction false} DelaysCanShrink()
    ensures var p := RetryPolicy(1000, 10000, 1.0, 0);
            && Climbs(p.initialMs, p.maxMs, p.backoff)
            && ArmedDelay(p, 0.5, 0, 1000) == 1500 && ArmedDelay(p, 0.5, 1, 0) == 500
  {
    var p := RetryPolicy(1000, 10000, 1.0, 0);
    assert Scale(1000, 1.0) == 1000;
    assert Unjittered(p, 0) == 1000;
    assert Unjittered(p, 1) == Backoff(1000, 10000, 1.0, 0) == 1000;
    assert JitterSpan(1000, 0.5) == 1000;
  }
}
