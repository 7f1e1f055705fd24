/** The retry delay: exponential windows under a cap, with or without jitter. */
module Backoff {
  import opened Model

  function Pow2(n: nat): (p: nat)
    ensures p >= 1
  {
    if n == 0 then 1 else 2 * Pow2(n - 1)
  }

  /** base * 2^times, by repeated doubling. */
  function Doubled(base: nat, times: nat): nat {
    if times == 0 then base else 2 * Doubled(base, times - 1)
  }

  lemma {:induction false} DoubledIsPower(base: nat, times: nat)
    ensures Doubled(base, times) == base * Pow2(times)
  {
    if times > 0 {
      DoubledIsPower(base, times - 1);
      assert base * (2 * Pow2(times - 1)) == 2 * (base * Pow2(times - 1));
    }
  }

  lemma {:induction false} DoubledGrows(base: nat, m: nat, n: nat)
    requires m <= n
    ensures Doubled(base, m) <= Doubled(base, n)
    decreases n
  {
    if m < n { DoubledGrows(base, m, n - 1); }
  }

  function Min(a: nat, b: nat): nat { if a <= b then a else b }

  /** The window of a level, both ends included: from base * 2^(level-1) to base * 2^level, each
      end cut at the cap. */
  function Low(p: RetryPolicy, level: nat): nat
    requires level >= 1
  {
    Min(Doubled(p.baseDelay, level - 1), p.maxDelay)
  }

  function High(p: RetryPolicy, level: nat): nat
    requires level >= 1
  {
    Min(Doubled(p.baseDelay, level), p.maxDelay)
  }

  /** The delay for one retry level. The jitter draws low + draw; a draw past the window stands for
      its high end. */
  function RetryDelay(p: RetryPolicy, level: nat, draw: nat): nat
    requires level >= 1
  {
    if p.useJitter then Min(Low(p, level) + draw, High(p, level)) else Low(p, level)
  }

  /** The delays a level allows. */
  predicate InWindow(p: RetryPolicy, level: nat, delay: nat)
    requires level >= 1
  {
    if p.useJitter then Low(p, level) <= delay <= High(p, level) else delay == Low(p, level)
  }

  /** A delay can be drawn for a level exactly when it lies in the level's window: with jitter every
      point of the window is possible, without it only the low end. */
  lemma DrawsFillTheWindow(p: RetryPolicy, level: nat, delay: nat)
    requires level >= 1
    ensures InWindow(p, level, delay) <==> exists draw: nat :: delay == RetryDelay(p, level, draw)
  {
    if InWindow(p, level, delay) {
      var draw: nat := delay - Low(p, level);
      assert delay == RetryDelay(p, level, draw);
    }
  }

  /** Windows follow one another, sharing one point: each ends where the next begins, so delays never
      shrink from one level to the next whatever is drawn; all stay under the cap; and a window is a
      single point exactly when base * 2^(level-1) has reached the cap. */
  lemma WindowsAreContiguous(p: RetryPolicy, level: nat, d1: nat, d2: nat)
    requires p.baseDelay >= 1 && level >= 1
    requires InWindow(p, level, d1) && InWindow(p, level + 1, d2)
    ensures High(p, level) == Low(p, level + 1)
    ensures d1 <= d2 <= p.maxDelay
    ensures Low(p, level) == High(p, level) <==> p.baseDelay * Pow2(level - 1) >= p.maxDelay
  {
    DoubledIsPower(p.baseDelay, level - 1);
    DoubledGrows(p.baseDelay, 0, level - 1);
  }

  /** One delay for each level from 1 on. */
  predicate OnSchedule(p: RetryPolicy, delays: seq<nat>) {
    forall k :: 0 <= k < |delays| ==> InWindow(p, k + 1, delays[k])
  }

  function Sum(s: seq<nat>): nat {
    if s == [] then 0 else Sum(s[..|s| - 1]) + s[|s| - 1]
  }

  /** The total wait over n levels, with the powers still as doublings. */
  lemma {:induction false} WaitInDoublings(p: RetryPolicy, delays: seq<nat>)
    requires OnSchedule(p, delays)
    ensures Sum(delays) + 2 * p.baseDelay <= 2 * Doubled(p.baseDelay, |delays|)
    ensures |delays| >= 1 && Doubled(p.baseDelay, |delays| - 1) <= p.maxDelay ==>
              Doubled(p.baseDelay, |delays|) <= Sum(delays) + p.baseDelay
    ensures !p.useJitter ==> Sum(delays) + p.baseDelay <= Doubled(p.baseDelay, |delays|)
  {
    var n := |delays|;
    if n > 0 {
      var front := delays[..n - 1];
      assert forall k :: 0 <= k < |front| ==> front[k] == delays[k];
      WaitInDoublings(p, front);
      assert InWindow(p, (n - 1) + 1, delays[n - 1]);
    }
  }

  lemma MulStep(n: nat, k: nat)
    requires n > 0
    ensures n * k == (n - 1) * k + k
  {}

  lemma {:induction false} WaitUnderCaps(p: RetryPolicy, delays: seq<nat>)
    requires OnSchedule(p, delays)
    ensures Sum(delays) <= |delays| * p.maxDelay
  {
    var n := |delays|;
    if n > 0 {
      var front := delays[..n - 1];
      assert forall k :: 0 <= k < |front| ==> front[k] == delays[k];
      WaitUnderCaps(p, front);
      assert InWindow(p, (n - 1) + 1, delays[n - 1]);
      MulStep(n, p.maxDelay);
    }
  }

  /** The total wait over n levels: never more than n caps or twice base * (2^n - 1), and never less
      than base * (2^n - 1) while the last level is uncapped; without jitter it is that number. */
  lemma TotalWait(p: RetryPolicy, delays: seq<nat>)
    requires OnSchedule(p, delays)
    ensures Sum(delays) <= |delays| * p.maxDelay
    ensures Sum(delays) <= 2 * (p.baseDelay * (Pow2(|delays|) - 1))
    ensures |delays| >= 1 && p.baseDelay * Pow2(|delays| - 1) <= p.maxDelay ==>
              p.baseDelay * (Pow2(|delays|) - 1) <= Sum(delays)
    ensures !p.useJitter && |delays| >= 1 && p.baseDelay * Pow2(|delays| - 1) <= p.maxDelay ==>
              Sum(delays) == p.baseDelay * (Pow2(|delays|) - 1)
  {
    WaitInDoublings(p, delays);
    WaitUnderCaps(p, delays);
    DoubledIsPower(p.baseDelay, |delays|);
    assert p.baseDelay * (Pow2(|delays|) - 1) == p.baseDelay * Pow2(|delays|) - p.baseDelay;
    if |delays| >= 1 { DoubledIsPower(p.baseDelay, |delays| - 1); }
  }

  lemma DelaysNeverShrink(p: RetryPolicy, delays: seq<nat>)
    requires p.baseDelay >= 1 && OnSchedule(p, delays)
    ensures forall k :: 0 <= k && k + 1 < |delays| ==> delays[k] <= delays[k + 1]
  {
    forall k | 0 <= k && k + 1 < |delays|
      ensures delays[k] <= delays[k + 1]
    {
      assert InWindow(p, k + 1, delays[k]) && InWindow(p, (k + 1) + 1, delays[k + 1]);
      WindowsAreContiguous(p, k + 1, delays[k], delays[k + 1]);
    }
  }

  /** The window in powers of two: from base * 2^(level-1) to base * 2^level with jitter, each end cut at the
      cap, and the low end alone without. */
  lemma WindowInPowers(p: RetryPolicy, level: nat, delay: nat)
    requires level >= 1
    ensures var low, high := p.baseDelay * Pow2(level - 1), p.baseDelay * Pow2(level);
            InWindow(p, level, delay) <==>
              if low >= p.maxDelay then delay == p.maxDelay
              else if p.useJitter then low <= delay <= (if high <= p.maxDelay then high else p.maxDelay)
              else delay == low
  {
    DoubledIsPower(p.baseDelay, level - 1);
    DoubledIsPower(p.baseDelay, level);
  }

  /** The windows of the shipped table: 5, 10 and 20 seconds for one-time passwords, 15 to 30, 30 to 60 and
      60 to 120 for everything else; three retries and no more. */
  lemma ShippedWindows(e: EventType, level: nat, delay: nat)
    requires 1 <= level && e in SHIPPED_TABLE && InWindow(SHIPPED_TABLE[e], level, delay)
    ensures SHIPPED_TABLE[e].maxRetries == 3
    ensures e == PaymentOtpRequested && level <= 3 ==> delay == if level == 1 then 5 else if level == 2 then 10 else 20
    ensures e != PaymentOtpRequested && level == 1 ==> 15 <= delay <= 30
    ensures e != PaymentOtpRequested && level == 2 ==> 30 <= delay <= 60
    ensures e != PaymentOtpRequested && level == 3 ==> 60 <= delay <= 120
  {
    var base := SHIPPED_TABLE[e].baseDelay;
    assert base == if e == PaymentOtpRequested then 5 else 15;
    assert Doubled(base, 1) == 2 * base && Doubled(base, 2) == 4 * base && Doubled(base, 3) == 8 * base;
  }

  /** The shipped configuration has a policy of the table for every event. */
  lemma ShippedPolicies(c: Config, e: EventType)
    requires Shipped(c)
    ensures e in c.table && PolicyFor(c, e) == c.table[e] == SHIPPED_TABLE[e]
  {}

  lemma SumOfThree(a: nat, b: nat, d: nat)
    ensures Sum([a, b, d]) == a + b + d
  {
    assert [a, b, d][..2] == [a, b] && [a, b][..1] == [a] && [a][..0] == [];
    assert Sum([a]) == Sum([]) + a;
  }

  /** Under the shipped policies: three one-time-password retries come after 5, 10 and 20 seconds, and three
      others wait between 105 and 210 in all; no delay exceeds 120. */
  lemma ShippedDelays(c: Config, e: EventType, delays: seq<nat>)
    requires c.table == SHIPPED_TABLE && e in c.table && OnSchedule(c.table[e], delays)
    requires |delays| <= c.table[e].maxRetries
    ensures forall d :: d in delays ==> d <= 120
    ensures |delays| == 3 && e == PaymentOtpRequested ==> delays == [5, 10, 20]
    ensures |delays| == 3 && e != PaymentOtpRequested ==> 105 <= Sum(delays) <= 210
  {
    forall k | 0 <= k < |delays|
      ensures InWindow(SHIPPED_TABLE[e], k + 1, delays[k]) && delays[k] <= 120
    {
      assert InWindow(c.table[e], k + 1, delays[k]);
      ShippedWindows(e, k + 1, delays[k]);
    }
    if |delays| == 3 {
      ShippedWindows(e, 1, delays[0]);
      ShippedWindows(e, 2, delays[1]);
      ShippedWindows(e, 3, delays[2]);
      SumOfThree(delays[0], delays[1], delays[2]);
      assert delays == [delays[0], delays[1], delays[2]];
    }
  }
}
