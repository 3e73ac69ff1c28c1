/** The reconnect delay of server/internal/integrations/freeswitch/supervisor.go. */
module Backoff {
  import opened Basics

  function Pow2(n: nat): nat { if n == 0 then 1 else 2 * Pow2(n - 1) }

  const BUCKETS := 41

  function Percent(attempt: nat): nat { 80 + (attempt * 17 + 11) % BUCKETS }

  /** The capped exponential delay, and what the jitter makes of it. */
  function Base(min: nat, max: nat, attempt: nat): nat { Min(max, min * Pow2(attempt)) }

  function Jittered(min: nat, max: nat, attempt: nat): nat {
    Min(max, Base(min, max, attempt) * Percent(attempt) / 100)
  }

  lemma {:induction false} Pow2Monotone(a: nat, b: nat)
    requires a <= b
    ensures 1 <= Pow2(a) <= Pow2(b)
    decreases b
  {
    if a < b { Pow2Monotone(a, b - 1); } else if a > 0 { Pow2Monotone(a - 1, a - 1); }
  }

  lemma BaseSaturates(min: nat, max: nat, a: nat, b: nat)
    requires a <= b && min * Pow2(a) >= max
    ensures Base(min, max, b) == max
  {
    hide Pow2;
    Pow2Monotone(a, b);
    TimesMonotone(min, Pow2(a), Pow2(b));
  }

  lemma TimesMonotone(m: nat, a: nat, b: nat)
    requires a <= b
    ensures m * a <= m * b
  {
  }

  /** The doubling loop and the cap after it compute the capped exponential; `peak` is the largest value
      the delay held on the way, which does not pass the cap unless the minimum itself does. */
  method DoubledDelay(min: nat, max: nat, attempt: nat) returns (delay: nat, ghost peak: nat)
    ensures delay == Base(min, max, attempt)
    ensures delay <= peak && (min <= max ==> peak <= max)
  {
    delay, peak := min, min;
    var i := 0;
    while i < attempt && delay < max
      invariant i <= attempt && delay == min * Pow2(i) && delay <= peak
      invariant min <= max ==> peak <= max
      invariant i > 0 ==> delay <= max
    {
      assert min * Pow2(i + 1) == 2 * (min * Pow2(i));
      if delay > max / 2 {
        delay := max;
        peak := max;
        BaseSaturates(min, max, i + 1, attempt);
        break;
      }
      delay := delay * 2;
      peak := if delay > peak then delay else peak;
      i := i + 1;
    }
    if delay >= max && min * Pow2(i) >= max { BaseSaturates(min, max, i, attempt); }
    if delay > max { delay := max; }
  }

  method ReconnectDelay(min: nat, max: nat, attempt: nat) returns (jittered: nat)
    ensures jittered == Jittered(min, max, attempt)
  {
    var delay, _ := DoubledDelay(min, max, attempt);
    var bucket := (attempt * 17 + 11) % BUCKETS;
    var percent := 80 + bucket;
    jittered := delay * percent / 100;
    if jittered > max { return max; }
  }

  /** The delay a client waits: no less than 80% of the capped exponential, rounded down, no more
      than 120% of it, and never beyond the cap. */
  lemma JitterBounds(min: nat, max: nat, attempt: nat)
    ensures var base := Base(min, max, attempt);
            base * 80 / 100 <= Jittered(min, max, attempt) <= Min(max, base * 120 / 100)
  {
    JitterOf(Base(min, max, attempt), max, Percent(attempt));
  }

  lemma JitterOf(base: nat, max: nat, percent: nat)
    requires base <= max && 80 <= percent <= 120
    ensures base * 80 / 100 <= Min(max, base * percent / 100) <= Min(max, base * 120 / 100)
  {
    assert base * 80 <= base * percent <= base * 120;
    DivMonotone(base * 80, base * percent);
    DivMonotone(base * percent, base * 120);
    DivMonotone(base * 80, base * 100);
  }

  lemma DivMonotone(a: nat, b: nat)
    requires a <= b
    ensures a / 100 <= b / 100
  {
  }

  /** The first attempt waits the minimum, each later one twice as long, until the cap. */
  lemma {:induction false} BaseGrowsUntilCapped(min: nat, max: nat, attempt: nat)
    ensures Base(min, max, 0) == Min(min, max)
    ensures Base(min, max, attempt) <= Base(min, max, attempt + 1) <= max
    ensures Base(min, max, attempt + 1) < max ==> Base(min, max, attempt + 1) == 2 * Base(min, max, attempt)
  {
    assert min * Pow2(attempt + 1) == 2 * (min * Pow2(attempt));
  }

  /** The first attempt waits 91%; each later one 17 points more, or 24 less where that would pass 120%. */
  lemma PercentSteps(attempt: nat)
    ensures Percent(0) == 91
    ensures Percent(attempt + 1) ==
            if Percent(attempt) + 17 <= 120 then Percent(attempt) + 17 else Percent(attempt) - 24
  {
    var n := attempt * 17 + 11;
    var q, r := n / BUCKETS, n % BUCKETS;
    if r + 17 < BUCKETS { Residue(r + 17, q, n + 17); } else { Residue(r - 24, q + 1, n + 17); }
    assert (attempt + 1) * 17 + 11 == n + 17;
  }

  /** 17 is invertible modulo 41, so any 41 attempts in a row use each percentage from 80 to 120 once. */
  lemma EachPercentOnce(start: nat, percent: nat) returns (k: nat)
    requires 80 <= percent <= 120
    ensures start <= k < start + BUCKETS && Percent(k) == percent
    ensures forall j: nat :: start <= j < start + BUCKETS && Percent(j) == percent ==> j == k
  {
    var target := ((percent - 80 + 30) * 29) % BUCKETS;
    var gap := (target + 40 * start) % BUCKETS;
    k := start + gap;
    Inverse(percent - 80, start, gap);
    forall j: nat | start <= j < start + BUCKETS && Percent(j) == percent ensures j == k {
      if j < k { SameBucket(j, k); } else { SameBucket(k, j); }
    }
  }

  /** So for each percentage from 80 to 120, in any 41 attempts in a row one waits that percentage of its base,
      under the cap. */
  lemma EachDelayOnce(min: nat, max: nat, start: nat, percent: nat) returns (k: nat)
    requires 80 <= percent <= 120
    ensures start <= k < start + BUCKETS
    ensures Jittered(min, max, k) == Min(max, Base(min, max, k) * percent / 100)
  {
    k := EachPercentOnce(start, percent);
  }

  lemma Inverse(bucket: nat, start: nat, gap: nat)
    requires bucket < 41 && gap == ((((bucket + 30) * 29) % 41) + 40 * start) % 41
    ensures ((start + gap) * 17 + 11) % 41 == bucket
  {
    var target := ((bucket + 30) * 29) % 41;
    var q1 := ((bucket + 30) * 29) / 41;
    var q2 := (target + 40 * start) / 41;
    // start + gap == target + 41 * start - 41 * q2, and 29 * 17 == 12 * 41 + 1
    assert (bucket + 30) * 29 == 41 * q1 + target;
    assert target + 40 * start == 41 * q2 + gap;
    var z := 12 * (bucket + 30) + 1 - 17 * q1 + 17 * start - 17 * q2;
    assert (start + gap) * 17 + 11 == bucket + 41 * z;
    Residue(bucket, z, (start + gap) * 17 + 11);
  }

  lemma Residue(bucket: nat, z: int, x: int)
    requires bucket < 41 && x == bucket + 41 * z
    ensures x % 41 == bucket
  {
  }

  lemma SameBucket(j: nat, k: nat)
    requires j <= k < j + 41 && (j * 17 + 11) % 41 == (k * 17 + 11) % 41
    ensures j == k
  {
    var d := k - j;
    var z := (k * 17 + 11) / 41 - (j * 17 + 11) / 41;
    assert 17 * d == 41 * z;
    assert d == 41 * (29 * z - 12 * d);
  }
}
