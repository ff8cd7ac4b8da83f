/**
 The waits of block/blk-throttle.c are not longer than they need be: a bio is asked to come back about when
 the limit itself, without any rounding, lets it through.
 */
module ThrottlePrompt {
  import opened Common
  import opened ThrottleRate

  lemma DivBelow(x: nat, n: Positive, a: int, h: nat)
    requires x < n * a + h
    ensures x / n <= a + h / n
  {
    var d := x / n - (a + h / n);
    if d > 0 {
      assert n * (x / n) <= x;
      assert h < n * (h / n) + n;
      Distribute(n, a, h / n);
      Distribute(n, a + h / n, d);
      Grow(n, 1, d);
    }
  }

  /** More than an allowance is not earned in its time. */
  lemma NotYet(n: nat, count: nat, ticks: nat)
    requires count > Allowance(n, ticks)
    ensures n * ticks < count * HZ
  {
    AllowanceBound(n, ticks);
    Grow(HZ, Allowance(n, ticks) + 1, count);
  }

  lemma Sooner(n: Positive, a: int, b: int)
    requires n * a < n * b
    ensures a < b
  {
    if b <= a {
      Grow(n, b, a);
    }
  }

  /** What is over the allowance takes no longer to earn than until `ticks`, but for the rounding of the allowance. */
  lemma OverEarned(n: Positive, count: nat, rnd: nat, ticks: nat)
    requires count > Allowance(n, rnd) && count * HZ <= n * ticks
    ensures rnd < ticks
    ensures (count - Allowance(n, rnd)) * HZ < n * (ticks - rnd) + HZ
  {
    NotYet(n, count, rnd);
    Sooner(n, rnd, ticks);
    AllowanceBound(n, rnd);
    var a := Allowance(n, rnd);
    Distribute(HZ, a, count - a);
    Distribute(HZ, a, 1);
    Distribute(n, rnd, ticks - rnd);
  }

  /** In ticks, that is the time of one unit more. */
  lemma ExtraTicks(n: Positive, extra: nat, left: nat)
    requires 0 < left && extra * HZ < n * left + HZ
    ensures Ticks(extra, n) <= left + HZ / n
  {
    DivBelow(extra * HZ, n, left, HZ);
  }

  /**
   A bio over the byte limit is asked back at the latest a tick, and the time of one byte, after the moment
   `t` at which the limit has earned it.
   */
  lemma BytesPrompt(n: Positive, s: Slice, now: nat, size: nat, t: nat)
    requires s.start <= now && !BytesWithin(PerSecond(n), s, now, size)
    requires s.start <= t && (s.bytes + size) * HZ <= n * (t - s.start)
    ensures now + BytesWait(n, s, now, size) <= t + 1 + HZ / n
  {
    var rnd, count := Rounded(s, now), s.bytes + size;
    OverEarned(n, count, rnd, t - s.start);
    ExtraTicks(n, count - Allowance(n, rnd), t - s.start - rnd);
  }

  /** A bio over the I/O limit is asked back at the latest a tick after that moment. */
  lemma IosPrompt(n: Positive, s: Slice, now: nat, t: nat)
    requires s.start <= now && now < t && (s.ios + 1) * HZ <= n * (t - s.start)
    ensures now + IosWait(n, s, now) <= t + 1
  {
    AtMost((s.ios + 1) * HZ, n, t - s.start);
  }

  lemma AtMost(x: nat, n: Positive, a: nat)
    requires x <= n * a
    ensures x / n <= a
  {
    if x / n > a {
      Grow(n, a + 1, x / n);
      Distribute(n, a, 1);
    }
  }
}
