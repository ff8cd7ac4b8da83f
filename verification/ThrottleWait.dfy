/**
 How good the waits of block/blk-throttle.c are: whether a refused bio is within its limits
 when the announced wait is over, nothing else having been dispatched.
 */
module ThrottleWait {
  import opened Common
  import opened ThrottleRate

  lemma WithinIff(n: nat, count: nat, ticks: nat)
    ensures count <= Allowance(n, ticks) <==> count * HZ <= n * ticks
  {
    AllowanceBound(n, ticks);
    if count <= Allowance(n, ticks) {
      Grow(HZ, count, Allowance(n, ticks));
    } else {
      Grow(HZ, Allowance(n, ticks) + 1, count);
    }
  }

  /** A slice kept open until a refused bio is tried again. */
  lemma StillOpen(lim: Limits, s: Slice, now: nat, size: nat)
    requires lim.bps.PerSecond? || lim.iops.PerSecond?
    ensures var v := MayDispatch(lim, s, now, size);
            var s1 := Renewed(s, now);
            && s1.start <= now && v.slice == s1.(end := v.slice.end)
            && now + v.wait <= v.slice.end && now + SLICE <= v.slice.end
  {
    RenewedHolds(s, now);
    RoundUpBounds(now + MayDispatch(lim, s, now, size).wait);
  }

  lemma SameSlice(s: Slice, later: nat)
    requires s.start <= later <= s.end
    ensures Renewed(s, later) == s.(end := Renewed(s, later).end)
  {
  }

  lemma RoundedLater(s: Slice, s': Slice, now: nat, later: nat)
    requires s.start <= now <= later && s'.start == s.start
    ensures Rounded(s, now) <= Rounded(s', later)
  {
    if now == s.start {
      RoundedBounds(s, now);
      RoundedBounds(s', later);
      if later > now {
        RoundUpBounds(later - s.start);
        AtLeast(RoundUp(later - s.start), SLICE);
      }
    } else {
      DivLater(now - s.start + SLICE - 1, later - s.start + SLICE - 1, SLICE);
      Grow(SLICE, (now - s.start + SLICE - 1) / SLICE, (later - s.start + SLICE - 1) / SLICE);
    }
    OneSlice();
  }

  lemma OneSlice()
    ensures RoundUp(SLICE) == SLICE
  {
    RoundUpBounds(SLICE);
    Between(RoundUp(SLICE), SLICE);
  }

  lemma AtLeast(r: nat, t: Positive)
    requires r > 0 && r % t == 0
    ensures r >= t
  {
  }

  lemma DivLater(a: nat, b: nat, t: Positive)
    requires a <= b
    ensures a / t <= b / t
  {
    var d := a / t - b / t;
    assert d * t == (a - a % t) - (b - b % t);
    if d > 0 {
      Grow(t, 1, d);
    }
  }

  lemma AllowanceLater(n: nat, ticks: nat, ticks': nat)
    requires ticks <= ticks'
    ensures Allowance(n, ticks) <= Allowance(n, ticks')
  {
    WithinIff(n, Allowance(n, ticks), ticks);
    Grow(n, ticks, ticks');
    WithinIff(n, Allowance(n, ticks), ticks');
  }

  // ---- I/O counts

  /** The wait runs to the tick by which the slice has earned one more I/O; the fallback of one tick is not reached. */
  lemma IosWaitDue(n: Positive, s: Slice, now: nat)
    requires s.start <= now && !IosWithin(PerSecond(n), s, now) && s.ios < UINT_MAX
    ensures IosDue(n, s) > now - s.start
    ensures n * IosDue(n, s) >= (s.ios + 1) * HZ
  {
    RoundedBounds(s, now);
    var rnd, need := Rounded(s, now), (s.ios + 1) * HZ;
    WithinIff(n, s.ios + 1, rnd);
    assert n * rnd < need;
    DivTight(need, n);
    if need / n < rnd {
      Grow(n, need / n + 1, rnd);
    }
  }

  lemma DivTight(a: nat, n: Positive)
    ensures n * (a / n) <= a < n * (a / n + 1)
  {
  }

  /** A bio refused for its I/O count is let through when the wait is over. */
  lemma IosWaitAccurate(lim: Limits, s: Slice, now: nat, size: nat)
    requires var s1 := Renewed(s, now);
             && s1.start <= now && s1.ios < UINT_MAX
             && BytesWithin(lim.bps, s1, now, size) && !IosWithin(lim.iops, s1, now)
    ensures var v := MayDispatch(lim, s, now, size);
            && !v.ok && v.wait == IosDue(lim.iops.n, v.slice) - (now - v.slice.start)
            && MayDispatch(lim, v.slice, now + v.wait, size).ok
  {
    var s1, v := Renewed(s, now), MayDispatch(lim, s, now, size);
    var n, later := lim.iops.n, now + v.wait;
    StillOpen(lim, s, now, size);
    SameSlice(v.slice, later);
    IosWaitDue(n, s1, now);
    var s2 := Renewed(v.slice, later);
    RoundedBounds(s2, later);
    Grow(n, IosDue(n, s1), Rounded(s2, later));
    WithinIff(n, s1.ios + 1, Rounded(s2, later));
    BytesLater(lim.bps, s1, s2, now, later, size);
  }

  lemma BytesLater(bps: Rate, s: Slice, s': Slice, now: nat, later: nat, size: nat)
    requires s.start <= now <= later && s'.start == s.start && s'.bytes == s.bytes
    requires BytesWithin(bps, s, now, size)
    ensures BytesWithin(bps, s', later, size)
  {
    if bps.PerSecond? {
      RoundedLater(s, s', now, later);
      AllowanceLater(bps.n, Rounded(s, now), Rounded(s', later));
    }
  }

  // ---- bytes

  /** One tick past the delay, the bytes have been earned. */
  lemma DelayEnough(n: Positive, s: Slice, now: nat, size: nat)
    requires s.start <= now && !BytesWithin(PerSecond(n), s, now, size)
    ensures n * (Rounded(s, now) + BytesDelay(n, s, now, size) + 1) >= (s.bytes + size) * HZ
  {
    var rnd, delay := Rounded(s, now), BytesDelay(n, s, now, size);
    var extra := s.bytes + size - Allowance(n, rnd);
    AllowanceBound(n, rnd);
    DivTight(extra * HZ, n);
    Grow(n, extra * HZ / n + 1, delay + 1);
    Distribute(n, rnd, delay + 1);
    assert (s.bytes + size) * HZ == Allowance(n, rnd) * HZ + extra * HZ;
  }

  /** A slice's rounding at `ticks` after its start. */
  lemma RoundedAt(s: Slice, ticks: nat)
    requires ticks > 0
    ensures Rounded(s, s.start + ticks) >= ticks
    ensures ticks % SLICE == 0 ==> Rounded(s, s.start + ticks) == ticks
    ensures ticks % SLICE != 0 ==> Rounded(s, s.start + ticks) >= ticks + 1
  {
    RoundUpBounds(ticks);
    if ticks % SLICE == 0 {
      NextMultiple(ticks, RoundUp(ticks), SLICE);
    }
  }

  lemma NextMultiple(a: nat, b: nat, t: Positive)
    requires a % t == 0 && b % t == 0 && a <= b < a + t
    ensures a == b
  {
    assert (b - a) % t == 0 by {
      var k := b / t - a / t;
      assert b - a == k * t;
      if k > 0 {
        Grow(t, 1, k);
      }
    }
  }

  /** What is known once the wait of a bio refused for bytes is over. */
  lemma AfterDelay(lim: Limits, s: Slice, now: nat, size: nat)
    requires lim.bps.PerSecond? && Renewed(s, now).start <= now && !BytesWithin(lim.bps, Renewed(s, now), now, size)
    ensures var s1, v := Renewed(s, now), MayDispatch(lim, s, now, size);
            && !v.ok && v.slice == s1.(end := v.slice.end) && now + v.wait <= v.slice.end
            && now + v.wait == s1.start + Rounded(s1, now) + BytesDelay(lim.bps.n, s1, now, size)
  {
    StillOpen(lim, s, now, size);
  }

  /**
   When the wait of a bio refused for bytes is over it is within its limit, unless the delay is a
   whole number of slices, so that nothing is rounded up, and the division that gave it cut off a tick.
   */
  lemma BytesWaitExact(lim: Limits, s: Slice, now: nat, size: nat)
    requires lim.bps.PerSecond? && Renewed(s, now).start <= now && !BytesWithin(lim.bps, Renewed(s, now), now, size)
    ensures var s1, v := Renewed(s, now), MayDispatch(lim, s, now, size);
            var n, delay := lim.bps.n, BytesDelay(lim.bps.n, s1, now, size);
            var s2 := Renewed(v.slice, now + v.wait);
            && s2.start <= now + v.wait
            && (BytesWithin(lim.bps, s2, now + v.wait, size) <==>
                delay % SLICE != 0 || n * (Rounded(s1, now) + delay) >= (s1.bytes + size) * HZ)
  {
    AfterDelay(lim, s, now, size);
    var s1, v := Renewed(s, now), MayDispatch(lim, s, now, size);
    var n, delay := lim.bps.n, BytesDelay(lim.bps.n, s1, now, size);
    SameSlice(v.slice, now + v.wait);
    var s2, ticks := Renewed(v.slice, now + v.wait), Rounded(s1, now) + delay;
    RoundedBounds(s1, now);
    SameRemainder(Rounded(s1, now), delay, SLICE);
    RoundedAt(s2, ticks);
    WithinIff(n, s1.bytes + size, Rounded(s2, now + v.wait));
    DelayEnough(n, s1, now, size);
    if ticks % SLICE != 0 {
      Grow(n, ticks + 1, Rounded(s2, now + v.wait));
    }
  }

  lemma SameRemainder(a: nat, b: nat, t: Positive)
    requires a % t == 0
    ensures (a + b) % t == b % t
  {
    var k := (a + b) / t - a / t - b / t;
    assert k * t == b % t - (a + b) % t;
    if k > 0 {
      Grow(t, 1, k);
    } else if k < 0 {
      Grow(t, k, -1);
    }
  }

  /** A slice that kept its start and its count is within the limit one tick past the delay. */
  lemma PastDelay(n: Positive, s: Slice, now: nat, size: nat, s': Slice, later: nat)
    requires s.start <= now && !BytesWithin(PerSecond(n), s, now, size)
    requires s'.start == s.start && s'.bytes == s.bytes
    requires later == s.start + Rounded(s, now) + BytesDelay(n, s, now, size) + 1
    ensures BytesWithin(PerSecond(n), s', later, size)
  {
    DelayEnough(n, s, now, size);
    RoundedBounds(s', later);
    Grow(n, Rounded(s, now) + BytesDelay(n, s, now, size) + 1, Rounded(s', later));
    WithinIff(n, s.bytes + size, Rounded(s', later));
  }

  /** Tried again at that time, it is within its limit one tick later at the latest. */
  lemma BytesWaitNext(lim: Limits, s: Slice, now: nat, size: nat)
    requires lim.bps.PerSecond? && Renewed(s, now).start <= now && !BytesWithin(lim.bps, Renewed(s, now), now, size)
    ensures var v := MayDispatch(lim, s, now, size);
            var v2 := MayDispatch(lim, v.slice, now + v.wait, size);
            var s3 := Renewed(v2.slice, now + v.wait + 1);
            s3.start <= now + v.wait + 1 && BytesWithin(lim.bps, s3, now + v.wait + 1, size)
  {
    AfterDelay(lim, s, now, size);
    var s1, v := Renewed(s, now), MayDispatch(lim, s, now, size);
    SameSlice(v.slice, now + v.wait);
    Recheck(lim, v.slice, now + v.wait, size);
    PastDelay(lim.bps.n, s1, now, size, Renewed(MayDispatch(lim, v.slice, now + v.wait, size).slice, now + v.wait + 1),
              now + v.wait + 1);
  }

  /** A check within a slice leaves it open for the next tick. */
  lemma Recheck(lim: Limits, s: Slice, now: nat, size: nat)
    requires lim.bps.PerSecond? && s.start <= now <= s.end
    ensures var s' := Renewed(MayDispatch(lim, s, now, size).slice, now + 1);
            s'.start == s.start && s'.bytes == s.bytes
  {
    StillOpen(lim, s, now, size);
    SameSlice(s, now);
    SameSlice(MayDispatch(lim, s, now, size).slice, now + 1);
  }

  lemma StillRefused(lim: Limits, s: Slice, now: nat, size: nat)
    requires lim.bps.PerSecond? && Renewed(s, now) == s && s.start <= now && !BytesWithin(lim.bps, s, now, size)
    requires var delay := BytesDelay(lim.bps.n, s, now, size);
             delay % SLICE == 0 && lim.bps.n * (Rounded(s, now) + delay) < (s.bytes + size) * HZ
    ensures TooEarly(lim, s, now, size)
  {
    BytesWaitExact(lim, s, now, size);
  }

  /** Refused, and refused again after the announced wait. */
  predicate TooEarly(lim: Limits, s: Slice, now: nat, size: nat) {
    var v := MayDispatch(lim, s, now, size);
    !v.ok && !MayDispatch(lim, v.slice, now + v.wait, size).ok
  }

  /** The exception happens: two sectors a tick, and a bio one sector larger than two slices allow. */
  lemma BytesWaitLate(lim: Limits, now: nat, size: nat)
    requires lim.bps == PerSecond(1024 * HZ) && size == 512 * (4 * SLICE + 1)
    ensures TooEarly(lim, Fresh(now), now, size)
  {
    LateNumbers(now, size);
    StillRefused(lim, Fresh(now), now, size);
  }

  lemma LateNumbers(now: nat, size: nat)
    requires size == 512 * (4 * SLICE + 1)
    ensures Rounded(Fresh(now), now) == SLICE && SLICE % SLICE == 0
    ensures !BytesWithin(PerSecond(1024 * HZ), Fresh(now), now, size)
    ensures BytesDelay(1024 * HZ, Fresh(now), now, size) == SLICE
    ensures 1024 * HZ * (SLICE + SLICE) < (0 + size) * HZ
  {
    OneSlice();
    SectorsPerTick(SLICE);
    assert size - 1024 * SLICE == 512 * (2 * SLICE + 1);
    Half(SLICE, 512 * HZ);
    assert (512 * (2 * SLICE + 1)) * HZ == (2 * SLICE + 1) * (512 * HZ);
    Multiple(1, SLICE);
    Larger(HZ, SLICE, size);
  }

  lemma Larger(h: Positive, t: nat, size: nat)
    requires size == 512 * (4 * t + 1)
    ensures 1024 * h * (t + t) < (0 + size) * h
  {
    assert 1024 * h * (t + t) == (2048 * t) * h;
  }

  lemma SectorsPerTick(ticks: nat)
    ensures Allowance(1024 * HZ, ticks) == 1024 * ticks
  {
    AllowanceBound(1024 * HZ, ticks);
    var d := Allowance(1024 * HZ, ticks) - 1024 * ticks;
    assert 1024 * HZ * ticks == (1024 * ticks) * HZ;
    if d > 0 {
      Grow(HZ, 1, d);
    } else if d < 0 {
      Grow(HZ, d, -1);
    }
  }

  lemma Half(a: nat, h: Positive)
    ensures (2 * a + 1) * h / (2 * h) == a
  {
    var x := (2 * a + 1) * h;
    DivTight(x, 2 * h);
    var d := x / (2 * h) - a;
    assert x == (2 * h) * a + h;
    assert (2 * h) * (x / (2 * h)) == (2 * h) * a + (2 * h) * d;
    assert (2 * h) * (x / (2 * h) + 1) == (2 * h) * a + (2 * h) * d + 2 * h;
    if d > 0 {
      Grow(2 * h, 1, d);
    } else if d < 0 {
      Grow(2 * h, d, -1);
    }
  }
}
