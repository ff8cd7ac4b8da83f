/**
 What trimming a slice does to the next bio (throtl_trim_slice, block/blk-throttle.c): time that was not
 used up is given up with the slices it belongs to.
 */
module ThrottleTrim {
  import opened Common
  import opened ThrottleRate
  import ThrottleWait

  /** What a trim that moves the start by `gone` takes off a counter. */
  function Off(n: Positive, count: nat, gone: nat): nat {
    if count < Allowance(n, gone) then count else Allowance(n, gone)
  }

  /**
   What a trim takes off the counter makes up for what it takes off the allowance, unless the counter was
   over that anyway.
   */
  predicate MakesUp(rate: Rate, count: nat, gone: nat, before: nat, after: nat) {
    rate.PerSecond? ==>
      || Allowance(rate.n, before) < count
      || Allowance(rate.n, before) - Allowance(rate.n, after) <= Off(rate.n, count, gone)
  }

  lemma NothingOff(n: Positive, count: nat)
    ensures Off(n, count, 0) == 0
  {
  }

  lemma WholeSlices(d: nat)
    ensures var gone := d / SLICE * SLICE; gone <= d < gone + SLICE && gone % SLICE == 0
  {
    Multiple(d / SLICE, SLICE);
  }

  /** The start moves to a whole slice no later than now, and the counters lose what the time between earned. */
  lemma TrimTakes(lim: Limits, s: Slice, now: nat)
    requires s.start <= now
    ensures var s' := Trimmed(lim, s, now);
            && s.start <= s'.start <= now && (s'.start - s.start) % SLICE == 0
            && (s'.start == s.start || now - s'.start < SLICE)
            && (lim.bps.PerSecond? ==> s'.bytes == s.bytes - Off(lim.bps.n, s.bytes, s'.start - s.start))
            && (lim.iops.PerSecond? ==> s'.ios == s.ios - Off(lim.iops.n, s.ios, s'.start - s.start))
  {
    WholeSlices(0);
    WholeSlices(now - s.start);
    if lim.bps.PerSecond? {
      NothingOff(lim.bps.n, s.bytes);
    }
    if lim.iops.PerSecond? {
      NothingOff(lim.iops.n, s.ios);
    }
    assert SLICE * ((now - s.start) / SLICE) == (now - s.start) / SLICE * SLICE;
  }

  /** Every bio within the byte limit before a trim is within it afterwards if and only if the trim makes up. */
  lemma TrimExact(lim: Limits, s: Slice, now: nat, later: nat)
    requires s.start <= now <= later
    ensures s.start <= Trimmed(lim, s, now).start <= later
    ensures var s' := Trimmed(lim, s, now);
            (forall size: nat :: BytesWithin(lim.bps, s, later, size) ==> BytesWithin(lim.bps, s', later, size))
            <==> MakesUp(lim.bps, s.bytes, s'.start - s.start, Rounded(s, later), Rounded(s', later))
  {
    TrimTakes(lim, s, now);
    if lim.bps.PerSecond? {
      var a := Allowance(lim.bps.n, Rounded(s, later));
      if a >= s.bytes {
        assert BytesWithin(lim.bps, s, later, a - s.bytes);
      }
    }
  }

  /** The same for the I/O limit, where every bio counts as one. */
  lemma TrimIos(lim: Limits, s: Slice, now: nat, later: nat)
    requires s.start <= now <= later && lim.iops.PerSecond? && IosWithin(lim.iops, s, later)
    ensures s.start <= Trimmed(lim, s, now).start <= later
    ensures var s' := Trimmed(lim, s, now);
            IosWithin(lim.iops, s', later) <==>
              s.ios < Allowance(lim.iops.n, Rounded(s', later)) + Off(lim.iops.n, s.ios, s'.start - s.start)
  {
    TrimTakes(lim, s, now);
  }

  lemma RoundUpIs(k: nat, x: nat)
    requires 0 < k && (k - 1) * SLICE < x <= k * SLICE
    ensures RoundUp(x) == k * SLICE
  {
    RoundUpBounds(x);
    Distribute(SLICE, k, -1);
    Distribute(SLICE, k, 1);
    Pinned((x + SLICE - 1) / SLICE, k, SLICE);
  }

  lemma Pinned(j: nat, k: nat, t: Positive)
    requires t * (k - 1) < j * t < t * (k + 1)
    ensures j == k
  {
    if j < k {
      Grow(t, j, k - 1);
    } else if j > k {
      Grow(t, k + 1, j);
    }
  }

  lemma TwoSlices()
    ensures (2 * SLICE - 0) / SLICE == 2 && Allowance(1024 * HZ, SLICE * 2) > 0
  {
    ThrottleWait.SectorsPerTick(SLICE * 2);
  }

  /** It may not: two slices' worth of data, within the limit before the slices are trimmed. */
  lemma TrimGivesUp(lim: Limits, s: Slice, now: nat, size: nat)
    requires lim == Limits(PerSecond(1024 * HZ), Unlimited) && s == Slice(0, 0, 0, 2 * SLICE)
    requires now == 2 * SLICE && size == 2 * 1024 * SLICE
    ensures Trimmed(lim, s, now).start <= now
    ensures BytesWithin(lim.bps, s, now, size) && !BytesWithin(lim.bps, Trimmed(lim, s, now), now, size)
  {
    TwoSlices();
    var s' := Trimmed(lim, s, now);
    assert s'.start == 2 * SLICE && s'.bytes == 0;
    RoundUpIs(2, 2 * SLICE);
    RoundUpIs(1, SLICE);
    ThrottleWait.SectorsPerTick(2 * SLICE);
    ThrottleWait.SectorsPerTick(SLICE);
  }
}
