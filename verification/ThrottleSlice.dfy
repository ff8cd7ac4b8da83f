/**
 One direction of a throttled group, updated in place (block/blk-throttle.c), against the
 functions of ThrottleRate.
 */
module ThrottleSlice {
  import opened ThrottleRate

  class Direction {
    const lim: Limits
    var bytesDisp: nat
    var ioDisp: nat
    var sliceStart: nat
    var sliceEnd: nat

    function State(): Slice
      reads this
    {
      Slice(bytesDisp, ioDisp, sliceStart, sliceEnd)
    }

    constructor (lim: Limits)
      ensures this.lim == lim && State() == Slice(0, 0, 0, 0)
    {
      this.lim := lim;
      bytesDisp, ioDisp, sliceStart, sliceEnd := 0, 0, 0, 0;
    }

    method StartNewSlice(now: nat)
      modifies this
      ensures State() == Fresh(now)
    {
      bytesDisp := 0;
      ioDisp := 0;
      sliceStart := now;
      sliceEnd := now + SLICE;
    }

    method ExtendSlice(until: nat)
      modifies this`sliceEnd
      ensures until <= sliceEnd < until + SLICE && sliceEnd % SLICE == 0 && sliceEnd == RoundUp(until)
    {
      sliceEnd := RoundUp(until);
      RoundUpBounds(until);
    }

    /** tg_with_in_bps_limit; -1 lets everything through. */
    method WithinBps(now: nat, size: nat) returns (ok: bool, wait: nat)
      requires sliceStart <= now
      ensures ok == BytesWithin(lim.bps, State(), now, size)
      ensures wait == if ok then 0 else BytesWait(lim.bps.n, State(), now, size)
    {
      if lim.bps.Unlimited? {
        return true, 0;
      }
      var elapsed := now - sliceStart;
      var rnd := elapsed;
      if elapsed == 0 {
        rnd := SLICE;
      }
      rnd := RoundUp(rnd);
      assert rnd == Rounded(State(), now);
      var allowed := Allowance(lim.bps.n, rnd);
      if bytesDisp + size <= allowed {
        return true, 0;
      }
      var extra := bytesDisp + size - allowed;
      wait := Ticks(extra, lim.bps.n);
      if wait == 0 {
        wait := 1;
      }
      RoundedBounds(State(), now);
      wait := wait + (rnd - elapsed);
      ok := false;
    }

    /** tg_with_in_iops_limit */
    method WithinIops(now: nat) returns (ok: bool, wait: nat)
      requires sliceStart <= now
      ensures ok == IosWithin(lim.iops, State(), now)
      ensures wait == if ok then 0 else IosWait(lim.iops.n, State(), now)
    {
      if lim.iops.Unlimited? {
        return true, 0;
      }
      var elapsed := now - sliceStart;
      var rnd := elapsed;
      if elapsed == 0 {
        rnd := SLICE;
      }
      rnd := RoundUp(rnd);
      assert rnd == Rounded(State(), now);
      var allowed := Allowance(lim.iops.n, rnd);
      if allowed > UINT_MAX {
        allowed := UINT_MAX;
      }
      if ioDisp + 1 <= allowed {
        return true, 0;
      }
      wait := Ticks(ioDisp + 1, lim.iops.n) + 1;
      wait := if wait > elapsed then wait - elapsed else 1;
      ok := false;
    }

    /** A new slice if the last has expired, else room for one more interval. */
    method RenewSlice(now: nat)
      modifies this
      ensures State() == Renewed(old(State()), now) && sliceStart <= now && now + SLICE <= sliceEnd
    {
      RenewedHolds(State(), now);
      if !(sliceStart <= now <= sliceEnd) {
        StartNewSlice(now);
      } else if sliceEnd < now + SLICE {
        ExtendSlice(now + SLICE);
      }
    }

    /** tg_may_dispatch: one test not met is enough to skip the other. */
    method AskDispatch(now: nat, size: nat) returns (ok: bool, wait: nat)
      modifies this
      ensures Verdict(ok, wait, State()) == MayDispatch(lim, old(State()), now, size)
    {
      if lim.bps.Unlimited? && lim.iops.Unlimited? {
        return true, 0;
      }
      RenewSlice(now);
      ghost var s1 := State();
      var bpsWait, iopsWait := 0, 0;
      ok, bpsWait := WithinBps(now, size);
      if ok {
        ok, iopsWait := WithinIops(now);
      }
      if ok {
        return true, 0;
      }
      wait := if bpsWait > iopsWait then bpsWait else iopsWait;
      if sliceEnd < now + wait {
        ExtendSlice(now + wait);
      }
      assert State() == Extended(s1, now + wait);
    }

    method ChargeBio(size: nat)
      modifies this
      ensures State() == Charged(old(State()), size)
    {
      bytesDisp := bytesDisp + size;
      ioDisp := ioDisp + 1;
    }

    /** throtl_trim_slice, whose check that the slice does not end before it starts is the precondition. */
    method TrimSlice(now: nat)
      requires sliceStart <= sliceEnd
      modifies this
      ensures State() == Trimmed(lim, old(State()), now)
    {
      if !(sliceStart <= now <= sliceEnd) {
        return;
      }
      ExtendSlice(now + SLICE);
      var nr := (now - sliceStart) / SLICE;
      if nr == 0 {
        return;
      }
      if NothingToTrim(lim.bps, nr) && NothingToTrim(lim.iops, nr) {
        return;
      }
      bytesDisp := if lim.bps.PerSecond? && bytesDisp >= Allowance(lim.bps.n, SLICE * nr)
        then bytesDisp - Allowance(lim.bps.n, SLICE * nr) else 0;
      ioDisp := if lim.iops.PerSecond? && ioDisp >= Allowance(lim.iops.n, SLICE * nr)
        then ioDisp - Allowance(lim.iops.n, SLICE * nr) else 0;
      sliceStart := sliceStart + nr * SLICE;
    }

    /** The path of a bio that is let through: asked, charged, trimmed. */
    method Send(now: nat, size: nat) returns (ok: bool)
      requires sliceStart <= sliceEnd
      modifies this
      ensures State() == Apply(lim, World(old(State()), 0, 0, 0, 0), Event(now, size, true)).slice
      ensures ok == MayDispatch(lim, old(State()), now, size).ok && sliceStart <= sliceEnd
    {
      var wait;
      ok, wait := AskDispatch(now, size);
      AskedEnds(lim, old(State()), now, size);
      if ok {
        ChargeBio(size);
        ghost var s := State();
        TrimSlice(now);
        TrimmedEnds(lim, s, now);
      }
    }
  }

  lemma AskedEnds(lim: Limits, s: Slice, now: nat, size: nat)
    requires s.start <= s.end
    ensures MayDispatch(lim, s, now, size).slice.start <= MayDispatch(lim, s, now, size).slice.end
  {
    RenewedHolds(s, now);
    RoundUpBounds(now + MayDispatch(lim, s, now, size).wait);
  }

  lemma TrimmedEnds(lim: Limits, s: Slice, now: nat)
    requires s.start <= s.end
    ensures Trimmed(lim, s, now).start <= Trimmed(lim, s, now).end
  {
    RoundUpBounds(now + SLICE);
    if !Used(s, now) {
      assert (now - s.start) / SLICE * SLICE <= now - s.start;
    }
  }
}
