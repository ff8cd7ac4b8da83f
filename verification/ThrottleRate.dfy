/**
 The slice arithmetic of I/O throttling (block/blk-throttle.c): one direction of one group.
 Time is counted in jiffies, HZ of them a second, and does not wrap.
 */
module ThrottleRate {
  import opened Common

  type Positive = n: nat | n > 0 witness 1

  const SLICE: Positive := HZ / 10
  const UINT_MAX: nat := 0xFFFF_FFFF

  /** A limit per second; -1 in the source is `Unlimited`. */
  datatype Rate = Unlimited | PerSecond(n: Positive)

  datatype Limits = Limits(bps: Rate, iops: Rate)

  /** bytes_disp, io_disp, slice_start and slice_end of one direction. */
  datatype Slice = Slice(bytes: nat, ios: nat, start: nat, end: nat)

  /** The answer of tg_may_dispatch, with the slice it leaves behind. */
  datatype Verdict = Verdict(ok: bool, wait: nat, slice: Slice)

  function RoundUp(x: nat): nat {
    (x + SLICE - 1) / SLICE * SLICE
  }

  /** throtl_slice_used */
  predicate Used(s: Slice, now: nat) {
    !(s.start <= now <= s.end)
  }

  /** throtl_start_new_slice */
  function Fresh(now: nat): Slice {
    Slice(0, 0, now, now + SLICE)
  }

  /** throtl_extend_slice, under the test its callers make. */
  function Extended(s: Slice, until: nat): Slice {
    if s.end < until then s.(end := RoundUp(until)) else s
  }

  /** The slice that tg_may_dispatch tests against: a new one if the last has expired. */
  function Renewed(s: Slice, now: nat): Slice {
    if Used(s, now) then Fresh(now) else Extended(s, now + SLICE)
  }

  /** jiffy_elapsed_rnd */
  function Rounded(s: Slice, now: nat): nat
    requires s.start <= now
  {
    RoundUp(if now == s.start then SLICE else now - s.start)
  }

  function Allowance(n: nat, ticks: nat): nat {
    n * ticks / HZ
  }

  function Ticks(count: nat, n: Positive): nat {
    count * HZ / n
  }

  /** The test of tg_with_in_bps_limit. */
  predicate BytesWithin(bps: Rate, s: Slice, now: nat, size: nat)
    requires s.start <= now
  {
    bps.PerSecond? ==> s.bytes + size <= Allowance(bps.n, Rounded(s, now))
  }

  /** Its wait for the bytes themselves, before the rounding is added back. */
  function BytesDelay(n: Positive, s: Slice, now: nat, size: nat): nat
    requires s.start <= now && !BytesWithin(PerSecond(n), s, now, size)
  {
    var extra := s.bytes + size - Allowance(n, Rounded(s, now));
    if Ticks(extra, n) == 0 then 1 else Ticks(extra, n)
  }

  lemma RoundUpBounds(x: nat)
    ensures x <= RoundUp(x) < x + SLICE && RoundUp(x) % SLICE == 0
  {
    var k := (x + SLICE - 1) / SLICE;
    Multiple(k, SLICE);
  }

  lemma Multiple(k: nat, t: Positive)
    ensures (k * t) % t == 0
  {
    var d := k - k * t / t;
    assert d * t == (k * t) % t;
    if d > 0 {
      Grow(t, 1, d);
    }
  }

  lemma RoundedBounds(s: Slice, now: nat)
    requires s.start <= now
    ensures now - s.start <= Rounded(s, now) <= now - s.start + SLICE
    ensures Rounded(s, now) % SLICE == 0
  {
    RoundUpBounds(if now == s.start then SLICE else now - s.start);
    if now == s.start {
      assert RoundUp(SLICE) < SLICE + SLICE;
      Between(RoundUp(SLICE), SLICE);
    }
  }

  lemma Between(r: nat, t: Positive)
    requires t <= r < t + t && r % t == 0
    ensures r == t
  {
    assert r / t == 1;
  }

  /** The wait of tg_with_in_bps_limit. */
  function BytesWait(n: Positive, s: Slice, now: nat, size: nat): nat
    requires s.start <= now && !BytesWithin(PerSecond(n), s, now, size)
  {
    RoundedBounds(s, now);
    BytesDelay(n, s, now, size) + (Rounded(s, now) - (now - s.start))
  }

  /** The test of tg_with_in_iops_limit, with the clamp to an unsigned int. */
  predicate IosWithin(iops: Rate, s: Slice, now: nat)
    requires s.start <= now
  {
    iops.PerSecond? ==>
      var allowed := Allowance(iops.n, Rounded(s, now));
      s.ios + 1 <= if allowed > UINT_MAX then UINT_MAX else allowed
  }

  function IosDue(n: Positive, s: Slice): nat {
    Ticks(s.ios + 1, n) + 1
  }

  /** The wait of tg_with_in_iops_limit. */
  function IosWait(n: Positive, s: Slice, now: nat): nat
    requires s.start <= now
  {
    if IosDue(n, s) > now - s.start then IosDue(n, s) - (now - s.start) else 1
  }

  lemma RenewedHolds(s: Slice, now: nat)
    ensures Renewed(s, now).start <= now && now + SLICE <= Renewed(s, now).end
  {
    RoundUpBounds(now + SLICE);
  }

  /** tg_may_dispatch */
  function MayDispatch(lim: Limits, s: Slice, now: nat, size: nat): Verdict {
    if lim.bps.Unlimited? && lim.iops.Unlimited? then Verdict(true, 0, s) else
      RenewedHolds(s, now);
      var s1 := Renewed(s, now);
      if !BytesWithin(lim.bps, s1, now, size) then
        var wait := BytesWait(lim.bps.n, s1, now, size);
        Verdict(false, wait, Extended(s1, now + wait))
      else if !IosWithin(lim.iops, s1, now) then
        var wait := IosWait(lim.iops.n, s1, now);
        Verdict(false, wait, Extended(s1, now + wait))
      else Verdict(true, 0, s1)
  }

  /** throtl_charge_bio */
  function Charged(s: Slice, size: nat): Slice {
    s.(bytes := s.bytes + size, ios := s.ios + 1)
  }

  /** What `nr` whole slices pay off: everything if there is no limit. */
  function PaidOff(rate: Rate, count: nat, nr: nat): nat {
    if rate.Unlimited? || count < Allowance(rate.n, SLICE * nr) then count else Allowance(rate.n, SLICE * nr)
  }

  predicate NothingToTrim(rate: Rate, nr: nat) {
    rate.PerSecond? && Allowance(rate.n, SLICE * nr) == 0
  }

  /** throtl_trim_slice */
  function Trimmed(lim: Limits, s: Slice, now: nat): Slice {
    if Used(s, now) then s else
      var s1 := s.(end := RoundUp(now + SLICE));
      var nr := (now - s.start) / SLICE;
      if nr == 0 || (NothingToTrim(lim.bps, nr) && NothingToTrim(lim.iops, nr)) then s1
      else s1.(bytes := s.bytes - PaidOff(lim.bps, s.bytes, nr), ios := s.ios - PaidOff(lim.iops, s.ios, nr),
               start := s.start + nr * SLICE)
  }

  // ---- the rate bound

  /**
   One limit's account: what has been forgotten from the counter was earned before the slice
   started, and everything dispatched will have been earned by the end of the slice.
   */
  predicate Earned(rate: Rate, first: nat, total: int, count: int, start: int, end: int) {
    rate.PerSecond? ==>
      && (total - count) * HZ <= rate.n * (start - first)
      && total * HZ <= rate.n * (end - first)
  }

  lemma AllowanceBound(n: nat, ticks: nat)
    ensures Allowance(n, ticks) * HZ <= n * ticks < (Allowance(n, ticks) + 1) * HZ
  {
  }

  /** A slice is renewed only after its end, when all that was dispatched has been earned. */
  lemma RenewEarned(rate: Rate, first: nat, total: nat, count: nat, s: Slice, now: nat)
    requires Earned(rate, first, total, count, s.start, s.end) && s.start <= now
    ensures var s' := Renewed(s, now);
            Earned(rate, first, total, if Used(s, now) then 0 else count, s'.start, s'.end)
  {
    if rate.PerSecond? {
      RenewedHolds(s, now);
      Grow(rate.n, s.end - first, Renewed(s, now).end - first);
      if Used(s, now) {
        Grow(rate.n, s.end - first, now - first);
      }
    }
  }

  /** A dispatch within the limit overdraws by at most one slice, which the slice still has ahead of it. */
  lemma ChargeEarned(rate: Rate, first: nat, total: nat, count: nat, more: nat, s: Slice, now: nat)
    requires Earned(rate, first, total, count, s.start, s.end) && s.start <= now && now + SLICE <= s.end
    requires rate.PerSecond? ==> count + more <= Allowance(rate.n, Rounded(s, now))
    ensures Earned(rate, first, total + more, count + more, s.start, now + SLICE)
  {
    if rate.PerSecond? {
      var n, rnd := rate.n, Rounded(s, now);
      RoundedBounds(s, now);
      Affords(n, count + more, rnd, now + SLICE - s.start);
      Spent(n, total, count, more, s.start - first, now + SLICE - s.start, now + SLICE - first);
      assert total + more - (count + more) == total - count;
    }
  }

  /** What an allowance covers is earned in its time, and in any longer one. */
  lemma Affords(n: nat, count: nat, ticks: nat, ticks': nat)
    requires count <= Allowance(n, ticks) && ticks <= ticks'
    ensures count * HZ <= n * ticks'
  {
    AllowanceBound(n, ticks);
    Grow(HZ, count, Allowance(n, ticks));
    Grow(n, ticks, ticks');
  }

  lemma Spent(n: int, total: int, count: int, more: int, a: int, b: int, c: int)
    requires (total - count) * HZ <= n * a && (count + more) * HZ <= n * b && c == a + b
    ensures (total + more) * HZ <= n * c
  {
    Distribute(n, a, b);
    Distribute(HZ, total - count, count + more);
  }

  /** Trimming forgets no more than the trimmed slices earned. */
  lemma TrimEarned(rate: Rate, first: nat, total: nat, count: nat, start: nat, end: nat, nr: nat, end': nat)
    requires Earned(rate, first, total, count, start, end) && end <= end'
    ensures Earned(rate, first, total, count - PaidOff(rate, count, nr), start + nr * SLICE, end')
  {
    if rate.PerSecond? {
      var paid := PaidOff(rate, count, nr);
      AllowanceBound(rate.n, SLICE * nr);
      Grow(HZ, paid, Allowance(rate.n, SLICE * nr));
      Distribute(rate.n, start - first, SLICE * nr);
      assert (total - (count - paid)) * HZ == (total - count) * HZ + paid * HZ;
      Grow(rate.n, end - first, end' - first);
    }
  }

  /** A call of tg_may_dispatch; a committed one that is allowed is charged and the slice trimmed. */
  datatype Event = Event(now: nat, size: nat, commit: bool)

  datatype World = World(slice: Slice, first: nat, last: nat, bytes: nat, ios: nat)

  function Apply(lim: Limits, w: World, e: Event): World {
    var v := MayDispatch(lim, w.slice, e.now, e.size);
    if v.ok && e.commit then
      World(Trimmed(lim, Charged(v.slice, e.size), e.now), w.first, e.now, w.bytes + e.size, w.ios + 1)
    else
      w.(slice := v.slice, last := e.now)
  }

  /** A new group whose first call is at `first`. */
  function Init(first: nat): World {
    World(Slice(0, 0, 0, 0), first, first, 0, 0)
  }

  predicate Ordered(events: seq<Event>) {
    forall i, j :: 0 <= i <= j < |events| ==> events[i].now <= events[j].now
  }

  function Run(lim: Limits, events: seq<Event>): World
    requires events != []
    decreases |events|
  {
    var n := |events| - 1;
    Apply(lim, if n == 0 then Init(events[0].now) else Run(lim, events[..n]), events[n])
  }

  /** The invariant of a run: both accounts are in order, and neither is overdrawn by more than a slice. */
  predicate Inv(lim: Limits, w: World) {
    && w.slice.start <= w.last && w.slice.start <= w.slice.end
    && Account(lim.bps, w.first, w.last, w.bytes, w.slice.bytes, w.slice)
    && Account(lim.iops, w.first, w.last, w.ios, w.slice.ios, w.slice)
  }

  predicate Account(rate: Rate, first: nat, last: nat, total: nat, count: nat, s: Slice) {
    && Earned(rate, first, total, count, s.start, s.end)
    && Bounded(rate, first, last, total)
  }

  /** By `now`, no more than the limit earns since `first`, and one slice ahead. */
  predicate Bounded(rate: Rate, first: nat, now: nat, total: int) {
    rate.PerSecond? ==> total * HZ <= rate.n * (now - first + SLICE)
  }

  lemma FirstSlice(now: nat)
    ensures Renewed(Slice(0, 0, 0, 0), now) == Fresh(now)
  {
    RoundUpBounds(SLICE);
    Between(RoundUp(SLICE), SLICE);
  }

  /** The slice tested against keeps both accounts. */
  lemma RenewKeeps(lim: Limits, w: World, now: nat)
    requires (Inv(lim, w) && w.last <= now) || (w == Init(now))
    ensures var s' := Renewed(w.slice, now);
            && Earned(lim.bps, w.first, w.bytes, s'.bytes, s'.start, s'.end)
            && Earned(lim.iops, w.first, w.ios, s'.ios, s'.start, s'.end)
  {
    if w == Init(now) {
      FirstSlice(now);
    } else {
      RenewEarned(lim.bps, w.first, w.bytes, w.slice.bytes, w.slice, now);
      RenewEarned(lim.iops, w.first, w.ios, w.slice.ios, w.slice, now);
    }
  }

  lemma BoundedLater(rate: Rate, first: nat, last: nat, now: nat, total: int)
    requires Bounded(rate, first, last, total) && last <= now
    ensures Bounded(rate, first, now, total)
  {
    if rate.PerSecond? {
      Grow(rate.n, last - first + SLICE, now - first + SLICE);
    }
  }

  lemma EarnedLonger(rate: Rate, first: nat, total: nat, count: nat, start: nat, end: nat, end': nat)
    requires Earned(rate, first, total, count, start, end) && end <= end'
    ensures Earned(rate, first, total, count, start, end')
  {
    if rate.PerSecond? {
      Grow(rate.n, end - first, end' - first);
    }
  }

  /** The slice an answer leaves: the one tested against, perhaps longer. */
  lemma AnswerSlice(lim: Limits, s: Slice, now: nat, size: nat)
    requires lim.bps.PerSecond? || lim.iops.PerSecond?
    ensures var s1, s' := Renewed(s, now), MayDispatch(lim, s, now, size).slice;
            && s' == s1.(end := s'.end) && s1.end <= s'.end
            && s'.start <= now && s'.start <= s'.end
  {
    RenewedHolds(s, now);
    RoundUpBounds(now + MayDispatch(lim, s, now, size).wait);
  }

  lemma AskAccount(rate: Rate, first: nat, last: nat, now: nat, total: nat, count: nat, s: Slice, s': Slice)
    requires Earned(rate, first, total, count, s.start, s.end) && Bounded(rate, first, last, total) && last <= now
    requires s'.start == s.start && s.end <= s'.end
    ensures Account(rate, first, now, total, count, s')
  {
    BoundedLater(rate, first, last, now, total);
    EarnedLonger(rate, first, total, count, s.start, s.end, s'.end);
  }

  lemma InitBounded(rate: Rate, now: nat)
    ensures Bounded(rate, now, now, 0)
  {
    if rate.PerSecond? {
      Grow(rate.n, 0, SLICE);
    }
  }

  /** A refusal, or a call made only to learn the wait. */
  lemma AskKeeps(lim: Limits, w: World, e: Event)
    requires (Inv(lim, w) && w.last <= e.now) || (w == Init(e.now))
    ensures var v := MayDispatch(lim, w.slice, e.now, e.size);
            Inv(lim, w.(slice := v.slice, last := e.now))
  {
    if lim.bps.PerSecond? || lim.iops.PerSecond? {
      RenewKeeps(lim, w, e.now);
      AnswerSlice(lim, w.slice, e.now, e.size);
      InitBounded(lim.bps, e.now);
      InitBounded(lim.iops, e.now);
      var s, s' := Renewed(w.slice, e.now), MayDispatch(lim, w.slice, e.now, e.size).slice;
      AskAccount(lim.bps, w.first, w.last, e.now, w.bytes, s.bytes, s, s');
      AskAccount(lim.iops, w.first, w.last, e.now, w.ios, s.ios, s, s');
    }
  }

  /** A dispatch, charged. */
  lemma ChargeKeeps(lim: Limits, w: World, e: Event)
    requires (Inv(lim, w) && w.last <= e.now) || (w == Init(e.now))
    requires MayDispatch(lim, w.slice, e.now, e.size).ok
    ensures var s := Charged(MayDispatch(lim, w.slice, e.now, e.size).slice, e.size);
            && s.start <= e.now && s.start <= s.end
            && Earned(lim.bps, w.first, w.bytes + e.size, s.bytes, s.start, e.now + SLICE)
            && Earned(lim.iops, w.first, w.ios + 1, s.ios, s.start, e.now + SLICE)
  {
    var s := Renewed(w.slice, e.now);
    RenewKeeps(lim, w, e.now);
    RenewedHolds(w.slice, e.now);
    if lim.bps.PerSecond? || lim.iops.PerSecond? {
      ChargeEarned(lim.bps, w.first, w.bytes, s.bytes, e.size, s, e.now);
      ChargeEarned(lim.iops, w.first, w.ios, s.ios, 1, s, e.now);
    }
  }

  /** A counter left alone, or with `nr` slices paid off. */
  predicate Paid(rate: Rate, count: nat, start: nat, count': nat, start': nat, nr: nat) {
    || (count' == count && start' == start)
    || (count' == count - PaidOff(rate, count, nr) && start' == start + nr * SLICE)
  }

  lemma TrimmedSlice(lim: Limits, s: Slice, now: nat, s': Slice) returns (nr: nat)
    requires s.start <= now <= s.end && s' == Trimmed(lim, s, now)
    ensures s'.start <= now && now + SLICE <= s'.end
    ensures Paid(lim.bps, s.bytes, s.start, s'.bytes, s'.start, nr)
    ensures Paid(lim.iops, s.ios, s.start, s'.ios, s'.start, nr)
  {
    nr := (now - s.start) / SLICE;
    RoundUpBounds(now + SLICE);
    assert nr * SLICE <= now - s.start;
  }

  lemma TrimAccount(rate: Rate, first: nat, total: nat, count: nat, start: nat, now: nat, count': nat, s': Slice,
                    nr: nat)
    requires Earned(rate, first, total, count, start, now + SLICE) && now + SLICE <= s'.end
    requires Paid(rate, count, start, count', s'.start, nr)
    ensures Account(rate, first, now, total, count', s')
  {
    if count' == count && s'.start == start {
      EarnedLonger(rate, first, total, count, start, now + SLICE, s'.end);
    } else {
      TrimEarned(rate, first, total, count, start, now + SLICE, nr, s'.end);
    }
  }

  /** The trim after it. */
  lemma TrimKeeps(lim: Limits, first: nat, bytes: nat, ios: nat, s: Slice, now: nat)
    requires s.start <= now && s.start <= s.end
    requires Earned(lim.bps, first, bytes, s.bytes, s.start, now + SLICE)
    requires Earned(lim.iops, first, ios, s.ios, s.start, now + SLICE)
    requires lim.bps.PerSecond? || lim.iops.PerSecond? ==> now <= s.end
    ensures Inv(lim, World(Trimmed(lim, s, now), first, now, bytes, ios))
  {
    var s' := Trimmed(lim, s, now);
    if now <= s.end {
      var nr := TrimmedSlice(lim, s, now, s');
      TrimAccount(lim.bps, first, bytes, s.bytes, s.start, now, s'.bytes, s', nr);
      TrimAccount(lim.iops, first, ios, s.ios, s.start, now, s'.ios, s', nr);
    }
  }

  lemma StepKeeps(lim: Limits, w: World, e: Event)
    requires (Inv(lim, w) && w.last <= e.now) || (w == Init(e.now))
    ensures Inv(lim, Apply(lim, w, e))
  {
    AskKeeps(lim, w, e);
    var v := MayDispatch(lim, w.slice, e.now, e.size);
    if v.ok && e.commit {
      ChargeKeeps(lim, w, e);
      RenewedHolds(w.slice, e.now);
      TrimKeeps(lim, w.first, w.bytes + e.size, w.ios + 1, Charged(v.slice, e.size), e.now);
    }
  }

  lemma {:induction false} RunKeeps(lim: Limits, events: seq<Event>)
    requires events != [] && Ordered(events)
    ensures Inv(lim, Run(lim, events))
    ensures Run(lim, events).first == events[0].now && Run(lim, events).last == events[|events| - 1].now
    decreases |events|
  {
    var n := |events| - 1;
    if n > 0 {
      RunKeeps(lim, events[..n]);
      StepKeeps(lim, Run(lim, events[..n]), events[n]);
    } else {
      StepKeeps(lim, Init(events[0].now), events[0]);
    }
  }

  /** What a run dispatched, told from the verdicts alone. */
  function Dispatched(lim: Limits, events: seq<Event>): (int, int)
    decreases |events|
  {
    if events == [] then (0, 0) else
      var n := |events| - 1;
      var before := Dispatched(lim, events[..n]);
      var s := if n == 0 then Slice(0, 0, 0, 0) else Run(lim, events[..n]).slice;
      if events[n].commit && MayDispatch(lim, s, events[n].now, events[n].size).ok
      then (before.0 + events[n].size, before.1 + 1) else before
  }

  lemma {:induction false} DispatchedCounted(lim: Limits, events: seq<Event>)
    requires events != []
    ensures Dispatched(lim, events) == (Run(lim, events).bytes, Run(lim, events).ios)
    decreases |events|
  {
    var n := |events| - 1;
    if n > 0 {
      DispatchedCounted(lim, events[..n]);
    }
  }

  /** The rate bound, over every run of trims, extensions and renewals. */
  lemma RateBound(lim: Limits, events: seq<Event>, now: nat)
    requires events != [] && Ordered(events) && events[|events| - 1].now <= now
    ensures Bounded(lim.bps, events[0].now, now, Dispatched(lim, events).0)
    ensures Bounded(lim.iops, events[0].now, now, Dispatched(lim, events).1)
  {
    RunKeeps(lim, events);
    DispatchedCounted(lim, events);
    var w := Run(lim, events);
    BoundedLater(lim.bps, w.first, w.last, now, w.bytes);
    BoundedLater(lim.iops, w.first, w.last, now, w.ios);
  }
}
