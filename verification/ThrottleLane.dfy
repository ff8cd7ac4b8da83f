/**
 The bios of one direction of a throttled group (block/blk-throttle.c), with a record of what
 was asked of its slice, what arrived and what was let through.
 */
module ThrottleLane {
  import opened Common
  import opened ThrottleRate

  /** `throttled` is REQ_THROTTLED. */
  datatype Bio = Bio(id: nat, size: nat, throttled: bool)

  /** Limits, slice, bio_lists[rw] and nr_queued[rw]. */
  datatype Lane = Lane(lim: Limits, slice: Slice, bios: seq<Bio>, nr: nat)

  datatype Log = Log(events: seq<Event>, arrived: seq<Bio>, sent: seq<Bio>)

  const ZERO := Slice(0, 0, 0, 0)

  function Bytes(bios: seq<Bio>): nat {
    if bios == [] then 0 else Bytes(bios[..|bios| - 1]) + bios[|bios| - 1].size
  }

  function SliceAfter(lim: Limits, events: seq<Event>): Slice {
    if events == [] then ZERO else Run(lim, events).slice
  }

  predicate Timed(events: seq<Event>, clock: nat) {
    Ordered(events) && (events != [] ==> events[|events| - 1].now <= clock)
  }

  /** The slice is what the events made of it, and they let through what was sent. */
  ghost predicate Told(lane: Lane, log: Log, clock: nat) {
    && Timed(log.events, clock)
    && lane.slice == SliceAfter(lane.lim, log.events)
    && Dispatched(lane.lim, log.events) == (Bytes(log.sent), |log.sent|)
  }

  /** Bios leave in the order they arrived, and the rest is queued. */
  ghost predicate LaneOk(lane: Lane, log: Log, clock: nat) {
    && lane.nr == |lane.bios|
    && forall k {:trigger Unfold(k, log)} :: Unfold(k, log) ==>
         log.arrived == log.sent + lane.bios && Told(lane, log, clock)
  }

  lemma LaneNew(lim: Limits, clock: nat)
    ensures LaneOk(Lane(lim, ZERO, [], 0), Log([], [], []), clock)
  {
  }

  lemma LaneLater(lane: Lane, log: Log, clock: nat, now: nat)
    requires LaneOk(lane, log, clock) && clock <= now
    ensures LaneOk(lane, log, now)
  {
    assert Unfold(0, log);
  }

  lemma TimedAppend(events: seq<Event>, clock: nat, e: Event)
    requires Timed(events, clock) && clock <= e.now
    ensures Timed(events + [e], e.now)
  {
    var events' := events + [e];
    forall i, j | 0 <= i <= j < |events'| ensures events'[i].now <= events'[j].now {
      if i < |events| {
        assert events[i].now <= events[|events| - 1].now;
      }
    }
  }

  lemma OneMoreSlice(lim: Limits, events: seq<Event>, e: Event, v: Verdict)
    requires v == MayDispatch(lim, SliceAfter(lim, events), e.now, e.size)
    ensures SliceAfter(lim, events + [e]) ==
            if v.ok && e.commit then Trimmed(lim, Charged(v.slice, e.size), e.now) else v.slice
  {
    assert (events + [e])[..|events|] == events;
    var w := if events == [] then Init(e.now) else Run(lim, events);
    assert w.slice == SliceAfter(lim, events);
    assert Run(lim, events + [e]) == Apply(lim, w, e);
  }

  lemma OneMoreSent(lim: Limits, events: seq<Event>, e: Event, v: Verdict)
    requires v == MayDispatch(lim, SliceAfter(lim, events), e.now, e.size)
    ensures Dispatched(lim, events + [e]) ==
            if v.ok && e.commit then (Dispatched(lim, events).0 + e.size, Dispatched(lim, events).1 + 1)
            else Dispatched(lim, events)
  {
    assert (events + [e])[..|events|] == events;
  }

  /** One more event. */
  lemma OneMore(lim: Limits, events: seq<Event>, e: Event)
    ensures var v := MayDispatch(lim, SliceAfter(lim, events), e.now, e.size);
            && SliceAfter(lim, events + [e]) ==
               (if v.ok && e.commit then Trimmed(lim, Charged(v.slice, e.size), e.now) else v.slice)
            && Dispatched(lim, events + [e]) ==
               (if v.ok && e.commit then (Dispatched(lim, events).0 + e.size, Dispatched(lim, events).1 + 1)
                else Dispatched(lim, events))
  {
    var v := MayDispatch(lim, SliceAfter(lim, events), e.now, e.size);
    OneMoreSlice(lim, events, e, v);
    OneMoreSent(lim, events, e, v);
  }

  /** A call made for the wait, or refused. */
  lemma LaneAsk(lane: Lane, log: Log, clock: nat, now: nat, size: nat, commit: bool)
    requires LaneOk(lane, log, clock) && clock <= now
    requires commit ==> !MayDispatch(lane.lim, lane.slice, now, size).ok
    ensures LaneOk(lane.(slice := MayDispatch(lane.lim, lane.slice, now, size).slice),
                   log.(events := log.events + [Event(now, size, commit)]), now)
  {
    assert Unfold(0, log);
    OneMore(lane.lim, log.events, Event(now, size, commit));
    TimedAppend(log.events, clock, Event(now, size, commit));
  }

  /** The slice after a bio is charged to it. */
  function AfterSend(lane: Lane, now: nat, size: nat): Slice {
    Trimmed(lane.lim, Charged(MayDispatch(lane.lim, lane.slice, now, size).slice, size), now)
  }

  lemma Sent(lane: Lane, log: Log, clock: nat, now: nat, bio: Bio)
    requires Told(lane, log, clock) && clock <= now && MayDispatch(lane.lim, lane.slice, now, bio.size).ok
    ensures Told(lane.(slice := AfterSend(lane, now, bio.size)),
                 log.(events := log.events + [Event(now, bio.size, true)], sent := log.sent + [bio]), now)
  {
    OneMore(lane.lim, log.events, Event(now, bio.size, true));
    TimedAppend(log.events, clock, Event(now, bio.size, true));
    assert (log.sent + [bio])[..|log.sent|] == log.sent;
  }

  /** tg_dispatch_one_bio on the lane: the head goes. */
  function Popped(lane: Lane, now: nat): Lane
    requires lane.bios != [] && lane.nr > 0
  {
    lane.(bios := lane.bios[1..], nr := lane.nr - 1, slice := AfterSend(lane, now, lane.bios[0].size))
  }

  lemma LanePop(lane: Lane, log: Log, clock: nat, now: nat)
    requires LaneOk(lane, log, clock) && clock <= now && lane.bios != []
    requires MayDispatch(lane.lim, lane.slice, now, lane.bios[0].size).ok
    ensures LaneOk(Popped(lane, now),
                   log.(events := log.events + [Event(now, lane.bios[0].size, true)],
                        sent := log.sent + [lane.bios[0]]), now)
  {
    assert Unfold(0, log);
    Sent(lane, log, clock, now, lane.bios[0]);
    assert log.sent + lane.bios == (log.sent + [lane.bios[0]]) + lane.bios[1..];
  }

  /** A bio let through without being queued, which happens only when none is waiting. */
  lemma LaneDirect(lane: Lane, log: Log, clock: nat, now: nat, bio: Bio)
    requires LaneOk(lane, log, clock) && clock <= now && lane.nr == 0
    requires MayDispatch(lane.lim, lane.slice, now, bio.size).ok
    ensures LaneOk(lane.(slice := AfterSend(lane, now, bio.size)),
                   Log(log.events + [Event(now, bio.size, true)], log.arrived + [bio], log.sent + [bio]), now)
  {
    assert Unfold(0, log);
    Sent(lane, log, clock, now, bio);
    assert log.arrived + [bio] == (log.sent + [bio]) + lane.bios;
  }

  lemma LaneQueue(lane: Lane, log: Log, clock: nat, bio: Bio)
    requires LaneOk(lane, log, clock)
    ensures LaneOk(lane.(bios := lane.bios + [bio], nr := lane.nr + 1), log.(arrived := log.arrived + [bio]), clock)
  {
    assert Unfold(0, log);
    assert log.sent + (lane.bios + [bio]) == (log.sent + lane.bios) + [bio];
  }

  lemma LaneFifo(lane: Lane, log: Log, clock: nat)
    requires LaneOk(lane, log, clock)
    ensures log.arrived == log.sent + lane.bios
  {
    assert Unfold(0, log);
  }

  /** What was let through stays within both limits. */
  lemma LaneRate(lane: Lane, log: Log, clock: nat)
    requires LaneOk(lane, log, clock) && log.events != []
    ensures Bounded(lane.lim.bps, log.events[0].now, clock, Bytes(log.sent))
    ensures Bounded(lane.lim.iops, log.events[0].now, clock, |log.sent|)
  {
    assert Unfold(0, log);
    RateBound(lane.lim, log.events, clock);
  }

  /** A refused bio waits at least a tick, and asking again at once is refused again. */
  lemma RefusedAgain(lim: Limits, s: Slice, now: nat, size: nat)
    requires !MayDispatch(lim, s, now, size).ok
    ensures var v := MayDispatch(lim, s, now, size);
            v.wait >= 1 && !MayDispatch(lim, v.slice, now, size).ok
  {
    RenewedHolds(s, now);
    var s1, v := Renewed(s, now), MayDispatch(lim, s, now, size);
    RoundedBounds(s1, now);
    RoundUpBounds(now + v.wait);
    var s2 := Renewed(v.slice, now);
    assert s2.start == s1.start && s2.bytes == s1.bytes && s2.ios == s1.ios;
    assert Rounded(s2, now) == Rounded(s1, now);
  }
}
