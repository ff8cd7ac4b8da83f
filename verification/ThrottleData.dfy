/**
 The operations on the throttled groups of a queue, in place (block/blk-throttle.c).
 */
module ThrottleData {
  import opened Common
  import opened ThrottleRate
  import opened Lists
  import opened RbTree
  import opened ThrottleLane
  import opened ThrottleQueue
  import opened ThrottleIssue

  /** The group with one lane replaced. */
  function WithLane(g: Group, rw: nat, lane: Lane): Group
    requires rw < |g.lanes|
  {
    g.(lanes := g.lanes[rw := lane])
  }

  predicate SameArrived(l: seq<Log>, l': seq<Log>) {
    |l| == |l'| == 2 && l'[0].arrived == l[0].arrived && l'[1].arrived == l[1].arrived
  }

  /** No lane saw an arrival: what is no longer queued was sent. */
  predicate SameArrivals(logs: seq<seq<Log>>, logs': seq<seq<Log>>) {
    |logs'| == |logs| && forall i :: 0 <= i < |logs| ==> SameArrived(logs[i], logs'[i])
  }

  /** The only arrival is `bio`, on one lane. */
  predicate OneArrival(logs: seq<seq<Log>>, logs': seq<seq<Log>>, id: nat, rw: nat, bio: Bio) {
    && |logs'| == |logs| && id < |logs| && rw < 2
    && (forall i :: 0 <= i < |logs| && i != id ==> SameArrived(logs[i], logs'[i]))
    && |logs[id]| == |logs'[id]| == 2
    && logs'[id][rw].arrived == logs[id][rw].arrived + [bio] && logs'[id][1 - rw].arrived == logs[id][1 - rw].arrived
  }

  lemma PutLane(groups: seq<Group>, logs: seq<seq<Log>>, now: nat, id: nat, rw: nat, lane: Lane, log: Log)
    requires LanesOk(groups, logs, now) && id < |groups| && rw < 2 && LaneOk(lane, log, now)
    ensures |groups[id].lanes| == 2 && |logs[id]| == 2
    ensures LanesOk(groups[id := WithLane(groups[id], rw, lane)], logs[id := logs[id][rw := log]], now)
  {
    assert GroupOk(groups[id], logs[id], now);
    var groups', logs' := groups[id := WithLane(groups[id], rw, lane)], logs[id := logs[id][rw := log]];
    forall i | 0 <= i < |groups'| ensures GroupOk(groups'[i], logs'[i], now) {
      assert GroupOk(groups[i], logs[i], now);
    }
  }

  lemma GroupAdded(groups: seq<Group>, tree: seq<Node>, left: Option<nat>, count: nat, queued: seq<nat>, g: Group)
    requires TreeOk(groups, tree, left, count) && CountsOk(groups, queued) && Served(groups)
    requires !g.onRR && !Waiting(g)
    ensures TreeOk(groups + [g], tree, left, count) && CountsOk(groups + [g], queued) && Served(groups + [g])
  {
    SumAppend(groups, g, READ);
    SumAppend(groups, g, WRITE);
    forall k | 0 <= k < |tree| ensures NodeOk(groups + [g], tree[k]) {
      assert NodeOk(groups, tree[k]);
    }
  }

  lemma LanesAdded(groups: seq<Group>, logs: seq<seq<Log>>, clock: nat, g: Group, l: seq<Log>)
    requires LanesOk(groups, logs, clock) && GroupOk(g, l, clock)
    ensures LanesOk(groups + [g], logs + [l], clock)
  {
    forall i | 0 <= i < |groups + [g]| ensures GroupOk((groups + [g])[i], (logs + [l])[i], clock) {
      assert i < |groups| ==> GroupOk(groups[i], logs[i], clock);
    }
  }

  /** The wait announced for the first bio of a lane. */
  function WaitOf(lane: Lane, now: nat): Option<nat> {
    if lane.bios == [] then None else Some(MayDispatch(lane.lim, lane.slice, now, lane.bios[0].size).wait)
  }

  function Asked(lane: Lane, now: nat): Lane {
    if lane.bios == [] then lane else lane.(slice := MayDispatch(lane.lim, lane.slice, now, lane.bios[0].size).slice)
  }

  /** A group after tg_update_disptime. */
  function Updated(g: Group, now: nat): Group
    requires |g.lanes| == 2 && (g.lanes[READ].bios != [] || g.lanes[WRITE].bios != [])
  {
    Group([Asked(g.lanes[READ], now), Asked(g.lanes[WRITE], now)],
          now + Shorter(WaitOf(g.lanes[READ], now), WaitOf(g.lanes[WRITE], now)), true)
  }

  predicate Refused(lane: Lane, now: nat) {
    lane.bios == [] || !MayDispatch(lane.lim, lane.slice, now, lane.bios[0].size).ok
  }

  /** The shorter of the announced waits. */
  function Shorter(a: Option<nat>, b: Option<nat>): nat
    requires a.Some? || b.Some?
  {
    if a.None? then b.value else if b.None? then a.value else if a.value < b.value then a.value else b.value
  }

  /** The group is due when the first bio of one of its lanes is, and no later than that of either. */
  predicate DueWith(g: Group, now: nat, disptime: nat) {
    && |g.lanes| == 2
    && (forall rw :: 0 <= rw < 2 && g.lanes[rw].bios != [] ==> disptime <= now + FirstWait(g.lanes[rw], now))
    && (exists rw :: 0 <= rw < 2 && g.lanes[rw].bios != [] && disptime == now + FirstWait(g.lanes[rw], now))
  }

  /** What tg_may_dispatch announces for the first bio of a lane. */
  function FirstWait(lane: Lane, now: nat): nat
    requires lane.bios != []
  {
    MayDispatch(lane.lim, lane.slice, now, lane.bios[0].size).wait
  }

  lemma UpdatedDue(g: Group, now: nat)
    requires |g.lanes| == 2 && (g.lanes[READ].bios != [] || g.lanes[WRITE].bios != [])
    ensures DueWith(g, now, Updated(g, now).disptime)
  {
    ShorterIs(WaitOf(g.lanes[READ], now), WaitOf(g.lanes[WRITE], now));
    forall rw | 0 <= rw < 2 && g.lanes[rw].bios != []
      ensures WaitOf(g.lanes[rw], now) == Some(FirstWait(g.lanes[rw], now))
    {
    }
    assert g.lanes[READ].bios == [] ==> WaitOf(g.lanes[READ], now) == None;
    assert g.lanes[WRITE].bios == [] ==> WaitOf(g.lanes[WRITE], now) == None;
  }

  lemma ShorterIs(a: Option<nat>, b: Option<nat>)
    requires a.Some? || b.Some?
    ensures (a.Some? ==> Shorter(a, b) <= a.value) && (b.Some? ==> Shorter(a, b) <= b.value)
    ensures a == Some(Shorter(a, b)) || b == Some(Shorter(a, b))
  {
  }

  /** A lane after at most `max` bios were dispatched from it: the loops of throtl_dispatch_tg. */
  function Drained(lane: Lane, now: nat, max: nat): Lane
    requires lane.nr == |lane.bios|
    decreases max
  {
    if max == 0 || Refused(lane, now) then (if max == 0 then lane else Asked(lane, now))
    else Drained(Popped(lane, now), now, max - 1)
  }

  /** Bios leave from the front, and fewer than `max` only when the next is refused or there is none. */
  lemma {:induction false} DrainedStops(lane: Lane, now: nat, max: nat) returns (n: nat)
    requires lane.nr == |lane.bios|
    ensures var lane' := Drained(lane, now, max);
            && n <= max && n <= |lane.bios| && lane'.bios == lane.bios[n..] && lane'.nr == |lane'.bios|
            && (n < max ==> lane'.bios == [] || (WaitOf(lane', now).value >= 1))
            && (n == 0 && max > 0 ==> Refused(lane, now))
    decreases max
  {
    if max == 0 {
      n := 0;
    } else if Refused(lane, now) {
      n := 0;
      if lane.bios != [] {
        AskedWaits(lane, now);
      }
    } else {
      n := DrainedStops(Popped(lane, now), now, max - 1);
      n := n + 1;
    }
  }

  /** Asked again at once, a refused bio still has to wait. */
  lemma AskedWaits(lane: Lane, now: nat)
    requires Refused(lane, now) && lane.bios != []
    ensures Asked(lane, now).bios == lane.bios && WaitOf(Asked(lane, now), now).value >= 1
  {
    var size := lane.bios[0].size;
    RefusedAgain(lane.lim, lane.slice, now, size);
    RefusedAgain(lane.lim, MayDispatch(lane.lim, lane.slice, now, size).slice, now, size);
  }

  /** A lane after its first bio was tried. */
  function Tried(lane: Lane, now: nat): Lane
    requires lane.bios != [] && lane.nr > 0
  {
    if Refused(lane, now) then Asked(lane, now) else Popped(lane, now)
  }

  lemma LaneTried(lane: Lane, log: Log, clock: nat) returns (log': Log)
    requires LaneOk(lane, log, clock) && lane.bios != []
    ensures LaneOk(Tried(lane, clock), log', clock) && log'.arrived == log.arrived
  {
    log' := log.(events := log.events + [Event(clock, lane.bios[0].size, true)]);
    if Refused(lane, clock) {
      LaneAsk(lane, log, clock, clock, lane.bios[0].size, true);
    } else {
      LanePop(lane, log, clock, clock);
      log' := log'.(sent := log.sent + [lane.bios[0]]);
    }
  }

  lemma CountsPut(groups: seq<Group>, queued: seq<nat>, id: nat, rw: nat, lane: Lane)
    requires CountsOk(groups, queued) && id < |groups| && |groups[id].lanes| == 2 && rw < 2
    ensures groups[id].lanes[rw].nr <= queued[rw]
    ensures CountsOk(groups[id := WithLane(groups[id], rw, lane)],
                     queued[rw := queued[rw] - groups[id].lanes[rw].nr + lane.nr])
  {
    SumAtLeast(groups, id, rw);
    SumUpdate(groups, id, WithLane(groups[id], rw, lane), READ);
    SumUpdate(groups, id, WithLane(groups[id], rw, lane), WRITE);
  }

  lemma FlaggedAppend(bios: seq<Bio>, n: nat)
    requires n < |bios|
    ensures Flagged(bios[..n + 1]) == Flagged(bios[..n]) + [bios[n].(throttled := true)]
  {
  }

  predicate Counted(g: Group) {
    |g.lanes| == 2 && g.lanes[READ].nr == |g.lanes[READ].bios| && g.lanes[WRITE].nr == |g.lanes[WRITE].bios|
  }

  const MAX_READS := GRP_QUANTUM * 3 / 4
  const MAX_WRITES := GRP_QUANTUM - MAX_READS

  /** A group after throtl_dispatch_tg: three reads for every write. */
  function DrainedGroup(g: Group, now: nat): Group
    requires Counted(g)
  {
    g.(lanes := [Drained(g.lanes[READ], now, MAX_READS), Drained(g.lanes[WRITE], now, MAX_WRITES)])
  }

  /** A group that could send nothing is given a later dispatch time. */
  lemma IdleMoves(g: Group, now: nat)
    requires Counted(g) && Waiting(g)
    requires DrainedGroup(g, now).lanes[READ].bios == g.lanes[READ].bios
    requires DrainedGroup(g, now).lanes[WRITE].bios == g.lanes[WRITE].bios
    ensures Updated(DrainedGroup(g, now), now).disptime > now
  {
    var n := DrainedStops(g.lanes[READ], now, MAX_READS);
    var m := DrainedStops(g.lanes[WRITE], now, MAX_WRITES);
  }

  lemma SameTwice(a: seq<seq<Log>>, b: seq<seq<Log>>, c: seq<seq<Log>>)
    requires SameArrivals(a, b) && SameArrivals(b, c)
    ensures SameArrivals(a, c)
  {
    forall i | 0 <= i < |a| ensures SameArrived(a[i], c[i]) {
      assert SameArrived(a[i], b[i]) && SameArrived(b[i], c[i]);
    }
  }

  lemma SameSelf(groups: seq<Group>, logs: seq<seq<Log>>, clock: nat)
    requires LanesOk(groups, logs, clock)
    ensures SameArrivals(logs, logs)
  {
    forall i | 0 <= i < |logs| ensures SameArrived(logs[i], logs[i]) {
      assert GroupOk(groups[i], logs[i], clock);
    }
  }

  lemma SameAll(groups: seq<Group>, logs: seq<seq<Log>>, clock: nat)
    requires LanesOk(groups, logs, clock)
    ensures SameBios(groups, groups)
  {
    forall i | 0 <= i < |groups| ensures |groups[i].lanes| == 2 {
      assert GroupOk(groups[i], logs[i], clock);
    }
  }

  lemma ServedPut(groups: seq<Group>, id: nat, g: Group)
    requires Served(groups) && id < |groups| && (g.onRR <==> Waiting(g))
    ensures Served(groups[id := g])
  {
  }

  lemma CountsFrame(groups: seq<Group>, queued: seq<nat>, id: nat, g: Group)
    requires CountsOk(groups, queued) && id < |groups|
    requires NrOf(g, READ) == NrOf(groups[id], READ) && NrOf(g, WRITE) == NrOf(groups[id], WRITE)
    ensures CountsOk(groups[id := g], queued)
  {
    SumUpdate(groups, id, g, READ);
    SumUpdate(groups, id, g, WRITE);
  }

  lemma PutArrival(groups: seq<Group>, logs: seq<seq<Log>>, clock: nat, id: nat, rw: nat, log: Log, bio: Bio)
    requires LanesOk(groups, logs, clock) && id < |groups| && rw < 2 && |logs[id]| == 2
    requires log.arrived == logs[id][rw].arrived + [bio]
    ensures OneArrival(logs, logs[id := logs[id][rw := log]], id, rw, bio)
  {
    SameSelf(groups, logs, clock);
  }

  lemma ArrivalThenSame(a: seq<seq<Log>>, b: seq<seq<Log>>, c: seq<seq<Log>>, id: nat, rw: nat, bio: Bio)
    requires OneArrival(a, b, id, rw, bio) && SameArrivals(b, c)
    ensures OneArrival(a, c, id, rw, bio)
  {
    assert SameArrived(b[id], c[id]);
    forall i | 0 <= i < |a| && i != id ensures SameArrived(a[i], c[i]) {
      assert SameArrived(a[i], b[i]) && SameArrived(b[i], c[i]);
    }
  }

  /** A lane a bio was added to; it was refused first if the lane was empty. */
  function Joined(lane: Lane, now: nat, bio: Bio): Lane {
    var slice := if lane.nr > 0 then lane.slice else MayDispatch(lane.lim, lane.slice, now, bio.size).slice;
    lane.(slice := slice, bios := lane.bios + [bio], nr := lane.nr + 1)
  }

  lemma LaneJoined(lane: Lane, log: Log, clock: nat, bio: Bio) returns (log': Log)
    requires LaneOk(lane, log, clock)
    requires lane.nr == 0 ==> !MayDispatch(lane.lim, lane.slice, clock, bio.size).ok
    ensures LaneOk(Joined(lane, clock, bio), log', clock) && log'.arrived == log.arrived + [bio]
  {
    if lane.nr > 0 {
      LaneQueue(lane, log, clock, bio);
      log' := log.(arrived := log.arrived + [bio]);
    } else {
      log' := log.(events := log.events + [Event(clock, bio.size, true)]);
      LaneAsk(lane, log, clock, clock, bio.size, true);
      LaneQueue(lane.(slice := MayDispatch(lane.lim, lane.slice, clock, bio.size).slice), log', clock, bio);
      log' := log'.(arrived := log.arrived + [bio]);
    }
  }

  predicate NoRule(lim: Limits) {
    lim.bps.Unlimited? && lim.iops.Unlimited?
  }

  /** The groups hold what they held, with at most one lane list replaced by one of the same bios. */
  lemma SamePut(groups: seq<Group>, logs: seq<seq<Log>>, clock: nat, id: nat, g: Group)
    requires LanesOk(groups, logs, clock) && id < |groups| && |g.lanes| == 2
    requires |groups[id].lanes| == 2 ==>
               && g.lanes[READ].bios == groups[id].lanes[READ].bios
               && g.lanes[WRITE].bios == groups[id].lanes[WRITE].bios
    ensures SameBios(groups, groups[id := g])
  {
    forall i | 0 <= i < |groups| ensures |groups[i].lanes| == 2 {
      assert GroupOk(groups[i], logs[i], clock);
    }
  }

  lemma QueuesPut(groups: seq<Group>, logs: seq<seq<Log>>, clock: nat, id: nat, rw: nat, bio: Bio, g: Group)
    requires LanesOk(groups, logs, clock) && id < |groups| && rw < 2 && |groups[id].lanes| == 2
    requires g.lanes == WithLane(groups[id], rw, Joined(groups[id].lanes[rw], clock, bio)).lanes
    ensures Queues(groups, groups[id := g], id, rw, bio)
  {
    SameAll(groups, logs, clock);
    assert forall b: seq<Bio> :: b + [] == b;
  }

  lemma TwoLanes(groups: seq<Group>, id: nat, a: Lane, b: Lane)
    requires id < |groups| && |groups[id].lanes| == 2
    ensures var groups1 := groups[id := WithLane(groups[id], READ, a)];
            groups1[id := WithLane(groups1[id], WRITE, b)] == groups[id := groups[id].(lanes := [a, b])]
  {
    assert groups[id].lanes[READ := a][WRITE := b] == [a, b];
  }

  lemma LaneTwice(groups: seq<Group>, id: nat, rw: nat, a: Lane, b: Lane)
    requires id < |groups| && |groups[id].lanes| == 2 && rw < 2
    ensures var groups1 := groups[id := WithLane(groups[id], rw, a)];
            groups1[id := WithLane(groups1[id], rw, b)] == groups[id := WithLane(groups[id], rw, b)]
  {
    assert groups[id].lanes[rw := a][rw := b] == groups[id].lanes[rw := b];
  }

  lemma TwiceUpdated(groups: seq<Group>, id: nat, a: Group, b: Group)
    requires id < |groups|
    ensures groups[id := a][id := b] == groups[id := b]
  {
  }

  lemma LanesFrame(groups: seq<Group>, logs: seq<seq<Log>>, clock: nat, id: nat, g: Group)
    requires LanesOk(groups, logs, clock) && id < |groups| && g.lanes == groups[id].lanes
    ensures LanesOk(groups[id := g], logs, clock)
  {
    var groups' := groups[id := g];
    forall i | 0 <= i < |groups'| ensures GroupOk(groups'[i], logs[i], clock) {
      assert GroupOk(groups[i], logs[i], clock);
    }
  }

  /** What throtl_dispatch_tg took. */
  lemma GroupHands(groups: seq<Group>, logs: seq<seq<Log>>, clock: nat, id: nat, groups': seq<Group>, bl: seq<Bio>,
                   nr: nat)
    requires LanesOk(groups, logs, clock) && id < |groups| == |groups'| && groups' == groups[id := groups'[id]]
    requires nr <= |bl| && |groups[id].lanes| == |groups'[id].lanes| == 2
    requires nr <= |groups[id].lanes[READ].bios| && |bl| - nr <= |groups[id].lanes[WRITE].bios|
    requires bl == Flagged(groups[id].lanes[READ].bios[..nr]) + Flagged(groups[id].lanes[WRITE].bios[..|bl| - nr])
    requires groups'[id].lanes[READ].bios == groups[id].lanes[READ].bios[nr..]
    requires groups'[id].lanes[WRITE].bios == groups[id].lanes[WRITE].bios[|bl| - nr..]
    ensures HandsOver(groups, groups', bl, Repeat(nr, From(id, READ)) + Repeat(|bl| - nr, From(id, WRITE)))
  {
    forall i | 0 <= i < |groups| ensures |groups[i].lanes| == 2 {
      assert GroupOk(groups[i], logs[i], clock);
    }
    var rs := Flagged(groups[id].lanes[READ].bios[..nr]);
    var ws := Flagged(groups[id].lanes[WRITE].bios[..|bl| - nr]);
    HandsGroup(groups, groups', id, rs, ws);
  }

  /** The dispatch time of a group that is off the tree is of no concern to it. */
  lemma DisptimeOff(groups: seq<Group>, tree: seq<Node>, left: Option<nat>, count: nat, id: nat, disptime: nat)
    requires TreeOk(groups, tree, left, count) && id < |groups| && !groups[id].onRR
    ensures TreeOk(groups[id := groups[id].(disptime := disptime)], tree, left, count)
  {
    var groups' := groups[id := groups[id].(disptime := disptime)];
    forall k | 0 <= k < |tree| ensures NodeOk(groups', tree[k]) {
      assert NodeOk(groups, tree[k]);
    }
  }

  class ThrottledQueue {
    var groups: seq<Group>
    var tree: seq<Node>        // tg_service_tree
    var left: Option<nat>      // its cached first node
    var count: nat
    var minDisptime: nat
    var queued: seq<nat>       // nr_queued[READ], nr_queued[WRITE]
    var work: Option<nat>      // when the delayed work is due, if pending
    ghost var logs: seq<seq<Log>>
    var clock: nat             // jiffies as of the current step

    /** What holds whenever the queue lock is taken or released within a step. */
    ghost predicate Sound()
      reads this
    {
      && TreeOk(groups, tree, left, count) && CountsOk(groups, queued)
      && LanesOk(groups, logs, clock)
    }

    /** What holds between steps. */
    ghost predicate Valid()
      reads this
    {
      Sound() && Served(groups) && Scheduled(queued, tree, work, clock)
    }

    constructor ()
      ensures Valid() && groups == [] && clock == 0
    {
      groups, tree, left, count, minDisptime, queued, work := [], [], None, 0, 0, [0, 0], None;
      logs, clock := [], 0;
    }

    /** throtl_get_tg for a group seen for the first time: it is off the tree with nothing queued. */
    method NewGroup(limits: seq<Limits>) returns (id: nat)
      requires Valid() && |limits| == 2
      modifies this`groups, this`logs
      ensures Valid() && id == |old(groups)| && |groups| == id + 1 && groups[..id] == old(groups)
      ensures !groups[id].onRR && |groups[id].lanes| == 2
      ensures forall rw :: 0 <= rw < 2 ==> groups[id].lanes[rw] == Lane(limits[rw], ZERO, [], 0)
    {
      id := |groups|;
      var g := Group([Lane(limits[0], ZERO, [], 0), Lane(limits[1], ZERO, [], 0)], 0, false);
      LaneNew(limits[0], clock);
      LaneNew(limits[1], clock);
      GroupAdded(groups, tree, left, count, queued, g);
      LanesAdded(groups, logs, clock, g, [Log([], [], []), Log([], [], [])]);
      groups, logs := groups + [g], logs + [[Log([], [], []), Log([], [], [])]];
    }

    /** throtl_rb_first: the first node, looked up again when the cache is empty. */
    method RbFirst() returns (first: Option<nat>)
      requires TreeOk(groups, tree, left, count)
      modifies this`left
      ensures TreeOk(groups, tree, left, count)
      ensures first == if tree == [] then None else Some(tree[0].id)
      ensures first.Some? ==>
                && first.value < |groups| && groups[first.value].onRR
                && groups[first.value].disptime == tree[0].key
    {
      if count == 0 {
        return None;
      }
      if left.None? {
        left := Some(tree[0].id);
      }
      assert NodeOk(groups, tree[0]);
      first := left;
    }

    /** throtl_enqueue_tg */
    method Enqueue(id: nat)
      requires TreeOk(groups, tree, left, count) && id < |groups|
      modifies this`groups, this`tree, this`left, this`count
      ensures TreeOk(groups, tree, left, count)
      ensures groups == old(groups)[id := old(groups)[id].(onRR := true)]
      ensures old(groups[id].onRR) ==> tree == old(tree)
      ensures !old(groups[id].onRR) ==>
                forall now: nat :: now < groups[id].disptime ==> Due(tree, now) == Due(old(tree), now)
    {
      if !groups[id].onRR {
        var key, p, first := groups[id].disptime, 0, true;
        while p < |tree| && !(key < tree[p].key)
          invariant p <= |tree| && first == (p == 0)
          invariant forall i :: 0 <= i < p ==> tree[i].key <= key
        {
          p, first := p + 1, false;
        }
        TreeAdded(groups, tree, left, count, id, p);
        forall now: nat | now < key ensures Due(InsertAt(tree, p, Node(key, id)), now) == Due(tree, now) {
          DueInsert(tree, p, Node(key, id), now);
        }
        if first {
          left := Some(id);
        }
        tree := InsertAt(tree, p, Node(key, id));
        groups := groups[id := groups[id].(onRR := true)];
        count := count + 1;
      }
    }

    /** throtl_dequeue_tg */
    method Dequeue(id: nat)
      requires TreeOk(groups, tree, left, count) && id < |groups|
      modifies this`groups, this`tree, this`left, this`count
      ensures TreeOk(groups, tree, left, count)
      ensures groups == old(groups)[id := old(groups)[id].(onRR := false)]
      ensures !old(groups[id].onRR) ==> tree == old(tree)
      ensures old(tree) != [] && old(tree)[0].id == id ==> tree == old(tree)[1..]
    {
      if groups[id].onRR {
        assert Has(tree, id);
        var p := 0;
        while tree[p].id != id
          invariant p < |tree| && exists k :: p <= k < |tree| && tree[k].id == id
          decreases |tree| - p
        {
          p := p + 1;
        }
        TreeErased(groups, tree, left, count, p);
        if left == Some(id) {
          left := None;
        }
        tree := EraseAt(tree, p);
        groups := groups[id := groups[id].(onRR := false)];
        count := count - 1;
      } else if tree != [] {
        assert NodeOk(groups, tree[0]);
      }
    }

    /** tg_may_dispatch for the first bio of a lane, if there is one, to learn its wait. */
    method AskLane(id: nat, rw: nat) returns (wait: Option<nat>)
      requires LanesOk(groups, logs, clock) && id < |groups| && rw < |groups[id].lanes|
      modifies this`groups, this`logs
      ensures wait == WaitOf(old(groups[id].lanes[rw]), clock)
      ensures groups == old(groups)[id := WithLane(old(groups[id]), rw, Asked(old(groups[id].lanes[rw]), clock))]
      ensures LanesOk(groups, logs, clock) && SameArrivals(old(logs), logs)
    {
      var lane := groups[id].lanes[rw];
      if lane.bios == [] {
        assert groups[id].lanes[rw := lane] == groups[id].lanes;
        return None;
      }
      assert GroupOk(groups[id], logs[id], clock);
      LaneAsk(lane, logs[id][rw], clock, clock, lane.bios[0].size, false);
      ghost var log := logs[id][rw].(events := logs[id][rw].events + [Event(clock, lane.bios[0].size, false)]);
      PutLane(groups, logs, clock, id, rw, Asked(lane, clock), log);
      groups := groups[id := WithLane(groups[id], rw, Asked(lane, clock))];
      logs := logs[id := logs[id][rw := log]];
      wait := WaitOf(lane, clock);
    }

    /** A group moved to its place for a new dispatch time. */
    method Requeue(id: nat, disptime: nat)
      requires TreeOk(groups, tree, left, count) && LanesOk(groups, logs, clock) && id < |groups|
      modifies this`groups, this`tree, this`left, this`count
      ensures TreeOk(groups, tree, left, count) && LanesOk(groups, logs, clock)
      ensures groups == old(groups)[id := Group(old(groups[id].lanes), disptime, true)]
      ensures !old(groups[id].onRR) && disptime > clock ==> Due(tree, clock) == Due(old(tree), clock)
    {
      LanesFrame(groups, logs, clock, id, Group(groups[id].lanes, disptime, true));
      Dequeue(id);
      DisptimeOff(groups, tree, left, count, id, disptime);
      groups := groups[id := groups[id].(disptime := disptime)];
      Enqueue(id);
    }

    /** The first part of tg_update_disptime: the shorter of the two waits. */
    method AskBoth(id: nat) returns (wait: nat)
      requires LanesOk(groups, logs, clock) && id < |groups| && Waiting(groups[id])
      modifies this`groups, this`logs
      ensures LanesOk(groups, logs, clock) && SameArrivals(old(logs), logs)
      ensures groups == old(groups)[id := old(groups)[id].(lanes := Updated(old(groups[id]), clock).lanes)]
      ensures clock + wait == Updated(old(groups[id]), clock).disptime
    {
      assert GroupOk(groups[id], logs[id], clock);
      ghost var g := groups[id];
      var readWait := AskLane(id, READ);
      assert GroupOk(groups[id], logs[id], clock);
      var writeWait := AskLane(id, WRITE);
      TwoLanes(old(groups), id, Asked(g.lanes[READ], clock), Asked(g.lanes[WRITE], clock));
      wait := Shorter(readWait, writeWait);
    }

    /** tg_update_disptime: the group moves to the time of its earlier bio. */
    method UpdateDisptime(id: nat)
      requires TreeOk(groups, tree, left, count) && LanesOk(groups, logs, clock)
      requires id < |groups| && Waiting(groups[id])
      modifies this`groups, this`logs, this`tree, this`left, this`count
      ensures TreeOk(groups, tree, left, count) && LanesOk(groups, logs, clock) && SameArrivals(old(logs), logs)
      ensures groups == old(groups)[id := Updated(old(groups[id]), clock)]
      ensures !old(groups[id].onRR) && groups[id].disptime > clock ==> Due(tree, clock) == Due(old(tree), clock)
    {
      assert GroupOk(groups[id], logs[id], clock);
      ghost var g := Updated(groups[id], clock);
      TwiceUpdated(groups, id, groups[id].(lanes := g.lanes), g);
      TreeFrame(groups, tree, left, count, id, g.lanes);
      var wait := AskBoth(id);
      assert Group(groups[id].lanes, clock + wait, true) == g;
      Requeue(id, clock + wait);
    }

    /** The first bio of a lane, if the limits let it through: tg_may_dispatch and tg_dispatch_one_bio. */
    method TryDispatch(id: nat, rw: nat) returns (ok: bool)
      requires LanesOk(groups, logs, clock) && CountsOk(groups, queued)
      requires id < |groups| && rw < 2 && rw < |groups[id].lanes| && groups[id].lanes[rw].bios != []
      modifies this`groups, this`logs, this`queued
      ensures ok == !Refused(old(groups[id].lanes[rw]), clock) && old(groups[id].lanes[rw]).nr > 0
      ensures groups == old(groups)[id := WithLane(old(groups[id]), rw, Tried(old(groups[id].lanes[rw]), clock))]
      ensures |queued| == |old(queued)| == 2
      ensures queued[READ] + queued[WRITE] + (if ok then 1 else 0) == old(queued[READ] + queued[WRITE])
      ensures LanesOk(groups, logs, clock) && CountsOk(groups, queued) && SameArrivals(old(logs), logs)
    {
      assert GroupOk(groups[id], logs[id], clock);
      var lane := groups[id].lanes[rw];
      ok := !Refused(lane, clock);
      CountsPut(groups, queued, id, rw, Tried(lane, clock));
      if ok {
        queued := queued[rw := queued[rw] - 1];
      }
      ghost var log := LaneTried(lane, logs[id][rw], clock);
      PutLane(groups, logs, clock, id, rw, Tried(lane, clock), log);
      groups := groups[id := WithLane(groups[id], rw, Tried(lane, clock))];
      logs := logs[id := logs[id][rw := log]];
    }

    /** One of the loops of throtl_dispatch_tg. */
    method DispatchLane(id: nat, rw: nat, max: nat) returns (bl: seq<Bio>)
      requires LanesOk(groups, logs, clock) && CountsOk(groups, queued)
      requires id < |groups| && rw < 2 && GroupOk(groups[id], logs[id], clock)
      modifies this`groups, this`logs, this`queued
      ensures groups == old(groups)[id := WithLane(old(groups[id]), rw, Drained(old(groups[id].lanes[rw]), clock, max))]
      ensures |bl| <= max && |bl| <= |old(groups[id].lanes[rw].bios)|
      ensures bl == Flagged(old(groups[id].lanes[rw].bios)[..|bl|])
      ensures groups[id].lanes[rw].bios == old(groups[id].lanes[rw].bios)[|bl|..]
      ensures |queued| == |old(queued)| == 2 && queued[READ] + queued[WRITE] + |bl| == old(queued[READ] + queued[WRITE])
      ensures LanesOk(groups, logs, clock) && CountsOk(groups, queued) && SameArrivals(old(logs), logs)
    {
      ghost var g, lane := groups[id], groups[id].lanes[rw];
      var more := true;
      bl := [];
      assert g.lanes[rw := lane] == g.lanes;
      forall i | 0 <= i < |logs| ensures SameArrived(logs[i], logs[i]) {
        assert GroupOk(groups[i], logs[i], clock);
      }
      while more && |bl| < max && groups[id].lanes[rw].bios != []
        invariant |groups| == |old(groups)| && |groups[id].lanes| == 2
        invariant groups == old(groups)[id := WithLane(g, rw, groups[id].lanes[rw])]
        invariant LanesOk(groups, logs, clock) && CountsOk(groups, queued) && SameArrivals(old(logs), logs)
        invariant |bl| <= max && |bl| <= |lane.bios| && bl == Flagged(lane.bios[..|bl|])
        invariant groups[id].lanes[rw].bios == lane.bios[|bl|..] && groups[id].lanes[rw].nr == |lane.bios| - |bl|
        invariant |queued| == 2 && queued[READ] + queued[WRITE] + |bl| == old(queued[READ] + queued[WRITE])
        invariant if more then Drained(groups[id].lanes[rw], clock, max - |bl|) == Drained(lane, clock, max)
                  else groups[id].lanes[rw] == Drained(lane, clock, max)
        decreases more, max - |bl|
      {
        var bio := groups[id].lanes[rw].bios[0];
        ghost var n, cur := |bl|, groups[id].lanes[rw];
        LaneTwice(old(groups), id, rw, cur, Tried(cur, clock));
        more := TryDispatch(id, rw);
        if more {
          FlaggedAppend(lane.bios, n);
          bl := bl + [bio.(throttled := true)];
        }
      }
    }

    /** throtl_dispatch_tg */
    method DispatchGroup(id: nat) returns (bl: seq<Bio>, ghost nr: nat)
      requires TreeOk(groups, tree, left, count) && LanesOk(groups, logs, clock) && CountsOk(groups, queued)
      requires id < |groups| && Counted(groups[id])
      modifies this`groups, this`logs, this`queued
      ensures groups == old(groups)[id := DrainedGroup(old(groups[id]), clock)]
      ensures nr <= 6 && |bl| - nr <= 2
      ensures nr <= |bl| && nr <= |old(groups[id].lanes[READ].bios)| && |bl| - nr <= |old(groups[id].lanes[WRITE].bios)|
      ensures bl == Flagged(old(groups[id].lanes[READ].bios)[..nr])
                      + Flagged(old(groups[id].lanes[WRITE].bios)[..|bl| - nr])
      ensures groups[id].lanes[READ].bios == old(groups[id].lanes[READ].bios)[nr..]
      ensures groups[id].lanes[WRITE].bios == old(groups[id].lanes[WRITE].bios)[|bl| - nr..]
      ensures |queued| == |old(queued)| == 2 && queued[READ] + queued[WRITE] + |bl| == old(queued[READ] + queued[WRITE])
      ensures LanesOk(groups, logs, clock) && CountsOk(groups, queued) && SameArrivals(old(logs), logs)
      ensures TreeOk(groups, tree, left, count)
    {
      assert GroupOk(groups[id], logs[id], clock);
      ghost var g := groups[id];
      var rs := DispatchLane(id, READ, MAX_READS);
      assert GroupOk(groups[id], logs[id], clock);
      var ws := DispatchLane(id, WRITE, MAX_WRITES);
      bl, nr := rs + ws, |rs|;
      TwoLanes(old(groups), id, Drained(g.lanes[READ], clock, MAX_READS), Drained(g.lanes[WRITE], clock, MAX_WRITES));
      TreeFrame(old(groups), tree, left, count, id, DrainedGroup(g, clock).lanes);
    }

    /** The group that was just served goes back on the tree if it holds more. */
    method PutBack(id: nat)
      requires Sound() && id < |groups| && !groups[id].onRR
      requires forall i :: 0 <= i < |groups| && i != id ==> (groups[i].onRR <==> Waiting(groups[i]))
      modifies this`groups, this`logs, this`tree, this`left, this`count
      ensures Sound() && Served(groups) && SameArrivals(old(logs), logs) && SameBios(old(groups), groups)
      ensures !old(Waiting(groups[id])) ==> tree == old(tree)
      ensures Counted(old(groups[id])) && old(Waiting(groups[id])) ==>
                (Updated(old(groups[id]), clock).disptime > clock ==> Due(tree, clock) == Due(old(tree), clock))
    {
      SameSelf(groups, logs, clock);
      assert GroupOk(groups[id], logs[id], clock);
      SameAll(groups, logs, clock);
      if groups[id].lanes[READ].nr > 0 || groups[id].lanes[WRITE].nr > 0 {
        SamePut(groups, logs, clock, id, Updated(groups[id], clock));
        CountsFrame(groups, queued, id, Updated(groups[id], clock));
        UpdateDisptime(id);
      }
    }

    /** The first group leaves the tree and gives up what it may send. */
    method TakeFirst(id: nat) returns (bl: seq<Bio>, ghost nr: nat)
      requires Sound() && Served(groups)
      requires tree != [] && tree[0].id == id && tree[0].key <= clock
      modifies this`groups, this`logs, this`queued, this`tree, this`left, this`count
      ensures Sound() && SameArrivals(old(logs), logs) && tree == old(tree)[1..]
      ensures id < |groups| && !groups[id].onRR && Counted(groups[id])
      ensures forall i :: 0 <= i < |groups| && i != id ==> (groups[i].onRR <==> Waiting(groups[i]))
      ensures |queued| == |old(queued)| == 2 && queued[READ] + queued[WRITE] + |bl| == old(queued[READ] + queued[WRITE])
      ensures bl == [] && Waiting(groups[id]) ==> Updated(groups[id], clock).disptime > clock
      ensures nr <= |bl|
      ensures HandsOver(old(groups), groups, bl, Repeat(nr, From(id, READ)) + Repeat(|bl| - nr, From(id, WRITE)))
    {
      assert NodeOk(groups, tree[0]) && GroupOk(groups[id], logs[id], clock);
      ghost var g := groups[id].(onRR := false);
      LanesFrame(groups, logs, clock, id, g);
      CountsFrame(groups, queued, id, g);
      Dequeue(id);
      bl, nr := DispatchGroup(id);
      if bl == [] {
        IdleMoves(g, clock);
      }
      TwiceUpdated(old(groups), id, g, DrainedGroup(g, clock));
      GroupHands(old(groups), old(logs), clock, id, groups, bl, nr);
      assert GroupOk(groups[id], logs[id], clock);
    }

    /** One round of throtl_select_dispatch: the first group, which is due. */
    method ServeFirst(id: nat) returns (bl: seq<Bio>, ghost from: seq<From>)
      requires Sound() && Served(groups)
      requires tree != [] && tree[0].id == id && tree[0].key <= clock
      modifies this`groups, this`logs, this`queued, this`tree, this`left, this`count
      ensures Sound() && Served(groups) && SameArrivals(old(logs), logs)
      ensures |queued| == |old(queued)| == 2 && queued[READ] + queued[WRITE] + |bl| == old(queued[READ] + queued[WRITE])
      ensures bl == [] ==> Due(tree, clock) < Due(old(tree), clock)
      ensures HandsOver(old(groups), groups, bl, from)
      ensures exists nr: nat :: nr <= |bl| && from == Repeat(nr, From(id, READ)) + Repeat(|bl| - nr, From(id, WRITE))
    {
      ghost var nr;
      bl, nr := TakeFirst(id);
      from := Repeat(nr, From(id, READ)) + Repeat(|bl| - nr, From(id, WRITE));
      ghost var logs1, groups1 := logs, groups;
      PutBack(id);
      SameTwice(old(logs), logs1, logs);
      HandsSame(old(groups), groups1, groups, bl, from);
    }

    /** throtl_select_dispatch: it ends, having left nothing due or having dispatched a quantum. */
    method SelectDispatch() returns (bl: seq<Bio>, ghost from: seq<From>)
      requires Sound() && Served(groups)
      modifies this`groups, this`logs, this`queued, this`tree, this`left, this`count
      ensures Sound() && Served(groups) && SameArrivals(old(logs), logs)
      ensures |queued| == |old(queued)| == 2 && queued[READ] + queued[WRITE] + |bl| == old(queued[READ] + queued[WRITE])
      ensures tree == [] || clock < tree[0].key || |bl| >= QUANTUM
      ensures HandsOver(old(groups), groups, bl, from)
    {
      SameSelf(groups, logs, clock);
      SameAll(groups, logs, clock);
      HandsNone(groups, groups);
      bl, from := [], [];
      while true
        invariant Sound() && Served(groups) && SameArrivals(old(logs), logs)
        invariant HandsOver(old(groups), groups, bl, from)
        invariant |queued| == 2 && queued[READ] + queued[WRITE] + |bl| == old(queued[READ] + queued[WRITE])
        decreases queued[READ] + queued[WRITE], Due(tree, clock)
      {
        var first := RbFirst();
        if first.None? {
          return;
        }
        if clock < groups[first.value].disptime {
          return;
        }
        ghost var logs1, groups1 := logs, groups;
        var b;
        ghost var f;
        b, f := ServeFirst(first.value);
        SameTwice(old(logs), logs1, logs);
        HandsTwice(old(groups), groups1, groups, bl, from, b, f);
        bl, from := bl + b, from + f;
        if |bl| >= QUANTUM {
          return;
        }
      }
    }

    /** throtl_schedule_next_dispatch; its check that the tree is not empty always holds. */
    method ScheduleNext()
      requires Sound() && Served(groups)
      modifies this`left, this`minDisptime, this`work
      ensures Sound() && Scheduled(queued, tree, work, clock)
      ensures queued[READ] + queued[WRITE] > 0 ==> work == Some(if tree[0].key <= clock then clock else tree[0].key)
    {
      if queued[READ] + queued[WRITE] == 0 {
        return;
      }
      TreeNotEmpty(groups, tree, left, count, queued);
      assert count != 0;
      var first := RbFirst();
      minDisptime := groups[first.value].disptime;
      work := Some(if minDisptime <= clock then clock else clock + (minDisptime - clock));
    }

    /** throtl_dispatch, when the work has come due: no bio is lost, and the work is pending again if any is left. */
    method Work(now: nat) returns (bl: seq<Bio>, ghost from: seq<From>)
      requires Valid() && clock <= now && work.Some? && work.value <= now
      modifies this
      ensures Valid() && clock == now && SameArrivals(old(logs), logs)
      ensures |queued| == |old(queued)| == 2 && queued[READ] + queued[WRITE] + |bl| == old(queued[READ] + queued[WRITE])
      ensures tree == [] || clock < tree[0].key || |bl| >= QUANTUM
      ensures HandsOver(old(groups), groups, bl, from)
    {
      LanesLater(groups, logs, clock, now);
      SameSelf(groups, logs, now);
      SameAll(groups, logs, now);
      HandsNone(groups, groups);
      clock, work, bl, from := now, None, [], [];
      if queued[READ] + queued[WRITE] == 0 {
        assert tree == [] by {
          if tree != [] {
            assert NodeOk(groups, tree[0]);
            SumAtLeast(groups, tree[0].id, READ);
            SumAtLeast(groups, tree[0].id, WRITE);
          }
        }
        return;
      }
      bl, from := SelectDispatch();
      ScheduleNext();
    }

    /** A bio let through at once: charged and the slice trimmed, nothing queued. */
    method SendDirect(id: nat, rw: nat, bio: Bio)
      requires Valid() && id < |groups| && rw < 2 && rw < |groups[id].lanes| && groups[id].lanes[rw].nr == 0
      requires MayDispatch(groups[id].lanes[rw].lim, groups[id].lanes[rw].slice, clock, bio.size).ok
      modifies this`groups, this`logs, this`queued
      ensures Valid() && OneArrival(old(logs), logs, id, rw, bio) && queued == old(queued)
      ensures groups == old(groups)[id := groups[id]] && |groups[id].lanes| == 2 && groups[id].lanes[rw].nr == 0
      ensures SameBios(old(groups), groups)
    {
      assert GroupOk(groups[id], logs[id], clock);
      var lane := groups[id].lanes[rw];
      var lane' := lane.(slice := AfterSend(lane, clock, bio.size));
      ghost var l := logs[id][rw];
      ghost var log := Log(l.events + [Event(clock, bio.size, true)], l.arrived + [bio], l.sent + [bio]);
      LaneDirect(lane, l, clock, clock, bio);
      assert queued[rw := queued[rw]] == queued;
      SamePut(groups, logs, clock, id, WithLane(groups[id], rw, lane'));
      ReplaceLane(id, rw, lane', log, queued);
      PutArrival(old(groups), old(logs), clock, id, rw, log, bio);
    }

    /** One lane and its record replaced, with the count that goes with it. */
    method ReplaceLane(id: nat, rw: nat, lane: Lane, ghost log: Log, counts: seq<nat>)
      requires Sound() && id < |groups| && rw < 2 && rw < |groups[id].lanes| && LaneOk(lane, log, clock)
      requires |queued| == 2 && groups[id].lanes[rw].nr <= queued[rw] ==>
                 counts == queued[rw := queued[rw] - groups[id].lanes[rw].nr + lane.nr]
      modifies this`groups, this`logs, this`queued
      ensures Sound() && groups == old(groups)[id := WithLane(old(groups[id]), rw, lane)]
      ensures |logs| == |old(logs)| == |groups|
      ensures |old(logs)[id]| == 2 && logs == old(logs)[id := old(logs)[id][rw := log]]
      ensures queued == counts
    {
      assert GroupOk(groups[id], logs[id], clock);
      PutLane(groups, logs, clock, id, rw, lane, log);
      CountsPut(groups, queued, id, rw, lane);
      TreeFrame(groups, tree, left, count, id, WithLane(groups[id], rw, lane).lanes);
      groups := groups[id := WithLane(groups[id], rw, lane)];
      logs := logs[id := logs[id][rw := log]];
      queued := counts;
    }

    /** throtl_add_bio_tg */
    method AddBio(id: nat, rw: nat, bio: Bio)
      requires Valid() && id < |groups| && rw < 2 && rw < |groups[id].lanes|
      requires groups[id].lanes[rw].nr == 0 ==>
                 !MayDispatch(groups[id].lanes[rw].lim, groups[id].lanes[rw].slice, clock, bio.size).ok
      modifies this`groups, this`logs, this`queued, this`tree, this`left, this`count
      ensures Sound() && Served(groups) && OneArrival(old(logs), logs, id, rw, bio)
      ensures var joined := Joined(old(groups[id].lanes[rw]), clock, bio);
              groups == old(groups)[id := WithLane(old(groups[id]), rw, joined).(onRR := true)]
      ensures old(groups[id].onRR) ==> tree == old(tree)
      ensures |queued| == |old(queued)| == 2 && queued[READ] + queued[WRITE] == old(queued[READ] + queued[WRITE]) + 1
      ensures Queues(old(groups), groups, id, rw, bio)
    {
      assert GroupOk(groups[id], logs[id], clock);
      var lane := groups[id].lanes[rw];
      ghost var g := WithLane(groups[id], rw, Joined(lane, clock, bio));
      ghost var log := LaneJoined(lane, logs[id][rw], clock, bio);
      PutArrival(groups, logs, clock, id, rw, log, bio);
      ReplaceLane(id, rw, Joined(lane, clock, bio), log, queued[rw := queued[rw] + 1]);
      LanesFrame(groups, logs, clock, id, g.(onRR := true));
      CountsFrame(groups, queued, id, g.(onRR := true));
      Enqueue(id);
      TwiceUpdated(old(groups), id, g, g.(onRR := true));
      QueuesPut(old(groups), old(logs), clock, id, rw, bio, g.(onRR := true));
      ServedPut(old(groups), id, g.(onRR := true));
    }

    /** Behind other bios of its direction: the dispatch time of the group stands. */
    method QueueBehind(id: nat, rw: nat, bio: Bio)
      requires Valid() && id < |groups| && rw < 2 && rw < |groups[id].lanes| && groups[id].lanes[rw].nr > 0
      modifies this`groups, this`logs, this`queued, this`tree, this`left, this`count
      ensures Valid() && OneArrival(old(logs), logs, id, rw, bio) && Queues(old(groups), groups, id, rw, bio)
      ensures |queued| == |old(queued)| == 2 && queued[READ] + queued[WRITE] == old(queued[READ] + queued[WRITE]) + 1
    {
      SumAtLeast(groups, id, rw);
      AddBio(id, rw, bio);
    }

    /** Refused, and first of its direction: the group and the work get a new time. */
    method QueueRefused(id: nat, rw: nat, bio: Bio)
      requires Valid() && id < |groups| && rw < 2 && rw < |groups[id].lanes|
      requires !MayDispatch(groups[id].lanes[rw].lim, groups[id].lanes[rw].slice, clock, bio.size).ok
      modifies this`groups, this`logs, this`queued, this`tree, this`left, this`count, this`minDisptime, this`work
      ensures Valid() && OneArrival(old(logs), logs, id, rw, bio) && Queues(old(groups), groups, id, rw, bio)
      ensures |queued| == |old(queued)| == 2 && queued[READ] + queued[WRITE] == old(queued[READ] + queued[WRITE]) + 1
    {
      AddBio(id, rw, bio);
      ghost var logs1, groups1 := logs, groups;
      Retime(id);
      ArrivalThenSame(old(logs), logs1, logs, id, rw, bio);
      QueuesThenSame(old(groups), groups1, groups, id, rw, bio);
      ScheduleNext();
    }

    /** A group on the tree gets a new dispatch time. */
    method Retime(id: nat)
      requires Sound() && Served(groups) && id < |groups| && Waiting(groups[id])
      modifies this`groups, this`logs, this`tree, this`left, this`count
      ensures Sound() && Served(groups) && SameArrivals(old(logs), logs) && SameBios(old(groups), groups)
    {
      assert GroupOk(groups[id], logs[id], clock);
      SamePut(groups, logs, clock, id, Updated(groups[id], clock));
      CountsFrame(groups, queued, id, Updated(groups[id], clock));
      ServedPut(groups, id, Updated(groups[id], clock));
      UpdateDisptime(id);
    }

    /** blk_throtl_bio for a bio of a known group: whether it has to wait. */
    method ThrottleBio(id: nat, rw: nat, bio: Bio, now: nat) returns (throttled: bool)
      requires Valid() && clock <= now && id < |groups| && rw < 2 && rw < |groups[id].lanes|
      modifies this
      ensures Valid()
      ensures var lane := old(groups[id].lanes[rw]);
              if bio.throttled || NoRule(lane.lim) then !throttled && groups == old(groups) && logs == old(logs)
              else
                && clock == now && OneArrival(old(logs), logs, id, rw, bio)
                && (throttled <==> lane.nr > 0 || !MayDispatch(lane.lim, lane.slice, now, bio.size).ok)
                && |queued| == |old(queued)| == 2
                && queued[READ] + queued[WRITE] == old(queued[READ] + queued[WRITE]) + (if throttled then 1 else 0)
                && (if throttled then Queues(old(groups), groups, id, rw, bio) else SameBios(old(groups), groups))
    {
      if bio.throttled || NoRule(groups[id].lanes[rw].lim) {
        return false;
      }
      LanesLater(groups, logs, clock, now);
      clock := now;
      var lane := groups[id].lanes[rw];
      if lane.nr > 0 {
        QueueBehind(id, rw, bio);
        throttled := true;
      } else if MayDispatch(lane.lim, lane.slice, now, bio.size).ok {
        SendDirect(id, rw, bio);
        throttled := false;
      } else {
        QueueRefused(id, rw, bio);
        throttled := true;
      }
    }

    /** In every state a run reaches, what each lane has let through is within its limits, in arrival order. */
    lemma RateHolds(id: nat, rw: nat)
      requires Valid() && id < |groups| && rw < 2 && rw < |groups[id].lanes| && rw < |logs[id]|
      ensures var lane, log := groups[id].lanes[rw], logs[id][rw];
              && log.arrived == log.sent + lane.bios
              && (log.events != [] ==>
                    && Bounded(lane.lim.bps, log.events[0].now, clock, Bytes(log.sent))
                    && Bounded(lane.lim.iops, log.events[0].now, clock, |log.sent|))
    {
      assert GroupOk(groups[id], logs[id], clock);
      LaneFifo(groups[id].lanes[rw], logs[id][rw], clock);
      if logs[id][rw].events != [] {
        LaneRate(groups[id].lanes[rw], logs[id][rw], clock);
      }
    }
  }
}
