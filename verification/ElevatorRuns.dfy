/**
 The elevator core with a scheduler behind it (block/elevator.c with block/noop-iosched.c or
 block/deadline-iosched.c): every operation, a forced drain included, goes by steps of
 `ElevatorOrder`, and what holds of its lines holds of both schedulers.
 */
module ElevatorRuns {
  import opened Common
  import opened Lists
  import opened ElevatorSort
  import T = RbTree
  import D = Deadline
  import R = DeadlineRuns
  import O = ElevatorOrder

  // ---- the schedulers

  datatype Scheduler = Noop(fifo: seq<nat>) | Deadline(cfg: D.Tunables, w: R.World)

  function Dir(rq: Rq): nat {
    if rq.write then D.WRITE else D.READ
  }

  ghost predicate InLane(w: R.World, dir: nat, id: nat) {
    |w.s.lanes| == 2 && dir < 2 && T.Has(w.s.lanes[dir].fifo, id)
  }

  /** The scheduler holds these requests, each once and in its direction, and nothing else. */
  ghost predicate Holds(s: Scheduler, rqs: map<nat, Rq>) {
    match s
    case Noop(fifo) => forall id: nat :: Count(fifo, id) == if id in rqs then 1 else 0
    case Deadline(cfg, w) =>
      R.Settled(cfg, w) && forall dir: nat, id: nat :: InLane(w, dir, id) <==> id in rqs && Dir(rqs[id]) == dir
  }

  /** Time does not go back. */
  predicate Later(s: Scheduler, now: nat) {
    s.Deadline? ==> s.w.clock <= now
  }

  predicate Able(s: Scheduler) {
    s.Deadline? ==> R.Ready(s.cfg, s.w)
  }

  /** elevator_add_req_fn */
  function Given(s: Scheduler, rq: Rq, now: nat): Scheduler
    requires Able(s)
  {
    match s
    case Noop(fifo) => Noop(fifo + [rq.id])
    case Deadline(cfg, w) => Deadline(cfg, R.Apply(cfg, w, R.Add(Dir(rq), rq.id, rq.pos, now)))
  }

  /** elevator_merged_fn after a front merge, with the request as it is then. */
  function Fronted(s: Scheduler, rq: Rq): Scheduler
    requires Able(s)
  {
    match s
    case Noop(_) => s
    case Deadline(cfg, w) => Deadline(cfg, R.Apply(cfg, w, R.FrontMerge(Dir(rq), rq.id, rq.pos)))
  }

  /** elevator_merge_req_fn */
  function Absorbed(s: Scheduler, rq: Rq, other: nat): Scheduler
    requires Able(s)
  {
    match s
    case Noop(fifo) => Noop(Remove(fifo, other))
    case Deadline(cfg, w) => Deadline(cfg, R.Apply(cfg, w, R.MergeRequests(Dir(rq), rq.id, other)))
  }

  /** What elevator_dispatch_fn lets go. */
  function Pick(s: Scheduler, now: nat): Option<nat>
    requires Able(s)
  {
    match s
    case Noop(fifo) => if fifo == [] then None else Some(fifo[0])
    case Deadline(cfg, w) =>
      match D.Chosen(w.s, cfg, now)
      case None => None
      case Some(c) => Some(c.id)
  }

  /** And what it leaves. */
  function Without(s: Scheduler, now: nat): Scheduler
    requires Able(s)
  {
    match s
    case Noop(fifo) => if fifo == [] then s else Noop(fifo[1..])
    case Deadline(cfg, w) => Deadline(cfg, R.Apply(cfg, w, R.Dispatch(now)))
  }

  // ---- one operation of the deadline scheduler

  lemma LaneTree(cfg: D.Tunables, w: R.World, dir: nat, id: nat)
    requires R.Settled(cfg, w) && dir < 2
    ensures |w.s.lanes| == 2 && (T.Has(w.s.lanes[dir].tree, id) <==> InLane(w, dir, id))
    ensures R.Held(w.s, id) <==> InLane(w, D.READ, id) || InLane(w, D.WRITE, id)
  {
    assert Unfold(0, w);
  }

  lemma DeadlineAdd(cfg: D.Tunables, w: R.World, dir: nat, id: nat, pos: nat, now: nat, d: nat, x: nat)
    requires R.Settled(cfg, w) && dir < 2
    ensures InLane(R.Apply(cfg, w, R.Add(dir, id, pos, now)), d, x) <==> InLane(w, d, x) || (d == dir && x == id)
  {
    D.HasAppend(w.s.lanes[dir].fifo, T.Node(now + cfg.expire[dir], id), x);
  }

  lemma DeadlineFront(cfg: D.Tunables, w: R.World, dir: nat, id: nat, pos: nat, d: nat, x: nat)
    requires R.Settled(cfg, w) && dir < 2
    ensures InLane(R.Apply(cfg, w, R.FrontMerge(dir, id, pos)), d, x) <==> InLane(w, d, x)
  {
  }

  lemma DeadlineMerge(cfg: D.Tunables, w: R.World, dir: nat, id: nat, gone: nat, d: nat, x: nat)
    requires R.Settled(cfg, w) && R.Enabled(w, R.MergeRequests(dir, id, gone))
    ensures InLane(R.Apply(cfg, w, R.MergeRequests(dir, id, gone)), d, x) <==>
              InLane(w, d, x) && !(d == dir && x == gone)
  {
    R.SettledStep(cfg, w, R.MergeRequests(dir, id, gone));
    assert Unfold(0, w);
    D.MergedKeeps(w.s.lanes[dir], id, gone);
  }

  lemma DeadlineGo(cfg: D.Tunables, w: R.World, now: nat, d: nat, x: nat)
    requires R.Settled(cfg, w) && D.Chosen(w.s, cfg, now).Some?
    ensures var c := D.Chosen(w.s, cfg, now).value;
            && InLane(w, c.dir, c.id)
            && (InLane(R.Apply(cfg, w, R.Dispatch(now)), d, x) <==> InLane(w, d, x) && !(d == c.dir && x == c.id))
  {
    R.SettledPick(cfg, w, now);
    assert Unfold(0, w);
    R.ChosenHeld(w.s, cfg, now);
    var c := D.Chosen(w.s, cfg, now).value;
    R.MovedSound(w.s, c);
    R.TakenKeeps(w.s.lanes[c.dir], c.id);
    LaneTree(cfg, w, c.dir, c.id);
  }

  // ---- what each operation of a scheduler does to what it holds

  lemma GivenHolds(s: Scheduler, rqs: map<nat, Rq>, rq: Rq, now: nat)
    requires Holds(s, rqs) && rq.id !in rqs && Later(s, now)
    ensures Holds(Given(s, rq, now), rqs[rq.id := rq])
  {
    var rqs' := rqs[rq.id := rq];
    match s
    case Noop(fifo) =>
      forall id: nat ensures Count(fifo + [rq.id], id) == if id in rqs' then 1 else 0 {
        CountConcat(fifo, [rq.id], id);
      }
    case Deadline(cfg, w) =>
      var w' := R.Apply(cfg, w, R.Add(Dir(rq), rq.id, rq.pos, now));
      LaneTree(cfg, w, Dir(rq), rq.id);
      R.SettledStep(cfg, w, R.Add(Dir(rq), rq.id, rq.pos, now));
      forall dir: nat, id: nat ensures InLane(w', dir, id) <==> id in rqs' && Dir(rqs'[id]) == dir {
        DeadlineAdd(cfg, w, Dir(rq), rq.id, rq.pos, now, dir, id);
      }
  }

  lemma FrontedHolds(s: Scheduler, rqs: map<nat, Rq>, rq: Rq)
    requires Holds(s, rqs) && rq.id in rqs && rqs[rq.id].write == rq.write
    ensures Holds(Fronted(s, rq), rqs[rq.id := rq])
  {
    var rqs' := rqs[rq.id := rq];
    match s
    case Noop(_) =>
    case Deadline(cfg, w) =>
      var w' := R.Apply(cfg, w, R.FrontMerge(Dir(rq), rq.id, rq.pos));
      LaneTree(cfg, w, Dir(rq), rq.id);
      R.SettledStep(cfg, w, R.FrontMerge(Dir(rq), rq.id, rq.pos));
      forall dir: nat, id: nat ensures InLane(w', dir, id) <==> id in rqs' && Dir(rqs'[id]) == dir {
        DeadlineFront(cfg, w, Dir(rq), rq.id, rq.pos, dir, id);
      }
  }

  lemma AbsorbedHolds(s: Scheduler, rqs: map<nat, Rq>, rq: Rq, other: nat)
    requires Holds(s, rqs) && rq.id in rqs && other in rqs && rq.id != other
    requires rq.write == rqs[rq.id].write == rqs[other].write
    ensures Holds(Absorbed(s, rq, other), (rqs - {other})[rq.id := rq])
  {
    match s
    case Noop(fifo) => AbsorbedNoop(fifo, rqs, rq, other);
    case Deadline(cfg, w) => AbsorbedDeadline(cfg, w, rqs, rq, other);
  }

  lemma AbsorbedNoop(fifo: seq<nat>, rqs: map<nat, Rq>, rq: Rq, other: nat)
    requires Holds(Noop(fifo), rqs) && rq.id in rqs && other in rqs && rq.id != other
    ensures Holds(Noop(Remove(fifo, other)), (rqs - {other})[rq.id := rq])
  {
    var rqs' := (rqs - {other})[rq.id := rq];
    forall id: nat ensures Count(Remove(fifo, other), id) == if id in rqs' then 1 else 0 {
      CountRemove(fifo, other, id);
      CountIn(fifo, other);
    }
  }

  lemma AbsorbedDeadline(cfg: D.Tunables, w: R.World, rqs: map<nat, Rq>, rq: Rq, other: nat)
    requires Holds(Deadline(cfg, w), rqs) && rq.id in rqs && other in rqs && rq.id != other
    requires rq.write == rqs[rq.id].write == rqs[other].write
    ensures Holds(Absorbed(Deadline(cfg, w), rq, other), (rqs - {other})[rq.id := rq])
  {
    var rqs' := (rqs - {other})[rq.id := rq];
    var w' := R.Apply(cfg, w, R.MergeRequests(Dir(rq), rq.id, other));
    AbsorbedLanes(cfg, w, rqs, rq, other);
    forall dir: nat, id: nat ensures InLane(w', dir, id) <==> id in rqs' && Dir(rqs'[id]) == dir {
      assert InLane(w', dir, id) <==> InLane(w, dir, id) && !(dir == Dir(rq) && id == other);
    }
  }

  lemma AbsorbedLanes(cfg: D.Tunables, w: R.World, rqs: map<nat, Rq>, rq: Rq, other: nat)
    requires Holds(Deadline(cfg, w), rqs) && rq.id in rqs && other in rqs && rq.id != other
    requires rq.write == rqs[rq.id].write == rqs[other].write
    ensures var w' := R.Apply(cfg, w, R.MergeRequests(Dir(rq), rq.id, other));
            && R.Settled(cfg, w')
            && forall dir: nat, id: nat ::
                 InLane(w', dir, id) <==> InLane(w, dir, id) && !(dir == Dir(rq) && id == other)
  {
    var w' := R.Apply(cfg, w, R.MergeRequests(Dir(rq), rq.id, other));
    LaneTree(cfg, w, Dir(rq), rq.id);
    LaneTree(cfg, w, Dir(rq), other);
    R.SettledStep(cfg, w, R.MergeRequests(Dir(rq), rq.id, other));
    forall dir: nat, id: nat
      ensures InLane(w', dir, id) <==> InLane(w, dir, id) && !(dir == Dir(rq) && id == other)
    {
      DeadlineMerge(cfg, w, Dir(rq), rq.id, other, dir, id);
    }
  }

  /** A scheduler lets go of a request it holds, or it holds none. */
  lemma PickHolds(s: Scheduler, rqs: map<nat, Rq>, now: nat)
    requires Holds(s, rqs) && Later(s, now)
    ensures Later(Without(s, now), now) && (Without(s, now).Deadline? <==> s.Deadline?)
    ensures match Pick(s, now)
            case None => rqs == map[] && Holds(Without(s, now), rqs)
            case Some(id) => id in rqs && Holds(Without(s, now), rqs - {id})
  {
    match s
    case Noop(fifo) => PickNoop(fifo, rqs, now);
    case Deadline(cfg, w) =>
      R.SettledStep(cfg, w, R.Dispatch(now));
      if D.Chosen(w.s, cfg, now).Some? {
        PickDeadline(cfg, w, rqs, now);
      } else {
        PickNothing(cfg, w, rqs, now);
      }
  }

  lemma PickNoop(fifo: seq<nat>, rqs: map<nat, Rq>, now: nat)
    requires Holds(Noop(fifo), rqs)
    ensures if fifo == [] then rqs == map[] else fifo[0] in rqs && Holds(Noop(fifo[1..]), rqs - {fifo[0]})
  {
    if fifo == [] {
      forall id ensures id !in rqs {
        assert Count(fifo, id) == 0;
      }
    } else {
      assert Count(fifo, fifo[0]) > 0;
      forall id: nat ensures Count(fifo[1..], id) == if id in rqs - {fifo[0]} then 1 else 0 {
        assert Count(fifo, id) == (if fifo[0] == id then 1 else 0) + Count(fifo[1..], id);
      }
    }
  }

  lemma PickDeadline(cfg: D.Tunables, w: R.World, rqs: map<nat, Rq>, now: nat)
    requires Holds(Deadline(cfg, w), rqs) && D.Chosen(w.s, cfg, now).Some? && w.clock <= now
    ensures var id := D.Chosen(w.s, cfg, now).value.id;
            id in rqs && Holds(Without(Deadline(cfg, w), now), rqs - {id})
  {
    var c := D.Chosen(w.s, cfg, now).value;
    var w' := R.Apply(cfg, w, R.Dispatch(now));
    R.SettledStep(cfg, w, R.Dispatch(now));
    DeadlineGo(cfg, w, now, 0, 0);
    forall dir: nat, id: nat ensures InLane(w', dir, id) <==> id in rqs - {c.id} && Dir((rqs - {c.id})[id]) == dir {
      DeadlineGo(cfg, w, now, dir, id);
    }
  }

  lemma PickNothing(cfg: D.Tunables, w: R.World, rqs: map<nat, Rq>, now: nat)
    requires Holds(Deadline(cfg, w), rqs) && D.Chosen(w.s, cfg, now).None? && w.clock <= now
    ensures rqs == map[] && Holds(Without(Deadline(cfg, w), now), rqs)
  {
    R.SettledChosen(cfg, w, now);
    R.SettledStep(cfg, w, R.Dispatch(now));
    forall id: nat ensures id !in rqs {
      assert !InLane(w, D.READ, id) && !InLane(w, D.WRITE, id);
    }
    var w' := R.Apply(cfg, w, R.Dispatch(now));
    assert forall dir: nat, id: nat :: InLane(w', dir, id) <==> InLane(w, dir, id);
  }

  // ---- the core

  /**
   What the scheduler holds is in `rqs`, with the stamps of all that was merged into each; `last` to
   `next` are as in `ElevatorOrder`; `boundary` and `boundaryRq` are end_sector and boundary_rq.
   */
  datatype Core = Core(sched: Scheduler, rqs: map<nat, Rq>, stamps: map<nat, set<nat>>, last: Option<nat>,
                       hash: set<nat>, queue: seq<O.Item>, gone: seq<O.Item>, next: nat,
                       boundary: nat, boundaryRq: Option<nat>)

  datatype Where = Sort | Back

  datatype Op =
    // __elv_add_request; `fs` is REQ_TYPE_FS, `elvpriv` REQ_ELVPRIV, `mergeable` rq_mergeable
    | Insert(rq: Rq, where: Where, fs: bool, elvpriv: bool, mergeable: bool, now: nat)
    // a bio, or a request of a SORT_MERGE insertion, goes into a request the core has found
    | MergeBack(id: nat, sectors: nat)
    | MergeFront(id: nat, sectors: nat)
    // elv_merge_requests: `id` swallows `other`
    | MergeRequests(id: nat, other: nat)
    // elv_rqhash_find drops an entry that can no longer be merged
    | Unhash(id: nat)
    // elevator_dispatch_fn
    | Dispatch(now: nat)
    // blk_peek_request starts the first request, blk_start_request takes it off
    | Start
    | Take

  /** The dispatch queue and the rest as a world of `ElevatorOrder`. */
  function Line(c: Core): O.World {
    O.World(c.stamps, c.last, c.hash, c.queue, c.gone, c.next)
  }

  /** The requests on the dispatch queue. */
  function Rqs(queue: seq<O.Item>): seq<Rq> {
    seq(|queue|, i requires 0 <= i < |queue| => queue[i].rq)
  }

  ghost predicate Ok(c: Core) {
    && Holds(c.sched, c.rqs) && c.stamps.Keys == c.rqs.Keys
    && (forall id :: id in c.rqs ==> c.rqs[id].id == id)
    && (c.last.Some? ==> c.last.value in c.rqs) && c.hash <= c.rqs.Keys
  }

  /** Where the core finds a request to merge into: last_merge, the hash, the deadline scheduler's trees. */
  predicate Candidate(c: Core, id: nat) {
    c.last == Some(id) || id in c.hash || (c.sched.Deadline? && id in c.rqs)
  }

  /** An insertion that ends at the back. */
  predicate GoesBack(op: Op)
    requires op.Insert?
  {
    op.where.Back? || (!op.rq.stop && !op.elvpriv)
  }

  ghost predicate Enabled(c: Core, op: Op) {
    match op
    case Insert(rq, _, fs, _, _, now) =>
      Later(c.sched, now) && (GoesBack(op) || (rq.id !in c.rqs && (fs || rq.discard)))
    case MergeBack(id, _) => Candidate(c, id)
    case MergeFront(id, sectors) => Candidate(c, id) && id in c.rqs && sectors <= c.rqs[id].pos
    case MergeRequests(id, other) =>
      id != other && id in c.rqs && other in c.rqs && c.rqs[id].write == c.rqs[other].write
    case Unhash(_) => true
    case Dispatch(now) => Later(c.sched, now)
    case Start => c.queue != []
    case Take => c.queue != []
  }

  /** Where a request that the scheduler lets go is linked. */
  function PlaceIn(c: Core, rq: Rq): (p: nat)
    ensures p <= |c.queue|
  {
    PlaceIs(Rqs(c.queue), c.boundary, rq);
    if c.sched.Noop? then Place(Rqs(c.queue), c.boundary, rq) else |c.queue|
  }

  /** One call of elevator_dispatch_fn: elv_dispatch_sort for noop, elv_dispatch_add_tail for deadline. */
  ghost function Dispatched(c: Core, now: nat): Core
    requires Ok(c) && Later(c.sched, now)
  {
    PickHolds(c.sched, c.rqs, now);
    match Pick(c.sched, now)
    case None => c.(sched := Without(c.sched, now))
    case Some(id) =>
      var rq := c.rqs[id];
      c.(sched := Without(c.sched, now), rqs := c.rqs - {id}, stamps := c.stamps - {id},
         last := if c.last == Some(id) then None else c.last, hash := c.hash - {id},
         queue := InsertAt(c.queue, PlaceIn(c, rq), O.Item(rq, c.stamps[id], false)),
         boundary := if c.sched.Noop? then c.boundary else rq.end,
         boundaryRq := if c.sched.Noop? then c.boundaryRq else Some(id))
  }

  lemma DispatchedOk(c: Core, now: nat)
    requires Ok(c) && Later(c.sched, now)
    ensures Ok(Dispatched(c, now)) && Later(Dispatched(c, now).sched, now)
    ensures Pick(c.sched, now).Some? ==> Dispatched(c, now).rqs.Keys < c.rqs.Keys
    ensures Pick(c.sched, now).None? ==> Dispatched(c, now).rqs == map[]
    ensures Dispatched(c, now).sched.Deadline? <==> c.sched.Deadline?
  {
    PickHolds(c.sched, c.rqs, now);
    if Pick(c.sched, now).Some? {
      assert Pick(c.sched, now).value !in Dispatched(c, now).rqs;
    }
  }

  /** elv_drain_elevator: until the scheduler has nothing to give. */
  ghost function Drained(c: Core, now: nat): Core
    requires Ok(c) && Later(c.sched, now)
    decreases c.rqs.Keys
  {
    DispatchedOk(c, now);
    if Pick(c.sched, now).None? then Dispatched(c, now) else Drained(Dispatched(c, now), now)
  }

  lemma {:induction false} DrainedOk(c: Core, now: nat)
    requires Ok(c) && Later(c.sched, now)
    ensures Ok(Drained(c, now)) && Drained(c, now).rqs == map[]
    decreases c.rqs.Keys
  {
    DispatchedOk(c, now);
    if Pick(c.sched, now).Some? {
      DrainedOk(Dispatched(c, now), now);
    }
  }

  /** A request that is a barrier when it comes moves the scheduling boundary. */
  function Bounded(c: Core, rq: Rq, fs: bool): Core {
    if rq.stop && (fs || rq.discard) then c.(boundary := rq.end, boundaryRq := Some(rq.id)) else c
  }

  function Sorted(c: Core, rq: Rq, mergeable: bool, now: nat): Core
    requires Able(c.sched)
  {
    c.(sched := Given(c.sched, rq, now), rqs := c.rqs[rq.id := rq], stamps := c.stamps[rq.id := {c.next}],
       hash := if mergeable then c.hash + {rq.id} else c.hash,
       last := if mergeable && c.last == None then Some(rq.id) else c.last, next := c.next + 1)
  }

  function Appended(c: Core, rq: Rq): Core {
    c.(queue := c.queue + [O.Item(rq.(stop := true), {c.next}, true)], next := c.next + 1)
  }

  /** A bio is in `rq`; elv_merged_request moves it in the hash after a back merge. */
  function Grown(c: Core, sched: Scheduler, rq: Rq, back: bool): Core
    requires rq.id in c.stamps
  {
    c.(sched := sched, rqs := c.rqs[rq.id := rq], stamps := c.stamps[rq.id := c.stamps[rq.id] + {c.next}],
       last := Some(rq.id), hash := if back then c.hash + {rq.id} else c.hash, next := c.next + 1)
  }

  ghost function Apply(c: Core, op: Op): Core
    requires Ok(c) && Enabled(c, op)
  {
    match op
    case Insert(rq, _, fs, _, mergeable, now) =>
      if GoesBack(op) then Appended(Drained(Bounded(c, rq, fs), now), rq)
      else Sorted(Bounded(c, rq, fs), rq, mergeable, now)
    case MergeBack(id, sectors) => Grown(c, c.sched, c.rqs[id].(end := c.rqs[id].end + sectors), true)
    case MergeFront(id, sectors) =>
      var rq := c.rqs[id].(pos := c.rqs[id].pos - sectors);
      Grown(c, Fronted(c.sched, rq), rq, false)
    case MergeRequests(id, other) =>
      var rq := c.rqs[id].(end := c.rqs[other].end);
      c.(sched := Absorbed(c.sched, rq, other), rqs := (c.rqs - {other})[id := rq],
         stamps := (c.stamps - {other})[id := c.stamps[id] + c.stamps[other]],
         hash := c.hash - {other} + {id}, last := Some(id))
    case Unhash(id) => c.(hash := c.hash - {id})
    case Dispatch(now) => Dispatched(c, now)
    case Start =>
      var c' := c.(queue := c.queue[0 := O.Started(c.queue[0])]);
      if c.boundaryRq == None || c.boundaryRq == Some(c.queue[0].rq.id)
      then c'.(boundary := c.queue[0].rq.end, boundaryRq := None) else c'
    case Take => c.(queue := c.queue[1..], gone := c.gone + [c.queue[0]])
  }

  /** A back merge changes nothing the scheduler knows. */
  lemma BackHolds(s: Scheduler, rqs: map<nat, Rq>, rq: Rq)
    requires Holds(s, rqs) && rq.id in rqs && rqs[rq.id].write == rq.write
    ensures Holds(s, rqs[rq.id := rq])
  {
  }

  lemma GrownOk(c: Core, sched: Scheduler, rq: Rq, back: bool)
    requires Ok(c) && rq.id in c.rqs && Holds(sched, c.rqs[rq.id := rq])
    ensures Ok(Grown(c, sched, rq, back))
  {
  }

  lemma MergeRequestsOk(c: Core, id: nat, other: nat)
    requires Ok(c) && Enabled(c, MergeRequests(id, other))
    ensures Ok(Apply(c, MergeRequests(id, other)))
  {
    AbsorbedHolds(c.sched, c.rqs, c.rqs[id].(end := c.rqs[other].end), other);
  }

  lemma InsertOk(c: Core, op: Op)
    requires Ok(c) && op.Insert? && Enabled(c, op)
    ensures Ok(Apply(c, op))
  {
    var b := Bounded(c, op.rq, op.fs);
    if GoesBack(op) {
      DrainedOk(b, op.now);
    } else {
      GivenHolds(c.sched, c.rqs, op.rq, op.now);
    }
  }

  lemma MergeBackOk(c: Core, id: nat, rq: Rq, c': Core)
    requires Ok(c) && id in c.rqs && rq == c.rqs[id].(end := rq.end) && c' == Grown(c, c.sched, rq, true)
    ensures Ok(c')
  {
    BackHolds(c.sched, c.rqs, rq);
    GrownOk(c, c.sched, rq, true);
  }

  lemma MergeFrontOk(c: Core, id: nat, rq: Rq, c': Core)
    requires Ok(c) && id in c.rqs && rq == c.rqs[id].(pos := rq.pos) && c' == Grown(c, Fronted(c.sched, rq), rq, false)
    ensures Ok(c')
  {
    FrontedHolds(c.sched, c.rqs, rq);
    GrownOk(c, Fronted(c.sched, rq), rq, false);
  }

  /** The scheduler has no part in these. */
  lemma OthersOk(c: Core, op: Op)
    requires Ok(c) && (op.Unhash? || op.Start? || op.Take?) && Enabled(c, op)
    ensures Ok(Apply(c, op))
  {
  }

  lemma ApplyOk(c: Core, op: Op)
    requires Ok(c) && Enabled(c, op)
    ensures Ok(Apply(c, op))
  {
    if op.Insert? {
      InsertOk(c, op);
    } else if op.MergeBack? {
      MergeBackOk(c, op.id, c.rqs[op.id].(end := c.rqs[op.id].end + op.sectors), Apply(c, op));
    } else if op.MergeFront? {
      MergeFrontOk(c, op.id, c.rqs[op.id].(pos := c.rqs[op.id].pos - op.sectors), Apply(c, op));
    } else if op.MergeRequests? {
      MergeRequestsOk(c, op.id, op.other);
    } else if op.Dispatch? {
      DispatchedOk(c, op.now);
    } else {
      OthersOk(c, op);
    }
  }

  // ---- steps of the line

  /** The place found is behind every stop entry. */
  lemma PlaceBehindStops(c: Core, rq: Rq)
    ensures O.NoStop(c.queue, PlaceIn(c, rq))
  {
    PlaceIs(Rqs(c.queue), c.boundary, rq);
    forall i | PlaceIn(c, rq) <= i < |c.queue| ensures !c.queue[i].rq.stop {
      assert Passes(c.boundary, rq, Rqs(c.queue)[i]);
    }
  }

  lemma OneStep(w: O.World, s: O.Step)
    requires O.Enabled(w, s)
    ensures O.Reaches(w, [s], O.Apply(w, s))
  {
    assert [s][1..] == [];
  }

  lemma {:induction false} Concat(u: O.World, ss: seq<O.Step>, v: O.World, ts: seq<O.Step>, w: O.World)
    requires O.Reaches(u, ss, v) && O.Reaches(v, ts, w)
    ensures O.Reaches(u, ss + ts, w)
    decreases |ss|
  {
    if ss == [] {
      assert ss + ts == ts;
    } else {
      assert (ss + ts)[1..] == ss[1..] + ts;
      Concat(O.Apply(u, ss[0]), ss[1..], v, ts, w);
    }
  }

  lemma DispatchSteps(c: Core, now: nat) returns (steps: seq<O.Step>)
    requires Ok(c) && Later(c.sched, now)
    ensures O.Reaches(Line(c), steps, Line(Dispatched(c, now)))
  {
    PickHolds(c.sched, c.rqs, now);
    match Pick(c.sched, now)
    case None => steps := [];
    case Some(id) =>
      var rq := c.rqs[id];
      PlaceBehindStops(c, rq);
      steps := [O.Dispatch(rq, PlaceIn(c, rq))];
      OneStep(Line(c), steps[0]);
  }

  /** The drain lets one request after another go until none is held. */
  lemma {:induction false} DrainSteps(c: Core, now: nat) returns (steps: seq<O.Step>)
    requires Ok(c) && Later(c.sched, now)
    ensures O.Reaches(Line(c), steps, Line(Drained(c, now))) && Line(Drained(c, now)).held == map[]
    decreases c.rqs.Keys
  {
    DispatchedOk(c, now);
    var d := Dispatched(c, now);
    steps := DispatchSteps(c, now);
    if Pick(c.sched, now).Some? {
      var rest := DrainSteps(d, now);
      Concat(Line(c), steps, Line(d), rest, Line(Drained(c, now)));
      steps := steps + rest;
    } else {
      assert d.stamps.Keys == {};
    }
  }

  /** A back insertion, from any state: drain, then append. */
  lemma BackSteps(c: Core, rq: Rq, now: nat) returns (steps: seq<O.Step>)
    requires Ok(c) && Later(c.sched, now)
    ensures O.Reaches(Line(c), steps, Line(Appended(Drained(c, now), rq)))
  {
    var drain := DrainSteps(c, now);
    var d := Drained(c, now);
    OneStep(Line(d), O.Append(rq));
    Concat(Line(c), drain, Line(d), [O.Append(rq)], Line(Appended(d, rq)));
    steps := drain + [O.Append(rq)];
  }

  /** Every operation goes by steps of the line. */
  lemma Steps(c: Core, op: Op) returns (steps: seq<O.Step>)
    requires Ok(c) && Enabled(c, op)
    ensures O.Reaches(Line(c), steps, Line(Apply(c, op)))
  {
    match op
    case Insert(rq, _, fs, _, mergeable, now) =>
      var b := Bounded(c, rq, fs);
      assert Line(b) == Line(c);
      if GoesBack(op) {
        steps := BackSteps(b, rq, now);
      } else {
        steps := [O.InsertSort(rq.id, mergeable)];
        OneStep(Line(c), steps[0]);
      }
    case MergeBack(id, _) =>
      steps := [O.MergeInto(id, true)];
      OneStep(Line(c), steps[0]);
    case MergeFront(id, _) =>
      steps := [O.MergeInto(id, false)];
      OneStep(Line(c), steps[0]);
    case MergeRequests(id, other) =>
      steps := [O.MergeRequests(id, other)];
      OneStep(Line(c), steps[0]);
    case Unhash(id) =>
      steps := [O.Unhash(id)];
      OneStep(Line(c), steps[0]);
    case Dispatch(now) => steps := DispatchSteps(c, now);
    case Start =>
      steps := [O.Start];
      OneStep(Line(c), steps[0]);
    case Take =>
      steps := [O.Take];
      OneStep(Line(c), steps[0]);
  }

  // ---- runs

  ghost predicate Reaches(c: Core, ops: seq<Op>, c': Core)
    decreases |ops|
  {
    if ops == [] then c' == c else Ok(c) && Enabled(c, ops[0]) && Reaches(Apply(c, ops[0]), ops[1..], c')
  }

  function Init(sched: Scheduler): Core {
    Core(sched, map[], map[], None, {}, [], [], 0, 0, None)
  }

  /** A scheduler as its init function leaves it. */
  predicate Empty(sched: Scheduler) {
    match sched
    case Noop(fifo) => fifo == []
    case Deadline(cfg, w) => |cfg.expire| == 2 && w == R.Init(cfg)
  }

  lemma InitOk(sched: Scheduler)
    requires Empty(sched)
    ensures Ok(Init(sched))
  {
    if sched.Deadline? {
      R.InitInv(sched.cfg);
    }
  }

  /** In every run the scheduler, the hash and last_merge agree on what is held, so no operation is stuck. */
  lemma {:induction false} RunOk(c: Core, ops: seq<Op>, c': Core)
    requires Ok(c) && Reaches(c, ops, c')
    ensures Ok(c')
    decreases |ops|
  {
    if ops != [] {
      ApplyOk(c, ops[0]);
      RunOk(Apply(c, ops[0]), ops[1..], c');
    }
  }

  lemma {:induction false} RunSteps(c: Core, ops: seq<Op>, c': Core) returns (steps: seq<O.Step>)
    requires Reaches(c, ops, c')
    ensures O.Reaches(Line(c), steps, Line(c'))
    decreases |ops|
  {
    if ops == [] {
      steps := [];
    } else {
      var d := Apply(c, ops[0]);
      var first := Steps(c, ops[0]);
      var rest := RunSteps(d, ops[1..], c');
      Concat(Line(c), first, Line(d), rest, Line(c'));
      steps := first + rest;
    }
  }

  /**
   In every run with either scheduler, a request inserted at the back leaves after everything that
   entered before it, merged bios included, and before everything that entered after it.
   */
  lemma BarrierOrder(sched: Scheduler, ops: seq<Op>, c: Core, p: nat, b: nat, s: nat)
    requires Empty(sched) && Reaches(Init(sched), ops, c)
    requires var line := O.Line(Line(c)); p < |line| && line[p].barrier && b in line[p].stamps
    ensures var line := O.Line(Line(c));
            && (s < b ==> exists i :: 0 <= i < p && s in line[i].stamps)
            && (b < s ==> forall i :: 0 <= i <= p ==> s !in line[i].stamps)
  {
    var steps := RunSteps(Init(sched), ops, c);
    O.LineOrder(steps, Line(c), p, b, s);
  }

  /** In every run with either scheduler, whatever a bio or request is merged into came after the last barrier. */
  lemma MergesBehindBarrier(sched: Scheduler, ops: seq<Op>, c: Core, id: nat, p: nat, b: nat)
    requires Empty(sched) && Reaches(Init(sched), ops, c) && Candidate(c, id)
    requires var line := O.Line(Line(c)); p < |line| && line[p].barrier && b in line[p].stamps
    ensures id in c.stamps && O.Above(c.stamps[id], b)
  {
    var steps := RunSteps(Init(sched), ops, c);
    InitOk(sched);
    RunOk(Init(sched), ops, c);
    O.CandidatesNewer(steps, Line(c), id, p, b);
  }

  // ---- the sorted end of the dispatch queue

  lemma RqsInsert(queue: seq<O.Item>, p: nat, item: O.Item)
    requires p <= |queue|
    ensures Rqs(InsertAt(queue, p, item)) == InsertAt(Rqs(queue), p, item.rq)
  {
  }

  /** The end of the dispatch queue that may still be reordered is in order from the boundary around. */
  ghost predicate EndSorted(c: Core) {
    TailSorted(Rqs(c.queue), c.boundary)
  }

  /**
   When the boundary moves, the open end does not cross the new one; and a request that deadline links at
   the very end, with the boundary moved to where it ends, comes last.
   */
  ghost predicate KeepsOrder(c: Core, op: Op)
    requires Ok(c) && Enabled(c, op)
  {
    var q := Rqs(c.queue);
    match op
    case Insert(rq, _, fs, _, _, _) => GoesBack(op) || Bounded(c, rq, fs) == c || Fits(q, rq.end)
    case Dispatch(now) =>
      c.sched.Deadline? && Pick(c.sched, now).Some? ==>
        Pick(c.sched, now).value in c.rqs &&
        var rq := c.rqs[Pick(c.sched, now).value];
        q != [] && Joins(q[|q| - 1], rq) ==> Fits(q, rq.end) && NotAfter(rq.end, q[|q| - 1], rq)
    case Start =>
      c.boundaryRq == None || c.boundaryRq == Some(q[0].id) ==> Fits(q[0 := q[0].(stop := true)], q[0].end)
    case _ => true
  }

  lemma DispatchOrder(c: Core, now: nat)
    requires Ok(c) && Later(c.sched, now) && EndSorted(c)
    ensures EndSorted(Dispatched(c, now)) <==> KeepsOrder(c, Dispatch(now))
  {
    PickHolds(c.sched, c.rqs, now);
    var q := Rqs(c.queue);
    match Pick(c.sched, now)
    case None =>
    case Some(id) =>
      var rq := c.rqs[id];
      RqsInsert(c.queue, PlaceIn(c, rq), O.Item(rq, c.stamps[id], false));
      if c.sched.Noop? {
        PlaceIs(q, c.boundary, rq);
        InsertKeeps(q, c.boundary, rq, PlaceIn(c, rq));
      } else {
        assert InsertAt(q, |q|, rq) == q + [rq];
        AppendExact(q, rq, rq.end);
        BoundaryMoves(q, c.boundary, rq.end);
      }
  }

  lemma BackOrder(c: Core, rq: Rq)
    ensures EndSorted(Appended(c, rq))
  {
    assert Rqs(Appended(c, rq).queue) == Rqs(c.queue) + [rq.(stop := true)];
    AppendExact(Rqs(c.queue), rq.(stop := true), c.boundary);
  }

  lemma DriverOrder(c: Core, op: Op)
    requires Ok(c) && (op.Start? || op.Take?) && Enabled(c, op) && EndSorted(c)
    ensures EndSorted(Apply(c, op)) <==> KeepsOrder(c, op)
  {
    var q := Rqs(c.queue);
    if op.Start? {
      var q' := q[0 := q[0].(stop := true)];
      assert Rqs(Apply(c, op).queue) == q';
      StartSorts(q, c.boundary);
      BoundaryMoves(q', c.boundary, q[0].end);
    } else {
      assert Rqs(Apply(c, op).queue) == q[1..];
      TakeSorts(q, c.boundary);
    }
  }

  /** An operation keeps the end sorted exactly if it keeps to the condition. */
  lemma OrderExact(c: Core, op: Op)
    requires Ok(c) && Enabled(c, op) && EndSorted(c)
    ensures EndSorted(Apply(c, op)) <==> KeepsOrder(c, op)
  {
    if op.Insert? {
      if GoesBack(op) {
        BackOrder(Drained(Bounded(c, op.rq, op.fs), op.now), op.rq);
      } else {
        BoundaryMoves(Rqs(c.queue), c.boundary, op.rq.end);
      }
    } else if op.Dispatch? {
      DispatchOrder(c, op.now);
    } else if op.Start? || op.Take? {
      DriverOrder(c, op);
    }
  }

  ghost predicate AlwaysSorted(c: Core, ops: seq<Op>)
    decreases |ops|
  {
    EndSorted(c) &&
    (ops == [] || (Ok(c) && Enabled(c, ops[0]) && AlwaysSorted(Apply(c, ops[0]), ops[1..])))
  }

  ghost predicate AlwaysKeeps(c: Core, ops: seq<Op>)
    decreases |ops|
  {
    ops == [] ||
    (Ok(c) && Enabled(c, ops[0]) && KeepsOrder(c, ops[0]) && AlwaysKeeps(Apply(c, ops[0]), ops[1..]))
  }

  /** The end is sorted all through a run exactly if every operation of it keeps to the condition. */
  lemma {:induction false} SortedRuns(c: Core, ops: seq<Op>, c': Core)
    requires Reaches(c, ops, c') && EndSorted(c)
    ensures AlwaysSorted(c, ops) <==> AlwaysKeeps(c, ops)
    decreases |ops|
  {
    if ops != [] {
      OrderExact(c, ops[0]);
      if KeepsOrder(c, ops[0]) {
        SortedRuns(Apply(c, ops[0]), ops[1..], c');
      }
    }
  }

  // ---- a run that leaves it unsorted

  lemma Extend(c0: Core, ops: seq<Op>, c: Core, op: Op)
    requires Reaches(c0, ops, c) && Ok(c) && Enabled(c, op)
    ensures Ok(Apply(c, op)) && Reaches(c0, ops + [op], Apply(c, op))
    decreases |ops|
  {
    ApplyOk(c, op);
    if ops == [] {
      assert ([] + [op])[1..] == [];
    } else {
      assert (ops + [op])[1..] == ops[1..] + [op];
      Extend(Apply(c0, ops[0]), ops[1..], c, op);
    }
  }

  /** A read of sectors `pos` to `end`. */
  function Read(id: nat, pos: nat, end: nat): Rq {
    Rq(id, pos, end, false, false, false)
  }

  function Ids(rqs: seq<Rq>): seq<nat> {
    seq(|rqs|, i requires 0 <= i < |rqs| => rqs[i].id)
  }

  /** A run of the noop scheduler, which holds `held` in order and has dispatched `sent`, with no boundary yet. */
  ghost predicate At(ops: seq<Op>, c: Core, held: seq<Rq>, sent: seq<Rq>) {
    forall k {:trigger Unfold(k, c)} :: Unfold(k, c) ==>
      && Reaches(Init(Noop([])), ops, c) && Ok(c) && c.sched == Noop(Ids(held)) && Rqs(c.queue) == sent
      && (forall i :: 0 <= i < |held| ==> held[i].id in c.rqs && c.rqs[held[i].id] == held[i])
      && c.boundary == 0 && c.boundaryRq == None
  }

  lemma AtStart()
    ensures At([], Init(Noop([])), [], [])
  {
    InitOk(Noop([]));
  }

  /** It is given a read. */
  lemma AddRead(ops: seq<Op>, c: Core, held: seq<Rq>, sent: seq<Rq>, rq: Rq) returns (ops': seq<Op>, c': Core)
    requires At(ops, c, held, sent) && rq.id !in Ids(held) && !rq.stop
    ensures At(ops', c', held + [rq], sent)
  {
    assert Unfold(0, c);
    CountIn(Ids(held), rq.id);
    var op := Insert(rq, Sort, true, true, false, 0);
    Extend(Init(Noop([])), ops, c, op);
    ops', c' := ops + [op], Apply(c, op);
    assert Ids(held + [rq]) == Ids(held) + [rq.id];
  }

  /** It dispatches its first request, which comes last. */
  lemma SendRead(ops: seq<Op>, c: Core, held: seq<Rq>, sent: seq<Rq>) returns (ops': seq<Op>, c': Core)
    requires At(ops, c, held, sent) && held != []
    requires sent != [] ==> NotAfter(0, sent[|sent| - 1], held[0])
    ensures At(ops', c', held[1..], sent + [held[0]])
  {
    assert Unfold(0, c);
    var rq, op := held[0], Dispatch(0);
    Extend(Init(Noop([])), ops, c, op);
    ops', c' := ops + [op], Apply(c, op);
    assert PlaceIn(c, rq) == |c.queue|;
    assert Ids(held)[1..] == Ids(held[1..]);
    forall i | 0 <= i < |held[1..]| ensures held[1..][i].id != rq.id {
      assert Count(Ids(held), rq.id) == 1;
      OnlyFirst(Ids(held), i + 1);
    }
  }

  lemma OnlyFirst(xs: seq<nat>, i: nat)
    requires 0 < i < |xs| && Count(xs, xs[0]) <= 1
    ensures xs[i] != xs[0]
  {
    CountIn(xs[1..], xs[0]);
    assert xs[1..][i - 1] == xs[i];
  }

  /** The driver starts the first of three, and the boundary moves to where that ends. */
  lemma StartUnsorts(ops: seq<Op>, c: Core, r1: Rq, r2: Rq, r3: Rq)
    requires At(ops, c, [], [r1, r2, r3]) && Joins(r2, r3) && !NotAfter(r1.end, r2, r3)
    ensures Ok(c) && Enabled(c, Start)
    ensures Reaches(Init(Noop([])), ops + [Start], Apply(c, Start)) && !EndSorted(Apply(c, Start))
  {
    assert Unfold(0, c);
    Extend(Init(Noop([])), ops, c, Start);
    var q := Rqs(Apply(c, Start).queue);
    assert Rqs(c.queue)[0] == r1 && Rqs(c.queue)[1] == r2 && Rqs(c.queue)[2] == r3;
    assert q[1] == r2 && q[2] == r3;
    assert Open(q, 1);
  }

  /** Three reads dispatched in order: the boundary falls between the second and the third. */
  lemma BoundaryUnsorts() returns (ops: seq<Op>, c: Core)
    ensures Reaches(Init(Noop([])), ops, c) && !EndSorted(c)
  {
    AtStart();
    var r1, r2, r3 := Read(1, 10, 30), Read(2, 20, 24), Read(3, 40, 48);
    ops, c := AddRead([], Init(Noop([])), [], [], r1);
    assert [] + [r1] == [r1] && [r1] + [r2] == [r1, r2] && [r1, r2] + [r3] == [r1, r2, r3];
    ops, c := AddRead(ops, c, [r1], [], r2);
    ops, c := AddRead(ops, c, [r1, r2], [], r3);
    assert [r1, r2, r3][1..] == [r2, r3] && [r2, r3][1..] == [r3] && [r3][1..] == [];
    ops, c := SendRead(ops, c, [r1, r2, r3], []);
    ops, c := SendRead(ops, c, [r2, r3], [r1]);
    ops, c := SendRead(ops, c, [r3], [r1, r2]);
    StartUnsorts(ops, c, r1, r2, r3);
    ops, c := ops + [Start], Apply(c, Start);
  }
}
