/**
 Expired requests of the deadline scheduler (block/deadline-iosched.c): how many dispatches go by, over
 every run, before one is served.
 */
module DeadlineExpiry {
  import opened Common
  import opened Lists
  import opened RbTree
  import opened Deadline
  import opened DeadlineRuns

  // ---- counting what is due

  lemma {:induction false} DueAppend(t: seq<Node>, n: Node, time: nat)
    ensures Due(t + [n], time) == Due(t, time) + if n.key <= time then 1 else 0
  {
    assert t + [n] == InsertAt(t, |t|, n);
    DueInsert(t, |t|, n, time);
  }

  lemma DueEraseAt(t: seq<Node>, p: nat, time: nat)
    requires p < |t|
    ensures Due(t, time) == Due(EraseAt(t, p), time) + if t[p].key <= time then 1 else 0
  {
    assert t == InsertAt(EraseAt(t, p), p, t[p]);
    DueInsert(EraseAt(t, p), p, t[p], time);
  }

  lemma DueErase(t: seq<Node>, id: nat, time: nat)
    requires Has(t, id)
    ensures Due(t, time) == Due(Erase(t, id), time) + if Expiry(t, id) <= time then 1 else 0
  {
    FindFinds(t, id);
    DueEraseAt(t, Find(t, id), time);
  }

  lemma {:induction false} DueNone(t: seq<Node>, time: nat)
    requires forall i :: 0 <= i < |t| ==> time < t[i].key
    ensures Due(t, time) == 0
  {
    if t != [] {
      DueNone(t[1..], time);
    }
  }

  /** If anything is due, the oldest is. */
  lemma DueHead(fifo: seq<Node>, time: nat)
    requires Sorted(fifo) && Due(fifo, time) > 0
    ensures fifo != [] && fifo[0].key <= time
  {
    if fifo != [] && time < fifo[0].key {
      DueNone(fifo, time);
      assert false;
    }
  }

  /** A request that takes over another's deadline takes its place among those due. */
  lemma DueMerged(lane: Lane, id: nat, gone: nat, time: nat)
    requires LaneOk(lane) && Has(lane.tree, id) && Has(lane.tree, gone) && id != gone
    ensures Due(Merged(lane, id, gone).fifo, time) <= Due(lane.fifo, time)
  {
    var fifo := lane.fifo;
    var f := Adopted(fifo, id, gone);
    AdoptedSorted(fifo, id, gone);
    DueErase(f, gone, time);
    if Expiry(fifo, gone) < Expiry(fifo, id) {
      DueErase(fifo, id, time);
      AdoptedDue(fifo, id, gone, time);
    }
  }

  lemma AdoptedDue(fifo: seq<Node>, id: nat, gone: nat, time: nat)
    requires Sorted(fifo) && Unique(fifo) && Has(fifo, id) && Has(fifo, gone) && id != gone
    requires Expiry(fifo, gone) < Expiry(fifo, id)
    ensures var f := Adopted(fifo, id, gone);
            && Has(f, gone) && Expiry(f, gone) == Expiry(fifo, gone)
            && Due(f, time) == Due(Erase(fifo, id), time) + if Expiry(fifo, gone) <= time then 1 else 0
  {
    var rest, n := Erase(fifo, id), Node(Expiry(fifo, gone), id);
    EraseKeeps(fifo, id);
    EraseExpiry(fifo, id, gone);
    FindFinds(rest, gone);
    var p := Find(rest, gone);
    DueInsert(rest, p + 1, n, time);
    AdoptedSorted(fifo, id, gone);
    ExpiryAt(InsertAt(rest, p + 1, n), gone, p);
  }

  /** How many requests of a direction expire by `time`. */
  function DueIn(s: State, dir: nat, time: nat): nat {
    if |s.lanes| == 2 && dir < 2 then Due(s.lanes[dir].fifo, time) else 0
  }

  /** An operation other than a dispatch adds nothing that has expired already. */
  lemma OtherDue(cfg: Tunables, w: World, op: Op, dir: nat, time: nat)
    requires Inv(cfg, w) && Enabled(w, op) && !op.Dispatch? && time < w.clock && dir < 2
    ensures DueIn(Apply(cfg, w, op).s, dir, time) <= DueIn(w.s, dir, time)
  {
    if op.dir == dir {
      var lane := w.s.lanes[dir];
      match op
      case Add(_, id, _, now) => DueAppend(lane.fifo, Node(now + cfg.expire[dir], id), time);
      case FrontMerge(_, _, _) =>
      case MergeRequests(_, id, gone) => DueMerged(lane, id, gone, time);
    }
  }

  /** What a dispatch does to either fifo. */
  lemma DispatchFifos(cfg: Tunables, w: World, now: nat, dir: nat)
    requires Inv(cfg, w) && dir < 2 && Pending(w.s, dir)
    ensures Chosen(w.s, cfg, now).Some? && |Apply(cfg, w, Dispatch(now)).s.lanes| == 2
    ensures var c, fifo := Chosen(w.s, cfg, now).value, w.s.lanes[dir].fifo;
            && c.dir < 2 && (c.dir == dir ==> Has(fifo, c.id)) && Unique(fifo)
            && Apply(cfg, w, Dispatch(now)).s.lanes[dir].fifo == if c.dir == dir then Erase(fifo, c.id) else fifo
  {
    ChosenHeld(w.s, cfg, now);
    MovedSound(w.s, Chosen(w.s, cfg, now).value);
  }

  /** A dispatch takes at most one away; a new batch, if anything has expired, takes the oldest. */
  lemma DispatchDue(cfg: Tunables, w: World, now: nat, dir: nat, time: nat)
    requires Inv(cfg, w) && dir < 2 && time < now && DueIn(w.s, dir, time) > 0
    ensures Chosen(w.s, cfg, now).Some? && Chosen(w.s, cfg, now).value.dir < 2
    ensures var c, s' := Chosen(w.s, cfg, now).value, Apply(cfg, w, Dispatch(now)).s;
            && DueIn(s', dir, time) <= DueIn(w.s, dir, time)
            && (Running(w.s, cfg).None? && c.dir == dir ==> DueIn(s', dir, time) == DueIn(w.s, dir, time) - 1)
  {
    var fifo := w.s.lanes[dir].fifo;
    DueHead(fifo, time);
    DispatchFifos(cfg, w, now, dir);
    var c := Chosen(w.s, cfg, now).value;
    if c.dir == dir {
      DueErase(fifo, c.id, time);
      if Running(w.s, cfg).None? {
        ExpiryAt(fifo, c.id, 0);
      }
    }
  }

  // ---- what can still go first

  /** The most dispatches from one new batch of a direction to the next, while it has requests waiting. */
  function Round(cfg: Tunables, dir: nat): nat {
    if dir == WRITE then (cfg.starved + 1) * Batch(cfg) else 2 * Batch(cfg)
  }

  /** The most dispatches before the next new batch of a direction. */
  function Ahead(cfg: Tunables, s: State, dir: nat): nat
    requires |s.lanes| == 2 && dir < 2
  {
    (if dir == WRITE then ReadsLeft(cfg, s) else WritesLeft(cfg, s)) + BatchLeft(cfg, s, dir)
  }

  lemma AheadBound(cfg: Tunables, s: State, dir: nat)
    requires Sound(s) && dir < 2
    ensures Ahead(cfg, s, dir) <= Round(cfg, dir)
  {
    Distribute(Batch(cfg), cfg.starved, 1);
    Grow(Batch(cfg), if s.starved < cfg.starved then cfg.starved - s.starved else 0, cfg.starved);
  }

  /** The other direction is served: it uses up what it has left. */
  lemma OtherServed(cfg: Tunables, w: World, now: nat, dir: nat)
    requires Ready(cfg, w) && dir < 2 && Serves(cfg, w.s, now, 1 - dir) && (dir == READ ==> cfg.starved >= 1)
    ensures |Apply(cfg, w, Dispatch(now)).s.lanes| == 2
    ensures Ahead(cfg, Apply(cfg, w, Dispatch(now)).s, dir) < Ahead(cfg, w.s, dir)
  {
    MovedLanes(w.s, Chosen(w.s, cfg, now).value);
    if dir == WRITE {
      ReadCosts(cfg, w, now);
    } else {
      WriteCosts(cfg, w, now);
    }
  }

  /** Its own batch goes on. */
  lemma BatchGoesOn(cfg: Tunables, s: State, c: Choice)
    requires |s.lanes| == 2 && Running(s, cfg) == Some(c)
    ensures |Moved(s, c).lanes| == 2 && Ahead(cfg, Moved(s, c), c.dir) < Ahead(cfg, s, c.dir)
  {
    MovedLanes(s, c);
  }

  /** It starts a new batch. */
  lemma BatchStarts(cfg: Tunables, s: State, now: nat, c: Choice)
    requires |s.lanes| == 2 && Running(s, cfg).None? && Chosen(s, cfg, now) == Some(c)
    requires c.dir == READ ==> cfg.starved >= 1
    ensures c.dir < 2 && |Moved(s, c).lanes| == 2 && Ahead(cfg, Moved(s, c), c.dir) < Round(cfg, c.dir)
  {
    MovedLanes(s, c);
    Distribute(Batch(cfg), cfg.starved, 1);
  }

  /** The most dispatches that can still go by with something due. */
  function Rest(cfg: Tunables, s: State, dir: nat, due: nat): int
    requires |s.lanes| == 2 && dir < 2
  {
    Ahead(cfg, s, dir) + (due - 1) * Round(cfg, dir)
  }

  lemma RestNat(cfg: Tunables, s: State, dir: nat, due: nat)
    requires |s.lanes| == 2 && dir < 2 && due > 0
    ensures Rest(cfg, s, dir, due) >= 0
  {
    Grow(Round(cfg, dir), 0, due - 1);
  }

  lemma RestFalls(cfg: Tunables, s: State, dir: nat, due: nat, s': State, due': nat)
    requires |s.lanes| == |s'.lanes| == 2 && dir < 2
    requires (Ahead(cfg, s', dir) < Ahead(cfg, s, dir) && due' <= due)
             || (Ahead(cfg, s', dir) < Round(cfg, dir) && due' == due - 1)
    ensures Rest(cfg, s', dir, due') < Rest(cfg, s, dir, due)
  {
    Falls(Ahead(cfg, s, dir), Ahead(cfg, s', dir), Round(cfg, dir), due, due');
  }

  lemma Falls(a: nat, a': nat, r: nat, due: nat, due': nat)
    requires (a' < a && due' <= due) || (a' < r && due' == due - 1)
    ensures a' + (due' - 1) * r < a + (due - 1) * r
  {
    Grow(r, due' - 1, due - 1);
    Distribute(r, due' - 1, 1);
  }

  lemma DispatchCosts(cfg: Tunables, w: World, now: nat, dir: nat, time: nat)
    requires Inv(cfg, w) && dir < 2 && time < now && DueIn(w.s, dir, time) > 0 && (dir == READ ==> cfg.starved >= 1)
    ensures var s' := Apply(cfg, w, Dispatch(now)).s;
            |s'.lanes| == 2 && Rest(cfg, s', dir, DueIn(s', dir, time)) < Rest(cfg, w.s, dir, DueIn(w.s, dir, time))
  {
    DispatchDue(cfg, w, now, dir, time);
    DueHead(w.s.lanes[dir].fifo, time);
    var c, s' := Chosen(w.s, cfg, now).value, Apply(cfg, w, Dispatch(now)).s;
    if c.dir != dir {
      OtherServed(cfg, w, now, dir);
    } else if Running(w.s, cfg).Some? {
      BatchGoesOn(cfg, w.s, c);
    } else {
      BatchStarts(cfg, w.s, now, c);
    }
    RestFalls(cfg, w.s, dir, DueIn(w.s, dir, time), s', DueIn(s', dir, time));
  }

  lemma OtherCosts(cfg: Tunables, w: World, op: Op, dir: nat, time: nat)
    requires Inv(cfg, w) && Enabled(w, op) && !op.Dispatch? && time < w.clock && dir < 2
    ensures var s' := Apply(cfg, w, op).s;
            |s'.lanes| == 2 && Rest(cfg, s', dir, DueIn(s', dir, time)) <= Rest(cfg, w.s, dir, DueIn(w.s, dir, time))
  {
    OtherDue(cfg, w, op, dir, time);
    OtherOpsKeep(cfg, w, op);
    var s' := Apply(cfg, w, op).s;
    AheadKeeps(cfg, w.s, dir, s');
    RestKeeps(cfg, w.s, dir, DueIn(w.s, dir, time), s', DueIn(s', dir, time));
  }

  lemma AheadKeeps(cfg: Tunables, s: State, dir: nat, s': State)
    requires |s.lanes| == |s'.lanes| == 2 && dir < 2 && s'.batching == s.batching && s'.starved == s.starved
    requires forall d :: 0 <= d < 2 && s'.lanes[d].next.Some? ==> s.lanes[d].next.Some?
    ensures Ahead(cfg, s', dir) <= Ahead(cfg, s, dir)
  {
  }

  lemma RestKeeps(cfg: Tunables, s: State, dir: nat, due: nat, s': State, due': nat)
    requires |s.lanes| == |s'.lanes| == 2 && dir < 2 && Ahead(cfg, s', dir) <= Ahead(cfg, s, dir) && due' <= due
    ensures Rest(cfg, s', dir, due') <= Rest(cfg, s, dir, due)
  {
    Grow(Round(cfg, dir), due' - 1, due - 1);
  }

  lemma StepCosts(cfg: Tunables, w: World, op: Op, dir: nat, time: nat)
    requires Inv(cfg, w) && Enabled(w, op) && dir < 2 && time < w.clock && DueIn(w.s, dir, time) > 0
    requires dir == READ ==> cfg.starved >= 1
    ensures var w' := Apply(cfg, w, op);
            && Inv(cfg, w') && w.clock <= w'.clock
            && (if op.Dispatch? then 1 else 0) + Rest(cfg, w'.s, dir, DueIn(w'.s, dir, time))
                 <= Rest(cfg, w.s, dir, DueIn(w.s, dir, time))
  {
    StepKeeps(cfg, w, op);
    if op.Dispatch? {
      DispatchCosts(cfg, w, op.now, dir, time);
    } else {
      OtherCosts(cfg, w, op, dir, time);
    }
  }

  // ---- runs

  /** All through the run, a request of the direction that expired by `time` is waiting. */
  ghost predicate Overdue(cfg: Tunables, w: World, ops: seq<Op>, dir: nat, time: nat)
    decreases |ops|
  {
    DueIn(w.s, dir, time) > 0 &&
    (ops == [] || (Ready(cfg, w) && Enabled(w, ops[0]) && Overdue(cfg, Apply(cfg, w, ops[0]), ops[1..], dir, time)))
  }

  lemma {:induction false} OverdueRun(cfg: Tunables, w: World, ops: seq<Op>, dir: nat, time: nat)
    requires Inv(cfg, w) && dir < 2 && time < w.clock && (dir == READ ==> cfg.starved >= 1)
    requires Overdue(cfg, w, ops, dir, time)
    ensures Dispatches(ops) <= Rest(cfg, w.s, dir, DueIn(w.s, dir, time))
    decreases |ops|
  {
    if ops == [] {
      RestNat(cfg, w.s, dir, DueIn(w.s, dir, time));
    } else {
      StepCosts(cfg, w, ops[0], dir, time);
      OverdueRun(cfg, Apply(cfg, w, ops[0]), ops[1..], dir, time);
    }
  }

  /**
   Of the requests of a direction that have expired, one is dispatched at least every round: writes every
   writes_starved + 1 batches, reads, if writes_starved is not 0, every two.
   */
  lemma OverdueBounded(cfg: Tunables, w: World, ops: seq<Op>, dir: nat, time: nat)
    requires Inv(cfg, w) && dir < 2 && time < w.clock && (dir == READ ==> cfg.starved >= 1)
    requires Overdue(cfg, w, ops, dir, time)
    ensures Dispatches(ops) <= DueIn(w.s, dir, time) * Round(cfg, dir)
  {
    OverdueRun(cfg, w, ops, dir, time);
    AheadBound(cfg, w.s, dir);
    Distribute(Round(cfg, dir), DueIn(w.s, dir, time) - 1, 1);
  }

  // ---- one request

  /** Where a request is after an operation: in the one that swallowed it, if it was swallowed. */
  function Follow(op: Op, dir: nat, id: nat): nat {
    if op.MergeRequests? && op.dir == dir && op.gone == id then op.id else id
  }

  /** The run does not dispatch the request, nor what it was merged into. */
  ghost predicate Waits(cfg: Tunables, w: World, ops: seq<Op>, dir: nat, id: nat)
    decreases |ops|
  {
    ops == [] ||
    (&& Ready(cfg, w) && Enabled(w, ops[0])
     && (ops[0].Dispatch? ==> Chosen(w.s, cfg, ops[0].now) == None || Chosen(w.s, cfg, ops[0].now).value.id != id)
     && Waits(cfg, Apply(cfg, w, ops[0]), ops[1..], dir, Follow(ops[0], dir, id)))
  }

  /** The request is waiting, and expires by `time`. */
  predicate Expires(s: State, dir: nat, id: nat, time: nat) {
    |s.lanes| == 2 && dir < 2 && Has(s.lanes[dir].fifo, id) && Expiry(s.lanes[dir].fifo, id) <= time
  }

  lemma ExpiresDue(s: State, dir: nat, id: nat, time: nat)
    requires Expires(s, dir, id, time)
    ensures DueIn(s, dir, time) > 0
  {
    DueErase(s.lanes[dir].fifo, id, time);
  }

  lemma AppendExpires(fifo: seq<Node>, n: Node, id: nat)
    requires Unique(fifo + [n]) && Has(fifo, id)
    ensures Has(fifo + [n], id) && Expiry(fifo + [n], id) == Expiry(fifo, id)
  {
    FindFinds(fifo, id);
    var p := Find(fifo, id);
    assert (fifo + [n])[p] == fifo[p];
    ExpiryAt(fifo + [n], id, p);
  }

  lemma AddedExpires(lane: Lane, x: nat, pos: nat, expiry: nat, id: nat)
    requires LaneOk(lane) && !Has(lane.fifo, x) && By(lane.fifo, expiry) && Has(lane.fifo, id)
    ensures var fifo := Added(lane, x, pos, expiry).fifo; Has(fifo, id) && Expiry(fifo, id) == Expiry(lane.fifo, id)
  {
    AddedKeeps(lane, x, pos, expiry);
    AppendExpires(lane.fifo, Node(expiry, x), id);
  }

  /** A third request keeps its deadline through a merge. */
  lemma MergedOthers(lane: Lane, id: nat, gone: nat, x: nat)
    requires LaneOk(lane) && Has(lane.tree, id) && Has(lane.tree, gone) && id != gone
    requires Has(lane.fifo, x) && x != id && x != gone
    ensures Has(Merged(lane, id, gone).fifo, x) && Expiry(Merged(lane, id, gone).fifo, x) == Expiry(lane.fifo, x)
  {
    MergedKeeps(lane, id, gone);
    var fifo := lane.fifo;
    AdoptedSorted(fifo, id, gone);
    EraseExpiry(Adopted(fifo, id, gone), gone, x);
    if Expiry(fifo, gone) < Expiry(fifo, id) {
      var rest := Erase(fifo, id);
      EraseKeeps(fifo, id);
      EraseExpiry(fifo, id, x);
      FindFinds(rest, gone);
      InsertExpiry(rest, Find(rest, gone) + 1, Node(Expiry(fifo, gone), id), x);
    }
  }

  lemma InsertExpiry(t: seq<Node>, p: nat, n: Node, x: nat)
    requires p <= |t| && Unique(t) && Unique(InsertAt(t, p, n)) && Has(t, x)
    ensures Expiry(InsertAt(t, p, n), x) == Expiry(t, x)
  {
    FindFinds(t, x);
    var q := Find(t, x);
    ExpiryAt(InsertAt(t, p, n), x, if q < p then q else q + 1);
  }

  lemma MergedExpires(lane: Lane, id: nat, gone: nat, x: nat, x': nat)
    requires LaneOk(lane) && Has(lane.tree, id) && Has(lane.tree, gone) && id != gone && Has(lane.fifo, x)
    requires x' == if x == gone then id else x
    ensures Has(Merged(lane, id, gone).fifo, x') && Expiry(Merged(lane, id, gone).fifo, x') <= Expiry(lane.fifo, x)
  {
    if x == id || x == gone {
      MergedKeeps(lane, id, gone);
    } else {
      MergedOthers(lane, id, gone, x);
    }
  }

  /** Whatever is not dispatched stays, and does not expire later. */
  lemma ExpiresStep(cfg: Tunables, w: World, op: Op, dir: nat, id: nat, time: nat)
    requires Inv(cfg, w) && Enabled(w, op) && Expires(w.s, dir, id, time)
    requires op.Dispatch? ==> Chosen(w.s, cfg, op.now) == None || Chosen(w.s, cfg, op.now).value.id != id
    ensures Expires(Apply(cfg, w, op).s, dir, Follow(op, dir, id), time)
  {
    match op
    case Add(d, x, pos, now) => AddExpires(cfg, w, d, x, pos, now, dir, id, time);
    case FrontMerge(_, _, _) =>
    case MergeRequests(d, x, gone) => MergeExpires(cfg, w, d, x, gone, dir, id, time);
    case Dispatch(now) => DispatchExpires(cfg, w, now, dir, id, time);
  }

  lemma AddExpires(cfg: Tunables, w: World, d: nat, x: nat, pos: nat, now: nat, dir: nat, id: nat, time: nat)
    requires Inv(cfg, w) && Enabled(w, Add(d, x, pos, now)) && Expires(w.s, dir, id, time)
    ensures Expires(Apply(cfg, w, Add(d, x, pos, now)).s, dir, id, time)
  {
    if d == dir {
      AddedExpires(w.s.lanes[dir], x, pos, now + cfg.expire[dir], id);
    }
  }

  lemma MergeExpires(cfg: Tunables, w: World, d: nat, x: nat, gone: nat, dir: nat, id: nat, time: nat)
    requires Inv(cfg, w) && Enabled(w, MergeRequests(d, x, gone)) && Expires(w.s, dir, id, time)
    ensures Expires(Apply(cfg, w, MergeRequests(d, x, gone)).s, dir, Follow(MergeRequests(d, x, gone), dir, id), time)
  {
    if d == dir {
      MergedExpires(w.s.lanes[dir], x, gone, id, Follow(MergeRequests(d, x, gone), dir, id));
    }
  }

  lemma DispatchExpires(cfg: Tunables, w: World, now: nat, dir: nat, id: nat, time: nat)
    requires Inv(cfg, w) && Expires(w.s, dir, id, time)
    requires Chosen(w.s, cfg, now) == None || Chosen(w.s, cfg, now).value.id != id
    ensures Expires(Apply(cfg, w, Dispatch(now)).s, dir, id, time)
  {
    ChosenHeld(w.s, cfg, now);
    if Chosen(w.s, cfg, now).Some? {
      var c := Chosen(w.s, cfg, now).value;
      MovedSound(w.s, c);
      if c.dir == dir {
        EraseKeeps(w.s.lanes[dir].fifo, c.id);
        EraseExpiry(w.s.lanes[dir].fifo, c.id, id);
      }
    }
  }

  lemma {:induction false} WaitsOverdue(cfg: Tunables, w: World, ops: seq<Op>, dir: nat, id: nat, time: nat)
    requires Inv(cfg, w) && Expires(w.s, dir, id, time) && Waits(cfg, w, ops, dir, id)
    ensures Overdue(cfg, w, ops, dir, time)
    decreases |ops|
  {
    ExpiresDue(w.s, dir, id, time);
    if ops != [] {
      StepKeeps(cfg, w, ops[0]);
      ExpiresStep(cfg, w, ops[0], dir, id, time);
      WaitsOverdue(cfg, Apply(cfg, w, ops[0]), ops[1..], dir, Follow(ops[0], dir, id), time);
    }
  }

  /**
   An expired request, itself or within one it was merged into, is dispatched within a round for each
   request of its direction that expires no later, itself included.
   */
  lemma ExpiredServed(cfg: Tunables, w: World, ops: seq<Op>, dir: nat, id: nat, time: nat)
    requires Inv(cfg, w) && Expires(w.s, dir, id, time) && time < w.clock && (dir == READ ==> cfg.starved >= 1)
    requires Waits(cfg, w, ops, dir, id)
    ensures Dispatches(ops) <= DueIn(w.s, dir, time) * Round(cfg, dir)
  {
    WaitsOverdue(cfg, w, ops, dir, id, time);
    OverdueBounded(cfg, w, ops, dir, time);
  }

  // ---- reads when writes_starved is 0

  /** Where only writes come and go, what is due of the reads stays. */
  lemma {:induction false} FavoursOverdue(cfg: Tunables, w: World, ops: seq<Op>, time: nat)
    requires |w.s.lanes| == 2 && Favours(cfg, w, ops, WRITE) && DueIn(w.s, READ, time) > 0
    requires forall op :: op in ops ==> op.Dispatch? || (op.Add? && op.dir == WRITE)
    ensures Overdue(cfg, w, ops, READ, time)
    decreases |ops|
  {
    if ops != [] {
      var w' := Apply(cfg, w, ops[0]);
      assert ops[0] in ops;
      assert w'.s.lanes[READ].fifo == w.s.lanes[READ].fifo;
      FavoursOverdue(cfg, w', ops[1..], time);
    }
  }

  /** A read has arrived and expired. */
  lemma ExpiredRead(cfg: Tunables) returns (ops: seq<Op>, w: World)
    requires |cfg.expire| == 2
    ensures Reaches(cfg, Init(cfg), ops, w) && Inv(cfg, w) && Pending(w.s, READ) && w.s.lanes[READ].next.None?
    ensures cfg.expire[READ] < w.clock && DueIn(w.s, READ, cfg.expire[READ]) > 0
  {
    var before, w1 := OneRead(cfg);
    var write := Add(WRITE, 1, 0, cfg.expire[READ] + 1);
    AddKeeps(cfg, w1, WRITE, 1, 0, cfg.expire[READ] + 1);
    ReachesMore(cfg, Init(cfg), before, w1, write);
    ops, w := before + [write], Apply(cfg, w1, write);
  }

  lemma {:induction false} ReachesMore(cfg: Tunables, w: World, ops: seq<Op>, w': World, op: Op)
    requires Reaches(cfg, w, ops, w') && Ready(cfg, w') && Enabled(w', op)
    ensures Reaches(cfg, w, ops + [op], Apply(cfg, w', op))
    decreases |ops|
  {
    if ops == [] {
      assert ([] + [op])[1..] == [];
    } else {
      assert (ops + [op])[1..] == ops[1..] + [op];
      ReachesMore(cfg, Apply(cfg, w, ops[0]), ops[1..], w', op);
    }
  }

  /** A run to `w` and on from there serves a read a round while expired reads wait. */
  ghost predicate InTime(cfg: Tunables, before: seq<Op>, w: World, ops: seq<Op>, time: nat) {
    Reaches(cfg, Init(cfg), before, w) && time < w.clock && Overdue(cfg, w, ops, READ, time) ==>
      Dispatches(ops) <= DueIn(w.s, READ, time) * Round(cfg, READ)
  }

  /** Every run does, if and only if writes_starved is at least 1. */
  lemma ExpiredReadsExact(cfg: Tunables)
    requires |cfg.expire| == 2
    ensures (forall before, w, ops, time: nat :: InTime(cfg, before, w, ops, time)) <==> cfg.starved >= 1
  {
    if cfg.starved >= 1 {
      forall before, w, ops, time: nat ensures InTime(cfg, before, w, ops, time) {
        if Reaches(cfg, Init(cfg), before, w) && time < w.clock && Overdue(cfg, w, ops, READ, time) {
          InitInv(cfg);
          RunKeeps(cfg, Init(cfg), before, w);
          OverdueBounded(cfg, w, ops, READ, time);
        }
      }
    } else {
      var before, w := ExpiredRead(cfg);
      var time := cfg.expire[READ];
      var ops := WritesUnbounded(cfg, w, DueIn(w.s, READ, time) * Round(cfg, READ) + 1);
      FavoursOverdue(cfg, w, ops, time);
      assert !InTime(cfg, before, w, ops, time);
    }
  }
}
