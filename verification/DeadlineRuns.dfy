/**
 Runs of the deadline scheduler (block/deadline-iosched.c): what every operation keeps, and how
 long either direction can be kept waiting.
 */
module DeadlineRuns {
  import opened Common
  import opened RbTree
  import opened Deadline

  /** The scheduler with the time of the last operation, nr_sorted, and what it has dispatched. */
  datatype World = World(s: State, clock: nat, nr: nat, out: seq<nat>)

  datatype Op =
    | Add(dir: nat, id: nat, pos: nat, now: nat)
    | FrontMerge(dir: nat, id: nat, pos: nat)
    | MergeRequests(dir: nat, id: nat, gone: nat)
    | Dispatch(now: nat)

  ghost predicate Held(s: State, id: nat) {
    |s.lanes| == 2 && (Has(s.lanes[READ].fifo, id) || Has(s.lanes[WRITE].fifo, id))
  }

  /** The structure of the scheduler. */
  ghost predicate Sound(s: State) {
    && |s.lanes| == 2 && LaneOk(s.lanes[READ]) && LaneOk(s.lanes[WRITE])
    && (forall id :: !(Has(s.lanes[READ].fifo, id) && Has(s.lanes[WRITE].fifo, id)))
    && !(s.lanes[READ].next.Some? && s.lanes[WRITE].next.Some?)
    && (s.lanes[WRITE].next.Some? ==> s.starved == 0)
  }

  ghost predicate Inv(cfg: Tunables, w: World) {
    && |cfg.expire| == 2 && Sound(w.s)
    && By(w.s.lanes[READ].fifo, w.clock + cfg.expire[READ]) && By(w.s.lanes[WRITE].fifo, w.clock + cfg.expire[WRITE])
    && w.nr == |w.s.lanes[READ].fifo| + |w.s.lanes[WRITE].fifo|
  }

  ghost predicate Enabled(w: World, op: Op) {
    match op
    case Add(dir, id, _, now) => dir < 2 && w.clock <= now && !Held(w.s, id)
    case FrontMerge(dir, id, _) => dir < 2 && |w.s.lanes| == 2 && Has(w.s.lanes[dir].tree, id)
    case MergeRequests(dir, id, gone) =>
      dir < 2 && |w.s.lanes| == 2 && id != gone && Has(w.s.lanes[dir].tree, id) && Has(w.s.lanes[dir].tree, gone)
    case Dispatch(now) => w.clock <= now
  }

  function WithLane(s: State, dir: nat, lane: Lane): State
    requires |s.lanes| == 2 && dir < 2
  {
    s.(lanes := s.lanes[dir := lane])
  }

  predicate Ready(cfg: Tunables, w: World) {
    && |w.s.lanes| == 2 && |cfg.expire| == 2
    && forall dir :: 0 <= dir < 2 ==> Sorted(w.s.lanes[dir].tree) && Unique(w.s.lanes[dir].tree)
  }

  function Apply(cfg: Tunables, w: World, op: Op): World
    requires Ready(cfg, w)
  {
    match op
    case Add(dir, id, pos, now) =>
      if dir >= 2 then w else
        w.(s := WithLane(w.s, dir, Added(w.s.lanes[dir], id, pos, now + cfg.expire[dir])), clock := now, nr := w.nr + 1)
    case FrontMerge(dir, id, pos) =>
      if dir >= 2 then w else
        EraseKeeps(w.s.lanes[dir].tree, id);
        w.(s := WithLane(w.s, dir, Repositioned(w.s.lanes[dir], id, pos)))
    case MergeRequests(dir, id, gone) =>
      if dir >= 2 || w.nr == 0 then w else
        w.(s := WithLane(w.s, dir, Merged(w.s.lanes[dir], id, gone)), nr := w.nr - 1)
    case Dispatch(now) =>
      match Chosen(w.s, cfg, now)
      case None => w.(clock := now)
      case Some(c) => World(Moved(w.s, c), now, if w.nr == 0 then 0 else w.nr - 1, w.out + [c.id])
  }

  // ---- what every operation keeps

  lemma SoundPut(s: State, dir: nat, lane: Lane)
    requires Sound(s) && dir < 2 && LaneOk(lane)
    requires lane.next.Some? ==> s.lanes[dir].next.Some?
    requires forall id :: Has(lane.fifo, id) && !Has(s.lanes[dir].fifo, id) ==> !Held(s, id)
    ensures Sound(WithLane(s, dir, lane))
  {
  }

  lemma EraseBy(fifo: seq<Node>, id: nat, time: nat)
    requires By(fifo, time)
    ensures By(Erase(fifo, id), time)
  {
    FindFinds(fifo, id);
  }

  lemma MergedBy(lane: Lane, id: nat, gone: nat, time: nat)
    requires By(lane.fifo, time)
    ensures By(Merged(lane, id, gone).fifo, time)
  {
    EraseBy(lane.fifo, id, time);
    FindFinds(lane.fifo, gone);
    var f := Adopted(lane.fifo, id, gone);
    assert By(f, time);
    EraseBy(f, gone, time);
  }

  lemma AddKeeps(cfg: Tunables, w: World, dir: nat, id: nat, pos: nat, now: nat)
    requires Inv(cfg, w) && Enabled(w, Add(dir, id, pos, now))
    ensures Inv(cfg, Apply(cfg, w, Add(dir, id, pos, now)))
  {
    var lane := w.s.lanes[dir];
    AddedKeeps(lane, id, pos, now + cfg.expire[dir]);
    forall x ensures Has(Added(lane, id, pos, now + cfg.expire[dir]).fifo, x) <==> Has(lane.fifo, x) || x == id {
      HasAppend(lane.fifo, Node(now + cfg.expire[dir], id), x);
    }
    SoundPut(w.s, dir, Added(lane, id, pos, now + cfg.expire[dir]));
  }

  lemma MergesKeep(cfg: Tunables, w: World, op: Op)
    requires Inv(cfg, w) && Enabled(w, op) && (op.FrontMerge? || op.MergeRequests?)
    ensures Inv(cfg, Apply(cfg, w, op))
  {
    var lane := w.s.lanes[op.dir];
    if op.FrontMerge? {
      RepositionedKeeps(lane, op.id, op.pos);
      SoundPut(w.s, op.dir, Repositioned(lane, op.id, op.pos));
    } else {
      MergeKeeps(cfg, w, op.dir, op.id, op.gone);
    }
  }

  lemma MergeKeeps(cfg: Tunables, w: World, dir: nat, id: nat, gone: nat)
    requires Inv(cfg, w) && Enabled(w, MergeRequests(dir, id, gone))
    ensures Inv(cfg, Apply(cfg, w, MergeRequests(dir, id, gone)))
  {
    var lane := w.s.lanes[dir];
    MergedKeeps(lane, id, gone);
    MergedBy(lane, id, gone, w.clock + cfg.expire[dir]);
    MergedFits(cfg, w, dir, gone, Merged(lane, id, gone));
  }

  /** One request fewer in a direction, and no next one where there was none. */
  lemma MergedFits(cfg: Tunables, w: World, dir: nat, gone: nat, lane: Lane)
    requires Inv(cfg, w) && dir < 2 && LaneOk(lane) && By(lane.fifo, w.clock + cfg.expire[dir])
    requires |lane.fifo| == |w.s.lanes[dir].fifo| - 1 && (lane.next.Some? ==> w.s.lanes[dir].next.Some?)
    requires forall x :: Has(lane.fifo, x) <==> Has(w.s.lanes[dir].fifo, x) && x != gone
    ensures w.nr > 0 && Inv(cfg, w.(s := WithLane(w.s, dir, lane), nr := w.nr - 1))
  {
    SoundPut(w.s, dir, lane);
  }

  /** A choice is a request of its direction that is held. */
  lemma ChosenHeld(s: State, cfg: Tunables, now: nat)
    requires Sound(s)
    ensures Chosen(s, cfg, now).Some? ==>
              var c := Chosen(s, cfg, now).value;
              c.dir < 2 && Has(s.lanes[c.dir].tree, c.id) && (c.dir == WRITE ==> c.starved == 0)
    ensures Chosen(s, cfg, now).None? ==> s.lanes[READ].fifo == [] && s.lanes[WRITE].fifo == []
  {
    if Chosen(s, cfg, now).Some? {
      var c := Chosen(s, cfg, now).value;
      if Running(s, cfg).None? {
        assert s.lanes[c.dir].fifo != [];
        assert Has(s.lanes[c.dir].fifo, s.lanes[c.dir].fifo[0].id);
      }
    }
  }

  /** A new batch goes to the oldest request of its direction if that has expired. */
  lemma ExpiredFirst(s: State, cfg: Tunables, now: nat, n: Node)
    requires Sound(s) && Running(s, cfg).None? && Chosen(s, cfg, now).Some?
    requires Chosen(s, cfg, now).value.dir < 2 && n in s.lanes[Chosen(s, cfg, now).value.dir].fifo && now > n.key
    ensures var c := Chosen(s, cfg, now).value;
            exists m :: m in s.lanes[c.dir].fifo && m.id == c.id && m.key <= n.key
  {
    var c := Chosen(s, cfg, now).value;
    var fifo := s.lanes[c.dir].fifo;
    var i :| 0 <= i < |fifo| && fifo[i] == n;
    assert fifo[0].key <= n.key && fifo[0] in fifo;
  }

  lemma TakenKeeps(lane: Lane, id: nat)
    requires LaneOk(lane) && Has(lane.tree, id)
    ensures var lane' := Removed(lane.(next := Latter(lane.tree, id)), id);
            && LaneOk(lane') && |lane'.fifo| == |lane.fifo| - 1 && lane'.fifo == Erase(lane.fifo, id)
            && (forall x :: Has(lane'.fifo, x) <==> Has(lane.fifo, x) && x != id)
  {
    if Latter(lane.tree, id).Some? {
      LatterHeld(lane.tree, id);
    }
    RemovedKeeps(lane.(next := Latter(lane.tree, id)), id);
  }

  /** Two lanes side by side. */
  lemma SoundPair(s: State, r: Lane, w: Lane, batching: nat, starved: nat)
    requires Sound(s) && LaneOk(r) && LaneOk(w) && !(r.next.Some? && w.next.Some?)
    requires forall id :: Has(r.fifo, id) ==> Has(s.lanes[READ].fifo, id)
    requires forall id :: Has(w.fifo, id) ==> Has(s.lanes[WRITE].fifo, id)
    requires w.next.Some? ==> starved == 0
    ensures Sound(State([r, w], batching, starved))
  {
  }

  lemma MovedSound(s: State, c: Choice)
    requires Sound(s) && c.dir < 2 && Has(s.lanes[c.dir].tree, c.id) && (c.dir == WRITE ==> c.starved == 0)
    ensures Sound(Moved(s, c))
    ensures |Moved(s, c).lanes[c.dir].fifo| == |s.lanes[c.dir].fifo| - 1
    ensures Moved(s, c).lanes[1 - c.dir].fifo == s.lanes[1 - c.dir].fifo
    ensures Moved(s, c).lanes[c.dir].fifo == Erase(s.lanes[c.dir].fifo, c.id)
  {
    TakenKeeps(s.lanes[c.dir], c.id);
    var s' := Moved(s, c);
    assert s'.lanes == [s'.lanes[READ], s'.lanes[WRITE]];
    SoundPair(s, s'.lanes[READ], s'.lanes[WRITE], c.batching, c.starved);
  }

  lemma MovedHeld(s: State, c: Choice, x: nat)
    requires Sound(s) && c.dir < 2 && Has(s.lanes[c.dir].tree, c.id)
    ensures Held(Moved(s, c), x) <==> Held(s, x) && x != c.id
  {
    TakenKeeps(s.lanes[c.dir], c.id);
    assert Has(s.lanes[c.dir].fifo, c.id);
  }

  lemma DispatchKeeps(cfg: Tunables, w: World, now: nat)
    requires Inv(cfg, w) && w.clock <= now
    ensures Inv(cfg, Apply(cfg, w, Dispatch(now)))
  {
    ChosenHeld(w.s, cfg, now);
    if Chosen(w.s, cfg, now).Some? {
      var c := Chosen(w.s, cfg, now).value;
      MovedSound(w.s, c);
      EraseBy(w.s.lanes[c.dir].fifo, c.id, w.clock + cfg.expire[c.dir]);
    }
  }

  lemma StepKeeps(cfg: Tunables, w: World, op: Op)
    requires Inv(cfg, w) && Enabled(w, op)
    ensures Inv(cfg, Apply(cfg, w, op))
  {
    match op
    case Add(dir, id, pos, now) => AddKeeps(cfg, w, dir, id, pos, now);
    case Dispatch(now) => DispatchKeeps(cfg, w, now);
    case _ => MergesKeep(cfg, w, op);
  }

  /** The invariant by name. */
  ghost predicate Settled(cfg: Tunables, w: World) {
    Ready(cfg, w) && forall k {:trigger Unfold(k, w)} :: Unfold(k, w) ==> Inv(cfg, w)
  }

  lemma SettledStep(cfg: Tunables, w: World, op: Op)
    requires Settled(cfg, w) && Enabled(w, op)
    ensures Settled(cfg, Apply(cfg, w, op))
    ensures op.MergeRequests? ==> w.nr > 0
  {
    assert Unfold(0, w);
    StepKeeps(cfg, w, op);
    Named(cfg, Apply(cfg, w, op));
    if op.MergeRequests? {
      NotEmpty(cfg, w, op.dir, op.id);
    }
  }

  lemma Named(cfg: Tunables, w: World)
    requires Inv(cfg, w)
    ensures Settled(cfg, w)
  {
  }

  lemma NotEmpty(cfg: Tunables, w: World, dir: nat, id: nat)
    requires Inv(cfg, w) && dir < 2 && Has(w.s.lanes[dir].tree, id)
    ensures w.nr > 0
  {
    assert Has(w.s.lanes[dir].fifo, id);
  }

  lemma SettledChosen(cfg: Tunables, w: World, now: nat)
    requires Settled(cfg, w)
    ensures match Chosen(w.s, cfg, now)
            case None =>
              && w.s.lanes[READ].fifo == w.s.lanes[WRITE].fifo == []
              && w.s.lanes[READ].tree == w.s.lanes[WRITE].tree == [] && w.nr == 0
            case Some(c) =>
              && c.dir < 2 && w.nr > 0 && Held(w.s, c.id) && |Moved(w.s, c).lanes| == 2
              && |Moved(w.s, c).lanes[READ].fifo| + |Moved(w.s, c).lanes[WRITE].fifo|
                   < |w.s.lanes[READ].fifo| + |w.s.lanes[WRITE].fifo|
              && forall x :: Held(Moved(w.s, c), x) <==> Held(w.s, x) && x != c.id
  {
    assert Unfold(0, w);
    ChosenHeld(w.s, cfg, now);
    if Chosen(w.s, cfg, now).Some? {
      var c := Chosen(w.s, cfg, now).value;
      assert Has(w.s.lanes[c.dir].fifo, c.id);
      MovedSound(w.s, c);
      forall x ensures Held(Moved(w.s, c), x) <==> Held(w.s, x) && x != c.id {
        MovedHeld(w.s, c, x);
      }
    }
  }

  lemma SettledPick(cfg: Tunables, w: World, now: nat)
    requires Settled(cfg, w) && Chosen(w.s, cfg, now).Some?
    ensures Chosen(w.s, cfg, now).value.dir < 2 && w.nr > 0
  {
    SettledChosen(cfg, w, now);
  }

  ghost predicate Reaches(cfg: Tunables, w: World, ops: seq<Op>, w': World)
    decreases |ops|
  {
    if ops == [] then w' == w
    else Ready(cfg, w) && Enabled(w, ops[0]) && Reaches(cfg, Apply(cfg, w, ops[0]), ops[1..], w')
  }

  function Init(cfg: Tunables): World {
    World(State([Lane([], [], None), Lane([], [], None)], 0, 0), 0, 0, [])
  }

  /** In every run: the two orders of each direction agree, the fifo is by expiry, and the counts are right. */
  lemma {:induction false} RunKeeps(cfg: Tunables, w: World, ops: seq<Op>, w': World)
    requires Inv(cfg, w) && Reaches(cfg, w, ops, w')
    ensures Inv(cfg, w')
    decreases |ops|
  {
    if ops != [] {
      StepKeeps(cfg, w, ops[0]);
      RunKeeps(cfg, Apply(cfg, w, ops[0]), ops[1..], w');
    }
  }

  // ---- starvation

  /** Every dispatch of the run serves `dir` although the other direction has requests waiting. */
  ghost predicate Favours(cfg: Tunables, w: World, ops: seq<Op>, dir: nat)
    requires dir < 2
    decreases |ops|
  {
    ops == [] ||
    (&& Ready(cfg, w) && Enabled(w, ops[0])
     && (ops[0].Dispatch? ==> Serves(cfg, w.s, ops[0].now, dir))
     && Favours(cfg, Apply(cfg, w, ops[0]), ops[1..], dir))
  }

  predicate Serves(cfg: Tunables, s: State, now: nat, dir: nat)
    requires |s.lanes| == 2 && dir < 2
  {
    Pending(s, 1 - dir) && Chosen(s, cfg, now).Some? && Chosen(s, cfg, now).value.dir == dir
  }

  function Dispatches(ops: seq<Op>): nat {
    if ops == [] then 0 else (if ops[0].Dispatch? then 1 else 0) + Dispatches(ops[1..])
  }

  /** The longest a batch can be. */
  function Batch(cfg: Tunables): nat {
    if cfg.batch < 1 then 1 else cfg.batch
  }

  /** What is left of the running batch of a direction. */
  function BatchLeft(cfg: Tunables, s: State, dir: nat): nat
    requires |s.lanes| == 2 && dir < 2
  {
    if s.lanes[dir].next.Some? && s.batching < cfg.batch then cfg.batch - s.batching else 0
  }

  /** How many reads can still go before waiting writes are served. */
  function ReadsLeft(cfg: Tunables, s: State): nat
    requires |s.lanes| == 2
  {
    BatchLeft(cfg, s, READ) + if s.starved < cfg.starved then (cfg.starved - s.starved) * Batch(cfg) else 0
  }

  /** How many writes can still go before waiting reads are served. */
  function WritesLeft(cfg: Tunables, s: State): nat
    requires |s.lanes| == 2
  {
    BatchLeft(cfg, s, WRITE) + if s.starved >= cfg.starved then Batch(cfg) else 0
  }

  lemma OtherOpsKeep(cfg: Tunables, w: World, op: Op)
    requires Ready(cfg, w) && Enabled(w, op) && !op.Dispatch?
    ensures var s' := Apply(cfg, w, op).s;
            && |s'.lanes| == 2 && s'.batching == w.s.batching && s'.starved == w.s.starved
            && (forall dir :: 0 <= dir < 2 && s'.lanes[dir].next.Some? ==> w.s.lanes[dir].next.Some?)
  {
  }

  lemma MovedLanes(s: State, c: Choice)
    requires |s.lanes| == 2 && c.dir < 2
    ensures var s' := Moved(s, c);
            |s'.lanes| == 2 && s'.lanes[1 - c.dir].next == None && s'.batching == c.batching && s'.starved == c.starved
  {
  }

  lemma ReadCosts(cfg: Tunables, w: World, now: nat)
    requires Ready(cfg, w) && Serves(cfg, w.s, now, READ)
    ensures ReadsLeft(cfg, Apply(cfg, w, Dispatch(now)).s) < ReadsLeft(cfg, w.s)
  {
    var c := Chosen(w.s, cfg, now).value;
    MovedLanes(w.s, c);
    if Running(w.s, cfg).None? {
      var left := cfg.starved - w.s.starved;
      assert left * Batch(cfg) == (left - 1) * Batch(cfg) + Batch(cfg);
    }
  }

  lemma WriteCosts(cfg: Tunables, w: World, now: nat)
    requires Ready(cfg, w) && Serves(cfg, w.s, now, WRITE) && cfg.starved >= 1
    ensures WritesLeft(cfg, Apply(cfg, w, Dispatch(now)).s) < WritesLeft(cfg, w.s)
  {
    MovedLanes(w.s, Chosen(w.s, cfg, now).value);
  }

  /** An operation other than a read served costs nothing. */
  lemma ReadsStep(cfg: Tunables, w: World, op: Op)
    requires Ready(cfg, w) && Enabled(w, op) && (op.Dispatch? ==> Serves(cfg, w.s, op.now, READ))
    ensures |Apply(cfg, w, op).s.lanes| == 2
    ensures (if op.Dispatch? then 1 else 0) + ReadsLeft(cfg, Apply(cfg, w, op).s) <= ReadsLeft(cfg, w.s)
  {
    if op.Dispatch? {
      ReadCosts(cfg, w, op.now);
      MovedLanes(w.s, Chosen(w.s, cfg, op.now).value);
    } else {
      OtherOpsKeep(cfg, w, op);
    }
  }

  lemma {:induction false} ReadsRun(cfg: Tunables, w: World, ops: seq<Op>)
    requires |w.s.lanes| == 2 && Favours(cfg, w, ops, READ)
    ensures Dispatches(ops) <= ReadsLeft(cfg, w.s)
    decreases |ops|
  {
    if ops != [] {
      ReadsStep(cfg, w, ops[0]);
      ReadsRun(cfg, Apply(cfg, w, ops[0]), ops[1..]);
    }
  }

  /** While a write waits, at most writes_starved + 1 batches of reads go by. */
  lemma ReadsBounded(cfg: Tunables, w: World, ops: seq<Op>)
    requires |w.s.lanes| == 2 && Favours(cfg, w, ops, READ)
    ensures Dispatches(ops) <= (cfg.starved + 1) * Batch(cfg)
  {
    ReadsRun(cfg, w, ops);
    ReadsLeftBound(cfg, w.s);
  }

  lemma ReadsLeftBound(cfg: Tunables, s: State)
    requires |s.lanes| == 2
    ensures ReadsLeft(cfg, s) <= (cfg.starved + 1) * Batch(cfg)
  {
    Distribute(Batch(cfg), cfg.starved, 1);
    Grow(Batch(cfg), if s.starved < cfg.starved then cfg.starved - s.starved else 0, cfg.starved);
  }

  lemma {:induction false} WritesRun(cfg: Tunables, w: World, ops: seq<Op>)
    requires Inv(cfg, w) && Favours(cfg, w, ops, WRITE) && cfg.starved >= 1
    ensures Dispatches(ops) <= WritesLeft(cfg, w.s)
    decreases |ops|
  {
    if ops != [] {
      if ops[0].Dispatch? {
        WriteCosts(cfg, w, ops[0].now);
      } else {
        OtherOpsKeep(cfg, w, ops[0]);
      }
      StepKeeps(cfg, w, ops[0]);
      WritesRun(cfg, Apply(cfg, w, ops[0]), ops[1..]);
    }
  }

  /** While a read waits, at most one batch of writes goes by, if reads may starve writes at all. */
  lemma WritesBounded(cfg: Tunables, w: World, ops: seq<Op>)
    requires Inv(cfg, w) && Favours(cfg, w, ops, WRITE) && cfg.starved >= 1
    ensures Dispatches(ops) <= Batch(cfg)
  {
    WritesRun(cfg, w, ops);
  }

  /** With writes_starved at zero they may not: a waiting write goes before a waiting read. */
  lemma ReadsNeverFirst(cfg: Tunables, s: State, now: nat)
    requires Sound(s) && cfg.starved == 0 && Pending(s, WRITE) && s.lanes[READ].next.None?
    ensures Chosen(s, cfg, now).Some? && Chosen(s, cfg, now).value.dir == WRITE
    ensures Moved(s, Chosen(s, cfg, now).value).lanes[READ].next.None?
  {
    MovedLanes(s, Chosen(s, cfg, now).value);
  }

  /** A number no request on the list has. */
  function Unused(t: seq<Node>): nat {
    if t == [] then 0 else if t[0].id < Unused(t[1..]) then Unused(t[1..]) else t[0].id + 1
  }

  lemma {:induction false} UnusedAbove(t: seq<Node>, id: nat)
    requires id >= Unused(t)
    ensures !Has(t, id)
  {
    if t != [] {
      UnusedAbove(t[1..], id);
      forall i | 0 <= i < |t| ensures t[i].id != id {
        assert i > 0 ==> t[i] == t[1..][i - 1];
      }
    }
  }

  /** One more write, and it is served although a read waits. */
  lemma OneMoreWrite(cfg: Tunables, w: World) returns (id: nat)
    requires Inv(cfg, w) && cfg.starved == 0 && Pending(w.s, READ) && w.s.lanes[READ].next.None?
    ensures Enabled(w, Add(WRITE, id, 0, w.clock))
    ensures var w1 := Apply(cfg, w, Add(WRITE, id, 0, w.clock));
            && Inv(cfg, w1) && w1.clock == w.clock && Serves(cfg, w1.s, w.clock, WRITE)
            && var w2 := Apply(cfg, w1, Dispatch(w.clock));
               Inv(cfg, w2) && Pending(w2.s, READ) && w2.s.lanes[READ].next.None?
  {
    var r, u := Unused(w.s.lanes[READ].fifo), Unused(w.s.lanes[WRITE].fifo);
    id := if r < u then u else r;
    UnusedAbove(w.s.lanes[READ].fifo, id);
    UnusedAbove(w.s.lanes[WRITE].fifo, id);
    AddKeeps(cfg, w, WRITE, id, 0, w.clock);
    var w1 := Apply(cfg, w, Add(WRITE, id, 0, w.clock));
    ReadsNeverFirst(cfg, w1.s, w.clock);
    ChosenHeld(w1.s, cfg, w.clock);
    MovedSound(w1.s, Chosen(w1.s, cfg, w.clock).value);
    DispatchKeeps(cfg, w1, w.clock);
  }

  /** So any number of writes can be served while the same read waits. */
  lemma {:induction false} WritesUnbounded(cfg: Tunables, w: World, n: nat) returns (ops: seq<Op>)
    requires Inv(cfg, w) && cfg.starved == 0 && Pending(w.s, READ) && w.s.lanes[READ].next.None?
    ensures Favours(cfg, w, ops, WRITE) && Dispatches(ops) == n
    ensures forall op :: op in ops ==> op.Dispatch? || (op.Add? && op.dir == WRITE)
    decreases n
  {
    if n == 0 {
      ops := [];
    } else {
      var id := OneMoreWrite(cfg, w);
      var add, go := Add(WRITE, id, 0, w.clock), Dispatch(w.clock);
      var w1 := Apply(cfg, w, add);
      var rest := WritesUnbounded(cfg, Apply(cfg, w1, go), n - 1);
      FavoursStep(cfg, w1, go, rest);
      FavoursStep(cfg, w, add, [go] + rest);
      ops := [add] + ([go] + rest);
    }
  }

  lemma FavoursStep(cfg: Tunables, w: World, op: Op, rest: seq<Op>)
    requires Ready(cfg, w) && Enabled(w, op) && (op.Dispatch? ==> Serves(cfg, w.s, op.now, WRITE))
    requires Favours(cfg, Apply(cfg, w, op), rest, WRITE)
    ensures Favours(cfg, w, [op] + rest, WRITE)
    ensures Dispatches([op] + rest) == (if op.Dispatch? then 1 else 0) + Dispatches(rest)
  {
    assert ([op] + rest)[1..] == rest;
  }

  lemma InitInv(cfg: Tunables)
    requires |cfg.expire| == 2
    ensures Inv(cfg, Init(cfg))
  {
  }

  /** A read has arrived in an empty scheduler. */
  lemma OneRead(cfg: Tunables) returns (ops: seq<Op>, w: World)
    requires |cfg.expire| == 2
    ensures Reaches(cfg, Init(cfg), ops, w) && Inv(cfg, w) && Pending(w.s, READ) && w.s.lanes[READ].next.None?
    ensures w.s.lanes[READ].fifo == [Node(cfg.expire[READ], 0)] && w.s.lanes[WRITE].fifo == [] && w.clock == 0
  {
    InitInv(cfg);
    AddKeeps(cfg, Init(cfg), READ, 0, 0, 0);
    ops, w := [Add(READ, 0, 0, 0)], Apply(cfg, Init(cfg), Add(READ, 0, 0, 0));
    assert ops[1..] == [];
  }

  /** A run to `w` and on from there keeps to one batch of writes while a read waits. */
  ghost predicate OneBatch(cfg: Tunables, before: seq<Op>, w: World, ops: seq<Op>) {
    Reaches(cfg, Init(cfg), before, w) && Favours(cfg, w, ops, WRITE) ==> Dispatches(ops) <= Batch(cfg)
  }

  /** Every run does, if and only if writes_starved is at least 1. */
  lemma WritesBoundExact(cfg: Tunables)
    requires |cfg.expire| == 2
    ensures (forall before, w, ops :: OneBatch(cfg, before, w, ops)) <==> cfg.starved >= 1
  {
    if cfg.starved >= 1 {
      forall before, w, ops ensures OneBatch(cfg, before, w, ops) {
        if Reaches(cfg, Init(cfg), before, w) && Favours(cfg, w, ops, WRITE) {
          InitInv(cfg);
          RunKeeps(cfg, Init(cfg), before, w);
          WritesBounded(cfg, w, ops);
        }
      }
    } else {
      var before, w := OneRead(cfg);
      var ops := WritesUnbounded(cfg, w, Batch(cfg) + 1);
      assert !OneBatch(cfg, before, w, ops);
    }
  }
}
