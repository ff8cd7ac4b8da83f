/**
 Batches of the deadline scheduler (block/deadline-iosched.c): a batch goes on in sector order, and
 reads go ahead of writes as often as writes_starved says.
 */
module DeadlineBatch {
  import opened Common
  import opened RbTree
  import opened Deadline
  import opened DeadlineRuns

  // ---- one dispatch after another

  /** The tree of the direction the dispatch took from, and the place it took from. */
  ghost predicate TakesAt(cfg: Tunables, w: World, now: nat, c: Choice, p: nat) {
    && |w.s.lanes| == 2 && Chosen(w.s, cfg, now) == Some(c)
    && c.dir < 2 && p < |w.s.lanes[c.dir].tree| && w.s.lanes[c.dir].tree[p].id == c.id
  }

  /** What a dispatch leaves: the tree without what it took, and, as the next one, whatever was behind that. */
  lemma TakenLeaves(cfg: Tunables, w: World, now: nat, c: Choice, p: nat)
    requires Inv(cfg, w) && TakesAt(cfg, w, now, c, p)
    ensures var s, s' := w.s, Apply(cfg, w, Dispatch(now)).s;
            var tree := s.lanes[c.dir].tree;
            && |s'.lanes| == 2 && s'.lanes[c.dir].tree == EraseAt(tree, p)
            && s'.lanes[c.dir].next == (if p + 1 < |tree| then Some(tree[p + 1].id) else None)
            && s'.lanes[1 - c.dir].tree == s.lanes[1 - c.dir].tree && s'.lanes[1 - c.dir].next == None
            && s'.batching == c.batching && s'.starved == c.starved
  {
    var lane := w.s.lanes[c.dir];
    FindUnique(lane.tree, c.id, p);
    if p + 1 < |lane.tree| {
      assert lane.tree[p + 1].id != c.id;
    }
  }

  /**
   Two dispatches in a row.  While the batch lasts, the second takes, from the same direction, what was
   behind the first in sector order.  Otherwise it starts a batch: from there too, if it stays with the
   direction, there is such a request and the oldest has not expired, and else from the oldest.
   */
  lemma DispatchFollows(cfg: Tunables, w: World, now: nat, c: Choice, p: nat, now': nat)
    requires Inv(cfg, w) && w.clock <= now && TakesAt(cfg, w, now, c, p)
    ensures |Apply(cfg, w, Dispatch(now)).s.lanes| == 2
    ensures var tree, s' := w.s.lanes[c.dir].tree, Apply(cfg, w, Dispatch(now)).s;
            var next := Chosen(s', cfg, now');
            if p + 1 < |tree| && c.batching < cfg.batch then
              next == Some(Choice(c.dir, tree[p + 1].id, c.batching + 1, c.starved))
            else
              next.Some? ==>
                && next.value.dir < 2 && next.value.batching == 1
                && var fifo := s'.lanes[next.value.dir].fifo;
                   && fifo != []
                   && next.value.id ==
                        if next.value.dir == c.dir && p + 1 < |tree| && now' <= fifo[0].key then tree[p + 1].id
                        else fifo[0].id
  {
    TakenLeaves(cfg, w, now, c, p);
    var tree := w.s.lanes[c.dir].tree;
    ChoiceAfter(cfg, Apply(cfg, w, Dispatch(now)).s, c, if p + 1 < |tree| then Some(tree[p + 1].id) else None, now');
  }

  /** The choice in a state where only one direction has a next request. */
  lemma ChoiceAfter(cfg: Tunables, s: State, c: Choice, behind: Option<nat>, now: nat)
    requires |s.lanes| == 2 && c.dir < 2 && s.lanes[c.dir].next == behind && s.lanes[1 - c.dir].next == None
    requires s.batching == c.batching && s.starved == c.starved
    ensures var next := Chosen(s, cfg, now);
            if behind.Some? && c.batching < cfg.batch then
              next == Some(Choice(c.dir, behind.value, c.batching + 1, c.starved))
            else
              next.Some? ==>
                && next.value.dir < 2 && next.value.batching == 1
                && var fifo := s.lanes[next.value.dir].fifo;
                   && fifo != []
                   && next.value.id ==
                        if next.value.dir == c.dir && behind.Some? && now <= fifo[0].key then behind.value
                        else fifo[0].id
  {
  }

  /** Over the sectors held: the second starts no earlier than the first, and nothing held starts in between. */
  lemma NextSector(cfg: Tunables, w: World, now: nat, c: Choice, p: nat, now': nat, tree: seq<Node>, n: Node)
    requires Inv(cfg, w) && w.clock <= now && TakesAt(cfg, w, now, c, p) && c.batching < cfg.batch
    requires tree == w.s.lanes[c.dir].tree && exists j :: p < j < |tree| && tree[j] == n
    ensures var s' := Apply(cfg, w, Dispatch(now)).s;
            && |s'.lanes| == 2 && Chosen(s', cfg, now').Some? && Chosen(s', cfg, now').value.dir == c.dir
            && FirstBehind(tree, p, Chosen(s', cfg, now').value.id, n)
  {
    DispatchFollows(cfg, w, now, c, p, now');
    BehindFirst(tree, p, n, tree[p + 1].id);
  }

  /** The request is behind place `p` and starts no later than `n`. */
  predicate FirstBehind(tree: seq<Node>, p: nat, id: nat, n: Node) {
    exists j :: p < j < |tree| && tree[j].id == id && tree[p].key <= tree[j].key <= n.key
  }

  /** The neighbour is the first behind. */
  lemma BehindFirst(tree: seq<Node>, p: nat, n: Node, id: nat)
    requires Sorted(tree) && p + 1 < |tree| && tree[p + 1].id == id && exists j :: p < j < |tree| && tree[j] == n
    ensures FirstBehind(tree, p, id, n)
  {
  }

  // ---- arrivals and merges in between

  /** The request the batch goes on with. */
  ghost predicate GoesOnWith(cfg: Tunables, s: State, dir: nat, id: nat) {
    && |s.lanes| == 2 && dir < 2 && s.batching < cfg.batch
    && s.lanes[dir].next == Some(id) && s.lanes[1 - dir].next == None
  }

  /** Whatever happens between two dispatches, short of merging it away, the batch goes on with the same request. */
  lemma {:induction false} NextStands(cfg: Tunables, w: World, ops: seq<Op>, w': World, dir: nat, id: nat, now: nat)
    requires Reaches(cfg, w, ops, w') && GoesOnWith(cfg, w.s, dir, id)
    requires forall op :: op in ops ==> !op.Dispatch? && !(op.MergeRequests? && op.dir == dir && op.gone == id)
    ensures GoesOnWith(cfg, w'.s, dir, id)
    ensures Chosen(w'.s, cfg, now) == Some(Choice(dir, id, w'.s.batching + 1, w'.s.starved))
    decreases |ops|
  {
    if ops != [] {
      assert ops[0] in ops;
      NextStandsStep(cfg, w, ops[0], dir, id);
      NextStands(cfg, Apply(cfg, w, ops[0]), ops[1..], w', dir, id, now);
    }
  }

  lemma NextStandsStep(cfg: Tunables, w: World, op: Op, dir: nat, id: nat)
    requires Ready(cfg, w) && Enabled(w, op) && GoesOnWith(cfg, w.s, dir, id)
    requires !op.Dispatch? && !(op.MergeRequests? && op.dir == dir && op.gone == id)
    ensures GoesOnWith(cfg, Apply(cfg, w, op).s, dir, id)
  {
    if op.dir != dir {
      OtherOpsKeep(cfg, w, op);
    }
  }

  /** Merged away, it hands on to the request behind it. */
  lemma NextSwallowed(cfg: Tunables, w: World, dir: nat, id: nat, gone: nat, p: nat)
    requires Inv(cfg, w) && Enabled(w, MergeRequests(dir, id, gone)) && w.s.lanes[dir].next == Some(gone)
    requires p < |w.s.lanes[dir].tree| && w.s.lanes[dir].tree[p].id == gone
    ensures var tree, s' := w.s.lanes[dir].tree, Apply(cfg, w, MergeRequests(dir, id, gone)).s;
            && |s'.lanes| == 2
            && s'.lanes[dir].next == if p + 1 < |tree| then Some(tree[p + 1].id) else None
  {
    FindUnique(w.s.lanes[dir].tree, gone, p);
    assert Has(w.s.lanes[dir].fifo, id);
  }

  // ---- a whole batch

  function Ids(t: seq<Node>): seq<nat> {
    seq(|t|, i requires 0 <= i < |t| => t[i].id)
  }

  /** What was dispatched is a stretch of the tree. */
  predicate Stretch(out: seq<nat>, out': seq<nat>, tree: seq<Node>, p: nat, k: nat) {
    p + k <= |tree| && out' == out + Ids(tree[p..p + k])
  }

  predicate Dispatching(ops: seq<Op>) {
    forall i :: 0 <= i < |ops| ==> ops[i].Dispatch?
  }

  /** A batch that is not disturbed dispatches neighbours of the tree, in sector order, up to its length. */
  lemma BatchInOrder(cfg: Tunables, w: World, ops: seq<Op>, w': World, c: Choice, p: nat)
    requires Inv(cfg, w) && ops != [] && Dispatching(ops) && Reaches(cfg, w, ops, w')
    requires TakesAt(cfg, w, ops[0].now, c, p)
    requires c.batching + |ops| - 1 <= cfg.batch && p + |ops| <= |w.s.lanes[c.dir].tree|
    ensures w'.out == w.out + Ids(w.s.lanes[c.dir].tree[p..p + |ops|])
  {
    Named(cfg, w);
    BatchRun(cfg, w, ops, w', c, p, w.s.lanes[c.dir].tree);
  }

  lemma {:induction false} BatchRun(cfg: Tunables, w: World, ops: seq<Op>, w': World, c: Choice, p: nat,
                                    tree: seq<Node>)
    requires Settled(cfg, w) && ops != [] && Dispatching(ops) && Reaches(cfg, w, ops, w')
    requires TakesAt(cfg, w, ops[0].now, c, p) && tree == w.s.lanes[c.dir].tree
    requires c.batching + |ops| - 1 <= cfg.batch && p + |ops| <= |tree|
    ensures Stretch(w.out, w'.out, tree, p, |ops|)
    decreases |ops|
  {
    if |ops| > 1 {
      var w1, c1 := BatchStep(cfg, w, ops[0].now, c, p, ops[1].now);
      BatchRun(cfg, w1, ops[1..], w', c1, p, EraseAt(tree, p));
      BatchOut(w.out, w1.out, w'.out, tree, EraseAt(tree, p), p, |ops|);
    } else {
      OneDispatch(cfg, w, ops, w', c, p);
    }
  }

  lemma BatchOut(out: seq<nat>, out1: seq<nat>, out': seq<nat>, tree: seq<Node>, tree1: seq<Node>, p: nat, k: nat)
    requires 0 < k && p + k <= |tree| && tree1 == EraseAt(tree, p)
    requires out1 == out + [tree[p].id] && Stretch(out1, out', tree1, p, k - 1)
    ensures Stretch(out, out', tree, p, k)
  {
    NeighbourIds(tree, p, k);
    assert (out + [tree[p].id]) + Ids(tree1[p..p + k - 1]) == out + ([tree[p].id] + Ids(tree1[p..p + k - 1]));
  }

  lemma OneDispatch(cfg: Tunables, w: World, ops: seq<Op>, w': World, c: Choice, p: nat)
    requires Ready(cfg, w) && |ops| == 1 && ops[0].Dispatch? && Reaches(cfg, w, ops, w')
    requires TakesAt(cfg, w, ops[0].now, c, p)
    ensures Stretch(w.out, w'.out, w.s.lanes[c.dir].tree, p, |ops|)
  {
    assert ops[1..] == [];
    assert Ids(w.s.lanes[c.dir].tree[p..p + 1]) == [c.id];
  }

  lemma NeighbourIds(tree: seq<Node>, p: nat, k: nat)
    requires 0 < k && p + k <= |tree|
    ensures p + k - 1 <= |EraseAt(tree, p)|
    ensures Ids(tree[p..p + k]) == [tree[p].id] + Ids(EraseAt(tree, p)[p..p + k - 1])
  {
  }

  /** The batch goes on from the same place of the tree that is left. */
  lemma BatchStep(cfg: Tunables, w: World, now: nat, c: Choice, p: nat, now': nat) returns (w1: World, c1: Choice)
    requires Settled(cfg, w) && w.clock <= now && TakesAt(cfg, w, now, c, p)
    requires c.batching < cfg.batch && p + 1 < |w.s.lanes[c.dir].tree|
    ensures w1 == Apply(cfg, w, Dispatch(now)) && Settled(cfg, w1) && w1.out == w.out + [c.id]
    ensures TakesAt(cfg, w1, now', c1, p) && c1.dir == c.dir && c1.batching == c.batching + 1
    ensures w1.s.lanes[c1.dir].tree == EraseAt(w.s.lanes[c.dir].tree, p)
  {
    assert Unfold(0, w);
    SettledStep(cfg, w, Dispatch(now));
    TakenLeaves(cfg, w, now, c, p);
    DispatchFollows(cfg, w, now, c, p, now');
    w1 := Apply(cfg, w, Dispatch(now));
    c1 := Choice(c.dir, w.s.lanes[c.dir].tree[p + 1].id, c.batching + 1, c.starved);
  }

  // ---- reads before writes

  /** The dispatch starts a batch of reads although writes wait. */
  predicate ReadBatch(cfg: Tunables, s: State, now: nat)
    requires |s.lanes| == 2
  {
    Running(s, cfg).None? && Pending(s, READ) && Pending(s, WRITE) && Chosen(s, cfg, now).value.dir == READ
  }

  /** The dispatch starts a batch of writes although reads wait. */
  predicate WriteBatch(cfg: Tunables, s: State, now: nat)
    requires |s.lanes| == 2
  {
    Running(s, cfg).None? && Pending(s, READ) && Pending(s, WRITE) && Chosen(s, cfg, now).value.dir == WRITE
  }

  ghost function ReadBatches(cfg: Tunables, w: World, ops: seq<Op>, w': World): nat
    requires Reaches(cfg, w, ops, w')
    decreases |ops|
  {
    if ops == [] then 0
    else (if ops[0].Dispatch? && ReadBatch(cfg, w.s, ops[0].now) then 1 else 0)
         + ReadBatches(cfg, Apply(cfg, w, ops[0]), ops[1..], w')
  }

  lemma StarvedStep(cfg: Tunables, w: World, op: Op)
    requires Ready(cfg, w) && Enabled(w, op)
    ensures Apply(cfg, w, op).s.starved
         <= w.s.starved + if op.Dispatch? && ReadBatch(cfg, w.s, op.now) then 1 else 0
    ensures op.Dispatch? && WriteBatch(cfg, w.s, op.now) ==> Apply(cfg, w, op).s.starved == 0
  {
  }

  lemma {:induction false} StarvedRun(cfg: Tunables, w: World, ops: seq<Op>, w': World)
    requires Reaches(cfg, w, ops, w')
    ensures w'.s.starved <= w.s.starved + ReadBatches(cfg, w, ops, w')
    decreases |ops|
  {
    if ops != [] {
      StarvedStep(cfg, w, ops[0]);
      StarvedRun(cfg, Apply(cfg, w, ops[0]), ops[1..], w');
    }
  }

  /**
   Between two batches of writes that reads had to wait for, at least writes_starved batches of reads go
   ahead of waiting writes.
   */
  lemma ReadsPreferred(cfg: Tunables, w: World, now: nat, ops: seq<Op>, w': World, now': nat)
    requires Ready(cfg, w) && w.clock <= now && WriteBatch(cfg, w.s, now)
    requires Reaches(cfg, Apply(cfg, w, Dispatch(now)), ops, w') && |w'.s.lanes| == 2 && WriteBatch(cfg, w'.s, now')
    ensures ReadBatches(cfg, Apply(cfg, w, Dispatch(now)), ops, w') >= cfg.starved
  {
    StarvedStep(cfg, w, Dispatch(now));
    StarvedRun(cfg, Apply(cfg, w, Dispatch(now)), ops, w');
  }

  /** A request that arrives expires when the tunable says, and its place is behind all that start no later. */
  lemma Arrives(cfg: Tunables, w: World, dir: nat, id: nat, pos: nat, now: nat, p: nat)
    requires Ready(cfg, w) && dir < 2 && Place(w.s.lanes[dir].tree, p, pos)
    ensures var lane, lane' := w.s.lanes[dir], Apply(cfg, w, Add(dir, id, pos, now)).s.lanes[dir];
            && lane'.tree == lane.tree[..p] + [Node(pos, id)] + lane.tree[p..]
            && lane'.fifo == lane.fifo + [Node(now + cfg.expire[dir], id)] && lane'.next == lane.next
  {
    PlaceIs(w.s.lanes[dir].tree, pos, p);
  }

  lemma PlaceIs(t: seq<Node>, key: nat, p: nat)
    requires Sorted(t) && Place(t, p, key)
    ensures p == PlaceOf(t, key)
  {
    PlaceOfPlaces(t, key);
    var q := PlaceOf(t, key);
    assert p < |t| ==> key < t[p].key;
    assert q < |t| ==> key < t[q].key;
  }

  // ---- what the other operations leave

  /** The same requests at the same sectors, but for one. */
  ghost predicate OnlyMoves(tree: seq<Node>, tree': seq<Node>, id: nat, pos: nat) {
    forall n: Node :: n in tree' <==> n == Node(pos, id) || (n in tree && n.id != id)
  }

  lemma EraseIn(t: seq<Node>, id: nat, n: Node)
    requires Unique(t)
    ensures n in Erase(t, id) <==> n in t && n.id != id
  {
    FindFinds(t, id);
    var p := Find(t, id);
    if p < |t| {
      if n in t && n.id != id {
        var i :| 0 <= i < |t| && t[i] == n;
        assert EraseAt(t, p)[if i < p then i else i - 1] == n;
      }
      if n in EraseAt(t, p) {
        var i :| 0 <= i < |t| - 1 && EraseAt(t, p)[i] == n;
        assert t[if i < p then i else i + 1] == n;
      }
    } else if n in t {
      var i :| 0 <= i < |t| && t[i] == n;
      assert n.id == id ==> Has(t, id);
    }
  }

  lemma InsertIn(t: seq<Node>, p: nat, m: Node, n: Node)
    requires p <= |t|
    ensures n in t[..p] + [m] + t[p..] <==> n == m || n in t
  {
    assert t == t[..p] + t[p..];
  }

  /** A front merge moves the request to its new sector, and nothing else. */
  lemma FrontMoves(cfg: Tunables, w: World, dir: nat, id: nat, pos: nat)
    requires Ready(cfg, w) && Enabled(w, FrontMerge(dir, id, pos))
    ensures var lane, lane' := w.s.lanes[dir], Apply(cfg, w, FrontMerge(dir, id, pos)).s.lanes[dir];
            OnlyMoves(lane.tree, lane'.tree, id, pos) && lane'.fifo == lane.fifo && lane'.next == lane.next
  {
    var tree := w.s.lanes[dir].tree;
    var rest := Erase(tree, id);
    EraseKeeps(tree, id);
    PlaceOfPlaces(rest, pos);
    forall n: Node ensures n in Insert(rest, Node(pos, id)) <==> n == Node(pos, id) || (n in tree && n.id != id) {
      EraseIn(tree, id, n);
      InsertIn(rest, PlaceOf(rest, pos), Node(pos, id), n);
    }
  }

  /** A request merge takes the swallowed request out of the tree, and nothing else. */
  lemma MergeTakes(cfg: Tunables, w: World, dir: nat, id: nat, gone: nat, n: Node)
    requires Inv(cfg, w) && Enabled(w, MergeRequests(dir, id, gone))
    ensures n in Apply(cfg, w, MergeRequests(dir, id, gone)).s.lanes[dir].tree <==>
              n in w.s.lanes[dir].tree && n.id != gone
  {
    EraseIn(w.s.lanes[dir].tree, gone, n);
    NotEmpty(cfg, w, dir, id);
  }
}
