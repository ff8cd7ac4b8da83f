/**
 Groups that join the CFQ group tree (block/cfq-iosched.c): where they start, whom they wait for, and
 when a new weight takes effect.
 */
module FairJoin {
  import opened Common
  import opened Lists
  import opened RbTree
  import opened FairGroups

  // ---- where a group starts

  /** Behind all keys, which are at most `last`. */
  lemma {:induction false} PlaceLast(t: seq<Node>, key: nat)
    requires forall k :: 0 <= k < |t| ==> t[k].key <= key
    ensures PlaceOf(t, key) == |t|
  {
    if t != [] {
      PlaceLast(t[1..], key);
    }
  }

  lemma DelayPositive()
    ensures IDLE_DELAY > 0
  {
  }

  /** The tree after a group has joined, by the keys that were on it. */
  predicate Behind(tree: seq<Node>, tree': seq<Node>, id: nat, vtime: nat, min: nat) {
    && tree' == tree + [Node(vtime, id)]
    && (tree == [] ==> vtime == min)
    && (forall k :: 0 <= k < |tree| ==> tree[k].key + IDLE_DELAY <= vtime)
    && (tree != [] ==> exists k :: 0 <= k < |tree| && tree[k].key + IDLE_DELAY == vtime)
  }

  /**
   A group that gets its first queue stands last, CFQ_IDLE_DELAY behind the last of the others; alone, it
   starts at the lowest virtual time served so far.
   */
  lemma JoinsBehind(s: State, id: nat)
    requires Inv(s) && id < |s.groups| && !s.groups[id].onTree
    ensures var s' := Apply(s, QueueAdd(id));
            && id < |s'.groups| && s'.groups[id].onTree
            && Behind(s.tree, s'.tree, id, s'.groups[id].vtime, s.minVtime)
  {
    var v := StartTime(s);
    PlaceLast(s.tree, v);
    assert Insert(s.tree, Node(v, id)) == s.tree + [Node(v, id)];
    if s.tree != [] {
      assert s.tree[|s.tree| - 1].key + IDLE_DELAY == v;
    }
  }

  // ---- who is served first

  predicate OnTree(s: State, i: nat) {
    i < |s.groups| && s.groups[i].onTree
  }

  predicate ServesGroup(s: State, op: Op, i: nat) {
    op.Serve? && s.serving == Some(i)
  }

  /** Group `i`, if it is on the tree, is behind group `j`. */
  predicate Ahead(s: State, j: nat, i: nat) {
    OnTree(s, j) && (OnTree(s, i) ==> s.groups[j].vtime < s.groups[i].vtime)
  }

  lemma KeyOf(s: State, j: nat)
    requires Inv(s) && OnTree(s, j)
    ensures exists k :: 0 <= k < |s.tree| && s.tree[k] == Node(s.groups[j].vtime, j)
  {
    var k :| 0 <= k < |s.tree| && s.tree[k].id == j;
    assert NodeOk(s.groups, s.tree[k]);
  }

  /** A group that stays on the tree moves only when it is served, and never back. */
  lemma StaysPut(s: State, op: Op, i: nat)
    requires Inv(s) && Enabled(s, op) && OnTree(s, i) && OnTree(Apply(s, op), i)
    ensures s.groups[i].vtime <= Apply(s, op).groups[i].vtime
    ensures !ServesGroup(s, op, i) ==> Apply(s, op).groups[i].vtime == s.groups[i].vtime
  {
  }

  lemma OnlyJoins(s: State, op: Op, i: nat)
    requires Inv(s) && Enabled(s, op) && !OnTree(s, i) && OnTree(Apply(s, op), i)
    ensures op == QueueAdd(i) && i < |s.groups|
  {
  }

  lemma AheadStep(s: State, op: Op, j: nat, i: nat)
    requires Inv(s) && Enabled(s, op) && Ahead(s, j, i)
    requires OnTree(Apply(s, op), j) && !ServesGroup(s, op, j)
    ensures Ahead(Apply(s, op), j, i)
  {
    StaysPut(s, op, j);
    var s' := Apply(s, op);
    if OnTree(s', i) {
      if OnTree(s, i) {
        StaysPut(s, op, i);
      } else {
        OnlyJoins(s, op, i);
        JoinsBehind(s, i);
        KeyOf(s, j);
        DelayPositive();
      }
    }
  }

  lemma {:induction false} AheadRun(states: seq<State>, ops: seq<Op>, j: nat, i: nat, n: nat)
    requires Steps(states, ops) && Inv(states[0]) && n <= |ops| && Ahead(states[0], j, i)
    requires forall k :: 0 <= k <= n ==> OnTree(states[k], j)
    requires forall k :: 0 <= k < n ==> !ServesGroup(states[k], ops[k], j)
    ensures Inv(states[n]) && Ahead(states[n], j, i)
  {
    if n > 0 {
      AheadRun(states, ops, j, i, n - 1);
      AheadNext(states[n - 1], ops[n - 1], states[n], j, i);
    }
  }

  lemma AheadNext(s: State, op: Op, s': State, j: nat, i: nat)
    requires Inv(s) && Next(s, op, s') && Ahead(s, j, i) && OnTree(s', j) && !ServesGroup(s, op, j)
    ensures Inv(s') && Ahead(s', j, i)
  {
    NextKeeps(s, op, s');
    AheadStep(s, op, j, i);
  }

  /** Whoever is to be served is not behind anybody. */
  lemma ServedNotBehind(s: State, j: nat, i: nat)
    requires Inv(s) && Ahead(s, j, i)
    ensures s.serving != Some(i)
  {
    if s.serving == Some(i) {
      KeyOf(s, j);
    }
  }

  /**
   In every run, a group that was off the tree is not served before each group that was on it has been
   served, or has left the tree.
   */
  lemma WaitersFirst(states: seq<State>, ops: seq<Op>, j: nat, i: nat, n: nat)
    requires Steps(states, ops) && Inv(states[0]) && n <= |ops|
    requires OnTree(states[0], j) && !OnTree(states[0], i) && states[n].serving == Some(i)
    ensures exists k :: 0 <= k <= n && (!OnTree(states[k], j) || (k < n && ServesGroup(states[k], ops[k], j)))
  {
    if forall k :: 0 <= k <= n ==> OnTree(states[k], j) && !(k < n && ServesGroup(states[k], ops[k], j)) {
      AheadRun(states, ops, j, i, n);
      ServedNotBehind(states[n], j, i);
      assert false;
    }
  }

  // ---- weights

  /** The step puts the group on the tree, anew or after a charge. */
  predicate Links(s: State, op: Op, i: nat) {
    ServesGroup(s, op, i) || (op == QueueAdd(i) && !OnTree(s, i))
  }

  /** The group's weight is as it was and `w` is noted, or `w` is in force. */
  predicate Asked(s: State, i: nat, before: Weight, w: Weight, linked: bool) {
    && i < |s.groups|
    && s.groups[i].weight == (if linked then w else before)
    && s.groups[i].newWeight == if linked then None else Some(w)
  }

  lemma AskedStep(s: State, op: Op, i: nat, before: Weight, w: Weight, linked: bool)
    requires Enabled(s, op) && Sorted(s.tree) && Unique(s.tree) && Asked(s, i, before, w, linked)
    requires !(op.SetWeight? && op.id == i)
    ensures Asked(Apply(s, op), i, before, w, linked || Links(s, op, i))
  {
  }

  /** Has the group been put on the tree within the first `n` steps? */
  predicate LinkedWithin(states: seq<State>, ops: seq<Op>, i: nat, n: nat) {
    n <= |ops| && n <= |states| && exists k :: 0 <= k < n && Links(states[k], ops[k], i)
  }

  lemma {:induction false} AskedRun(states: seq<State>, ops: seq<Op>, i: nat, before: Weight, w: Weight, n: nat)
    requires Steps(states, ops) && n <= |ops| && Asked(states[0], i, before, w, false)
    requires forall k :: 0 <= k < n ==> !(ops[k].SetWeight? && ops[k].id == i)
    ensures Asked(states[n], i, before, w, LinkedWithin(states, ops, i, n))
  {
    if n > 0 {
      AskedRun(states, ops, i, before, w, n - 1);
      assert Next(states[n - 1], ops[n - 1], states[n]);
      AskedStep(states[n - 1], ops[n - 1], i, before, w, LinkedWithin(states, ops, i, n - 1));
      assert LinkedWithin(states, ops, i, n) <==>
             LinkedWithin(states, ops, i, n - 1) || Links(states[n - 1], ops[n - 1], i);
    }
  }

  /** A weight that is set is in force from the next time the group is put on the tree, and not before. */
  lemma WeightTakesEffect(states: seq<State>, ops: seq<Op>, i: nat, w: Weight, n: nat)
    requires Steps(states, ops) && 0 < n <= |ops| && i < |states[0].groups| && ops[0] == SetWeight(i, w)
    requires forall k :: 0 < k < n ==> !(ops[k].SetWeight? && ops[k].id == i)
    ensures i < |states[n].groups|
    ensures states[n].groups[i].weight ==
            if LinkedWithin(states[1..], ops[1..], i, n - 1) then w else states[0].groups[i].weight
  {
    assert Next(states[0], ops[0], states[1]);
    var states1, ops1 := states[1..], ops[1..];
    forall k | 0 <= k < |ops1| ensures Next(states1[k], ops1[k], states1[k + 1]) {
      assert Next(states[k + 1], ops[k + 1], states[k + 2]);
    }
    AskedRun(states1, ops1, i, states[0].groups[i].weight, w, n - 1);
  }
}
