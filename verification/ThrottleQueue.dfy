/**
 The throttled groups of a queue (struct throtl_data, block/blk-throttle.c): bio lists, counts,
 the service tree with its cached first node, and the dispatch work.
 */
module ThrottleQueue {
  import opened Common
  import opened Lists
  import opened RbTree
  import opened ThrottleLane

  /** A throtl_grp: its two directions, disptime, and whether it is on the service tree. */
  datatype Group = Group(lanes: seq<Lane>, disptime: nat, onRR: bool)

  const READ: nat := 0
  const WRITE: nat := 1
  const GRP_QUANTUM: nat := 8
  const QUANTUM: nat := 32

  function NrOf(g: Group, rw: nat): nat {
    if rw < |g.lanes| then g.lanes[rw].nr else 0
  }

  predicate Waiting(g: Group) {
    NrOf(g, READ) > 0 || NrOf(g, WRITE) > 0
  }

  function Sum(groups: seq<Group>, rw: nat): nat {
    if groups == [] then 0 else NrOf(groups[0], rw) + Sum(groups[1..], rw)
  }

  ghost predicate GroupOk(g: Group, logs: seq<Log>, clock: nat) {
    |g.lanes| == 2 && |logs| == 2 && LaneOk(g.lanes[0], logs[0], clock) && LaneOk(g.lanes[1], logs[1], clock)
  }

  ghost predicate LanesOk(groups: seq<Group>, logs: seq<seq<Log>>, clock: nat) {
    |logs| == |groups| && forall i :: 0 <= i < |groups| ==> GroupOk(groups[i], logs[i], clock)
  }

  predicate NodeOk(groups: seq<Group>, n: Node) {
    n.id < |groups| && groups[n.id].onRR && groups[n.id].disptime == n.key
  }

  /** The tree holds exactly the groups marked as on it, by their dispatch times; `left` is unset or its first. */
  ghost predicate TreeOk(groups: seq<Group>, tree: seq<Node>, left: Option<nat>, count: nat) {
    && count == |tree| && Sorted(tree) && Unique(tree)
    && (left.Some? ==> tree != [] && left.value == tree[0].id)
    && (forall k :: 0 <= k < |tree| ==> NodeOk(groups, tree[k]))
    && (forall i :: 0 <= i < |groups| && groups[i].onRR ==> Has(tree, i))
  }

  predicate CountsOk(groups: seq<Group>, queued: seq<nat>) {
    |queued| == 2 && queued[READ] == Sum(groups, READ) && queued[WRITE] == Sum(groups, WRITE)
  }

  /** A group is on the tree exactly when it holds a bio. */
  predicate Served(groups: seq<Group>) {
    forall i :: 0 <= i < |groups| ==> (groups[i].onRR <==> Waiting(groups[i]))
  }

  /** Whenever bios are queued, dispatch work is due no later than the earliest group. */
  predicate Scheduled(queued: seq<nat>, tree: seq<Node>, work: Option<nat>, clock: nat) {
    |queued| == 2 && (queued[READ] + queued[WRITE] > 0 ==>
      tree != [] && work.Some? && (work.value <= clock || work.value <= tree[0].key))
  }

  // ---- sums

  lemma {:induction false} SumUpdate(groups: seq<Group>, i: nat, g: Group, rw: nat)
    requires i < |groups|
    ensures Sum(groups[i := g], rw) == Sum(groups, rw) - NrOf(groups[i], rw) + NrOf(g, rw)
    decreases i
  {
    if i > 0 {
      SumUpdate(groups[1..], i - 1, g, rw);
      assert groups[i := g][1..] == groups[1..][i - 1 := g];
    } else {
      assert groups[i := g][1..] == groups[1..];
    }
  }

  lemma {:induction false} SumAppend(groups: seq<Group>, g: Group, rw: nat)
    ensures Sum(groups + [g], rw) == Sum(groups, rw) + NrOf(g, rw)
  {
    if groups != [] {
      SumAppend(groups[1..], g, rw);
      assert (groups + [g])[1..] == groups[1..] + [g];
    } else {
      assert groups + [g] == [g];
    }
  }

  lemma {:induction false} SumAtLeast(groups: seq<Group>, i: nat, rw: nat)
    requires i < |groups|
    ensures NrOf(groups[i], rw) <= Sum(groups, rw)
    decreases i
  {
    if i > 0 {
      SumAtLeast(groups[1..], i - 1, rw);
    }
  }

  lemma {:induction false} SomeHolder(groups: seq<Group>, rw: nat) returns (i: nat)
    requires Sum(groups, rw) > 0
    ensures i < |groups| && NrOf(groups[i], rw) > 0
  {
    if NrOf(groups[0], rw) > 0 {
      i := 0;
    } else {
      i := SomeHolder(groups[1..], rw);
      i := i + 1;
    }
  }

  /** So the check that the tree is not empty while bios are queued cannot fail. */
  lemma TreeNotEmpty(groups: seq<Group>, tree: seq<Node>, left: Option<nat>, count: nat, queued: seq<nat>)
    requires TreeOk(groups, tree, left, count) && CountsOk(groups, queued) && Served(groups)
    requires queued[READ] + queued[WRITE] > 0
    ensures count > 0
  {
    var i := SomeHolder(groups, if queued[READ] > 0 then READ else WRITE);
    assert Has(tree, i);
  }

  /** Changing one group's lanes leaves the tree right. */
  lemma TreeFrame(groups: seq<Group>, tree: seq<Node>, left: Option<nat>, count: nat, i: nat, lanes: seq<Lane>)
    requires TreeOk(groups, tree, left, count) && i < |groups|
    ensures TreeOk(groups[i := groups[i].(lanes := lanes)], tree, left, count)
  {
    var groups' := groups[i := groups[i].(lanes := lanes)];
    forall k | 0 <= k < |tree| ensures NodeOk(groups', tree[k]) {
      assert NodeOk(groups, tree[k]);
    }
  }

  lemma LanesLater(groups: seq<Group>, logs: seq<seq<Log>>, clock: nat, now: nat)
    requires LanesOk(groups, logs, clock) && clock <= now
    ensures LanesOk(groups, logs, now)
  {
    forall i | 0 <= i < |groups| ensures GroupOk(groups[i], logs[i], now) {
      assert GroupOk(groups[i], logs[i], clock);
      LaneLater(groups[i].lanes[0], logs[i][0], clock, now);
      LaneLater(groups[i].lanes[1], logs[i][1], clock, now);
    }
  }

  // ---- the tree

  lemma TreeAdded(groups: seq<Group>, tree: seq<Node>, left: Option<nat>, count: nat, id: nat, p: nat)
    requires TreeOk(groups, tree, left, count) && id < |groups| && !groups[id].onRR
    requires Place(tree, p, groups[id].disptime)
    ensures TreeOk(groups[id := groups[id].(onRR := true)], InsertAt(tree, p, Node(groups[id].disptime, id)),
                   if p == 0 then Some(id) else left, count + 1)
  {
    var n, groups' := Node(groups[id].disptime, id), groups[id := groups[id].(onRR := true)];
    InsertSorted(tree, p, n);
    var tree' := InsertAt(tree, p, n);
    forall k | 0 <= k < |tree'| ensures NodeOk(groups', tree'[k]) {
      if tree'[k] != n {
        var j :| 0 <= j < |tree| && tree[j] == tree'[k];
        assert NodeOk(groups, tree[j]);
      }
    }
  }

  lemma TreeErased(groups: seq<Group>, tree: seq<Node>, left: Option<nat>, count: nat, p: nat)
    requires TreeOk(groups, tree, left, count) && p < |tree| && tree[p].id < |groups|
    ensures var id := tree[p].id;
            TreeOk(groups[id := groups[id].(onRR := false)], EraseAt(tree, p),
                   if left == Some(id) then None else left, count - 1)
  {
    var id := tree[p].id;
    var groups', tree' := groups[id := groups[id].(onRR := false)], EraseAt(tree, p);
    EraseSorted(tree, p);
    forall k | 0 <= k < |tree'| ensures NodeOk(groups', tree'[k]) {
      assert Has(tree', tree'[k].id);
      var j :| 0 <= j < |tree| && tree[j] == tree'[k];
      assert NodeOk(groups, tree[j]);
    }
    forall i | 0 <= i < |groups'| && groups'[i].onRR ensures Has(tree', i) {
      assert Has(tree, i);
    }
    if left.Some? && left != Some(id) {
      assert p > 0 && tree'[0] == tree[0];
    }
  }
}
