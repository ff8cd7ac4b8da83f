/**
 The group service tree of CFQ in place (block/cfq-iosched.c), against the functions of FairGroups.
 */
module FairQueue {
  import opened Common
  import opened Lists
  import opened RbTree
  import opened FairGroups

  /** The invariant by name. */
  ghost predicate Settled(s: State) {
    && Sorted(s.tree) && Unique(s.tree) && (s.serving.Some? ==> s.serving.value < |s.groups|)
    && forall k {:trigger Unfold(k, s)} :: Unfold(k, s) ==> Inv(s)
  }

  lemma SettledStep(s: State, op: Op)
    requires Settled(s) && Enabled(s, op)
    ensures Settled(Apply(s, op))
  {
    assert Unfold(0, s);
    StepKeeps(s, op);
  }

  lemma SettledLeft(s: State)
    requires Settled(s)
    ensures s.left.Some? ==> s.tree != [] && s.left.value == s.tree[0].id
    ensures forall i :: 0 <= i < |s.groups| && s.groups[i].onTree ==> s.groups[i].weight <= s.total
    ensures forall k :: 0 <= k < |s.tree| ==> s.tree[k].id < |s.groups| && s.groups[s.tree[k].id].vtime == s.tree[k].key
    ensures forall i :: 0 <= i < |s.groups| ==> (s.groups[i].onTree <==> s.groups[i].queues > 0)
    ensures s.serving.Some? ==> s.serving.value < |s.groups| && s.groups[s.serving.value].onTree
    ensures forall k :: 0 <= k < |s.tree| ==> s.minVtime <= s.tree[k].key
  {
    assert Unfold(0, s);
    forall i | 0 <= i < |s.groups| && s.groups[i].onTree ensures s.groups[i].weight <= s.total {
      UnlinkKeeps(s, i);
    }
    forall k | 0 <= k < |s.tree| ensures s.tree[k].id < |s.groups| && s.groups[s.tree[k].id].vtime == s.tree[k].key {
      assert NodeOk(s.groups, s.tree[k]);
    }
  }

  class GroupScheduler {
    var groups: seq<Group>
    var tree: seq<Node>          // grp_service_tree
    var left: Option<nat>        // its cached first node
    var total: nat               // total_weight
    var minVtime: nat            // min_vdisktime
    var serving: Option<nat>     // serving_group, until it is charged

    function View(): State
      reads this
    {
      State(groups, tree, left, total, minVtime, serving)
    }

    ghost predicate Valid()
      reads this
    {
      Settled(View())
    }

    constructor (weights: seq<Weight>)
      ensures Valid() && |groups| == |weights|
    {
      groups := seq(|weights|, i requires 0 <= i < |weights| => Group(weights[i], None, 0, 0, false));
      tree, left, total, minVtime, serving := [], None, 0, 0, None;
    }

    /** The walk of __cfq_group_service_tree_add, and whether it only ever went left. */
    method FindPlace(vtime: nat) returns (p: nat, first: bool)
      ensures p == PlaceOf(tree, vtime) && first == (p == 0) && p <= |tree|
    {
      p, first := 0, true;
      while p < |tree| && !(vtime < tree[p].key)
        invariant p <= |tree| && first == (p == 0) && PlaceOf(tree, vtime) == p + PlaceOf(tree[p..], vtime)
      {
        p, first := p + 1, false;
      }
    }

    /** cfq_group_service_tree_add */
    method TreeAdd(id: nat)
      requires id < |groups| && Sorted(tree)
      modifies this`groups, this`tree, this`left, this`total
      ensures View() == Linked(old(View()), id)
    {
      var g := groups[id];
      if g.newWeight.Some? {
        g := g.(weight := g.newWeight.value, newWeight := None);
      }
      var p, first := FindPlace(g.vtime);
      if first {
        left := Some(id);
      }
      tree := InsertAt(tree, p, Node(g.vtime, id));
      groups := groups[id := g.(onTree := true)];
      total := total + g.weight;
    }

    /** cfq_group_service_tree_del */
    method TreeDel(id: nat)
      requires id < |groups| && groups[id].onTree && groups[id].weight <= total
      modifies this`groups, this`tree, this`left, this`total
      ensures View() == Unlinked(old(View()), id)
    {
      total := total - groups[id].weight;
      if left == Some(id) {
        left := None;
      }
      tree := Erase(tree, id);
      groups := groups[id := groups[id].(onTree := false)];
    }

    /** cfq_group_notify_queue_add */
    method NotifyQueueAdd(id: nat)
      requires Valid() && id < |groups|
      modifies this`groups, this`tree, this`left, this`total
      ensures Valid() && View() == Apply(old(View()), QueueAdd(id))
    {
      SettledStep(View(), QueueAdd(id));
      groups := groups[id := groups[id].(queues := groups[id].queues + 1)];
      ghost var s1 := View();
      assert s1 == Queued(old(View()), id, 1);
      if !groups[id].onTree {
        var vtime := if tree != [] then tree[|tree| - 1].key + IDLE_DELAY else minVtime;
        groups := groups[id := groups[id].(vtime := vtime)];
        assert View() == Timed(s1, id, StartTime(old(View())));
        TreeAdd(id);
      }
    }

    /** cfq_group_notify_queue_del; a group without queues is not charged any more. */
    method NotifyQueueDel(id: nat)
      requires Valid() && id < |groups| && groups[id].queues >= 1
      modifies this`groups, this`tree, this`left, this`total, this`serving
      ensures Valid() && View() == Apply(old(View()), QueueDel(id))
    {
      SettledStep(View(), QueueDel(id));
      SettledLeft(View());
      groups := groups[id := groups[id].(queues := groups[id].queues - 1)];
      if groups[id].queues == 0 {
        TreeDel(id);
        if serving == Some(id) {
          serving := None;
        }
      }
    }

    /** cfq_update_blkio_group_weight: noted now, in force when the group is next linked. */
    method UpdateWeight(id: nat, weight: Weight)
      requires Valid() && id < |groups|
      modifies this`groups
      ensures Valid() && View() == Apply(old(View()), SetWeight(id, weight))
    {
      SettledStep(View(), SetWeight(id, weight));
      groups := groups[id := groups[id].(newWeight := Some(weight))];
    }

    /** cfq_get_next_cfqg: nobody is behind the group it chooses. */
    method NextGroup() returns (first: Option<nat>)
      requires Valid()
      modifies this`left, this`minVtime, this`serving
      ensures Valid() && View() == Apply(old(View()), Choose)
      ensures first.Some? ==> first.value < |groups| && first == serving && minVtime == groups[first.value].vtime
      ensures first.Some? ==> forall k :: 0 <= k < |tree| ==> groups[first.value].vtime <= tree[k].key
    {
      SettledStep(View(), Choose);
      SettledLeft(View());
      if tree == [] {
        return None;
      }
      if left.None? {
        left := Some(tree[0].id);
      }
      first := left;
      var vtime := groups[first.value].vtime;
      if vtime > minVtime {
        minVtime := vtime;
      }
      serving := first;
    }

    /** cfq_group_served: the group is off the tree while its virtual time changes. */
    method GroupServed(charge: nat)
      requires Valid() && serving.Some?
      modifies this`groups, this`tree, this`left, this`total, this`serving
      ensures Valid() && serving == None && |groups| == |old(groups)|
      ensures View() == Apply(old(View()), Serve(charge))
    {
      SettledLeft(View());
      SettledStep(View(), Serve(charge));
      var id := serving.value;
      var vtime := groups[id].vtime + Scaled(charge, groups[id].weight);
      EraseKeeps(tree, id);
      TreeDel(id);
      groups := groups[id := groups[id].(vtime := vtime)];
      TreeAdd(id);
      serving := None;
    }
  }
}
