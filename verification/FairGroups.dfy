/**
 The group service tree of CFQ (block/cfq-iosched.c): groups are served in order of virtual disk
 time, which advances by what they use, scaled by their weight.
 */
module FairGroups {
  import opened Common
  import opened Lists
  import opened RbTree

  type Weight = w: nat | 10 <= w <= 1000 witness 500

  const IDLE_DELAY: nat := HZ / 5
  const SERVICE: nat := 4096 * 500      // the service shift and the default weight

  /** weight, new_weight if needs_update is set, nr_cfqq, vdisktime, and whether the group is on the tree. */
  datatype Group = Group(weight: Weight, newWeight: Option<Weight>, queues: nat, vtime: nat, onTree: bool)

  /** The tree, its cached first node, total_weight and min_vdisktime; `serving` is the group to charge. */
  datatype State = State(groups: seq<Group>, tree: seq<Node>, left: Option<nat>, total: nat, minVtime: nat,
                         serving: Option<nat>)

  /** cfq_scale_slice */
  function Scaled(charge: nat, weight: Weight): nat {
    charge * SERVICE / weight
  }

  function WeightOf(groups: seq<Group>, n: Node): nat {
    if n.id < |groups| then groups[n.id].weight else 0
  }

  function TreeWeight(groups: seq<Group>, tree: seq<Node>): nat {
    if tree == [] then 0 else WeightOf(groups, tree[0]) + TreeWeight(groups, tree[1..])
  }

  predicate NodeOk(groups: seq<Group>, n: Node) {
    n.id < |groups| && groups[n.id].onTree && groups[n.id].vtime == n.key
  }

  /** The tree holds exactly the groups with queues, by virtual time; the sums and the cache are right. */
  ghost predicate Sound(s: State) {
    && Sorted(s.tree) && Unique(s.tree)
    && (forall k :: 0 <= k < |s.tree| ==> NodeOk(s.groups, s.tree[k]))
    && (forall i :: 0 <= i < |s.groups| && s.groups[i].onTree ==> Has(s.tree, i))
    && (s.left.Some? ==> s.tree != [] && s.left.value == s.tree[0].id)
    && s.total == TreeWeight(s.groups, s.tree)
  }

  /** A group is on the tree exactly when it has queues. */
  predicate Backlogged(s: State) {
    forall i :: 0 <= i < |s.groups| ==> (s.groups[i].onTree <==> s.groups[i].queues > 0)
  }

  /** The group being served is on the tree, and nobody there is behind it. */
  predicate ServesFirst(s: State) {
    s.serving.Some? ==>
      && s.serving.value < |s.groups| && s.groups[s.serving.value].onTree
      && forall k :: 0 <= k < |s.tree| ==> s.groups[s.serving.value].vtime <= s.tree[k].key
  }

  /** Nobody on the tree is behind the group that was chosen last: leaving the tree earns no credit. */
  predicate NoCredit(s: State) {
    forall k :: 0 <= k < |s.tree| ==> s.minVtime <= s.tree[k].key
  }

  ghost predicate Inv(s: State) {
    Sound(s) && Backlogged(s) && ServesFirst(s) && NoCredit(s)
  }

  // ---- sums

  lemma {:induction false} WeightInsert(groups: seq<Group>, t: seq<Node>, p: nat, n: Node)
    requires p <= |t|
    ensures TreeWeight(groups, InsertAt(t, p, n)) == TreeWeight(groups, t) + WeightOf(groups, n)
    decreases p
  {
    if p == 0 {
      assert InsertAt(t, p, n)[1..] == t;
    } else {
      assert InsertAt(t, p, n)[1..] == InsertAt(t[1..], p - 1, n);
      WeightInsert(groups, t[1..], p - 1, n);
    }
  }

  lemma {:induction false} WeightErase(groups: seq<Group>, t: seq<Node>, p: nat)
    requires p < |t|
    ensures TreeWeight(groups, EraseAt(t, p)) == TreeWeight(groups, t) - WeightOf(groups, t[p])
    ensures WeightOf(groups, t[p]) <= TreeWeight(groups, t)
    decreases p
  {
    if p == 0 {
      assert EraseAt(t, p) == t[1..];
    } else {
      assert EraseAt(t, p)[1..] == EraseAt(t[1..], p - 1);
      WeightErase(groups, t[1..], p - 1);
    }
  }

  /** A change to a group that is not on the tree does not touch the sum. */
  lemma {:induction false} WeightFrame(groups: seq<Group>, t: seq<Node>, id: nat, g: Group)
    requires id < |groups| && (g.weight == groups[id].weight || !Has(t, id))
    ensures TreeWeight(groups[id := g], t) == TreeWeight(groups, t)
  {
    if t != [] {
      assert t[0].id == id ==> Has(t, id);
      if Has(t[1..], id) {
        var i :| 0 <= i < |t[1..]| && t[1..][i].id == id;
        assert t[i + 1].id == id;
      }
      WeightFrame(groups, t[1..], id, g);
    }
  }

  // ---- operations

  /** cfq_group_service_tree_add: a weight asked for meanwhile takes effect. */
  function Linked(s: State, id: nat): State
    requires id < |s.groups| && Sorted(s.tree)
  {
    var g := s.groups[id];
    var g' := g.(weight := if g.newWeight.Some? then g.newWeight.value else g.weight,
                 newWeight := None, onTree := true);
    s.(groups := s.groups[id := g'], tree := Insert(s.tree, Node(g.vtime, id)), total := s.total + g'.weight,
       left := if PlaceOf(s.tree, g.vtime) == 0 then Some(id) else s.left)
  }

  /** cfq_group_service_tree_del of a group that is on the tree. */
  function Unlinked(s: State, id: nat): State
    requires id < |s.groups|
  {
    s.(groups := s.groups[id := s.groups[id].(onTree := false)], tree := Erase(s.tree, id),
       total := if s.groups[id].weight <= s.total then s.total - s.groups[id].weight else 0,
       left := if s.left == Some(id) then None else s.left)
  }

  lemma LinkWeights(s: State, id: nat)
    requires Sound(s) && id < |s.groups| && !s.groups[id].onTree
    ensures Linked(s, id).total == TreeWeight(Linked(s, id).groups, Linked(s, id).tree) && !Has(s.tree, id)
  {
    var n, p, s' := Node(s.groups[id].vtime, id), PlaceOf(s.tree, s.groups[id].vtime), Linked(s, id);
    PlaceOfPlaces(s.tree, n.key);
    WeightFrame(s.groups, s.tree, id, s'.groups[id]);
    WeightInsert(s'.groups, s.tree, p, n);
  }

  lemma LinkNodes(s: State, id: nat)
    requires Sound(s) && id < |s.groups| && !s.groups[id].onTree
    ensures forall k :: 0 <= k < |Linked(s, id).tree| ==>
              Linked(s, id).tree[k] == Node(s.groups[id].vtime, id) || Linked(s, id).tree[k] in s.tree
  {
    PlaceOfPlaces(s.tree, s.groups[id].vtime);
  }

  lemma LinkNodesOk(s: State, id: nat)
    requires Sound(s) && id < |s.groups| && !s.groups[id].onTree
    ensures forall k :: 0 <= k < |Linked(s, id).tree| ==> NodeOk(Linked(s, id).groups, Linked(s, id).tree[k])
  {
    LinkNodes(s, id);
    var s' := Linked(s, id);
    forall k | 0 <= k < |s'.tree| ensures NodeOk(s'.groups, s'.tree[k]) {
      if s'.tree[k] != Node(s.groups[id].vtime, id) {
        var j :| 0 <= j < |s.tree| && s.tree[j] == s'.tree[k];
        assert NodeOk(s.groups, s.tree[j]);
      }
    }
  }

  lemma LinkKeeps(s: State, id: nat)
    requires Sound(s) && id < |s.groups| && !s.groups[id].onTree
    ensures Sound(Linked(s, id))
  {
    var n, p := Node(s.groups[id].vtime, id), PlaceOf(s.tree, s.groups[id].vtime);
    LinkWeights(s, id);
    LinkNodesOk(s, id);
    PlaceOfPlaces(s.tree, n.key);
    InsertSorted(s.tree, p, n);
  }

  lemma UnlinkKeeps(s: State, id: nat)
    requires Sound(s) && id < |s.groups| && s.groups[id].onTree
    ensures Sound(Unlinked(s, id)) && s.groups[id].weight <= s.total
    ensures forall k :: 0 <= k < |Unlinked(s, id).tree| ==>
              Unlinked(s, id).tree[k] in s.tree && Unlinked(s, id).tree[k].id != id
  {
    EraseKeeps(s.tree, id);
    FindFinds(s.tree, id);
    var p, s' := Find(s.tree, id), Unlinked(s, id);
    EraseSorted(s.tree, p);
    WeightErase(s.groups, s.tree, p);
    WeightFrame(s.groups, s'.tree, id, s'.groups[id]);
    forall k | 0 <= k < |s'.tree| ensures NodeOk(s'.groups, s'.tree[k]) && s'.tree[k].id != id {
      assert Has(s'.tree, s'.tree[k].id);
      var j :| 0 <= j < |s.tree| && s.tree[j] == s'.tree[k];
      assert NodeOk(s.groups, s.tree[j]);
    }
    forall i | 0 <= i < |s'.groups| && s'.groups[i].onTree ensures Has(s'.tree, i) {
      assert Has(s.tree, i);
    }
    if s'.left.Some? {
      assert p > 0 && s'.tree[0] == s.tree[0];
    }
  }

  datatype Op =
    | QueueAdd(id: nat)                    // cfq_group_notify_queue_add
    | QueueDel(id: nat)                    // cfq_group_notify_queue_del
    | SetWeight(id: nat, weight: Weight)   // cfq_update_blkio_group_weight
    | Choose                               // cfq_get_next_cfqg
    | Serve(charge: nat)                   // cfq_group_served of the chosen group

  predicate Enabled(s: State, op: Op) {
    match op
    case QueueAdd(id) => id < |s.groups|
    case QueueDel(id) => id < |s.groups| && s.groups[id].queues >= 1
    case SetWeight(id, _) => id < |s.groups|
    case Choose => true
    case Serve(_) => s.serving.Some? && s.serving.value < |s.groups|
  }

  function Queued(s: State, id: nat, more: int): State
    requires id < |s.groups| && s.groups[id].queues + more >= 0
  {
    s.(groups := s.groups[id := s.groups[id].(queues := s.groups[id].queues + more)])
  }

  function Timed(s: State, id: nat, vtime: nat): State
    requires id < |s.groups|
  {
    s.(groups := s.groups[id := s.groups[id].(vtime := vtime)])
  }

  /** Where a group starts that was not on the tree: behind everybody, or where the last one left off. */
  function StartTime(s: State): nat {
    if s.tree == [] then s.minVtime else s.tree[|s.tree| - 1].key + IDLE_DELAY
  }

  function Apply(s: State, op: Op): State
    requires Enabled(s, op) && Sorted(s.tree) && Unique(s.tree)
  {
    match op
    case QueueAdd(id) =>
      var s1 := Queued(s, id, 1);
      if s.groups[id].onTree then s1 else Linked(Timed(s1, id, StartTime(s)), id)
    case QueueDel(id) =>
      var s1 := Queued(s, id, -1);
      if s1.groups[id].queues > 0 then s1
      else Unlinked(s1, id).(serving := if s.serving == Some(id) then None else s.serving)
    case SetWeight(id, weight) => s.(groups := s.groups[id := s.groups[id].(newWeight := Some(weight))])
    case Choose =>
      if s.tree == [] then s
      else
        var first := s.tree[0];
        s.(left := Some(first.id), serving := Some(first.id),
           minVtime := if first.key > s.minVtime then first.key else s.minVtime)
    case Serve(charge) =>
      var id := s.serving.value;
      var vtime := s.groups[id].vtime + Scaled(charge, s.groups[id].weight);
      EraseKeeps(s.tree, id);
      Linked(Timed(Unlinked(s, id), id, vtime), id).(serving := None)
  }

  // ---- what every operation keeps

  /** A change that the tree does not see. */
  lemma SoundPut(s: State, id: nat, g: Group)
    requires Sound(s) && id < |s.groups| && g.onTree == s.groups[id].onTree
    requires g.onTree ==> g.weight == s.groups[id].weight && g.vtime == s.groups[id].vtime
    ensures Sound(s.(groups := s.groups[id := g]))
  {
    var s' := s.(groups := s.groups[id := g]);
    forall k | 0 <= k < |s.tree| ensures NodeOk(s'.groups, s'.tree[k]) {
      assert NodeOk(s.groups, s.tree[k]);
    }
    if Has(s.tree, id) {
      var k :| 0 <= k < |s.tree| && s.tree[k].id == id;
      assert NodeOk(s.groups, s.tree[k]);
    }
    WeightFrame(s.groups, s.tree, id, g);
  }

  lemma QueueAddKeeps(s: State, id: nat)
    requires Inv(s) && id < |s.groups|
    ensures Inv(Apply(s, QueueAdd(id)))
  {
    var s1 := Queued(s, id, 1);
    SoundPut(s, id, s1.groups[id]);
    if !s.groups[id].onTree {
      var s2 := Timed(s1, id, StartTime(s));
      SoundPut(s1, id, s2.groups[id]);
      LinkKeeps(s2, id);
      LinkNodes(s2, id);
      JoinedInv(s, id, s2, Linked(s2, id));
    }
  }

  /** A group joins with a time that nobody on the tree is ahead of. */
  lemma JoinedInv(s: State, id: nat, s2: State, s': State)
    requires Inv(s) && id < |s.groups| && !s.groups[id].onTree
    requires s2 == Timed(Queued(s, id, 1), id, StartTime(s)) && s' == Linked(s2, id) && Sound(s')
    requires forall k :: 0 <= k < |s'.tree| ==> s'.tree[k] == Node(s2.groups[id].vtime, id) || s'.tree[k] in s2.tree
    ensures Inv(s')
  {
    if s.serving.Some? {
      assert Has(s.tree, s.serving.value);
      assert s.groups[s.serving.value].vtime <= s.tree[|s.tree| - 1].key;
    }
  }

  lemma QueueDelKeeps(s: State, id: nat)
    requires Inv(s) && Enabled(s, QueueDel(id))
    ensures Inv(Apply(s, QueueDel(id)))
  {
    var s1 := Queued(s, id, -1);
    SoundPut(s, id, s1.groups[id]);
    if s1.groups[id].queues == 0 {
      UnlinkKeeps(s1, id);
    }
  }

  lemma SetWeightKeeps(s: State, id: nat, weight: Weight)
    requires Inv(s) && id < |s.groups|
    ensures Inv(Apply(s, SetWeight(id, weight)))
  {
    SoundPut(s, id, s.groups[id].(newWeight := Some(weight)));
  }

  lemma ChooseKeeps(s: State)
    requires Inv(s)
    ensures Inv(Apply(s, Choose))
  {
    if s.tree != [] {
      assert NodeOk(s.groups, s.tree[0]);
    }
  }

  lemma ServeKeeps(s: State, charge: nat)
    requires Inv(s) && Enabled(s, Serve(charge))
    ensures Inv(Apply(s, Serve(charge)))
  {
    var id := s.serving.value;
    var vtime := s.groups[id].vtime + Scaled(charge, s.groups[id].weight);
    UnlinkKeeps(s, id);
    Relink(Unlinked(s, id), id, vtime, Apply(s, Serve(charge)));
    ServedInv(s, id, Apply(s, Serve(charge)));
  }

  lemma Relink(s: State, id: nat, vtime: nat, s': State)
    requires Sound(s) && id < |s.groups| && !s.groups[id].onTree
    requires s' == Linked(Timed(s, id, vtime), id).(serving := None)
    ensures Sound(s') && |s'.groups| == |s.groups| && s'.minVtime == s.minVtime && s'.serving == None
    ensures s'.groups[id].onTree && s'.groups[id].queues == s.groups[id].queues && s'.groups[id].vtime == vtime
    ensures forall i :: 0 <= i < |s.groups| && i != id ==> s'.groups[i] == s.groups[i]
  {
    SoundPut(s, id, s.groups[id].(vtime := vtime));
    LinkKeeps(Timed(s, id, vtime), id);
  }

  /** All that has changed is the time of one group, which has moved on. */
  lemma ServedInv(s: State, id: nat, s': State)
    requires Inv(s) && id < |s.groups| && s.groups[id].onTree && |s'.groups| == |s.groups| && s'.minVtime == s.minVtime
    requires Sound(s') && s'.groups[id].onTree && s'.groups[id].queues == s.groups[id].queues && s'.serving == None
    requires s'.groups[id].vtime >= s.groups[id].vtime
    requires forall i :: 0 <= i < |s.groups| && i != id ==> s'.groups[i] == s.groups[i]
    ensures Inv(s')
  {
    forall k | 0 <= k < |s'.tree| ensures s'.minVtime <= s'.tree[k].key {
      assert NodeOk(s'.groups, s'.tree[k]);
      assert Has(s.tree, s'.tree[k].id);
      var j :| 0 <= j < |s.tree| && s.tree[j].id == s'.tree[k].id;
      assert NodeOk(s.groups, s.tree[j]) && s.minVtime <= s.tree[j].key;
    }
  }

  lemma StepKeeps(s: State, op: Op)
    requires Inv(s) && Enabled(s, op)
    ensures Inv(Apply(s, op))
  {
    match op
    case QueueAdd(id) => QueueAddKeeps(s, id);
    case QueueDel(id) => QueueDelKeeps(s, id);
    case SetWeight(id, weight) => SetWeightKeeps(s, id, weight);
    case Choose => ChooseKeeps(s);
    case Serve(charge) => ServeKeeps(s, charge);
  }

  // ---- fairness

  predicate Competes(s: State, i: nat) {
    i < |s.groups| && s.groups[i].onTree && s.groups[i].newWeight == None
  }

  /** A step during which both groups stay on the tree with their weights, and no group is charged more than `c`. */
  ghost predicate Turn(s: State, op: Op, s': State, i: nat, j: nat, c: nat) {
    && Competes(s, i) && Competes(s, j) && Competes(s', i) && Competes(s', j)
    && forall k {:trigger Unfold(k, s)} :: Unfold(k, s) ==>
         && Inv(s) && Enabled(s, op) && s' == Apply(s, op)
         && (op.Serve? ==> Scaled(op.charge, s.groups[s.serving.value].weight) <= c)
  }

  ghost predicate Run(states: seq<State>, ops: seq<Op>, i: nat, j: nat, c: nat) {
    |states| == |ops| + 1 && forall k :: 0 <= k < |ops| ==> Turn(states[k], ops[k], states[k + 1], i, j, c)
  }

  function Gap(s: State, i: nat, j: nat): int
    requires i < |s.groups| && j < |s.groups|
  {
    s.groups[i].vtime - s.groups[j].vtime
  }

  function Max(a: int, b: int): int { if a > b then a else b }

  /** What a step charges group `i`. */
  function ChargeOf(s: State, op: Op, i: nat): nat {
    if op.Serve? && s.serving == Some(i) then op.charge else 0
  }

  /** Only being served moves a group that stays on the tree. */
  lemma StepTime(s: State, op: Op, i: nat)
    requires Inv(s) && Enabled(s, op) && Competes(s, i) && Competes(Apply(s, op), i)
    ensures Apply(s, op).groups[i].weight == s.groups[i].weight
    ensures Apply(s, op).groups[i].vtime == s.groups[i].vtime + Scaled(ChargeOf(s, op, i), s.groups[i].weight)
  {
    ScaledBounds(0, s.groups[i].weight);
    if op.Serve? {
      ServeTime(s, op.charge, i);
    } else {
      OtherTime(s, op, i);
    }
  }

  lemma OtherTime(s: State, op: Op, i: nat)
    requires Sorted(s.tree) && Unique(s.tree) && Enabled(s, op) && !op.Serve? && Competes(s, i)
    ensures |Apply(s, op).groups| == |s.groups|
    ensures Apply(s, op).groups[i].weight == s.groups[i].weight && Apply(s, op).groups[i].vtime == s.groups[i].vtime
  {
  }

  lemma ServeTime(s: State, charge: nat, i: nat)
    requires Sorted(s.tree) && Unique(s.tree) && Enabled(s, Serve(charge)) && Competes(s, i)
    ensures var s' := Apply(s, Serve(charge));
            && |s'.groups| == |s.groups| && s'.groups[i].weight == s.groups[i].weight
            && s'.groups[i].vtime ==
                 s.groups[i].vtime + if s.serving == Some(i) then Scaled(charge, s.groups[i].weight) else 0
  {
  }

  lemma TurnTime(s: State, op: Op, s': State, i: nat, j: nat, c: nat)
    requires Turn(s, op, s', i, j, c)
    ensures s'.groups[i].weight == s.groups[i].weight
    ensures s'.groups[i].vtime == s.groups[i].vtime + Scaled(ChargeOf(s, op, i), s.groups[i].weight)
  {
    assert Unfold(0, s);
    StepTime(s, op, i);
  }

  lemma TurnBack(s: State, op: Op, s': State, i: nat, j: nat, c: nat)
    requires Turn(s, op, s', i, j, c)
    ensures Turn(s, op, s', j, i, c)
  {
  }

  /** Nobody on the tree is behind the group that is served. */
  lemma ServedBehind(s: State, j: nat)
    requires Inv(s) && s.serving.Some? && Competes(s, j)
    ensures s.serving.value < |s.groups| && s.groups[s.serving.value].vtime <= s.groups[j].vtime
  {
    assert Has(s.tree, j);
    var k :| 0 <= k < |s.tree| && s.tree[k].id == j;
    assert NodeOk(s.groups, s.tree[k]);
  }

  /** Serving the first in order never widens a gap beyond what it charges. */
  lemma TurnGap(s: State, op: Op, s': State, i: nat, j: nat, c: nat)
    requires Turn(s, op, s', i, j, c)
    ensures Gap(s', i, j) <= Max(Gap(s, i, j), c)
  {
    TurnTime(s, op, s', i, j, c);
    TurnBack(s, op, s', i, j, c);
    TurnTime(s, op, s', j, i, c);
    if op.Serve? && s.serving == Some(i) {
      TurnServed(s, op, s', i, j, c);
    }
  }

  lemma TurnServed(s: State, op: Op, s': State, i: nat, j: nat, c: nat)
    requires Turn(s, op, s', i, j, c) && op.Serve? && s.serving == Some(i)
    ensures s.groups[i].vtime <= s.groups[j].vtime && Scaled(op.charge, s.groups[i].weight) <= c
  {
    assert Unfold(0, s);
    ServedBehind(s, j);
  }

  /** Over every run in which two groups compete, their virtual times stay close. */
  lemma {:induction false} RunGap(states: seq<State>, ops: seq<Op>, i: nat, j: nat, c: nat, n: nat)
    requires Run(states, ops, i, j, c) && 0 < n <= |ops|
    ensures Competes(states[0], i) && Competes(states[0], j) && Competes(states[n], i) && Competes(states[n], j)
    ensures Gap(states[n], i, j) <= Max(Gap(states[0], i, j), c)
  {
    assert Turn(states[n - 1], ops[n - 1], states[n], i, j, c);
    TurnGap(states[n - 1], ops[n - 1], states[n], i, j, c);
    if n > 1 {
      RunGap(states, ops, i, j, c, n - 1);
    }
  }

  /** What the first `n` steps charge a group, and how often. */
  function Service(states: seq<State>, ops: seq<Op>, i: nat, n: nat): nat {
    if n == 0 || n > |ops| || n > |states| then 0
    else Service(states, ops, i, n - 1) + ChargeOf(states[n - 1], ops[n - 1], i)
  }

  function Turns(states: seq<State>, ops: seq<Op>, i: nat, n: nat): nat {
    if n == 0 || n > |ops| || n > |states| then 0
    else Turns(states, ops, i, n - 1) + if ops[n - 1].Serve? && states[n - 1].serving == Some(i) then 1 else 0
  }

  /** Virtual time `d` for `service` at weight `w`, each turn rounded down. */
  ghost predicate Proportional(w: nat, d: int, service: nat, turns: nat) {
    forall k {:trigger Unfold(k, (d, service))} :: Unfold(k, (d, service)) ==>
      w * d <= service * SERVICE <= w * d + w * turns
  }

  lemma ScaledBounds(charge: nat, weight: Weight)
    ensures weight * Scaled(charge, weight) <= charge * SERVICE <= weight * Scaled(charge, weight) + weight
    ensures charge == 0 ==> Scaled(charge, weight) == 0
  {
  }

  lemma Accumulate(w: Weight, charge: nat, d: int, service: nat, turns: nat, turn: nat, d': int, service': nat,
                   turns': nat)
    requires Proportional(w, d, service, turns) && (charge > 0 ==> turn == 1)
    requires d' == d + Scaled(charge, w) && service' == service + charge && turns' == turns + turn
    ensures Proportional(w, d', service', turns')
  {
    assert Unfold(0, (d, service));
    ScaledBounds(charge, w);
    Distribute(w, d, Scaled(charge, w));
    Distribute(w, turn, turns);
    Distribute(SERVICE, charge, service);
    Grow(w, 0, turn);
  }

  /** A group's virtual time is its service over its weight, up to one rounding a turn. */
  lemma {:induction false} RunService(states: seq<State>, ops: seq<Op>, i: nat, j: nat, c: nat, n: nat)
    requires Run(states, ops, i, j, c) && |ops| > 0 && n <= |ops|
    ensures Competes(states[0], i) && Competes(states[n], i) && states[n].groups[i].weight == states[0].groups[i].weight
    ensures Proportional(states[0].groups[i].weight, states[n].groups[i].vtime - states[0].groups[i].vtime,
                         Service(states, ops, i, n), Turns(states, ops, i, n))
  {
    if n > 0 {
      RunService(states, ops, i, j, c, n - 1);
      var s, op, s' := states[n - 1], ops[n - 1], states[n];
      assert Turn(s, op, s', i, j, c);
      TurnTime(s, op, s', i, j, c);
      Accumulate(s.groups[i].weight, ChargeOf(s, op, i), s.groups[i].vtime - states[0].groups[i].vtime,
                 Service(states, ops, i, n - 1), Turns(states, ops, i, n - 1),
                 if op.Serve? && s.serving == Some(i) then 1 else 0,
                 s'.groups[i].vtime - states[0].groups[i].vtime, Service(states, ops, i, n), Turns(states, ops, i, n));
    } else {
      assert Turn(states[0], ops[0], states[1], i, j, c);
    }
  }

  /** Service to one group beyond its share, weighed against another's. */
  predicate Within(wi: nat, wj: nat, si: nat, sj: nat, slack: int) {
    wj * (si * SERVICE) - wi * (sj * SERVICE) <= wi * wj * slack
  }

  lemma Share(wi: nat, wj: nat, di: int, dj: int, si: nat, sj: nat, ti: nat, tj: nat, slack: int)
    requires Proportional(wi, di, si, ti) && Proportional(wj, dj, sj, tj) && di - dj + ti <= slack
    ensures Within(wi, wj, si, sj, slack)
  {
    assert Unfold(0, (di, si)) && Unfold(0, (dj, sj));
    calc <= {
      wj * (si * SERVICE) - wi * (sj * SERVICE);
      { Grow(wj, si * SERVICE, wi * di + wi * ti); Grow(wi, wj * dj, sj * SERVICE); }
      wj * (wi * di + wi * ti) - wi * (wj * dj);
      { assert wj * (wi * di + wi * ti) - wi * (wj * dj) == (wi * wj) * (di - dj + ti); }
      (wi * wj) * (di - dj + ti);
      { Grow(wi * wj, di - dj + ti, slack); }
      (wi * wj) * slack;
    }
  }

  lemma RunBack(states: seq<State>, ops: seq<Op>, i: nat, j: nat, c: nat)
    requires Run(states, ops, i, j, c)
    ensures Run(states, ops, j, i, c)
  {
    forall k | 0 <= k < |ops| ensures Turn(states[k], ops[k], states[k + 1], j, i, c) {
      assert Turn(states[k], ops[k], states[k + 1], i, j, c);
      TurnBack(states[k], ops[k], states[k + 1], i, j, c);
    }
  }

  /** Both groups at the end of a run. */
  lemma Ends(states: seq<State>, ops: seq<Op>, i: nat, j: nat, c: nat, n: nat)
    requires Run(states, ops, i, j, c) && 0 < n <= |ops|
    ensures Competes(states[0], i) && Competes(states[0], j) && Competes(states[n], i) && Competes(states[n], j)
    ensures Gap(states[n], i, j) <= Max(Gap(states[0], i, j), c)
    ensures Proportional(states[0].groups[i].weight, states[n].groups[i].vtime - states[0].groups[i].vtime,
                         Service(states, ops, i, n), Turns(states, ops, i, n))
    ensures Proportional(states[0].groups[j].weight, states[n].groups[j].vtime - states[0].groups[j].vtime,
                         Service(states, ops, j, n), Turns(states, ops, j, n))
  {
    RunGap(states, ops, i, j, c, n);
    RunService(states, ops, i, j, c, n);
    RunBack(states, ops, i, j, c);
    RunService(states, ops, j, i, c, n);
  }

  /**
   Weighted fairness: what one group gets beyond its share, relative to any other it competes with, is
   bounded by the initial gap, one charge, and the rounding of its own turns.
   */
  lemma Fairness(states: seq<State>, ops: seq<Op>, i: nat, j: nat, c: nat)
    requires Run(states, ops, i, j, c) && |ops| > 0
    ensures Competes(states[0], i) && Competes(states[0], j)
    ensures var n := |ops|;
            Within(states[0].groups[i].weight, states[0].groups[j].weight, Service(states, ops, i, n),
                   Service(states, ops, j, n),
                   Max(Gap(states[0], i, j), c) - Gap(states[0], i, j) + Turns(states, ops, i, n))
  {
    var n := |ops|;
    Ends(states, ops, i, j, c, n);
    Share(states[0].groups[i].weight, states[0].groups[j].weight,
          states[n].groups[i].vtime - states[0].groups[i].vtime, states[n].groups[j].vtime - states[0].groups[j].vtime,
          Service(states, ops, i, n), Service(states, ops, j, n), Turns(states, ops, i, n), Turns(states, ops, j, n),
          Max(Gap(states[0], i, j), c) - Gap(states[0], i, j) + Turns(states, ops, i, n));
  }

  predicate Next(s: State, op: Op, s': State) {
    Enabled(s, op) && Sorted(s.tree) && Unique(s.tree) && s' == Apply(s, op)
  }

  predicate Steps(states: seq<State>, ops: seq<Op>) {
    |states| == |ops| + 1 && forall k :: 0 <= k < |ops| ==> Next(states[k], ops[k], states[k + 1])
  }

  lemma NextKeeps(s: State, op: Op, s': State)
    requires Inv(s) && Next(s, op, s')
    ensures Inv(s')
  {
    StepKeeps(s, op);
  }

  lemma {:induction false} StepsInv(states: seq<State>, ops: seq<Op>, n: nat)
    requires Steps(states, ops) && Inv(states[0]) && n <= |ops|
    ensures Inv(states[n])
  {
    if n > 0 {
      StepsInv(states, ops, n - 1);
      NextKeeps(states[n - 1], ops[n - 1], states[n]);
    }
  }

  predicate Charges(s: State, op: Op, c: nat) {
    op.Serve? && s.serving.Some? && s.serving.value < |s.groups| ==>
      Scaled(op.charge, s.groups[s.serving.value].weight) <= c
  }

  /** The same for every run of the scheduler from a sound state. */
  lemma FairRun(states: seq<State>, ops: seq<Op>, i: nat, j: nat, c: nat)
    requires Steps(states, ops) && Inv(states[0]) && |ops| > 0
    requires forall k :: 0 <= k < |states| ==> Competes(states[k], i) && Competes(states[k], j)
    requires forall k :: 0 <= k < |ops| ==> Charges(states[k], ops[k], c)
    ensures Competes(states[0], i) && Competes(states[0], j)
    ensures var n := |ops|;
            Within(states[0].groups[i].weight, states[0].groups[j].weight, Service(states, ops, i, n),
                   Service(states, ops, j, n),
                   Max(Gap(states[0], i, j), c) - Gap(states[0], i, j) + Turns(states, ops, i, n))
  {
    forall k | 0 <= k < |ops| ensures Turn(states[k], ops[k], states[k + 1], i, j, c) {
      StepsInv(states, ops, k);
      assert Next(states[k], ops[k], states[k + 1]) && Charges(states[k], ops[k], c);
    }
    Fairness(states, ops, i, j, c);
  }
}
