/**
 The deadline scheduler (block/deadline-iosched.c): each direction keeps its requests in sector
 order and in order of expiry, and dispatches them in batches.
 */
module Deadline {
  import opened Common
  import opened Lists
  import opened RbTree

  const READ: nat := 0
  const WRITE: nat := 1

  /** sort_list, fifo_list and next_rq of one direction; keys are start sectors and expiry times. */
  datatype Lane = Lane(tree: seq<Node>, fifo: seq<Node>, next: Option<nat>)

  /** fifo_expire, fifo_batch, writes_starved. */
  datatype Tunables = Tunables(expire: seq<nat>, batch: nat, starved: nat)

  datatype State = State(lanes: seq<Lane>, batching: nat, starved: nat)

  /** deadline_latter_request: the next node in order. */
  function Latter(t: seq<Node>, id: nat): Option<nat> {
    var p := Find(t, id);
    if p + 1 < |t| then Some(t[p + 1].id) else None
  }

  // ---- what one direction keeps

  /** Both orders hold the same requests, each once; the next one, if any, is among them. */
  ghost predicate LaneOk(lane: Lane) {
    && Sorted(lane.tree) && Unique(lane.tree) && Sorted(lane.fifo) && Unique(lane.fifo)
    && |lane.tree| == |lane.fifo|
    && (forall id :: Has(lane.tree, id) <==> Has(lane.fifo, id))
    && (lane.next.Some? ==> Has(lane.tree, lane.next.value))
  }

  /** No request on the list expires after `time`. */
  predicate By(fifo: seq<Node>, time: nat) {
    forall i :: 0 <= i < |fifo| ==> fifo[i].key <= time
  }

  /** deadline_add_request */
  function Added(lane: Lane, id: nat, pos: nat, expiry: nat): Lane
    requires Sorted(lane.tree)
  {
    lane.(tree := Insert(lane.tree, Node(pos, id)), fifo := lane.fifo + [Node(expiry, id)])
  }

  lemma HasAppend(t: seq<Node>, n: Node, id: nat)
    ensures Has(t + [n], id) <==> Has(t, id) || id == n.id
  {
    assert (t + [n])[|t|] == n;
    if i :| 0 <= i < |t| && t[i].id == id {
      assert (t + [n])[i].id == id;
    }
  }

  lemma AddedKeeps(lane: Lane, id: nat, pos: nat, expiry: nat)
    requires LaneOk(lane) && !Has(lane.fifo, id) && By(lane.fifo, expiry)
    ensures LaneOk(Added(lane, id, pos, expiry))
  {
    PlaceOfPlaces(lane.tree, pos);
    InsertSorted(lane.tree, PlaceOf(lane.tree, pos), Node(pos, id));
    var lane' := Added(lane, id, pos, expiry);
    forall x ensures Has(lane'.tree, x) <==> Has(lane'.fifo, x) {
      HasAppend(lane.fifo, Node(expiry, id), x);
    }
    assert Unique(lane'.fifo);
  }

  /** deadline_remove_request */
  function Removed(lane: Lane, id: nat): Lane {
    Lane(Erase(lane.tree, id), Erase(lane.fifo, id), if lane.next == Some(id) then Latter(lane.tree, id) else lane.next)
  }

  lemma LatterHeld(t: seq<Node>, id: nat)
    requires Unique(t) && Has(t, id) && Latter(t, id).Some?
    ensures Has(t, Latter(t, id).value) && Latter(t, id).value != id
  {
    FindFinds(t, id);
    assert t[Find(t, id) + 1].id == Latter(t, id).value;
  }

  /** No request starts between one and its latter; one without a latter starts last. */
  lemma LatterOrder(t: seq<Node>, id: nat, p: nat, n: Node)
    requires Sorted(t) && Unique(t) && p < |t| && t[p].id == id && n in t
    ensures Latter(t, id).None? ==> n.key <= t[p].key
    ensures Latter(t, id).Some? ==> exists q :: 0 <= q < |t| && t[q].id == Latter(t, id).value && t[p].key <= t[q].key
                                              && (n.key <= t[p].key || t[q].key <= n.key)
  {
    FindUnique(t, id, p);
    var i :| 0 <= i < |t| && t[i] == n;
    if p + 1 < |t| {
      assert t[p + 1].id == Latter(t, id).value;
    }
  }

  lemma RemovedKeeps(lane: Lane, id: nat)
    requires LaneOk(lane) && Has(lane.tree, id)
    ensures LaneOk(Removed(lane, id)) && |Removed(lane, id).fifo| == |lane.fifo| - 1
    ensures forall x :: Has(Removed(lane, id).fifo, x) <==> Has(lane.fifo, x) && x != id
  {
    EraseKeeps(lane.tree, id);
    EraseKeeps(lane.fifo, id);
    if Latter(lane.tree, id).Some? {
      LatterHeld(lane.tree, id);
    }
  }

  /** deadline_merged_request after a front merge: a new place in sector order. */
  function Repositioned(lane: Lane, id: nat, pos: nat): Lane
    requires Sorted(Erase(lane.tree, id))
  {
    lane.(tree := Insert(Erase(lane.tree, id), Node(pos, id)))
  }

  lemma RepositionedKeeps(lane: Lane, id: nat, pos: nat)
    requires LaneOk(lane) && Has(lane.tree, id)
    ensures Sorted(Erase(lane.tree, id)) && LaneOk(Repositioned(lane, id, pos))
  {
    EraseKeeps(lane.tree, id);
    var t := Erase(lane.tree, id);
    PlaceOfPlaces(t, pos);
    InsertSorted(t, PlaceOf(t, pos), Node(pos, id));
  }

  /** When a request expires. */
  function Expiry(fifo: seq<Node>, id: nat): nat {
    FindFinds(fifo, id);
    if Find(fifo, id) < |fifo| then fifo[Find(fifo, id)].key else 0
  }

  /** The fifo when `id` swallows `gone`, before `gone` is unlinked: if that expires first, `id` moves behind it. */
  function Adopted(fifo: seq<Node>, id: nat, gone: nat): seq<Node> {
    if Expiry(fifo, gone) < Expiry(fifo, id) then
      var rest := Erase(fifo, id);
      FindFinds(rest, gone);
      if Find(rest, gone) < |rest| then InsertAt(rest, Find(rest, gone) + 1, Node(Expiry(fifo, gone), id)) else fifo
    else fifo
  }

  /** deadline_merged_requests */
  function Merged(lane: Lane, id: nat, gone: nat): Lane {
    Removed(lane.(fifo := Adopted(lane.fifo, id, gone)), gone)
  }

  lemma ExpiryAt(t: seq<Node>, id: nat, p: nat)
    requires Unique(t) && p < |t| && t[p].id == id
    ensures Expiry(t, id) == t[p].key
  {
    FindUnique(t, id, p);
  }

  lemma EraseAtExpiry(t: seq<Node>, p: nat, q: nat)
    requires p < |t| && q < |t| && q != p && Unique(t) && Unique(EraseAt(t, p))
    ensures Expiry(EraseAt(t, p), t[q].id) == t[q].key
  {
    ExpiryAt(EraseAt(t, p), t[q].id, if q < p then q else q - 1);
  }

  /** A node that stays keeps its key. */
  lemma EraseExpiry(t: seq<Node>, id: nat, x: nat)
    requires Sorted(t) && Unique(t) && x != id && Has(t, x)
    ensures Expiry(Erase(t, id), x) == Expiry(t, x)
  {
    FindFinds(t, id);
    FindFinds(t, x);
    var p, q := Find(t, id), Find(t, x);
    if p < |t| {
      EraseSorted(t, p);
      EraseAtExpiry(t, p, q);
    }
  }

  lemma AdoptedSorted(fifo: seq<Node>, id: nat, gone: nat)
    requires Sorted(fifo) && Unique(fifo) && Has(fifo, id) && Has(fifo, gone) && id != gone
    ensures var f := Adopted(fifo, id, gone);
            && Sorted(f) && Unique(f) && |f| == |fifo| && (forall x :: Has(f, x) <==> Has(fifo, x))
            && Expiry(f, id) == if Expiry(fifo, gone) < Expiry(fifo, id) then Expiry(fifo, gone) else Expiry(fifo, id)
  {
    EraseKeeps(fifo, id);
    EraseExpiry(fifo, id, gone);
    var rest := Erase(fifo, id);
    FindFinds(rest, gone);
    var p := Find(rest, gone);
    if Expiry(fifo, gone) < Expiry(fifo, id) {
      InsertBehind(rest, p, id);
    }
  }

  /** Right behind another node, with its key. */
  lemma InsertBehind(t: seq<Node>, p: nat, id: nat)
    requires Sorted(t) && Unique(t) && p < |t| && !Has(t, id)
    ensures var t' := InsertAt(t, p + 1, Node(t[p].key, id));
            && Sorted(t') && Unique(t') && |t'| == |t| + 1 && Expiry(t', id) == t[p].key
            && (forall x :: Has(t', x) <==> Has(t, x) || x == id)
  {
    var n := Node(t[p].key, id);
    InsertSorted(t, p + 1, n);
    FindUnique(InsertAt(t, p + 1, n), id, p + 1);
  }

  /** The two become one, with the earlier of their deadlines. */
  lemma MergedKeeps(lane: Lane, id: nat, gone: nat)
    requires LaneOk(lane) && Has(lane.tree, id) && Has(lane.tree, gone) && id != gone
    ensures LaneOk(Merged(lane, id, gone)) && |Merged(lane, id, gone).fifo| == |lane.fifo| - 1
    ensures forall x :: Has(Merged(lane, id, gone).fifo, x) <==> Has(lane.fifo, x) && x != gone
    ensures Expiry(Merged(lane, id, gone).fifo, id) ==
              if Expiry(lane.fifo, gone) < Expiry(lane.fifo, id) then Expiry(lane.fifo, gone) else Expiry(lane.fifo, id)
  {
    var fifo := Adopted(lane.fifo, id, gone);
    AdoptedSorted(lane.fifo, id, gone);
    RemovedKeeps(lane.(fifo := fifo), gone);
    EraseExpiry(fifo, gone, id);
  }

  // ---- choosing a request

  datatype Choice = Choice(dir: nat, id: nat, batching: nat, starved: nat)

  predicate Pending(s: State, dir: nat)
    requires |s.lanes| == 2 && dir < 2
  {
    s.lanes[dir].fifo != []
  }

  /** A batch that goes on: writes first, although at most one is ever set. */
  function Running(s: State, cfg: Tunables): Option<Choice>
    requires |s.lanes| == 2
  {
    if s.batching >= cfg.batch then None
    else if s.lanes[WRITE].next.Some? then Some(Choice(WRITE, s.lanes[WRITE].next.value, s.batching + 1, s.starved))
    else if s.lanes[READ].next.Some? then Some(Choice(READ, s.lanes[READ].next.value, s.batching + 1, s.starved))
    else None
  }

  /** A new batch: from the oldest request if it has expired or there is no next one. */
  function NewBatch(s: State, dir: nat, starved: nat, now: nat): Choice
    requires |s.lanes| == 2 && dir < 2 && Pending(s, dir)
  {
    var lane := s.lanes[dir];
    Choice(dir, if now > lane.fifo[0].key || lane.next.None? then lane.fifo[0].id else lane.next.value, 1, starved)
  }

  /** deadline_dispatch_requests up to the move. */
  function Chosen(s: State, cfg: Tunables, now: nat): Option<Choice>
    requires |s.lanes| == 2
  {
    if Running(s, cfg).Some? then Running(s, cfg)
    else if Pending(s, READ) && !(Pending(s, WRITE) && s.starved >= cfg.starved) then
      Some(NewBatch(s, READ, if Pending(s, WRITE) then s.starved + 1 else s.starved, now))
    else if Pending(s, WRITE) then Some(NewBatch(s, WRITE, 0, now))
    else None
  }

  /** deadline_move_request: the other direction loses its next request. */
  function LanesAfter(lanes: seq<Lane>, dir: nat, id: nat): seq<Lane>
    requires |lanes| == 2 && dir < 2
  {
    var lane, other := lanes[dir], lanes[1 - dir];
    lanes[dir := Removed(lane.(next := Latter(lane.tree, id)), id)][1 - dir := other.(next := None)]
  }

  function Moved(s: State, c: Choice): State
    requires |s.lanes| == 2 && c.dir < 2
  {
    State(LanesAfter(s.lanes, c.dir, c.id), c.batching, c.starved)
  }
}
