/**
 One queue and its tag map, which other queues may share, updated in place (block/blk-tag.c): starting
 and ending tags, resizing the map, and putting everything back on the dispatch queue.
 */
module TagQueue {
  import opened Common
  import opened TagProtocol
  import opened Lists

  /** A queue's whole start of a tag, as the state it leaves. */
  function Tagged(w: World, rq: Rq, t: nat): World
    requires t < |w.bits| && t < |w.index|
  {
    w.(bits := w.bits[t := true], index := w.index[t := Some(rq)], held := w.held[rq := t])
  }

  function Untagged(w: World, rq: Rq): World
    requires rq in w.held && w.held[rq] < |w.bits| && w.held[rq] < |w.index|
  {
    w.(bits := w.bits[w.held[rq] := false], index := w.index[w.held[rq] := None], held := w.held - {rq})
  }

  predicate Quiet(w: World, queue: nat) {
    queue in w.pcs && w.pcs[queue] == Idle
  }

  /** Undisturbed, the four steps of a start make one. */
  lemma StartAlone(w: World, rq: Rq, inFlight: nat)
    requires Inv(w) && Quiet(w, rq.queue) && rq !in w.held
    requires var limit := Limit(rq.sync, w.depth);
             !(!rq.sync && w.depth > 1 && inFlight > limit) && FirstZero(w.bits, limit) < limit
    ensures var t := FirstZero(w.bits, Limit(rq.sync, w.depth));
            && t < |w.bits| == |w.index| && !w.bits[t]
            && Reaches(w, [Start(rq, inFlight), Find(rq.queue), TestAndSet(rq.queue), WriteIndex(rq.queue)],
                       Tagged(w, rq, t))
  {
    var q, limit := rq.queue, Limit(rq.sync, w.depth);
    FirstZeroFirst(w.bits, limit);
    var t := FirstZero(w.bits, limit);
    var w1 := Apply(w, Start(rq, inFlight));
    var w2 := Apply(w1, Find(q));
    var w3 := Apply(w2, TestAndSet(q));
    var w4 := Apply(w3, WriteIndex(q));
    assert w4 == Tagged(w, rq, t) by {
      assert w4.pcs == w.pcs;
    }
    FourSteps(w, Start(rq, inFlight), w1, Find(q), w2, TestAndSet(q), w3, WriteIndex(q), w4);
  }

  lemma FourSteps(w: World, s1: Step, w1: World, s2: Step, w2: World, s3: Step, w3: World, s4: Step, w4: World)
    requires Enabled(w, s1) && w1 == Apply(w, s1) && Enabled(w1, s2) && w2 == Apply(w1, s2)
    requires Enabled(w2, s3) && w3 == Apply(w2, s3) && Enabled(w3, s4) && w4 == Apply(w3, s4)
    ensures Reaches(w, [s1, s2, s3, s4], w4)
  {
    OneStep(w3, s4, [], w4);
    OneStep(w2, s3, [s4], w4);
    OneStep(w1, s2, [s3, s4], w4);
    OneStep(w, s1, [s2, s3, s4], w4);
    assert [s1] + [s2, s3, s4] == [s1, s2, s3, s4] && [s2] + [s3, s4] == [s2, s3, s4] && [s3] + [s4] == [s3, s4];
  }

  lemma TaggedKeeps(w: World, rq: Rq, inFlight: nat)
    requires Inv(w) && Quiet(w, rq.queue) && rq !in w.held
    requires var limit := Limit(rq.sync, w.depth);
             !(!rq.sync && w.depth > 1 && inFlight > limit) && FirstZero(w.bits, limit) < limit
    ensures var t := FirstZero(w.bits, Limit(rq.sync, w.depth));
            t < |w.bits| == |w.index| && Inv(Tagged(w, rq, t))
  {
    var q := rq.queue;
    StartAlone(w, rq, inFlight);
    RunKeeps(w, [Start(rq, inFlight), Find(q), TestAndSet(q), WriteIndex(q)],
             Tagged(w, rq, FirstZero(w.bits, Limit(rq.sync, w.depth))));
  }

  lemma OneStep(w: World, s: Step, rest: seq<Step>, w': World)
    requires Enabled(w, s) && Reaches(Apply(w, s), rest, w')
    ensures Reaches(w, [s] + rest, w')
  {
    assert ([s] + rest)[1..] == rest;
  }

  lemma EndAlone(w: World, rq: Rq)
    requires Inv(w) && Quiet(w, rq.queue) && rq in w.held
    ensures w.held[rq] < |w.bits| == |w.index| && w.bits[w.held[rq]] && w.index[w.held[rq]] == Some(rq)
    ensures Reaches(w, [End(rq), ClearIndex(rq.queue), ClearBit(rq.queue)], Untagged(w, rq))
  {
    var q := rq.queue;
    assert Owns(w, Request(rq));
    var w1 := Apply(w, End(rq));
    var w2 := Apply(w1, ClearIndex(q));
    var w3 := Apply(w2, ClearBit(q));
    assert w3 == Untagged(w, rq) by {
      assert w3.pcs == w.pcs;
    }
    OneStep(w2, ClearBit(q), [], w3);
    OneStep(w1, ClearIndex(q), [ClearBit(q)], w3);
    OneStep(w, End(rq), [ClearIndex(q), ClearBit(q)], w3);
    assert [End(rq)] + [ClearIndex(q), ClearBit(q)] == [End(rq), ClearIndex(q), ClearBit(q)];
  }

  lemma UntaggedKeeps(w: World, rq: Rq)
    requires Inv(w) && Quiet(w, rq.queue) && rq in w.held
    ensures w.held[rq] < |w.bits| == |w.index| && Inv(Untagged(w, rq))
    ensures w.bits[w.held[rq]] && w.index[w.held[rq]] == Some(rq)
  {
    EndAlone(w, rq);
    RunKeeps(w, [End(rq), ClearIndex(rq.queue), ClearBit(rq.queue)], Untagged(w, rq));
  }

  /** The tag is free, and one a request of this kind may have: two are kept for synchronous ones, of more than two. */
  predicate MayTake(bits: seq<bool>, depth: nat, sync: bool, t: nat) {
    t < depth && t < |bits| && !bits[t] && (sync || t + 2 < depth || t == 0)
  }

  /** Too many asynchronous requests in flight. */
  predicate TooMany(depth: nat, sync: bool, inFlight: nat) {
    !sync && depth > 1 && inFlight >= 2 && inFlight + 2 > depth
  }

  /**
   A start finds a tag if and only if there is one it may take and, asynchronous, it does not exceed what
   may be in flight; and then it is the lowest.
   */
  lemma StartExact(bits: seq<bool>, depth: nat, sync: bool, inFlight: nat)
    requires depth <= |bits|
    ensures var limit := Limit(sync, depth);
            && limit <= |bits|
            && (!(!sync && depth > 1 && inFlight > limit) && FirstZero(bits, limit) < limit <==>
                  !TooMany(depth, sync, inFlight) && exists t: nat :: MayTake(bits, depth, sync, t))
            && (FirstZero(bits, limit) < limit ==>
                  && MayTake(bits, depth, sync, FirstZero(bits, limit))
                  && forall t: nat :: MayTake(bits, depth, sync, t) ==> FirstZero(bits, limit) <= t)
  {
    var limit := Limit(sync, depth);
    FirstZeroFirst(bits, limit);
    var z := FirstZero(bits, limit);
    forall t: nat | MayTake(bits, depth, sync, t) ensures t < limit && z <= t {
      assert !bits[t];
    }
    if z < limit {
      assert MayTake(bits, depth, sync, z);
    }
  }

  // ---- resizing

  /** init_tag_map's depth when a map of `newDepth` is asked for. */
  function NewDepth(newDepth: nat, nrRequests: nat): nat {
    if newDepth > nrRequests * 2 then nrRequests * 2 else newDepth
  }

  function Padded<T>(xs: seq<T>, n: nat, x: T): seq<T>
    requires |xs| <= n
  {
    xs + seq(n - |xs|, i => x)
  }

  /** The state after the old map and index are copied into new ones they fit in. */
  function Grown(w: World, depth: nat): World
    requires |w.bits| <= depth && |w.index| <= depth
  {
    w.(bits := Padded(w.bits, depth, false), index := Padded(w.index, depth, None), depth := depth)
  }

  /** Growing keeps every tag where it is and who it belongs to. */
  lemma GrownKeeps(w: World, depth: nat)
    requires Inv(w) && |w.bits| <= depth
    ensures Inv(Grown(w, depth))
  {
    var w' := Grown(w, depth);
    forall o ensures Owns(w', o) {
      assert Owns(w, o);
    }
    forall o, p ensures Alone(w', o, p) {
      assert Alone(w, o, p);
    }
    forall t: nat ensures Accounted(w', t) {
      assert Accounted(w, t);
      if t < |w.bits| && w.bits[t] {
        var o :| TagOf(w, o) == Some(t);
        assert TagOf(w', o) == Some(t);
      }
    }
    forall q: nat ensures Proper(w', q) {
      assert Proper(w, q);
    }
  }

  // ---- lists

  function Reversed<T>(xs: seq<T>): seq<T> {
    if xs == [] then [] else Reversed(xs[1..]) + [xs[0]]
  }

  lemma {:induction false} ReversedIn<T>(xs: seq<T>, x: T)
    ensures x in Reversed(xs) <==> x in xs
  {
    if xs != [] {
      ReversedIn(xs[1..], x);
    }
  }

  lemma {:induction false} RemoveLast<T>(xs: seq<T>, y: T, x: T)
    requires x !in xs || x != y
    ensures Remove(xs + [y], x) == if x in xs then Remove(xs, x) + [y] else if x == y then xs else xs + [y]
  {
    if xs != [] {
      assert (xs + [y])[1..] == xs[1..] + [y];
      RemoveLast(xs[1..], y, x);
      if xs[0] == x {
        assert Remove(xs, x) == xs[1..];
      } else if x in xs {
        assert [xs[0]] + (Remove(xs[1..], x) + [y]) == ([xs[0]] + Remove(xs[1..], x)) + [y];
      } else {
        assert [xs[0]] + xs[1..] == xs;
        assert [xs[0]] + (xs[1..] + [y]) == xs + [y];
      }
    } else {
      assert xs + [y] == [y];
    }
  }

  /** Unlinking an entry that is on the list once. */
  lemma {:induction false} RemoveReversed<T>(xs: seq<T>, x: T)
    requires Count(xs, x) <= 1
    ensures Reversed(Remove(xs, x)) == Remove(Reversed(xs), x)
  {
    if xs != [] {
      CountIn(xs[1..], x);
      ReversedIn(xs[1..], x);
      RemoveLast(Reversed(xs[1..]), xs[0], x);
      if xs[0] == x {
        RemoveAbsent(Reversed(xs[1..]), x);
      } else {
        RemoveReversed(xs[1..], x);
        assert ([xs[0]] + Remove(xs[1..], x))[1..] == Remove(xs[1..], x);
        if x !in xs[1..] {
          RemoveAbsent(xs[1..], x);
        }
      }
    }
  }

  // ---- in place

  /** What blk_queue_resize_tags returns. */
  datatype Resize = Resized | Busy | NoMemory

  /** BLKDEV_MIN_RQ */
  const MIN_REQUESTS: nat := 4

  /** The tag is one of those that were given up between `before` and `after`. */
  ghost predicate Freed(before: map<Rq, nat>, after: map<Rq, nat>, t: nat) {
    exists r :: r in before && r !in after && before[r] == t
  }

  class TaggedQueue {
    const id: nat
    var nrRequests: nat                    // nr_requests, which the administrator may change
    var refcnt: nat                        // queues that share the map
    var tagMap: array<bool>
    var tagIndex: array<Option<Rq>>
    var maxDepth: nat
    var realMaxDepth: nat
    var tags: map<Rq, nat>                 // rq->tag of the requests with REQ_QUEUED, of all queues on the map
    var busy: seq<Rq>                      // tag_busy_list
    var head: seq<Rq>                      // queue_head
    ghost var started: seq<Rq>             // the busy requests in the order they were started
    ghost var pcs: map<nat, Pc>            // where the queues on the map are

    ghost function View(): World
      reads this, tagMap, tagIndex
    {
      World(tagMap[..], tagIndex[..], maxDepth, tags, pcs)
    }

    ghost predicate Valid()
      reads this, tagMap, tagIndex
    {
      && tagMap.Length == tagIndex.Length == realMaxDepth && Inv(View()) && Quiet(View(), id)
      && Listed(busy, tags, id) && started == Reversed(busy)
    }

    /** Exactly the first `k` tags of the map are taken, by requests with smaller numbers. */
    ghost predicate FirstTaken(k: nat)
      reads this, tagMap
    {
      && (forall i :: 0 <= i < tagMap.Length ==> tagMap[i] == (i < k))
      && (forall r :: r in tags ==> r.id < k)
    }

    /** blk_queue_init_tags */
    constructor (id: nat, nrRequests: nat, depth: nat, waiting: seq<Rq>)
      ensures Valid() && fresh(tagMap) && fresh(tagIndex) && tags == map[] && head == waiting
      ensures realMaxDepth == maxDepth == NewDepth(depth, nrRequests)
      ensures this.id == id && this.nrRequests == nrRequests && refcnt == 1 && FirstTaken(0)
    {
      var d := NewDepth(depth, nrRequests);
      this.id, this.nrRequests, refcnt, maxDepth, realMaxDepth := id, nrRequests, 1, d, d;
      tagMap := new bool[d](_ => false);
      tagIndex := new Option<Rq>[d](_ => None);
      tags, busy, head, started, pcs := map[], [], waiting, [], map[id := Idle];
      new;
      InitInv(d);
      FreshInv(View(), d, id);
    }

    /** blk_queue_start_tag; `full` is its non-zero return. */
    method StartTag(rq: Rq, inFlight: nat) returns (full: bool)
      requires Valid() && rq.queue == id && rq !in tags
      modifies this`tags, this`busy, this`head, this`started, tagMap, tagIndex
      ensures Valid()
      ensures var w, limit := old(View()), Limit(rq.sync, maxDepth);
              && limit <= |w.bits| == |w.index|
              && (full <==> (!rq.sync && maxDepth > 1 && inFlight > limit) || FirstZero(w.bits, limit) >= limit)
              && View() == (if full then w else Tagged(w, rq, FirstZero(w.bits, limit)))
      ensures started == (if full then old(started) else old(started) + [rq])
      ensures head == (if full then old(head) else Remove(old(head), rq))
    {
      ghost var w := View();
      var limit := maxDepth;
      if !rq.sync && limit > 1 {
        limit := limit - 2;
        if limit == 0 {
          limit := 1;
        }
        if inFlight > limit {
          return true;
        }
      }
      var tag := FindZero(limit);
      if tag >= limit {
        return true;
      }
      TaggedKeeps(w, rq, inFlight);
      PutTag(rq, tag);
      full := false;
    }

    /** The bit, the request, its index entry and the busy list. */
    method PutTag(rq: Rq, tag: nat)
      requires Valid() && rq.queue == id && rq !in tags && tag < realMaxDepth
      requires Inv(Tagged(View(), rq, tag))
      modifies this`tags, this`busy, this`head, this`started, tagMap, tagIndex
      ensures Valid() && View() == Tagged(old(View()), rq, tag)
      ensures started == old(started) + [rq] && head == Remove(old(head), rq)
    {
      ghost var w := View();
      ListedStart(busy, tags, id, rq, tag);
      tagMap[tag] := true;
      tags := tags[rq := tag];
      tagIndex[tag] := Some(rq);
      head := Remove(head, rq);
      started := started + [rq];
      assert ([rq] + busy)[1..] == busy;
      busy := [rq] + busy;
      assert View() == Tagged(w, rq, tag);
    }

    /** blk_queue_end_tag; neither of its complaints about a missing tag comes up. */
    method EndTag(rq: Rq)
      requires Valid() && rq in tags && rq.queue == id
      modifies this`tags, this`busy, this`started, tagMap, tagIndex
      ensures Valid() && tags == old(tags) - {rq}
      ensures old(tags[rq]) < realMaxDepth && View() == Untagged(old(View()), rq)
      ensures busy == Remove(old(busy), rq) && started == Remove(old(started), rq)
    {
      ghost var w := View();
      UntaggedKeeps(w, rq);
      var tag := tags[rq];
      assert tag < realMaxDepth;
      ListedEnd(busy, tags, id, rq);
      RemoveReversed(busy, rq);
      busy := Remove(busy, rq);
      started := Remove(started, rq);
      tags := tags - {rq};
      assert tagIndex[..][tag] == Some(rq) && tagMap[..][tag];
      tagIndex[tag] := None;
      tagMap[tag] := false;
      assert View() == Untagged(w, rq);
    }

    /**
     blk_queue_invalidate_tags: the tags of this queue are freed and all others stay, and its requests are
     back on the dispatch queue, in the order they were started and ahead of what was there.
     */
    method InvalidateTags()
      requires Valid()
      modifies this`tags, this`busy, this`started, this`head, tagMap, tagIndex
      ensures Valid() && started == [] && head == old(started) + old(head)
      ensures tags == map r | r in old(tags) && r.queue != id :: old(tags)[r]
      ensures forall t :: 0 <= t < tagMap.Length ==>
                if Freed(old(tags), tags, t) then !tagMap[t] && tagIndex[t] == None
                else tagMap[t] == old(tagMap[t]) && tagIndex[t] == old(tagIndex[t])
    {
      while busy != []
        invariant Valid() && tagMap == old(tagMap) && tagIndex == old(tagIndex)
        invariant started + head == old(started) + old(head)
        invariant forall r :: r in tags ==> r in old(tags) && tags[r] == old(tags)[r]
        invariant forall r :: r in old(tags) && r.queue != id ==> r in tags
        invariant forall t :: 0 <= t < tagMap.Length ==>
                    if Freed(old(tags), tags, t) then !tagMap[t] && tagIndex[t] == None
                    else tagMap[t] == old(tagMap[t]) && tagIndex[t] == old(tagIndex[t])
        decreases |busy|
      {
        FreeFirst();
      }
      forall r | r in tags ensures r.queue != id {
        assert Count(busy, r) == 0;
      }
    }

    /** blk_requeue_request of the request that was started last. */
    method FreeFirst()
      requires Valid() && busy != []
      modifies this`tags, this`busy, this`started, this`head, tagMap, tagIndex
      ensures Valid() && |busy| < |old(busy)| && started + head == old(started) + old(head)
      ensures var rq := old(busy)[0];
              && rq in old(tags) && rq.queue == id && tags == old(tags) - {rq} && old(tags)[rq] < tagMap.Length
              && tagMap[..] == old(tagMap[..])[old(tags)[rq] := false]
              && tagIndex[..] == old(tagIndex[..])[old(tags)[rq] := None]
    {
      var rq := busy[0];
      CountIn(busy, rq);
      assert Count(busy, rq) > 0;
      ghost var rest := Reversed(busy[1..]);
      assert started + head == rest + ([rq] + head);
      EndTag(rq);
      head := [rq] + head;
    }

    /** The nr_requests attribute of the queue. */
    method SetRequests(n: nat)
      requires Valid()
      modifies this`nrRequests
      ensures Valid() && nrRequests == if n < MIN_REQUESTS then MIN_REQUESTS else n
    {
      nrRequests := if n < MIN_REQUESTS then MIN_REQUESTS else n;
    }

    /**
     blk_queue_resize_tags; `memory` is whether the new arrays could be allocated.  A map that grows
     is copied whole; if the new one, cut to twice nr_requests, is shorter than the old, the copy does not
     fit, and a tag that lies beyond the new arrays is lost to the map.
     */
    method ResizeTags(newDepth: nat, memory: bool) returns (r: Resize)
      requires Valid()
      modifies this`maxDepth, this`realMaxDepth, this`tagMap, this`tagIndex
      ensures r == if newDepth <= old(realMaxDepth) then Resized else if refcnt != 1 then Busy
                   else if !memory then NoMemory else Resized
      ensures r != Resized ==> Valid() && View() == old(View())
      ensures newDepth <= old(realMaxDepth) ==> Valid() && View() == old(View()).(depth := newDepth)
      ensures r == Resized && newDepth > old(realMaxDepth) ==>
                var w, depth := old(View()), NewDepth(newDepth, nrRequests);
                && tagMap.Length == tagIndex.Length == realMaxDepth == maxDepth == depth
                && if old(realMaxDepth) <= nrRequests * 2
                   then Valid() && |w.bits| == |w.index| <= depth && View() == Grown(w, depth)
                   else forall rq :: rq in tags && tags[rq] >= depth ==> !Valid()
    {
      ghost var w := View();
      if newDepth <= realMaxDepth {
        SearchKeeps(w, Shrink(newDepth));
        maxDepth := newDepth;
        return Resized;
      }
      if refcnt != 1 {
        return Busy;
      }
      if !memory {
        return NoMemory;
      }
      var depth := NewDepth(newDepth, nrRequests);
      var index, bits := CopyMap(depth);
      if realMaxDepth <= depth {
        GrownKeeps(w, depth);
      }
      tagIndex, tagMap, realMaxDepth, maxDepth := index, bits, depth, depth;
      forall rq | rq in tags && tags[rq] >= depth ensures !Inv(View()) {
        assert !Owns(View(), Request(rq));
      }
      return Resized;
    }

    /** New arrays that begin with what the old ones hold, as far as that fits. */
    method CopyMap(depth: nat) returns (index: array<Option<Rq>>, bits: array<bool>)
      requires tagMap.Length == tagIndex.Length
      ensures fresh(index) && fresh(bits) && index.Length == bits.Length == depth
      ensures tagMap.Length <= depth ==>
                index[..] == Padded(tagIndex[..], depth, None) && bits[..] == Padded(tagMap[..], depth, false)
    {
      index := new Option<Rq>[depth](_ => None);
      bits := new bool[depth](_ => false);
      var n := if tagMap.Length < depth then tagMap.Length else depth;
      for i := 0 to n
        invariant forall j :: 0 <= j < depth ==> index[j] == if j < i then tagIndex[j] else None
        invariant forall j :: 0 <= j < depth ==> bits[j] == (j < i && tagMap[j])
      {
        index[i] := tagIndex[i];
        bits[i] := tagMap[i];
      }
    }

    method FindZero(limit: nat) returns (tag: nat)
      requires limit <= tagMap.Length
      ensures tag == FirstZero(tagMap[..], limit)
    {
      tag := 0;
      while tag < limit && tagMap[tag]
        invariant tag <= limit && forall i :: 0 <= i < tag ==> tagMap[i]
      {
        tag := tag + 1;
      }
      FirstZeroFirst(tagMap[..], limit);
    }
  }

  lemma FreshInv(w: World, depth: nat, id: nat)
    requires w == World(w.bits, w.index, depth, map[], map[id := Idle]) && |w.bits| == |w.index| == depth
    requires forall i :: 0 <= i < depth ==> !w.bits[i] && w.index[i] == None
    ensures Inv(w)
  {
  }

  /** The list holds each tagged request of the queue once, and nothing else. */
  ghost predicate Listed(busy: seq<Rq>, tags: map<Rq, nat>, id: nat) {
    forall r :: Count(busy, r) == if r in tags && r.queue == id then 1 else 0
  }

  lemma ListedStart(busy: seq<Rq>, tags: map<Rq, nat>, id: nat, rq: Rq, t: nat)
    requires Listed(busy, tags, id) && rq !in tags && rq.queue == id
    ensures Listed([rq] + busy, tags[rq := t], id)
  {
    forall r ensures Count([rq] + busy, r) == if r in tags[rq := t] && r.queue == id then 1 else 0 {
      assert ([rq] + busy)[1..] == busy;
    }
  }

  lemma ListedEnd(busy: seq<Rq>, tags: map<Rq, nat>, id: nat, rq: Rq)
    requires Listed(busy, tags, id) && rq in tags && rq.queue == id
    ensures Listed(Remove(busy, rq), tags - {rq}, id)
  {
    forall r ensures Count(Remove(busy, rq), r) == if r in tags - {rq} && r.queue == id then 1 else 0 {
      CountRemove(busy, rq, r);
      CountIn(busy, rq);
    }
  }

  lemma FirstZeroIs(bits: seq<bool>, limit: nat, k: nat)
    requires k < limit <= |bits| && forall i :: 0 <= i < |bits| ==> bits[i] == (i < k)
    ensures FirstZero(bits, limit) == k
  {
    FirstZeroFirst(bits, limit);
    assert !bits[k];
  }

  method TakeNext(q: TaggedQueue, k: nat) returns (rq: Rq)
    requires q.Valid() && q.FirstTaken(k) && k < q.maxDepth == q.realMaxDepth
    modifies q`tags, q`busy, q`head, q`started, q.tagMap, q.tagIndex
    ensures q.Valid() && q.FirstTaken(k + 1) && rq in q.tags && q.tags[rq] == k
  {
    rq := Rq(k, q.id, true);
    ghost var bits := q.tagMap[..];
    FirstZeroIs(bits, q.maxDepth, k);
    var full := q.StartTag(rq, 0);
    assert q.tagMap[..] == bits[k := true];
  }

  /** A map of ten tags, nine of them taken. */
  method NineTaken() returns (q: TaggedQueue, rq: Rq)
    ensures fresh(q) && fresh(q.tagMap) && fresh(q.tagIndex) && q.Valid()
    ensures q.realMaxDepth == 10 && q.refcnt == 1 && rq in q.tags && q.tags[rq] == 8
  {
    q := new TaggedQueue(0, 5, 10, []);
    rq := TakeNext(q, 0);
    var k := 1;
    while k < 9
      invariant 1 <= k <= 9 && fresh(q) && fresh(q.tagMap) && fresh(q.tagIndex)
      invariant q.Valid() && q.maxDepth == q.realMaxDepth == 10 && q.refcnt == 1
      invariant q.FirstTaken(k) && rq in q.tags && q.tags[rq] == k - 1
    {
      rq := TakeNext(q, k);
      k := k + 1;
    }
  }

  /**
   With nine of ten tags taken nr_requests is lowered to four and the map is asked to grow.  The new
   arrays have eight entries, and the ninth request's tag is past what blk_queue_end_tag accepts.
   */
  method LostTag() returns (q: TaggedQueue, rq: Rq)
    ensures rq in q.tags && q.tags[rq] >= q.realMaxDepth && !q.Valid()
  {
    q, rq := NineTaken();
    q.SetRequests(4);
    var r := q.ResizeTags(11, true);
  }
}
