/**
 The deadline scheduler in place (block/deadline-iosched.c), and the forced drain of the elevator
 core (block/elevator.c), against the functions of Deadline and DeadlineRuns.
 */
module DeadlineQueue {
  import opened Common
  import opened RbTree
  import opened Deadline
  import opened DeadlineRuns
  import opened Lists

  lemma SetTwice(lanes: seq<Lane>, dir: nat, a: Lane, b: Lane)
    requires dir < |lanes|
    ensures lanes[dir := a][dir := b] == lanes[dir := b]
  {
  }

  /** A dispatch, by what it leaves. */
  lemma DispatchIs(cfg: Tunables, w: World, now: nat, c: Choice)
    requires Ready(cfg, w) && Chosen(w.s, cfg, now) == Some(c) && c.dir < 2 && w.nr > 0
    ensures Apply(cfg, w, Dispatch(now)) ==
              World(State(LanesAfter(w.s.lanes, c.dir, c.id), c.batching, c.starved), now, w.nr - 1, w.out + [c.id])
  {
  }

  class DeadlineData {
    const cfg: Tunables
    var lanes: seq<Lane>         // sort_list, fifo_list and next_rq of READ and WRITE
    var batching: nat
    var starved: nat
    var nrSorted: nat
    var queue: seq<nat>          // what went to the dispatch queue, in order
    var lastSector: nat          // last_sector, the head position
    var clock: nat               // jiffies as of the last operation

    ghost function View(): World
      reads this
    {
      World(State(lanes, batching, starved), clock, nrSorted, queue)
    }

    ghost predicate Valid()
      reads this
    {
      Settled(cfg, View())
    }

    /** deadline_init_queue */
    constructor (cfg: Tunables)
      requires |cfg.expire| == 2
      ensures Valid() && this.cfg == cfg && View() == Init(cfg)
    {
      this.cfg := cfg;
      lanes := [Lane([], [], None), Lane([], [], None)];
      batching, starved, nrSorted, queue, lastSector, clock := 0, 0, 0, [], 0, 0;
    }

    /** elv_rb_add */
    method RbAdd(dir: nat, id: nat, pos: nat)
      requires |lanes| == 2 && dir < 2 && Sorted(lanes[dir].tree)
      modifies this`lanes
      ensures lanes == old(lanes)[dir := old(lanes[dir]).(tree := Insert(old(lanes[dir].tree), Node(pos, id)))]
    {
      var tree, p := lanes[dir].tree, 0;
      while p < |tree| && pos >= tree[p].key
        invariant p <= |tree| && PlaceOf(tree, pos) == p + PlaceOf(tree[p..], pos)
      {
        p := p + 1;
      }
      lanes := lanes[dir := lanes[dir].(tree := InsertAt(tree, p, Node(pos, id)))];
    }

    /** deadline_add_request, with the count __elv_add_request keeps. */
    method AddRequest(dir: nat, id: nat, pos: nat, now: nat)
      requires Valid() && dir < 2 && clock <= now && !Held(View().s, id)
      modifies this`lanes, this`nrSorted, this`clock
      ensures Valid() && View() == Apply(cfg, old(View()), Add(dir, id, pos, now))
    {
      SettledStep(cfg, View(), Add(dir, id, pos, now));
      RbAdd(dir, id, pos);
      SetTwice(old(lanes), dir, lanes[dir], Added(old(lanes[dir]), id, pos, now + cfg.expire[dir]));
      lanes := lanes[dir := lanes[dir].(fifo := lanes[dir].fifo + [Node(now + cfg.expire[dir], id)])];
      nrSorted, clock := nrSorted + 1, now;
    }

    /** deadline_remove_request: off the fifo and out of the tree, stepping next_rq on if it was next. */
    method RemoveRequest(dir: nat, id: nat)
      requires |lanes| == 2 && dir < 2
      modifies this`lanes
      ensures lanes == old(lanes)[dir := Removed(old(lanes[dir]), id)]
    {
      lanes := lanes[dir := lanes[dir].(fifo := Erase(lanes[dir].fifo, id))];
      if lanes[dir].next == Some(id) {
        lanes := lanes[dir := lanes[dir].(next := Latter(lanes[dir].tree, id))];
      }
      lanes := lanes[dir := lanes[dir].(tree := Erase(lanes[dir].tree, id))];
    }

    /** deadline_merged_request after a front merge moved the request's start to `pos`. */
    method MergedRequest(dir: nat, id: nat, pos: nat)
      requires Valid() && dir < 2 && Has(lanes[dir].tree, id)
      modifies this`lanes
      ensures Valid() && View() == Apply(cfg, old(View()), FrontMerge(dir, id, pos))
    {
      SettledStep(cfg, View(), FrontMerge(dir, id, pos));
      EraseKeeps(lanes[dir].tree, id);
      SetTwice(lanes, dir, lanes[dir].(tree := Erase(lanes[dir].tree, id)), Repositioned(lanes[dir], id, pos));
      lanes := lanes[dir := lanes[dir].(tree := Erase(lanes[dir].tree, id))];
      RbAdd(dir, id, pos);
    }

    /** deadline_merged_requests, with the count elv_merge_requests keeps. */
    method MergedRequests(dir: nat, id: nat, gone: nat)
      requires Valid() && dir < 2 && id != gone && Has(lanes[dir].tree, id) && Has(lanes[dir].tree, gone)
      modifies this`lanes, this`nrSorted
      ensures Valid() && View() == Apply(cfg, old(View()), MergeRequests(dir, id, gone))
    {
      SettledStep(cfg, View(), MergeRequests(dir, id, gone));
      SetTwice(lanes, dir, lanes[dir].(fifo := Adopted(lanes[dir].fifo, id, gone)), Merged(lanes[dir], id, gone));
      lanes := lanes[dir := lanes[dir].(fifo := Adopted(lanes[dir].fifo, id, gone))];
      RemoveRequest(dir, gone);
      nrSorted := nrSorted - 1;
    }

    /** deadline_move_request of a request that ends at sector `end`. */
    method MoveRequest(dir: nat, id: nat, end: nat)
      requires |lanes| == 2 && dir < 2 && nrSorted > 0
      modifies this`lanes, this`nrSorted, this`queue, this`lastSector
      ensures nrSorted == old(nrSorted) - 1 && queue == old(queue) + [id] && lastSector == end
      ensures lanes == LanesAfter(old(lanes), dir, id)
    {
      lanes := lanes[1 - dir := lanes[1 - dir].(next := None)];
      lanes := lanes[dir := lanes[dir].(next := Latter(lanes[dir].tree, id))];
      lastSector := end;
      RemoveRequest(dir, id);
      nrSorted, queue := nrSorted - 1, queue + [id];
    }

    /** deadline_dispatch_requests: false when there is nothing to dispatch.  `endOf` is where a request ends. */
    method DispatchRequests(now: nat, endOf: nat -> nat) returns (done: bool)
      requires Valid() && clock <= now
      modifies this`lanes, this`nrSorted, this`queue, this`lastSector, this`batching, this`starved, this`clock
      ensures Valid() && View() == Apply(cfg, old(View()), Dispatch(now))
      ensures done <==> Chosen(old(View()).s, cfg, now).Some?
      ensures lastSector == if done then endOf(Chosen(old(View()).s, cfg, now).value.id) else old(lastSector)
    {
      SettledStep(cfg, View(), Dispatch(now));
      ghost var w := View();
      clock := now;
      var c := Select(now);
      if c.None? {
        return false;
      }
      SettledPick(cfg, w, now);
      DispatchChosen(w, now, c.value, endOf(c.value.id));
      done := true;
    }

    /** The rest of it: the chosen request is counted to its batch and moved. */
    method DispatchChosen(ghost w: World, now: nat, c: Choice, end: nat)
      requires Ready(cfg, w) && Chosen(w.s, cfg, now) == Some(c) && c.dir < 2 && w.nr > 0
      requires lanes == w.s.lanes && nrSorted == w.nr && queue == w.out && clock == now
      requires batching + 1 == c.batching && starved == c.starved
      modifies this`lanes, this`nrSorted, this`queue, this`lastSector, this`batching
      ensures View() == Apply(cfg, w, Dispatch(now)) && lastSector == end
    {
      DispatchIs(cfg, w, now, c);
      batching := batching + 1;
      MoveRequest(c.dir, c.id, end);
    }

    /** The choice of deadline_dispatch_requests, up to the count of the batch. */
    method Select(now: nat) returns (c: Option<Choice>)
      requires |lanes| == 2
      modifies this`batching, this`starved
      ensures c == Chosen(old(View()).s, cfg, now)
      ensures c.None? ==> batching == old(batching) && starved == old(starved)
      ensures c.Some? ==> batching + 1 == c.value.batching && starved == c.value.starved
    {
      var rq := if lanes[WRITE].next.Some? then lanes[WRITE].next else lanes[READ].next;
      if rq.Some? && batching < cfg.batch {
        return Some(Choice(if lanes[WRITE].next.Some? then WRITE else READ, rq.value, batching + 1, starved));
      }
      var haveReads, haveWrites := lanes[READ].fifo != [], lanes[WRITE].fifo != [];
      var dir := READ;
      if haveReads {
        if haveWrites {
          starved := starved + 1;
          if starved - 1 >= cfg.starved {
            dir := WRITE;
          }
        }
      } else if haveWrites {
        dir := WRITE;
      } else {
        return None;
      }
      if dir == WRITE {
        starved := 0;
      }
      var oldest := lanes[dir].fifo[0];
      var id := if now > oldest.key || lanes[dir].next.None? then oldest.id else lanes[dir].next.value;
      batching := 0;
      c := Some(Choice(dir, id, 1, starved));
    }

    /** elv_drain_elevator: it ends with nothing held, each request dispatched once, and nr_sorted at zero. */
    method Drain(now: nat, endOf: nat -> nat)
      requires Valid() && clock <= now
      modifies this`lanes, this`nrSorted, this`queue, this`lastSector, this`batching, this`starved, this`clock
      ensures Valid() && nrSorted == 0
      ensures lanes[READ].fifo == lanes[WRITE].fifo == [] && lanes[READ].tree == lanes[WRITE].tree == []
      ensures exists out :: queue == old(queue) + out && Once(out, old(View()).s)
    {
      ghost var out: seq<nat> := [];
      assert queue == old(queue) + out;
      var more := true;
      while more
        invariant Valid() && clock <= now && queue == old(queue) + out
        invariant OnceGone(out, old(View()).s, View().s)
        invariant !more ==> Chosen(View().s, cfg, now).None?
        decreases |lanes[READ].fifo| + |lanes[WRITE].fifo|, more
      {
        SettledChosen(cfg, View(), now);
        if Chosen(View().s, cfg, now).Some? {
          ghost var c := Chosen(View().s, cfg, now).value;
          OnceMore(out, old(View()).s, View().s, Moved(View().s, c), c.id);
          out := out + [c.id];
        }
        more := DispatchRequests(now, endOf);
      }
      SettledChosen(cfg, View(), now);
      OnceAll(out, old(View()).s, View().s);
    }
  }

  /** `out` holds each request of `s` once, and nothing else. */
  ghost predicate Once(out: seq<nat>, s: State) {
    forall id :: Count(out, id) == if Held(s, id) then 1 else 0
  }

  /** `out` holds each request that `s` had and `s'` no longer has once, and `s'` has none that `s` had not. */
  ghost predicate OnceGone(out: seq<nat>, s: State, s': State) {
    && (forall id :: Held(s', id) ==> Held(s, id))
    && (forall id :: Count(out, id) == if Held(s, id) && !Held(s', id) then 1 else 0)
  }

  lemma OnceMore(out: seq<nat>, s: State, s1: State, s2: State, x: nat)
    requires OnceGone(out, s, s1) && Held(s1, x) && forall id :: Held(s2, id) <==> Held(s1, id) && id != x
    ensures OnceGone(out + [x], s, s2)
  {
    forall id ensures Count(out + [x], id) == if Held(s, id) && !Held(s2, id) then 1 else 0 {
      CountConcat(out, [x], id);
    }
  }

  lemma OnceAll(out: seq<nat>, s: State, s': State)
    requires OnceGone(out, s, s') && |s'.lanes| == 2 && s'.lanes[READ].fifo == s'.lanes[WRITE].fifo == []
    ensures Once(out, s)
  {
  }
}
