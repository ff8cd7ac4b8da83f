/**
 Barrier order in the elevator core (block/elevator.c): requests go from a scheduler, which may hold
 and reorder them, to the dispatch queue and then to the driver.  Every bio or request that enters
 is stamped; a request carries the stamps of all that was merged into it.
 */
module ElevatorOrder {
  import opened Common
  import opened Lists
  import opened ElevatorSort

  /** A request on the dispatch queue; `barrier` tells one that was inserted at the back. */
  datatype Item = Item(rq: Rq, stamps: set<nat>, barrier: bool)

  /**
   `held` is what the scheduler holds, `last` is last_merge, `hash` the merge hash, `queue` the
   dispatch queue, `gone` what the driver has taken off it, and `next` the next stamp.
   */
  datatype World = World(held: map<nat, set<nat>>, last: Option<nat>, hash: set<nat>,
                         queue: seq<Item>, gone: seq<Item>, next: nat)

  datatype Step =
    | InsertSort(id: nat, mergeable: bool)       // a new request for the scheduler
    | MergeInto(id: nat, hashed: bool)           // a bio, or a request of a SORT_MERGE, merged on entry
    | MergeRequests(id: nat, other: nat)         // `id` swallows `other`
    | Unhash(id: nat)                            // the lookup drops an entry that can no longer be merged
    | Dispatch(rq: Rq, place: nat)               // the scheduler lets a request go; `place` is where it is linked
    | Append(rq: Rq)                             // the end of a back insertion, after the drain
    | Start                                      // the driver starts the first request
    | Take                                       // and takes it off the queue

  predicate NoStop(queue: seq<Item>, from: nat) {
    forall i :: from <= i < |queue| ==> !queue[i].rq.stop
  }

  /** Where the core looks for a request to merge into: the one-hit cache, the hash, the scheduler's own lookup. */
  predicate Candidate(w: World, id: nat) {
    w.last == Some(id) || id in w.hash || id in w.held
  }

  predicate Enabled(w: World, s: Step) {
    match s
    case InsertSort(id, _) => id !in w.held
    case MergeInto(id, _) => Candidate(w, id)
    case MergeRequests(id, other) => id in w.held && other in w.held && id != other
    case Unhash(id) => true
    case Dispatch(rq, place) => rq.id in w.held && place <= |w.queue| && NoStop(w.queue, place)
    case Append(_) => w.held == map[]
    case Start => w.queue != []
    case Take => w.queue != []
  }

  function Started(item: Item): Item {
    item.(rq := item.rq.(stop := true))
  }

  function Apply(w: World, s: Step): World
    requires Enabled(w, s)
  {
    match s
    case InsertSort(id, mergeable) =>
      w.(held := w.held[id := {w.next}], next := w.next + 1,
         hash := if mergeable then w.hash + {id} else w.hash,
         last := if mergeable && w.last == None then Some(id) else w.last)
    case MergeInto(id, hashed) =>
      w.(held := w.held[id := (if id in w.held then w.held[id] else {}) + {w.next}], next := w.next + 1,
         last := Some(id), hash := if hashed then w.hash + {id} else w.hash)
    case MergeRequests(id, other) =>
      w.(held := (w.held - {other})[id := w.held[id] + w.held[other]],
         hash := w.hash - {other} + {id}, last := Some(id))
    case Unhash(id) => w.(hash := w.hash - {id})
    case Dispatch(rq, place) =>
      w.(held := w.held - {rq.id}, hash := w.hash - {rq.id}, last := if w.last == Some(rq.id) then None else w.last,
         queue := InsertAt(w.queue, place, Item(rq, w.held[rq.id], false)))
    case Append(rq) => w.(queue := w.queue + [Item(rq.(stop := true), {w.next}, true)], next := w.next + 1)
    case Start => w.(queue := w.queue[0 := Started(w.queue[0])])
    case Take => w.(queue := w.queue[1..], gone := w.gone + [w.queue[0]])
  }

  function Line(w: World): seq<Item> {
    w.gone + w.queue
  }

  function Init(): World {
    World(map[], None, {}, [], [], 0)
  }

  // ---- the invariant

  ghost predicate Below(stamps: set<nat>, b: nat) {
    forall s :: s in stamps ==> s < b
  }

  ghost predicate Above(stamps: set<nat>, b: nat) {
    forall s :: s in stamps ==> b < s
  }

  /** Everything before a barrier was there before it, everything after it, or still held, came later. */
  ghost predicate Parts(line: seq<Item>, held: map<nat, set<nat>>, p: nat, b: nat) {
    && p < |line|
    && (forall i :: 0 <= i < p ==> Below(line[i].stamps, b))
    && (forall i :: p < i < |line| ==> Above(line[i].stamps, b))
    && (forall id :: id in held ==> Above(held[id], b))
  }

  ghost predicate BarrierOk(line: seq<Item>, held: map<nat, set<nat>>, p: nat) {
    p < |line| && line[p].barrier ==> exists b :: line[p].stamps == {b} && Parts(line, held, p, b)
  }

  /** Stamp `s` is somewhere on the line or still held. */
  ghost predicate Placed(line: seq<Item>, held: map<nat, set<nat>>, s: nat) {
    (exists i :: 0 <= i < |line| && s in line[i].stamps) || (exists id :: id in held && s in held[id])
  }

  ghost predicate Inv(w: World) {
    && (forall p: nat :: BarrierOk(Line(w), w.held, p))
    && (forall i :: 0 <= i < |Line(w)| ==> Below(Line(w)[i].stamps, w.next))
    && (forall id :: id in w.held ==> Below(w.held[id], w.next))
    && (forall s: nat :: s < w.next ==> Placed(Line(w), w.held, s))
    && (forall i :: 0 <= i < |w.queue| && w.queue[i].barrier ==> w.queue[i].rq.stop)
    && (w.last.Some? ==> w.last.value in w.held)
    && (forall id :: id in w.hash ==> id in w.held)
  }

  /** Only requests the scheduler still holds can be merged into: none that is ahead of a barrier. */
  lemma CandidateHeld(w: World, id: nat)
    requires Inv(w) && Candidate(w, id)
    ensures id in w.held
  {
  }

  /** The stamp is new, or on something that was held. */
  ghost predicate Recent(w: World, s: nat) {
    s >= w.next || exists id :: id in w.held && s in w.held[id]
  }

  lemma RecentAbove(w: World, p: nat, b: nat, s: nat)
    requires Inv(w) && p < |Line(w)| && Line(w)[p].stamps == {b} && Parts(Line(w), w.held, p, b) && Recent(w, s)
    ensures b < s
  {
    assert b in Line(w)[p].stamps;
    assert Below(Line(w)[p].stamps, w.next);
  }

  /** A step that leaves the line alone: what is held has only recent stamps. */
  lemma HeldKeeps(w: World, w': World)
    requires Inv(w) && w'.gone == w.gone && w'.queue == w.queue && w.next <= w'.next
    requires forall id, s :: id in w'.held && s in w'.held[id] ==> Recent(w, s) && s < w'.next
    requires forall s: nat :: s < w'.next ==> Placed(Line(w'), w'.held, s)
    requires (w'.last.Some? ==> w'.last.value in w'.held) && (forall id :: id in w'.hash ==> id in w'.held)
    ensures Inv(w')
  {
    assert Line(w') == Line(w);
    forall p: nat ensures BarrierOk(Line(w'), w'.held, p) {
      assert BarrierOk(Line(w), w.held, p);
      if p < |Line(w)| && Line(w)[p].barrier {
        var b :| Line(w)[p].stamps == {b} && Parts(Line(w), w.held, p, b);
        forall id | id in w'.held ensures Above(w'.held[id], b) {
          forall s | s in w'.held[id] ensures b < s {
            RecentAbove(w, p, b, s);
          }
        }
        assert Parts(Line(w'), w'.held, p, b);
      }
    }
    forall i | 0 <= i < |Line(w')| ensures Below(Line(w')[i].stamps, w'.next) {
      assert Below(Line(w)[i].stamps, w.next);
    }
    forall id | id in w'.held ensures Below(w'.held[id], w'.next) {
      forall s | s in w'.held[id] ensures s < w'.next {
        assert Recent(w, s) && s < w'.next;
      }
    }
  }

  lemma PlacedLine(line: seq<Item>, held: map<nat, set<nat>>, held': map<nat, set<nat>>, s: nat)
    requires Placed(line, held, s)
    requires forall id :: id in held && s in held[id] ==> exists id' :: id' in held' && s in held'[id']
    ensures Placed(line, held', s)
  {
  }

  /** Insertions into the scheduler, and merges. */
  lemma EntryKeeps(w: World, s: Step)
    requires Inv(w) && Enabled(w, s) && (s.InsertSort? || s.MergeInto? || s.Unhash?)
    ensures Inv(Apply(w, s))
  {
    var w' := Apply(w, s);
    if s.MergeInto? {
      CandidateHeld(w, s.id);
    }
    forall id, x | id in w'.held && x in w'.held[id] ensures Recent(w, x) && x < w'.next {
      assert id in w.held ==> Below(w.held[id], w.next);
    }
    forall x: nat | x < w'.next ensures Placed(Line(w'), w'.held, x) {
      if x == w.next {
        assert x in w'.held[s.id];
      } else {
        forall id | id in w.held && x in w.held[id] ensures exists id' :: id' in w'.held && x in w'.held[id'] {
          assert x in w'.held[id];
        }
        PlacedLine(Line(w), w.held, w'.held, x);
      }
    }
    HeldKeeps(w, w');
  }

  lemma MergeRequestsKeeps(w: World, id: nat, other: nat)
    requires Inv(w) && Enabled(w, MergeRequests(id, other))
    ensures Inv(Apply(w, MergeRequests(id, other)))
  {
    var w' := Apply(w, MergeRequests(id, other));
    forall y, x | y in w'.held && x in w'.held[y] ensures Recent(w, x) && x < w'.next {
      assert Below(w.held[id], w.next) && Below(w.held[other], w.next) && Below(w.held[y], w.next);
    }
    forall x: nat | x < w'.next ensures Placed(Line(w'), w'.held, x) {
      forall y | y in w.held && x in w.held[y] ensures exists y' :: y' in w'.held && x in w'.held[y'] {
        assert x in w'.held[if y == other then id else y];
      }
      PlacedLine(Line(w), w.held, w'.held, x);
    }
    HeldKeeps(w, w');
  }

  /** Where an item of the old line is after an insertion. */
  function Shifted(i: nat, at: nat): nat {
    if i < at then i else i + 1
  }

  /** A request that was held is linked behind all barriers. */
  lemma InsertBarriers(line: seq<Item>, held: map<nat, set<nat>>, id: nat, at: nat, item: Item, p: nat)
    requires id in held && at <= |line| && item.stamps == held[id] && !item.barrier && BarrierOk(line, held, p)
    requires forall i :: at <= i < |line| ==> !line[i].barrier
    ensures BarrierOk(InsertAt(line, at, item), held - {id}, p)
  {
    var line' := InsertAt(line, at, item);
    if p < |line'| && line'[p].barrier {
      assert p < at;
      var b :| line[p].stamps == {b} && Parts(line, held, p, b);
      forall i | p < i < |line'| ensures Above(line'[i].stamps, b) {
        if i > at {
          assert line'[i] == line[i - 1];
        }
      }
      assert Parts(line', held - {id}, p, b);
    }
  }

  lemma DispatchBarriers(w: World, rq: Rq, place: nat, p: nat)
    requires Inv(w) && Enabled(w, Dispatch(rq, place))
    ensures var w' := Apply(w, Dispatch(rq, place)); BarrierOk(Line(w'), w'.held, p)
  {
    var w' := Apply(w, Dispatch(rq, place));
    var line, line', at := Line(w), Line(w'), |w.gone| + place;
    assert line' == InsertAt(line, at, Item(rq, w.held[rq.id], false));
    assert BarrierOk(line, w.held, p);
    InsertBarriers(line, w.held, rq.id, at, Item(rq, w.held[rq.id], false), p);
  }

  lemma DispatchKeeps(w: World, rq: Rq, place: nat)
    requires Inv(w) && Enabled(w, Dispatch(rq, place))
    ensures Inv(Apply(w, Dispatch(rq, place)))
  {
    var w' := Apply(w, Dispatch(rq, place));
    var line, line', at := Line(w), Line(w'), |w.gone| + place;
    assert line' == InsertAt(line, at, Item(rq, w.held[rq.id], false));
    forall p: nat ensures BarrierOk(line', w'.held, p) {
      DispatchBarriers(w, rq, place, p);
    }
    forall x: nat | x < w'.next ensures Placed(line', w'.held, x) {
      assert Placed(line, w.held, x);
      if i :| 0 <= i < |line| && x in line[i].stamps {
        assert line'[Shifted(i, at)] == line[i];
      } else {
        var y :| y in w.held && x in w.held[y];
        if y == rq.id {
          assert x in line'[at].stamps;
        } else {
          assert y in w'.held;
        }
      }
    }
  }

  lemma AppendKeeps(w: World, rq: Rq)
    requires Inv(w) && Enabled(w, Append(rq))
    ensures Inv(Apply(w, Append(rq)))
  {
    var w' := Apply(w, Append(rq));
    var line, line' := Line(w), Line(w');
    assert line' == line + [Item(rq.(stop := true), {w.next}, true)];
    forall p: nat ensures BarrierOk(line', w'.held, p) {
      if p == |line| {
        assert Parts(line', w'.held, p, w.next);
      } else if p < |line| && line[p].barrier {
        assert BarrierOk(line, w.held, p);
        var b :| line[p].stamps == {b} && Parts(line, w.held, p, b);
        RecentAbove(w, p, b, w.next);
        assert Parts(line', w'.held, p, b);
      }
    }
    forall x: nat | x < w'.next ensures Placed(line', w'.held, x) {
      if x == w.next {
        assert x in line'[|line|].stamps;
      } else {
        assert Placed(line, w.held, x);
        var i :| 0 <= i < |line| && x in line[i].stamps;
        assert line'[i] == line[i];
      }
    }
  }

  /** The driver changes nothing about the order. */
  lemma DriverKeeps(w: World, s: Step)
    requires Inv(w) && Enabled(w, s) && (s.Start? || s.Take?)
    ensures Inv(Apply(w, s))
  {
    var w' := Apply(w, s);
    var line, line' := Line(w), Line(w');
    assert |line'| == |line|;
    assert forall i :: 0 <= i < |line| ==> line'[i].stamps == line[i].stamps && line'[i].barrier == line[i].barrier;
    forall p: nat ensures BarrierOk(line', w'.held, p) {
      assert BarrierOk(line, w.held, p);
      if p < |line| && line[p].barrier {
        var b :| line[p].stamps == {b} && Parts(line, w.held, p, b);
        assert Parts(line', w'.held, p, b);
      }
    }
    forall x: nat | x < w'.next ensures Placed(line', w'.held, x) {
      assert Placed(line, w.held, x);
      if i :| 0 <= i < |line| && x in line[i].stamps {
        assert x in line'[i].stamps;
      }
    }
  }

  lemma StepKeeps(w: World, s: Step)
    requires Inv(w) && Enabled(w, s)
    ensures Inv(Apply(w, s))
  {
    match s
    case MergeRequests(id, other) => MergeRequestsKeeps(w, id, other);
    case Dispatch(rq, place) => DispatchKeeps(w, rq, place);
    case Append(rq) => AppendKeeps(w, rq);
    case Start => DriverKeeps(w, s);
    case Take => DriverKeeps(w, s);
    case _ => EntryKeeps(w, s);
  }

  // ---- runs

  predicate Reaches(w: World, steps: seq<Step>, w': World)
    decreases |steps|
  {
    if steps == [] then w' == w else Enabled(w, steps[0]) && Reaches(Apply(w, steps[0]), steps[1..], w')
  }

  lemma {:induction false} RunKeeps(w: World, steps: seq<Step>, w': World)
    requires Inv(w) && Reaches(w, steps, w')
    ensures Inv(w')
    decreases |steps|
  {
    if steps != [] {
      StepKeeps(w, steps[0]);
      RunKeeps(Apply(w, steps[0]), steps[1..], w');
    }
  }

  /**
   In every run, an appended request leaves after everything that entered before it, merged bios
   included, and before everything that entered after it.
   */
  lemma LineOrder(steps: seq<Step>, w: World, p: nat, b: nat, s: nat)
    requires Reaches(Init(), steps, w) && p < |Line(w)| && Line(w)[p].barrier && b in Line(w)[p].stamps
    ensures s < b ==> exists i :: 0 <= i < p && s in Line(w)[i].stamps
    ensures b < s ==> forall i :: 0 <= i <= p ==> s !in Line(w)[i].stamps
  {
    RunKeeps(Init(), steps, w);
    var line := Line(w);
    assert BarrierOk(line, w.held, p);
    var c :| line[p].stamps == {c} && Parts(line, w.held, p, c);
    assert Below(line[p].stamps, w.next);
    if s < b {
      assert Placed(line, w.held, s);
      var i :| 0 <= i < |line| && s in line[i].stamps;
      assert i > p ==> Above(line[i].stamps, b);
    }
    forall i | b < s && 0 <= i < p ensures s !in line[i].stamps {
      assert Below(line[i].stamps, b);
    }
  }

  /** In every run, whatever a bio or request is merged into on entry came after the last barrier. */
  lemma CandidatesNewer(steps: seq<Step>, w: World, id: nat, p: nat, b: nat)
    requires Reaches(Init(), steps, w) && Candidate(w, id)
    requires p < |Line(w)| && Line(w)[p].barrier && b in Line(w)[p].stamps
    ensures id in w.held && Above(w.held[id], b)
  {
    RunKeeps(Init(), steps, w);
    assert BarrierOk(Line(w), w.held, p);
  }
}
