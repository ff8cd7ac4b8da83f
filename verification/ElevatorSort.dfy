/**
 elv_dispatch_sort (block/elevator.c): a request finds its place among the entries at the end of
 the dispatch queue that may still be reordered.
 */
module ElevatorSort {
  import opened Common
  import opened Lists

  /** `end` is rq_end_sector; `stop` is REQ_SOFTBARRIER or REQ_STARTED. */
  datatype Rq = Rq(id: nat, pos: nat, end: nat, write: bool, discard: bool, stop: bool)

  /** Sectors in order, starting from the boundary and wrapping around. */
  predicate NotAfter(boundary: nat, a: Rq, b: Rq) {
    if a.pos >= boundary && b.pos < boundary then true
    else if a.pos < boundary && b.pos >= boundary then false
    else a.pos <= b.pos
  }

  /** How far a sector is ahead of the boundary on a disk of `n` sectors that is swept in one direction. */
  function Distance(boundary: nat, pos: nat, n: nat): nat
    requires boundary < n && pos < n
  {
    (pos + n - boundary) % n
  }

  lemma Wraps(x: nat, n: nat)
    requires 0 < n && x < 2 * n
    ensures x % n == if x < n then x else x - n
  {
    assert x / n == if x < n then 0 else 1;
  }

  lemma DistanceIs(boundary: nat, pos: nat, n: nat)
    requires boundary < n && pos < n
    ensures Distance(boundary, pos, n) == if pos >= boundary then pos - boundary else pos + n - boundary
  {
    Wraps(pos + n - boundary, n);
  }

  /** That is the order: a sweep from the boundary to the end of the disk and on from its beginning. */
  lemma SweepOrder(boundary: nat, a: Rq, b: Rq, n: nat)
    requires boundary < n && a.pos < n && b.pos < n
    ensures NotAfter(boundary, a, b) <==> Distance(boundary, a.pos, n) <= Distance(boundary, b.pos, n)
  {
    DistanceIs(boundary, a.pos, n);
    DistanceIs(boundary, b.pos, n);
  }

  predicate Alike(a: Rq, b: Rq) {
    a.write == b.write && a.discard == b.discard
  }

  /** May `rq` go ahead of the entry `e`? */
  predicate Passes(boundary: nat, rq: Rq, e: Rq) {
    Alike(rq, e) && !e.stop && !NotAfter(boundary, e, rq)
  }

  /** Everything from `i` on is of one kind and may still be reordered. */
  predicate Open(q: seq<Rq>, i: nat) {
    i < |q| && forall j :: i <= j < |q| ==> !q[j].stop && Alike(q[j], q[|q| - 1])
  }

  /** The reorderable end of the queue is in order. */
  ghost predicate TailSorted(q: seq<Rq>, boundary: nat) {
    forall i: nat, j: nat :: i < j < |q| && Open(q, i) ==> NotAfter(boundary, q[i], q[j])
  }

  /** The place the backward scan stops at: it went past exactly the entries it may pass. */
  predicate PlaceOf(q: seq<Rq>, boundary: nat, rq: Rq, p: nat) {
    && p <= |q|
    && (forall j :: p <= j < |q| ==> Passes(boundary, rq, q[j]))
    && (p > 0 ==> !Passes(boundary, rq, q[p - 1]))
  }

  /** The place as a function of the queue. */
  function Place(q: seq<Rq>, boundary: nat, rq: Rq): nat {
    if q != [] && Passes(boundary, rq, q[|q| - 1]) then Place(q[..|q| - 1], boundary, rq) else |q|
  }

  lemma {:induction false} PlaceIs(q: seq<Rq>, boundary: nat, rq: Rq)
    ensures PlaceOf(q, boundary, rq, Place(q, boundary, rq))
    decreases |q|
  {
    if q != [] && Passes(boundary, rq, q[|q| - 1]) {
      var r := q[..|q| - 1];
      PlaceIs(r, boundary, rq);
      var p := Place(r, boundary, rq);
      forall j | p <= j < |q| ensures Passes(boundary, rq, q[j]) {
        assert j < |r| ==> r[j] == q[j];
      }
      assert p > 0 ==> r[p - 1] == q[p - 1];
    }
  }

  lemma PlaceOnly(q: seq<Rq>, boundary: nat, rq: Rq, p: nat)
    requires PlaceOf(q, boundary, rq, p)
    ensures p == Place(q, boundary, rq)
  {
    PlaceIs(q, boundary, rq);
  }

  // ---- the sorted end

  /** What is open in the new queue before the new entry was open in the old one. */
  lemma OpenBefore(q: seq<Rq>, boundary: nat, rq: Rq, p: nat, i: nat)
    requires PlaceOf(q, boundary, rq, p) && i < p && Open(InsertAt(q, p, rq), i)
    ensures Open(q, i) && !q[p - 1].stop && Alike(q[p - 1], rq)
  {
    var q' := InsertAt(q, p, rq);
    assert q'[p] == rq && q'[p - 1] == q[p - 1];
    forall j | i <= j < |q| ensures !q[j].stop && Alike(q[j], q[|q| - 1]) {
      assert q'[if j < p then j else j + 1] == q[j];
      assert q'[if |q| - 1 < p then |q| - 1 else |q|] == q[|q| - 1];
    }
  }

  lemma OpenAfter(q: seq<Rq>, rq: Rq, p: nat, i: nat)
    requires p <= |q| && p < i && Open(InsertAt(q, p, rq), i)
    ensures Open(q, i - 1)
  {
    var q' := InsertAt(q, p, rq);
    forall j | i - 1 <= j < |q| ensures !q[j].stop && Alike(q[j], q[|q| - 1]) {
      assert q'[j + 1] == q[j] && q'[|q|] == q[|q| - 1];
    }
  }

  lemma InsertPair(q: seq<Rq>, boundary: nat, rq: Rq, p: nat, i: nat, j: nat)
    requires TailSorted(q, boundary) && PlaceOf(q, boundary, rq, p)
    requires i < j < |q| + 1 && Open(InsertAt(q, p, rq), i)
    ensures NotAfter(boundary, InsertAt(q, p, rq)[i], InsertAt(q, p, rq)[j])
  {
    var q' := InsertAt(q, p, rq);
    if i > p {
      OpenAfter(q, rq, p, i);
      assert q'[i] == q[i - 1] && q'[j] == q[j - 1];
    } else if i == p {
      assert q'[j] == q[j - 1];
    } else {
      OpenBefore(q, boundary, rq, p, i);
      assert NotAfter(boundary, q[p - 1], rq);
      assert i < p - 1 ==> NotAfter(boundary, q[i], q[p - 1]);
      assert q'[j] == if j < p then q[j] else if j == p then rq else q[j - 1];
    }
  }

  lemma InsertKeeps(q: seq<Rq>, boundary: nat, rq: Rq, p: nat)
    requires TailSorted(q, boundary) && PlaceOf(q, boundary, rq, p)
    ensures TailSorted(InsertAt(q, p, rq), boundary)
  {
    var q' := InsertAt(q, p, rq);
    forall i: nat, j: nat | i < j < |q'| && Open(q', i) ensures NotAfter(boundary, q'[i], q'[j]) {
      InsertPair(q, boundary, rq, p, i, j);
    }
  }

  /** An entry of the same kind that may still be reordered. */
  predicate Joins(e: Rq, rq: Rq) {
    Alike(e, rq) && !e.stop && !rq.stop
  }

  /** Where the open end begins. */
  function OpenFrom(q: seq<Rq>): (f: nat)
    ensures f <= |q|
  {
    if q == [] || q[|q| - 1].stop then |q|
    else if |q| > 1 && Joins(q[|q| - 2], q[|q| - 1]) then OpenFrom(q[..|q| - 1])
    else |q| - 1
  }

  lemma {:induction false} OpenFromIs(q: seq<Rq>, i: nat)
    ensures Open(q, i) <==> OpenFrom(q) <= i < |q|
    decreases |q|
  {
    if i < |q| && !q[|q| - 1].stop && |q| > 1 {
      var r := q[..|q| - 1];
      if Joins(q[|q| - 2], q[|q| - 1]) {
        OpenFromIs(r, i);
        OpenFromIs(r, |r| - 1);
        assert r[|r| - 1] == q[|q| - 2];
        OpenShorter(q, i);
      } else if i < |q| - 1 {
        assert !Open(q, i) by {
          assert q[|q| - 2].stop || !Alike(q[|q| - 2], q[|q| - 1]);
        }
      }
    }
  }

  lemma OpenShorter(q: seq<Rq>, i: nat)
    requires |q| > 1 && Joins(q[|q| - 2], q[|q| - 1])
    ensures Open(q, i) <==> Open(q[..|q| - 1], i) || i == |q| - 1
  {
    var r := q[..|q| - 1];
    assert r[|r| - 1] == q[|q| - 2];
    if Open(q, i) && i < |r| {
      forall j | i <= j < |r| ensures !r[j].stop && Alike(r[j], r[|r| - 1]) {
        assert r[j] == q[j];
      }
    }
    if Open(r, i) {
      forall j | i <= j < |q| ensures !q[j].stop && Alike(q[j], q[|q| - 1]) {
        assert j < |r| ==> r[j] == q[j];
      }
    }
  }

  /** Does the open end run from its first to its last entry without crossing the boundary? */
  predicate Fits(q: seq<Rq>, boundary: nat) {
    OpenFrom(q) < |q| ==> NotAfter(boundary, q[OpenFrom(q)], q[|q| - 1])
  }

  /** Four entries in order from one boundary around, the outer two in order from another. */
  lemma Between(b: nat, b': nat, first: Rq, x: Rq, y: Rq, last: Rq)
    requires NotAfter(b, first, x) && NotAfter(b, x, y) && NotAfter(b, y, last) && NotAfter(b', first, last)
    ensures NotAfter(b', x, y)
  {
  }

  /** A sorted end stays sorted from a new boundary exactly if its first entry does not come after its last. */
  lemma BoundaryMoves(q: seq<Rq>, b: nat, b': nat)
    requires TailSorted(q, b)
    ensures TailSorted(q, b') <==> Fits(q, b')
  {
    var f := OpenFrom(q);
    OpenFromIs(q, f);
    if Fits(q, b') {
      forall i: nat, j: nat | i < j < |q| && Open(q, i) ensures NotAfter(b', q[i], q[j]) {
        OpenFromIs(q, i);
        Between(b, b', q[f], q[i], q[j], q[|q| - 1]);
      }
    }
  }

  lemma OpenAppend(q: seq<Rq>, rq: Rq, i: nat)
    ensures Open(q + [rq], i) <==> if i < |q| then Open(q, i) && Joins(q[|q| - 1], rq) else i == |q| && !rq.stop
  {
    var q' := q + [rq];
    assert q'[..|q|] == q;
    assert q'[|q|] == rq;
    if q != [] {
      assert q'[|q| - 1] == q[|q| - 1];
      if Joins(q[|q| - 1], rq) {
        OpenShorter(q', i);
      }
    }
  }

  /** An entry linked at the very end leaves the end sorted exactly if it does not join it, or comes last. */
  lemma AppendExact(q: seq<Rq>, rq: Rq, b: nat)
    ensures TailSorted(q + [rq], b) <==>
              (q != [] && Joins(q[|q| - 1], rq) ==> TailSorted(q, b) && NotAfter(b, q[|q| - 1], rq))
  {
    if q != [] && Joins(q[|q| - 1], rq) {
      if TailSorted(q + [rq], b) {
        AppendNeeds(q, rq, b);
      }
      if TailSorted(q, b) && NotAfter(b, q[|q| - 1], rq) {
        AppendSorts(q, rq, b);
      }
    } else {
      var q' := q + [rq];
      forall i: nat ensures i < |q| ==> !Open(q', i) {
        OpenAppend(q, rq, i);
      }
    }
  }

  lemma AppendNeeds(q: seq<Rq>, rq: Rq, b: nat)
    requires q != [] && Joins(q[|q| - 1], rq) && TailSorted(q + [rq], b)
    ensures TailSorted(q, b) && NotAfter(b, q[|q| - 1], rq)
  {
    var q' := q + [rq];
    forall i: nat, j: nat | i < j < |q| && Open(q, i) ensures NotAfter(b, q[i], q[j]) {
      OpenAppend(q, rq, i);
      assert NotAfter(b, q'[i], q'[j]);
    }
    OpenAppend(q, rq, |q| - 1);
    assert NotAfter(b, q'[|q| - 1], q'[|q|]);
  }

  lemma AppendSorts(q: seq<Rq>, rq: Rq, b: nat)
    requires q != [] && Joins(q[|q| - 1], rq) && TailSorted(q, b) && NotAfter(b, q[|q| - 1], rq)
    ensures TailSorted(q + [rq], b)
  {
    var q' := q + [rq];
    forall i: nat, j: nat | i < j < |q'| && Open(q', i) ensures NotAfter(b, q'[i], q'[j]) {
      OpenAppend(q, rq, i);
      if j < |q| {
        assert NotAfter(b, q[i], q[j]);
      } else if i < |q| - 1 {
        assert NotAfter(b, q[i], q[|q| - 1]);
      }
    }
  }

  /** What is open depends on the end of the queue only. */
  lemma OpenSame(q: seq<Rq>, q': seq<Rq>, i: nat, i': nat)
    requires i <= |q| && i' <= |q'| && q[i..] == q'[i'..] && Open(q', i')
    ensures Open(q, i)
  {
    forall j | i <= j < |q| ensures !q[j].stop && Alike(q[j], q[|q| - 1]) {
      assert q[j] == q[i..][j - i] == q'[i'..][j - i] == q'[i' + (j - i)];
      assert q[|q| - 1] == q[i..][|q| - 1 - i] == q'[|q'| - 1];
    }
  }

  /** The driver starts the first entry. */
  lemma StartSorts(q: seq<Rq>, b: nat)
    requires q != [] && TailSorted(q, b)
    ensures TailSorted(q[0 := q[0].(stop := true)], b)
  {
    var q' := q[0 := q[0].(stop := true)];
    forall i: nat, j: nat | i < j < |q'| && Open(q', i) ensures NotAfter(b, q'[i], q'[j]) {
      assert !q'[i].stop;
      assert i > 0;
      assert q[i..] == q'[i..];
      OpenSame(q, q', i, i);
    }
  }

  /** And takes it off the queue. */
  lemma TakeSorts(q: seq<Rq>, b: nat)
    requires q != [] && TailSorted(q, b)
    ensures TailSorted(q[1..], b)
  {
    var q' := q[1..];
    forall i: nat, j: nat | i < j < |q'| && Open(q', i) ensures NotAfter(b, q'[i], q'[j]) {
      assert q[i + 1..] == q'[i..];
      OpenSame(q, q', i + 1, i);
    }
  }

  /** Everything up to a stop entry stays in front of a new entry, in place. */
  predicate StopsKept(q: seq<Rq>, q': seq<Rq>) {
    |q| <= |q'| && forall i :: 0 <= i < |q| && q[i].stop ==> q'[..i + 1] == q[..i + 1]
  }

  lemma InsertStops(q: seq<Rq>, boundary: nat, rq: Rq, p: nat)
    requires PlaceOf(q, boundary, rq, p)
    ensures StopsKept(q, InsertAt(q, p, rq))
  {
    var q' := InsertAt(q, p, rq);
    forall i | 0 <= i < |q| && q[i].stop ensures q'[..i + 1] == q[..i + 1] {
      assert i < p;
    }
  }

  lemma StopsTwice(a: seq<Rq>, b: seq<Rq>, c: seq<Rq>)
    requires StopsKept(a, b) && StopsKept(b, c)
    ensures StopsKept(a, c)
  {
    forall i | 0 <= i < |a| && a[i].stop ensures c[..i + 1] == a[..i + 1] {
      assert b[..i + 1] == a[..i + 1];
      assert b[..i + 1][i] == a[..i + 1][i];
      assert b[i].stop;
    }
  }

  lemma InsertCount(q: seq<Rq>, p: nat, rq: Rq, x: Rq)
    requires p <= |q|
    ensures Count(InsertAt(q, p, rq), x) == Count(q, x) + Count([rq], x)
  {
    assert q == q[..p] + q[p..];
    CountConcat(q[..p], q[p..], x);
    CountConcat(q[..p] + [rq], q[p..], x);
    CountConcat(q[..p], [rq], x);
  }

  class DispatchQueue {
    var queue: seq<Rq>             // queue_head
    var endSector: nat             // end_sector, the boundary
    var lastMerge: Option<nat>
    var hashed: set<nat>           // requests on the merge hash
    var nrSorted: nat

    /** elv_dispatch_sort */
    method DispatchSort(rq: Rq)
      requires nrSorted > 0
      modifies this`queue, this`lastMerge, this`hashed, this`nrSorted
      ensures var p := Place(old(queue), endSector, rq);
              PlaceOf(old(queue), endSector, rq, p) && queue == InsertAt(old(queue), p, rq)
      ensures old(TailSorted(queue, endSector)) ==> TailSorted(queue, endSector)
      ensures StopsKept(old(queue), queue)
      ensures nrSorted == old(nrSorted) - 1 && hashed == old(hashed) - {rq.id}
      ensures lastMerge == if old(lastMerge) == Some(rq.id) then None else old(lastMerge)
    {
      if lastMerge == Some(rq.id) {
        lastMerge := None;
      }
      hashed := hashed - {rq.id};
      nrSorted := nrSorted - 1;
      var p: nat := |queue|;
      while p > 0
        invariant 0 <= p <= |queue| && forall j :: p <= j < |queue| ==> Passes(endSector, rq, queue[j])
      {
        var e := queue[p - 1];
        if rq.discard != e.discard || rq.write != e.write || e.stop {
          break;
        }
        if rq.pos >= endSector {
          if e.pos < endSector {
            p := p - 1;
            continue;
          }
        } else if e.pos >= endSector {
          break;
        }
        if rq.pos >= e.pos {
          break;
        }
        p := p - 1;
      }
      if TailSorted(queue, endSector) {
        InsertKeeps(queue, endSector, rq, p);
      }
      InsertStops(queue, endSector, rq, p);
      PlaceOnly(queue, endSector, rq, p);
      queue := InsertAt(queue, p, rq);
    }
  }

  /** The same requests, as often, on the dispatch queue and held, as before. */
  ghost predicate Conserved(q: seq<Rq>, held: seq<Rq>, q0: seq<Rq>, held0: seq<Rq>) {
    forall x :: Count(q, x) + Count(held, x) == Count(q0, x) + Count(held0, x)
  }

  lemma ConservedStep(q: seq<Rq>, held: seq<Rq>, p: nat, q0: seq<Rq>, held0: seq<Rq>)
    requires held != [] && p <= |q| && Conserved(q, held, q0, held0)
    ensures Conserved(InsertAt(q, p, held[0]), held[1..], q0, held0)
  {
    forall x ensures Count(InsertAt(q, p, held[0]), x) + Count(held[1..], x) == Count(q0, x) + Count(held0, x) {
      InsertCount(q, p, held[0], x);
    }
  }

  /** The noop scheduler (block/noop-iosched.c): first in, first out, into the sorted dispatch queue. */
  class NoopData {
    var queue: seq<Rq>

    /** noop_add_request */
    method AddRequest(rq: Rq)
      modifies this
      ensures queue == old(queue) + [rq]
    {
      queue := queue + [rq];
    }

    /** noop_dispatch */
    method Dispatch(q: DispatchQueue) returns (done: bool)
      requires q.nrSorted == |queue|
      modifies this, q`queue, q`lastMerge, q`hashed, q`nrSorted
      ensures done <==> old(queue) != []
      ensures !done ==> queue == [] && q.queue == old(q.queue)
      ensures done ==> queue == old(queue)[1..] &&
                       var p := Place(old(q.queue), q.endSector, old(queue)[0]);
                       && PlaceOf(old(q.queue), q.endSector, old(queue)[0], p)
                       && q.queue == InsertAt(old(q.queue), p, old(queue)[0])
      ensures q.nrSorted == |queue| && StopsKept(old(q.queue), q.queue)
      ensures old(TailSorted(q.queue, q.endSector)) ==> TailSorted(q.queue, q.endSector)
    {
      if queue == [] {
        return false;
      }
      var rq := queue[0];
      queue := queue[1..];
      q.DispatchSort(rq);
      done := true;
    }

    /**
     The forced drain with this scheduler: it empties, and every request is on the dispatch queue once,
     behind all stop entries.
     */
    method Drain(q: DispatchQueue)
      requires q.nrSorted == |queue|
      modifies this, q`queue, q`lastMerge, q`hashed, q`nrSorted
      ensures queue == [] && q.nrSorted == 0
      ensures Conserved(q.queue, [], old(q.queue), old(queue))
      ensures StopsKept(old(q.queue), q.queue)
      ensures old(TailSorted(q.queue, q.endSector)) ==> TailSorted(q.queue, q.endSector)
    {
      var more := true;
      while more
        invariant q.nrSorted == |queue| && (!more ==> queue == [])
        invariant Conserved(q.queue, queue, old(q.queue), old(queue))
        invariant StopsKept(old(q.queue), q.queue)
        invariant old(TailSorted(q.queue, q.endSector)) ==> TailSorted(q.queue, q.endSector)
        decreases |queue|, more
      {
        ghost var before, held := q.queue, queue;
        more := Dispatch(q);
        StopsTwice(old(q.queue), before, q.queue);
        if more {
          ConservedStep(before, held, Place(before, q.endSector, held[0]), old(q.queue), old(queue));
        }
      }
    }
  }
}
