/** What every call into the flush sequencer keeps. */
module FlushInvariant {
  import opened Lists
  import opened FlushSpec

  /** The steps of `policy` recorded in `seq3` are a prefix of the sequence, and nothing else is pending. */
  ghost predicate Sane(caps: Capability, s: Sequenced) {
    var p := Policy(caps, s.rq);
    && s.rq.Sensible() && (p.pre || p.post)
    && (s.seq3.pre || p.pre) && (s.seq3.data || p.data) && (s.seq3.post || p.post)
    && (p.data && s.seq3.data ==> s.seq3.pre)
    && (p.post && s.seq3.post ==> s.seq3.pre && s.seq3.data)
  }

  function One(b: bool): nat { if b then 1 else 0 }

  /**
   Each sequenced request outside `out` is on exactly one of the three lists, the one its lowest
   clear bit names; the data request of each request in flight is either on the dispatch queue or
   with the driver (`taken`), once.
   */
  ghost predicate Core(q: Queue, out: set<Id>, taken: set<Item>) {
    && Placed(q, out) && Staged(q, out) && Queued(q, taken)
  }

  /** On how many of the three flush lists is `r`, counting repeats? */
  function Listed(q: Queue, r: Id): nat {
    Count(q.flushQueue[0], r) + Count(q.flushQueue[1], r) + Count(q.inFlight, r)
  }

  ghost predicate Placed(q: Queue, out: set<Id>) {
    && out <= q.rqs.Keys
    && forall r :: Listed(q, r) == One(r in q.rqs && r !in out)
  }

  ghost predicate Staged(q: Queue, out: set<Id>) {
    && (forall r :: r in q.flushQueue[0] || r in q.flushQueue[1] ==>
          r in q.rqs && r !in out && WaitsForFlush(Cur(q.rqs[r].seq3)))
    && (forall r :: r in q.inFlight ==> r in q.rqs && r !in out && Cur(q.rqs[r].seq3) == Data)
    && (forall r :: r in q.rqs && r !in out ==> Sane(q.caps, q.rqs[r]))
  }

  ghost predicate Queued(q: Queue, taken: set<Item>) {
    forall r :: Count(q.head, DataRq(r)) + One(DataRq(r) in taken) == Count(q.inFlight, r)
  }

  /** At most one flush is outstanding, and it is so exactly when the indices differ. */
  ghost predicate OneFlush(q: Queue, atDevice: bool) {
    Count(q.head, FlushRq) + One(atDevice) == One(q.Outstanding())
  }

  /** The list waiting for an outstanding flush is the one pending when it was issued; otherwise it is empty. */
  ghost predicate Buffered(q: Queue) {
    && (q.Outstanding() ==> q.flushQueue[q.runningIdx] == q.issuedFor != [])
    && (!q.Outstanding() ==> q.flushQueue[1 - q.pendingIdx] == [])
  }

  /** The state between calls. */
  ghost predicate Valid(q: Queue, taken: set<Item>, atDevice: bool) {
    && Core(q, {}, taken) && OneFlush(q, atDevice)
    && Buffered(q) && NoLostFlush(q)
  }

  /** If requests are pending and no data is in flight, a flush is outstanding. */
  predicate NoLostFlush(q: Queue) {
    q.flushQueue[q.pendingIdx] != [] && q.inFlight == [] ==> q.Outstanding()
  }

  /** The state inside the loop of flush_end_io over flush list `a`, with `todo` still to visit. */
  ghost predicate Walking(q: Queue, todo: seq<Id>, a: Index, taken: set<Item>, started: bool) {
    && Core(q, {}, taken) && OneFlush(q, false)
    && q.flushQueue[a] == todo && q.runningIdx == 1 - a
    && (q.Outstanding() ==> q.flushQueue[1 - a] == q.issuedFor != [])
    && (started ==> q.Outstanding() || q.flushQueue[1 - a] == [] || q.inFlight != [])
  }

  // ---- moving one request

  /** `Settle` moves `r` to the list of `stage` and leaves every other request where it was. */
  lemma SettleListed(q: Queue, r: Id, done: Mask, stage: Stage, error: bool, now: int, x: Id)
    requires r in q.rqs && Listed(q, r) <= 1
    ensures Listed(Settle(q, r, done, stage, error, now), x) == if x == r then One(stage != Done) else Listed(q, x)
    ensures Count(Remove(q.inFlight, r), x) == if x == r then 0 else Count(q.inFlight, x)
    ensures r !in Remove(q.inFlight, r) && r !in Remove(q.flushQueue[0], r) && r !in Remove(q.flushQueue[1], r)
  {
    ListRemoved(q.flushQueue[0], r, x, WaitsForFlush(stage) && q.pendingIdx == 0);
    ListRemoved(q.flushQueue[1], r, x, WaitsForFlush(stage) && q.pendingIdx == 1);
    ListRemoved(q.inFlight, r, x, stage == Data);
  }

  lemma ListRemoved(xs: seq<Id>, r: Id, x: Id, again: bool)
    requires Count(xs, r) <= 1
    ensures Count(Filed(xs, r, again), x) == if x == r then One(again) else Count(xs, x)
    ensures Count(Remove(xs, r), x) == if x == r then 0 else Count(xs, x)
    ensures r !in Remove(xs, r)
  {
    CountRemove(xs, r, x);
    CountRemove(xs, r, r);
    CountConcat(Remove(xs, r), if again then [r] else [], x);
    assert Count([r], x) == One(x == r);
    CountIn(xs, x);
    CountIn(xs, r);
    CountIn(Remove(xs, r), r);
    assert Remove(xs, r) + [] == Remove(xs, r);
  }

  lemma SettlePlaced(q: Queue, out: set<Id>, r: Id, done: Mask, stage: Stage, error: bool, now: int)
    requires Placed(q, out) && r in q.rqs && out <= {r}
    ensures Placed(Settle(q, r, done, stage, error, now), {})
  {
    var q' := Settle(q, r, done, stage, error, now);
    assert Listed(q, r) <= 1;
    forall x ensures Listed(q', x) == One(x in q'.rqs) {
      SettleListed(q, r, done, stage, error, now, x);
      assert Listed(q, x) == One(x in q.rqs && x !in out);
    }
  }

  lemma SettleStaged(q: Queue, out: set<Id>, r: Id, done: Mask, stage: Stage, error: bool, now: int)
    requires Placed(q, out) && Staged(q, out) && r in q.rqs && out <= {r}
    requires stage != Done ==> stage == Cur(q.rqs[r].seq3.Or(done))
    requires stage != Done ==> Sane(q.caps, q.rqs[r].(seq3 := q.rqs[r].seq3.Or(done)))
    ensures Staged(Settle(q, r, done, stage, error, now), {})
  {
    var q' := Settle(q, r, done, stage, error, now);
    assert Listed(q, r) <= 1;
    SettleListed(q, r, done, stage, error, now, r);
    forall x | x in q'.flushQueue[0] || x in q'.flushQueue[1]
      ensures x in q'.rqs && WaitsForFlush(Cur(q'.rqs[x].seq3))
    {
      SettleWaits(q, out, r, done, stage, error, now, x);
    }
    forall x | x in q'.inFlight ensures x in q'.rqs && Cur(q'.rqs[x].seq3) == Data {
      RemoveIn(q.inFlight, r, x);
    }
  }

  lemma SettleWaits(q: Queue, out: set<Id>, r: Id, done: Mask, stage: Stage, error: bool, now: int, x: Id)
    requires Staged(q, out) && r in q.rqs && r !in Remove(q.flushQueue[0], r) && r !in Remove(q.flushQueue[1], r)
    requires stage != Done ==> stage == Cur(q.rqs[r].seq3.Or(done))
    ensures var q' := Settle(q, r, done, stage, error, now);
            x in q'.flushQueue[0] || x in q'.flushQueue[1] ==> x in q'.rqs && WaitsForFlush(Cur(q'.rqs[x].seq3))
  {
    RemoveIn(q.flushQueue[0], r, x);
    RemoveIn(q.flushQueue[1], r, x);
  }

  lemma SettleQueued(q: Queue, out: set<Id>, r: Id, done: Mask, stage: Stage, error: bool, now: int, taken: set<Item>)
    requires Placed(q, out) && Queued(q, taken) && r in q.rqs && out <= {r}
    requires DataRq(r) !in q.head
    ensures Queued(Settle(q, r, done, stage, error, now), taken - {DataRq(r)})
    ensures Count(Settle(q, r, done, stage, error, now).head, FlushRq) == Count(q.head, FlushRq)
  {
    var q' := Settle(q, r, done, stage, error, now);
    var front := if stage == Data then [DataRq(r)] else [];
    assert Listed(q, r) <= 1;
    CountIn(q.head, DataRq(r));
    CountConcat(front, q.head, FlushRq);
    forall x
      ensures Count(q'.head, DataRq(x)) + One(DataRq(x) in taken - {DataRq(r)}) == Count(q'.inFlight, x)
    {
      ListRemoved(q.inFlight, r, x, stage == Data);
      CountConcat(front, q.head, DataRq(x));
      assert Count(q.head, DataRq(x)) + One(DataRq(x) in taken) == Count(q.inFlight, x);
    }
  }

  lemma SettleCore(q: Queue, out: set<Id>, r: Id, done: Mask, stage: Stage, error: bool, now: int, taken: set<Item>)
    requires Core(q, out, taken) && r in q.rqs && out <= {r}
    requires stage != Done ==> stage == Cur(q.rqs[r].seq3.Or(done))
    requires stage != Done ==> Sane(q.caps, q.rqs[r].(seq3 := q.rqs[r].seq3.Or(done)))
    requires DataRq(r) !in q.head
    ensures Core(Settle(q, r, done, stage, error, now), {}, taken - {DataRq(r)})
    ensures Count(Settle(q, r, done, stage, error, now).head, FlushRq) == Count(q.head, FlushRq)
  {
    SettlePlaced(q, out, r, done, stage, error, now);
    SettleStaged(q, out, r, done, stage, error, now);
    SettleQueued(q, out, r, done, stage, error, now, taken);
  }

  lemma KickCore(q: Queue, now: int, taken: set<Item>, atDevice: bool)
    requires Core(q, {}, taken) && OneFlush(q, atDevice)
    ensures Core(Kick(q, now), {}, taken) && OneFlush(Kick(q, now), atDevice)
  {
    var q' := Kick(q, now);
    KickEffect(q, now);
    if q'.pendingIdx != q.pendingIdx {
      CountConcat(q.head, [FlushRq], FlushRq);
      forall x ensures Count(q'.head, DataRq(x)) == Count(q.head, DataRq(x)) {
        CountConcat(q.head, [FlushRq], DataRq(x));
      }
      forall x ensures Listed(q', x) == Listed(q, x) {}
    }
  }

  // ---- the loop of flush_end_io

  /** Requests that shared a flush are ready to be visited: the BUG checks of the loop cannot fire. */
  lemma WalkingReady(q: Queue, todo: seq<Id>, a: Index, taken: set<Item>, started: bool)
    requires Walking(q, todo, a, taken, started)
    ensures WalkReady(q, todo)
  {
    forall r | r in todo ensures DataRq(r) !in q.head {
      CountIn(todo, r);
      assert Listed(q, r) == 1;
      assert Count(q.head, DataRq(r)) + One(DataRq(r) in taken) == Count(q.inFlight, r);
      CountIn(q.head, DataRq(r));
    }
    forall i, j | 0 <= i < j < |todo| ensures todo[i] != todo[j] {
      CountTwice(todo, i, j);
      assert Listed(q, todo[i]) == One(todo[i] in q.rqs);
    }
  }

  lemma {:induction false} CountTwice<T>(xs: seq<T>, i: nat, j: nat)
    requires i < j < |xs|
    ensures xs[i] == xs[j] ==> Count(xs, xs[i]) >= 2
  {
    assert xs == xs[..j] + xs[j..];
    CountConcat(xs[..j], xs[j..], xs[i]);
    CountIn(xs[..j], xs[i]);
    CountIn(xs[j..], xs[j]);
    assert xs[..j][i] == xs[i] && xs[j..][0] == xs[j];
  }

  /** The head of the walked list is on no other list, and its data request is nowhere. */
  lemma HeadAlone(q: Queue, todo: seq<Id>, a: Index, taken: set<Item>)
    requires Core(q, {}, taken) && todo != [] && q.flushQueue[a] == todo
    ensures todo[0] !in q.flushQueue[1 - a]
    ensures taken - {DataRq(todo[0])} == taken
  {
    var r := todo[0];
    CountIn(todo, r);
    CountIn(q.flushQueue[1 - a], r);
    assert Listed(q, r) == 1;
    assert Count(q.head, DataRq(r)) + One(DataRq(r) in taken) == Count(q.inFlight, r);
  }

  /** After a flush comes data or the end, never another flush. */
  lemma AfterFlush(caps: Capability, s: Sequenced)
    requires Sane(caps, s) && WaitsForFlush(Cur(s.seq3))
    ensures var m := s.seq3.Or(Bit(Cur(s.seq3))); !WaitsForFlush(Cur(m)) && Sane(caps, s.(seq3 := m))
  {
  }

  lemma AdvanceCore(q: Queue, r: Id, stage: Stage, taken: set<Item>, error: bool, now: int)
    requires Core(q, {}, taken) && r in q.rqs && WaitsForFlush(Cur(q.rqs[r].seq3)) && DataRq(r) !in q.head
    requires stage == NextStage(q, r, Bit(Cur(q.rqs[r].seq3)), error)
    ensures !WaitsForFlush(stage)
    ensures Core(Settle(q, r, Bit(Cur(q.rqs[r].seq3)), stage, error, now), {}, taken - {DataRq(r)})
    ensures Count(Settle(q, r, Bit(Cur(q.rqs[r].seq3)), stage, error, now).head, FlushRq) == Count(q.head, FlushRq)
  {
    AfterFlush(q.caps, q.rqs[r]);
    SettleCore(q, {}, r, Bit(Cur(q.rqs[r].seq3)), stage, error, now, taken);
  }

  lemma AdvanceLists(q: Queue, todo: seq<Id>, a: Index, done: Mask, stage: Stage, error: bool, now: int)
    requires todo != [] && q.flushQueue[a] == todo && todo[0] !in q.flushQueue[1 - a]
    requires todo[0] in q.rqs && !WaitsForFlush(stage)
    ensures Settle(q, todo[0], done, stage, error, now).flushQueue[a] == todo[1..]
    ensures Settle(q, todo[0], done, stage, error, now).flushQueue[1 - a] == q.flushQueue[1 - a]
  {
    RemoveAbsent(q.flushQueue[1 - a], todo[0]);
    assert Filed(todo, todo[0], false) == todo[1..];
    assert Filed(q.flushQueue[1 - a], todo[0], false) == q.flushQueue[1 - a];
  }

  /** One visit: the list being walked loses its first entry and nothing else, pending again or not. */
  lemma AdvanceKeeps(q: Queue, todo: seq<Id>, a: Index, taken: set<Item>, started: bool, error: bool, now: int)
    requires Walking(q, todo, a, taken, started) && todo != [] && WalkReady(q, todo)
    ensures Walking(Advance(q, todo[0], error, now), todo[1..], a, taken, true)
  {
    var r := todo[0];
    var done := Bit(Cur(q.rqs[r].seq3));
    var stage := NextStage(q, r, done, error);
    var settled := Settle(q, r, done, stage, error, now);
    HeadAlone(q, todo, a, taken);
    AdvanceCore(q, r, stage, taken, error, now);
    AdvanceLists(q, todo, a, done, stage, error, now);
    KickCore(settled, now, taken, false);
    KickEffect(settled, now);
  }

  lemma {:induction false} WalkKeeps(q: Queue, todo: seq<Id>, a: Index, taken: set<Item>, started: bool, error: bool,
                                     now: int)
    requires Walking(q, todo, a, taken, started) && (started || todo != [])
    ensures WalkReady(q, todo)
    ensures Valid(Walk(q, todo, error, now), taken, false)
    decreases |todo|
  {
    WalkingReady(q, todo, a, taken, started);
    if todo != [] {
      AdvanceKeeps(q, todo, a, taken, started, error, now);
      WalkKeeps(Advance(q, todo[0], error, now), todo[1..], a, taken, true, error, now);
    }
  }

  // ---- the entry points

  /** flush_end_io enters its loop with a nonempty list to visit. */
  lemma FlushStarts(q: Queue, taken: set<Item>)
    requires Valid(q, taken, true)
    ensures q.Outstanding() && q.flushQueue[q.runningIdx] != []
    ensures Walking(q.(runningIdx := 1 - q.runningIdx), q.flushQueue[q.runningIdx], q.runningIdx, taken, false)
  {
    forall x ensures Listed(q.(runningIdx := 1 - q.runningIdx), x) == Listed(q, x) {}
  }

  /** flush_end_io: the flush has left the device. */
  lemma FlushEndIoKeeps(q: Queue, taken: set<Item>, error: bool, now: int)
    requires Valid(q, taken, true)
    ensures q.Outstanding() && WalkReady(q, q.flushQueue[q.runningIdx])
    ensures Valid(FlushEndIo(q, error, now), taken, false)
  {
    FlushStarts(q, taken);
    WalkKeeps(q.(runningIdx := 1 - q.runningIdx), q.flushQueue[q.runningIdx], q.runningIdx, taken, false, error, now);
  }

  /** blk_kick_flush restores what a request joining the pending list may have broken. */
  lemma KickValid(q: Queue, now: int, taken: set<Item>, atDevice: bool)
    requires Core(q, {}, taken) && OneFlush(q, atDevice)
    requires Buffered(q)
    ensures Valid(Kick(q, now), taken, atDevice)
  {
    KickCore(q, now, taken, atDevice);
    KickEffect(q, now);
  }

  lemma SettleBuffered(q: Queue, r: Id, done: Mask, stage: Stage, error: bool, now: int)
    requires r in q.rqs && r !in q.flushQueue[0] && r !in q.flushQueue[1] && Buffered(q)
    ensures Buffered(Settle(q, r, done, stage, error, now))
  {
    RemoveAbsent(q.flushQueue[0], r);
    RemoveAbsent(q.flushQueue[1], r);
    assert Filed(q.flushQueue[0], r, false) == q.flushQueue[0];
    assert Filed(q.flushQueue[1], r, false) == q.flushQueue[1];
  }

  lemma CompleteKeeps(q: Queue, out: set<Id>, r: Id, done: Mask, error: bool, now: int, taken: set<Item>,
                      atDevice: bool)
    requires Core(q, out, taken) && OneFlush(q, atDevice) && r in q.rqs && out <= {r}
    requires !q.rqs[r].seq3.Meets(done) && DataRq(r) !in q.head
    requires Sane(q.caps, q.rqs[r].(seq3 := q.rqs[r].seq3.Or(done)))
    requires r !in q.flushQueue[0] && r !in q.flushQueue[1] && Buffered(q)
    ensures Valid(CompleteSeq(q, r, done, error, now), taken - {DataRq(r)}, atDevice)
  {
    var stage := NextStage(q, r, done, error);
    SettleCore(q, out, r, done, stage, error, now, taken);
    SettleBuffered(q, r, done, stage, error, now);
    KickValid(Settle(q, r, done, stage, error, now), now, taken - {DataRq(r)}, atDevice);
  }

  /** flush_data_end_io: the driver has finished the data of `r`. */
  lemma DataEndIoKeeps(q: Queue, r: Id, taken: set<Item>, atDevice: bool, error: bool, now: int)
    requires Valid(q, taken, atDevice) && DataRq(r) in taken
    ensures r in q.rqs && Cur(q.rqs[r].seq3) == Data && DataRq(r) !in q.head
    ensures Valid(DataEndIo(q, r, error, now), taken - {DataRq(r)}, atDevice)
  {
    assert Count(q.head, DataRq(r)) + One(DataRq(r) in taken) == Count(q.inFlight, r);
    CountIn(q.inFlight, r);
    CountIn(q.flushQueue[0], r);
    CountIn(q.flushQueue[1], r);
    assert Listed(q, r) == 1;
    CountIn(q.head, DataRq(r));
    CompleteKeeps(q, {}, r, Bit(Data), error, now, taken, atDevice);
  }

  /** A new request is among those in sequence before it is filed. */
  lemma JoinedCore(q: Queue, r: Id, rq: Request, taken: set<Item>, q': Queue)
    requires Core(q, {}, taken) && r !in q.rqs
    requires q' == q.(rqs := q.rqs[r := Sequenced(rq, Mask(false, false, false))])
    ensures Core(q', {r}, taken)
  {
    forall x ensures Listed(q', x) == Listed(q, x) {}
  }

  /** blk_insert_flush of a request not seen before. */
  lemma InsertFlushKeeps(q: Queue, r: Id, rq: Request, taken: set<Item>, atDevice: bool, now: int)
    requires Valid(q, taken, atDevice) && rq.Sensible()
    requires r !in q.rqs && DataRq(r) !in taken
    ensures Valid(InsertFlush(q, r, rq, now), taken, atDevice)
  {
    var policy := Policy(q.caps, rq);
    assert Listed(q, r) == 0;
    assert Count(q.head, DataRq(r)) + One(DataRq(r) in taken) == Count(q.inFlight, r);
    if policy.pre || policy.post {
      CountIn(q.flushQueue[0], r);
      CountIn(q.flushQueue[1], r);
      CountIn(q.head, DataRq(r));
      var joined := q.(rqs := q.rqs[r := Sequenced(rq, Mask(false, false, false))]);
      JoinedCore(q, r, rq, taken, joined);
      CompleteKeeps(joined, {r}, r, policy.Complement(), false, now, taken, atDevice);
      assert taken - {DataRq(r)} == taken;
    } else {
      InsertDirectKeeps(q, r, rq, taken, atDevice, now);
    }
  }

  lemma InsertDirectKeeps(q: Queue, r: Id, rq: Request, taken: set<Item>, atDevice: bool, now: int)
    requires Valid(q, taken, atDevice)
    requires !Policy(q.caps, rq).pre && !Policy(q.caps, rq).post
    ensures Valid(InsertFlush(q, r, rq, now), taken, atDevice)
  {
    var q' := InsertFlush(q, r, rq, now);
    forall x ensures Listed(q', x) == Listed(q, x) {}
    CountConcat(q.head, [PlainRq(r)], FlushRq);
    forall x ensures Count(q'.head, DataRq(x)) == Count(q.head, DataRq(x)) {
      CountConcat(q.head, [PlainRq(r)], DataRq(x));
    }
  }
}
