/**
 What a FLUSH/FUA request costs (block/blk-flush.c): exactly which steps are done for it, that each is
 needed, when it bypasses the machinery, and when a flush is put off.
 */
module FlushPolicy {
  import opened Common
  import opened Lists
  import opened FlushSpec
  import opened FlushInvariant
  import opened FlushRuns
  import opened FlushSafety
  import opened FlushTheorems

  /** The steps, told from what the device has and what the request carries. */
  function StepsFor(cache: bool, fuaDevice: bool, rq: Request): seq<Stage> {
    (if cache && rq.flush then [PreFlush] else [])
    + (if rq.hasData then [Data] else [])
    + (if cache && !fuaDevice && rq.fua then [PostFlush] else [])
  }

  lemma StepsAre(caps: Capability, rq: Request)
    ensures Sequence(Policy(caps, rq)) == StepsFor(caps.flush, caps.fua, rq)
  {
  }

  // ---- exactly these steps

  /** A request that ended with an error has not done all of its steps. */
  ghost predicate Short(w: World, r: Id) {
    r in w.submitted && r in w.trace && w.q.Ends(r) == [true] ==>
      |w.trace[r]| < |Sequence(Policy(w.q.caps, w.submitted[r]))|
  }

  /** What is recorded of a request that has still a step to do is shorter than the whole. */
  lemma PerformedShort(caps: Capability, s: Sequenced)
    requires Sane(caps, s) && Cur(s.seq3) != Done
    ensures |Performed(Policy(caps, s.rq), s.seq3)| < |Sequence(Policy(caps, s.rq))|
  {
  }

  lemma InsertShort(w: World, id: Id, rq: Request, x: Id)
    requires Inv(w) && Enabled(w, Insert(id, rq)) && Short(w, x)
    ensures Short(Insertion(w, id, rq), x)
  {
    Unseen(w, id);
    InsertQueue(w.q, id, rq, w.now, x);
    assert Good(w, id);
    assert w.q.Ends(id) == [] && [] + [false] == [false];
    var w' := Insertion(w, id, rq);
    if x == id {
      assert w'.q.Ends(id) == [] || w'.q.Ends(id) == [false];
    } else {
      assert w'.q.Ends(x) == w.q.Ends(x);
    }
  }

  lemma PlainShort(w: World, id: Id, error: bool, x: Id)
    requires Inv(w) && PlainRq(id) in w.taken && id in w.submitted && id in w.trace && Short(w, x)
    ensures Short(PlainDone(w, id, error), x)
  {
    assert Good(w, id);
    var w' := PlainDone(w, id, error);
    if x == id {
      assert w.trace[id] == [] && w'.q.Ends(id) == [error];
    } else {
      assert w'.q.Ends(x) == w.q.Ends(x);
    }
  }

  lemma SequencedShort(w: World, id: Id, error: bool, x: Id)
    requires Inv(w) && DataRq(id) in w.taken && id in w.submitted && id in w.trace && Short(w, x)
    requires id in w.q.rqs && Cur(w.q.rqs[id].seq3) == Data && DataRq(id) !in w.q.head
    ensures Short(SequencedDone(w, id, error), x)
  {
    assert Good(w, id);
    SequencedQueue(w.q, id, error, w.now, x);
    var w' := SequencedDone(w, id, error);
    if x == id {
      assert w.q.Ends(id) == [] && [] + [error] == [error];
      PerformedShort(w.q.caps, w.q.rqs[id]);
    } else {
      assert w'.q.Ends(x) == w.q.Ends(x);
    }
  }

  lemma FlushedShort(w: World, error: bool, x: Id)
    requires Inv(w) && w.flying && w.q.Outstanding() && WalkReady(w.q, w.q.flushQueue[w.q.runningIdx]) && Short(w, x)
    ensures Short(Flushed(w, error), x)
  {
    assert Good(w, x);
    var shared, w' := w.q.flushQueue[w.q.runningIdx], Flushed(w, error);
    var q := w.q.(runningIdx := 1 - w.q.runningIdx);
    WalkMoves(q, shared, error, w.now, x);
    MovedShort(w, q, w', shared, error, x);
  }

  lemma MovedShort(w: World, q: Queue, w': World, shared: seq<Id>, error: bool, x: Id)
    requires Good(w, x) && Short(w, x) && q.rqs == w.q.rqs && q.ended == w.q.ended && q.caps == w.q.caps
    requires Moved(q, w'.q, shared, error, x)
    requires x in shared && x in q.rqs ==> Sane(q.caps, q.rqs[x]) && Cur(q.rqs[x].seq3) != Done
    requires w'.submitted == w.submitted && (x in w.trace <==> x in w'.trace)
    requires x in w.trace && (error || x !in shared) ==> w'.trace[x] == w.trace[x]
    ensures Short(w', x)
  {
    if x in shared {
      assert q.Ends(x) == w.q.Ends(x) == [] && [] + [error] == [error];
      PerformedShort(q.caps, q.rqs[x]);
    } else {
      assert w'.q.Ends(x) == q.Ends(x) == w.q.Ends(x);
    }
  }

  lemma StepShort(w: World, step: Step, x: Id)
    requires Inv(w) && Enabled(w, step) && NoBug(w, step) && Short(w, x)
    ensures Short(Apply(w, step), x)
  {
    match step
    case Insert(id, rq) => InsertShort(w, id, rq, x);
    case DataDone(id, error) =>
      if DataRq(id) in w.taken {
        DataEndIoKeeps(w.q, id, w.taken, w.flying, error, w.now);
        SequencedShort(w, id, error, x);
      } else {
        PlainShort(w, id, error, x);
      }
    case FlushDone(error) => FlushedShort(w, error, x);
    case _ =>
  }

  lemma {:induction false} RunShort(w: World, steps: seq<Step>, w': World, x: Id)
    requires Inv(w) && Reaches(w, steps, w') && Short(w, x)
    ensures Short(w', x)
    decreases |steps|
  {
    if steps != [] {
      StepShort(w, steps[0], x);
      StepKeeps(w, steps[0]);
      RunShort(Apply(w, steps[0]), steps[1..], w', x);
    }
  }

  /**
   In every run, a request that has ended did so without error if and only if the device has done exactly
   the steps its flags and the device's call for: a flush before it if there is a cache and it has REQ_FLUSH,
   its data, and a flush after it if there is a cache, the device does not take REQ_FUA and it has that.
   */
  lemma EndsExactly(caps: Capability, steps: seq<Step>, w: World, r: Id)
    requires Run(caps, steps, w) && r in w.submitted && w.q.Ends(r) != []
    ensures |w.q.Ends(r)| == 1 && r in w.trace
    ensures w.q.Ends(r) == [false] <==> w.trace[r] == StepsFor(caps.flush, caps.fua, w.submitted[r])
  {
    RunInv(caps, steps, w);
    assert Good(w, r);
    var now :| Reaches(FlushRuns.Init(caps, now), steps, w);
    InitInv(caps, now);
    RunShort(FlushRuns.Init(caps, now), steps, w, r);
    RunCaps(FlushRuns.Init(caps, now), steps, w);
    StepsAre(caps, w.submitted[r]);
    assert w.q.Ends(r) == [w.q.Ends(r)[0]];
    if w.q.Ends(r)[0] {
      assert w.q.Ends(r) == [true];
    } else {
      assert w.q.Ends(r) == [false];
    }
  }

  lemma StepCaps(w: World, step: Step)
    requires Inv(w) && Enabled(w, step) && NoBug(w, step)
    ensures Apply(w, step).q.caps == w.q.caps
  {
    match step
    case Insert(id, rq) =>
      Unseen(w, id);
      InsertQueue(w.q, id, rq, w.now, 0);
    case DataDone(id, error) =>
      if DataRq(id) in w.taken {
        SequencedQueue(w.q, id, error, w.now, 0);
      }
    case FlushDone(error) =>
      WalkMoves(w.q.(runningIdx := 1 - w.q.runningIdx), w.q.flushQueue[w.q.runningIdx], error, w.now, 0);
    case _ =>
  }

  lemma {:induction false} RunCaps(w: World, steps: seq<Step>, w': World)
    requires Inv(w) && Reaches(w, steps, w')
    ensures w'.q.caps == w.q.caps
    decreases |steps|
  {
    if steps != [] {
      StepCaps(w, steps[0]);
      StepKeeps(w, steps[0]);
      RunCaps(Apply(w, steps[0]), steps[1..], w');
    }
  }

  // ---- where a request goes

  /** Does a request need a flush of this device? */
  predicate NeedsFlush(caps: Capability, rq: Request) {
    caps.flush && (rq.flush || (rq.fua && !caps.fua))
  }

  /**
   A request that needs no flush goes to the end of the dispatch queue as it is, or ends at once if it has no
   data; one that does is sequenced, and does not go there.
   */
  lemma Enters(q: Queue, r: Id, rq: Request, now: int)
    requires r !in q.rqs && rq.Sensible()
    ensures var q' := InsertFlush(q, r, rq, now);
            if NeedsFlush(q.caps, rq) then
              r in q'.rqs && q'.Ends(r) == q.Ends(r) && Count(q'.head, PlainRq(r)) == Count(q.head, PlainRq(r))
            else if rq.hasData then q' == q.(head := q.head + [PlainRq(r)])
            else q' == q.(ended := q.ended[r := q.Ends(r) + [false]])
  {
    InsertQueue(q, r, rq, now, r);
  }

  /** The data of a sequenced request goes ahead of everything on the dispatch queue, a flush behind it. */
  lemma HeadAfter(q: Queue, r: Id, done: Mask, error: bool, now: int)
    requires r in q.rqs && !q.rqs[r].seq3.Meets(done)
    requires NextStage(q, r, done, error) == Done ==> DataRq(r) !in q.head
    ensures var q' := CompleteSeq(q, r, done, error, now);
            var front := if !error && Cur(q.rqs[r].seq3.Or(done)) == Data then [DataRq(r)] else [];
            q'.head == front + q.head || q'.head == front + q.head + [FlushRq]
  {
    KickEffect(Settle(q, r, done, NextStage(q, r, done, error), error, now), now);
  }

  // ---- each step is needed

  lemma OneMore(w: World, steps: seq<Step>, w1: World, step: Step)
    requires Reaches(w, steps, w1) && Enabled(w1, step) && NoBug(w1, step)
    ensures Reaches(w, steps + [step], Apply(w1, step))
    decreases |steps|
  {
    if steps == [] {
      assert ([] + [step])[1..] == [];
    } else {
      assert (steps + [step])[1..] == steps[1..] + [step];
      OneMore(Apply(w, steps[0]), steps[1..], w1, step);
    }
  }

  /**
   With a cache and REQ_FLUSH, a run comes to a point where only the flush before the request stands
   between it and its promise: a write that had completed is not on non-volatile media.
   */
  lemma PreFlushNeeded(caps: Capability, rq: Request) returns (steps: seq<Step>, w: World, r: Id)
    requires caps.flush && rq.flush && rq.Sensible()
    ensures Run(caps, steps, w) && r in w.q.rqs && r in w.submitted && w.submitted[r] == rq
    ensures Cur(w.q.rqs[r].seq3) == PreFlush && r in w.before && !(w.before[r] <= w.durable)
  {
    var w0 := FlushRuns.Init(caps, 0);
    var w1 := Apply(w0, OtherWrite(0));
    r := 1;
    InsertQueue(w1.q, r, rq, w1.now, r);
    OneMore(w0, [], w0, OtherWrite(0));
    OneMore(w0, [OtherWrite(0)], w1, Insert(r, rq));
    steps, w := [OtherWrite(0)] + [Insert(r, rq)], Apply(w1, Insert(r, rq));
    assert [] + [OtherWrite(0)] == [OtherWrite(0)];
    assert 0 in w.before[r] && 0 !in w.durable;
  }

  /** Request `r` has its data on the way, and nothing of it is on non-volatile media. */
  ghost predicate DataNext(w: World, r: Id, rq: Request) {
    && Inv(w) && r in w.q.rqs && r in w.submitted && w.submitted[r] == rq && r !in w.durable && w.cover == {}
    && Cur(w.q.rqs[r].seq3) == Data && !w.q.rqs[r].seq3.post && w.q.head != [] && w.q.head[0] == DataRq(r)
  }

  /** Without REQ_FLUSH the data comes first. */
  lemma DataFirst(caps: Capability, rq: Request) returns (steps: seq<Step>, w: World)
    requires caps.flush && !caps.fua && rq.fua && !rq.flush && rq.Sensible()
    ensures Reaches(FlushRuns.Init(caps, 0), steps, w) && w.q.caps == caps && DataNext(w, 1, rq)
  {
    var w0, step := FlushRuns.Init(caps, 0), Insert(1, rq);
    InitInv(caps, 0);
    StepKeeps(w0, step);
    InsertQueue(w0.q, 1, rq, 0, 1);
    OneMore(w0, [], w0, step);
    var joined := w0.q.(rqs := w0.q.rqs[1 := Sequenced(rq, Mask(false, false, false))]);
    HeadAfter(joined, 1, Policy(caps, rq).Complement(), false, 0);
    steps, w := [] + [step], Apply(w0, step);
  }

  lemma FirstFlush(caps: Capability, rq: Request)
    requires caps.flush && !caps.fua && rq.fua && rq.flush && rq.Sensible()
    ensures var q := InsertFlush(FlushSpec.Init(caps), 1, rq, 0);
            && q.caps == caps && q.rqs == map[1 := Sequenced(rq, Mask(false, false, false))] && q.runningIdx == 0
            && q.head == [FlushRq] && q.flushQueue[0] == [1]
  {
    var q := FlushSpec.Init(caps);
    var joined := q.(rqs := q.rqs[1 := Sequenced(rq, Mask(false, false, false))]);
    var settled := Settle(joined, 1, Mask(false, false, false), PreFlush, false, 0);
    assert settled.flushQueue[0] == [1] && settled.inFlight == [];
    assert InsertFlush(q, 1, rq, 0) == Kick(settled, 0);
  }

  /** With it, a flush does. */
  lemma FlushFirst(caps: Capability, rq: Request) returns (steps: seq<Step>, w: World)
    requires caps.flush && !caps.fua && rq.fua && rq.flush && rq.Sensible()
    ensures Reaches(FlushRuns.Init(caps, 0), steps, w) && w.q.caps == caps && Inv(w)
    ensures w.flying && w.cover == w.durable == {} && 1 in w.submitted && w.submitted[1] == rq && 1 in w.q.rqs
    ensures w.q.rqs[1] == Sequenced(rq, Mask(false, false, false)) && w.q.head == []
    ensures w.q.flushQueue[w.q.runningIdx] == [1]
  {
    var w0, step := FlushRuns.Init(caps, 0), Insert(1, rq);
    InitInv(caps, 0);
    StepKeeps(w0, step);
    InsertQueue(w0.q, 1, rq, 0, 1);
    OneMore(w0, [], w0, step);
    var w1 := Apply(w0, step);
    FirstFlush(caps, rq);
    StepKeeps(w1, Take);
    OneMore(w0, [] + [step], w1, Take);
    steps, w := ([] + [step]) + [Take], Apply(w1, Take);
    TakesFlush(w1);
  }

  lemma TakesFlush(w: World)
    requires w.q.head == [FlushRq]
    ensures Apply(w, Take) == w.(q := w.q.(head := []), flying := true, cover := w.written)
  {
    assert [FlushRq][1..] == [];
  }

  lemma DataSecond(caps: Capability, rq: Request) returns (steps: seq<Step>, w: World)
    requires caps.flush && !caps.fua && rq.fua && rq.flush && rq.Sensible()
    ensures Reaches(FlushRuns.Init(caps, 0), steps, w) && w.q.caps == caps && DataNext(w, 1, rq)
  {
    var steps1, w1 := FlushFirst(caps, rq);
    var step := FlushDone(false);
    StepKeeps(w1, step);
    OneMore(FlushRuns.Init(caps, 0), steps1, w1, step);
    var q := w1.q.(runningIdx := 1 - w1.q.runningIdx);
    WalkMoves(q, [1], false, w1.now, 1);
    assert [1][1..] == [];
    AdvanceReady(q, [1], false, w1.now);
    assert Walk(q, [1], false, w1.now) == Advance(q, 1, false, w1.now);
    HeadAfter(q, 1, Bit(PreFlush), false, w1.now);
    steps, w := steps1 + [step], Apply(w1, step);
  }

  /** Data that completes on a device without FUA is in its cache, and the flush after it is still to come. */
  lemma DataCached(w: World, r: Id, rq: Request)
    requires DataNext(w, r, rq) && w.q.caps.flush && !w.q.caps.fua && rq.fua
    ensures Enabled(w, Take) && NoBug(w, Take)
    ensures var w1 := Apply(w, Take);
            && Enabled(w1, DataDone(r, false)) && NoBug(w1, DataDone(r, false))
            && var w2 := Apply(w1, DataDone(r, false));
               && r in w2.q.rqs && Cur(w2.q.rqs[r].seq3) == PostFlush && r in w2.written && r !in w2.durable
               && r in w2.submitted && w2.submitted[r] == rq
  {
    StepKeeps(w, Take);
    var w1 := Apply(w, Take);
    StepKeeps(w1, DataDone(r, false));
    SequencedQueue(w1.q, r, false, w1.now, r);
  }

  /**
   With a cache, no FUA on the device and REQ_FUA, a run comes to a point where only the flush after the
   request is left to do, and its data is not on non-volatile media.
   */
  lemma PostFlushNeeded(caps: Capability, rq: Request) returns (steps: seq<Step>, w: World, r: Id)
    requires caps.flush && !caps.fua && rq.fua && rq.Sensible()
    ensures Run(caps, steps, w) && r in w.q.rqs && r in w.submitted && w.submitted[r] == rq
    ensures Cur(w.q.rqs[r].seq3) == PostFlush && r in w.written && r !in w.durable
  {
    var w1;
    if rq.flush {
      steps, w1 := DataSecond(caps, rq);
    } else {
      steps, w1 := DataFirst(caps, rq);
    }
    r := 1;
    DataCached(w1, r, rq);
    var w0 := FlushRuns.Init(caps, 0);
    OneMore(w0, steps, w1, Take);
    OneMore(w0, steps + [Take], Apply(w1, Take), DataDone(r, false));
    steps, w := (steps + [Take]) + [DataDone(r, false)], Apply(Apply(w1, Take), DataDone(r, false));
  }

  // ---- when a flush is put off

  /** The requests waiting for a flush to be issued. */
  function PendingList(q: Queue): seq<Id> {
    q.flushQueue[q.pendingIdx]
  }

  /**
   With requests pending and no flush outstanding, one is issued if and only if no data is in flight or the
   timeout has passed since `pendingSince`.
   */
  lemma KickExact(q: Queue, now: int)
    requires !q.Outstanding() && PendingList(q) != []
    ensures Kick(q, now).Outstanding() <==> q.inFlight == [] || now >= q.pendingSince + 5 * HZ
    ensures Kick(q, now).Outstanding() ==> FlushRq in Kick(q, now).head
    ensures !Kick(q, now).Outstanding() ==> Kick(q, now) == q
  {
    if Kick(q, now).Outstanding() {
      assert Kick(q, now).head[|q.head|] == FlushRq;
    }
  }

  /** `pendingSince` is when the pending list got its first request: then, or unchanged with the list in use. */
  predicate SinceFirst(q: Queue, q': Queue, now: int) {
    PendingList(q') != [] ==>
      || q'.pendingSince == now
      || (q'.pendingIdx == q.pendingIdx && PendingList(q) != [] && q'.pendingSince == q.pendingSince)
  }

  lemma CompleteSince(q: Queue, r: Id, done: Mask, error: bool, now: int)
    requires r in q.rqs && !q.rqs[r].seq3.Meets(done) && Buffered(q)
    requires NextStage(q, r, done, error) == Done ==> DataRq(r) !in q.head
    ensures SinceFirst(q, CompleteSeq(q, r, done, error, now), now)
  {
    var s := Settle(q, r, done, NextStage(q, r, done, error), error, now);
    KickEffect(s, now);
    if !q.Outstanding() {
      assert Remove(q.flushQueue[1 - q.pendingIdx], r) == [];
    }
    assert PendingList(q) == [] ==> Remove(PendingList(q), r) == [];
  }

  /** A flush completion files nothing, and leaves the walked list empty. */
  lemma {:induction false} WalkSince(q: Queue, todo: seq<Id>, a: Index, taken: set<Item>, started: bool, error: bool,
                                     now: int)
    requires Walking(q, todo, a, taken, started) && WalkReady(q, todo)
    ensures var q' := Walk(q, todo, error, now);
            && q'.pendingSince == q.pendingSince && q'.flushQueue[a] == [] && q'.runningIdx == 1 - a
            && (q'.pendingIdx != a ==> q.pendingIdx != a && q'.flushQueue[1 - a] == q.flushQueue[1 - a])
    decreases |todo|
  {
    if todo != [] {
      AdvanceKeeps(q, todo, a, taken, started, error, now);
      AdvanceReady(q, todo, error, now);
      AdvanceSince(q, todo, a, taken, started, error, now);
      WalkSince(Advance(q, todo[0], error, now), todo[1..], a, taken, true, error, now);
    }
  }

  lemma AdvanceSince(q: Queue, todo: seq<Id>, a: Index, taken: set<Item>, started: bool, error: bool, now: int)
    requires Walking(q, todo, a, taken, started) && WalkReady(q, todo) && todo != []
    ensures var q' := Advance(q, todo[0], error, now);
            && q'.pendingSince == q.pendingSince
            && (q'.pendingIdx != a ==> q.pendingIdx != a && q'.flushQueue[1 - a] == q.flushQueue[1 - a])
  {
    var r := todo[0];
    var done := Bit(Cur(q.rqs[r].seq3));
    assert r in q.flushQueue[a];
    HeadAlone(q, todo, a, taken);
    RemoveAbsent(q.flushQueue[1 - a], r);
    KickEffect(Settle(q, r, done, NextStage(q, r, done, error), error, now), now);
  }

  lemma InsertSince(q: Queue, r: Id, rq: Request, now: int)
    requires Buffered(q) && r !in q.rqs && rq.Sensible()
    ensures SinceFirst(q, InsertFlush(q, r, rq, now), now)
  {
    if NeedsFlush(q.caps, rq) {
      var joined := q.(rqs := q.rqs[r := Sequenced(rq, Mask(false, false, false))]);
      CompleteSince(joined, r, Policy(q.caps, rq).Complement(), false, now);
    }
  }

  /** In every run, each step keeps `pendingSince` the time when the pending list got its first request. */
  lemma PendingSince(caps: Capability, steps: seq<Step>, w: World, step: Step)
    requires Run(caps, steps, w) && Enabled(w, step)
    ensures NoBug(w, step) && SinceFirst(w.q, Apply(w, step).q, w.now)
  {
    RunInv(caps, steps, w);
    InvNoBug(w, step);
    match step
    case Insert(id, rq) => InsertionSince(w, id, rq);
    case DataDone(id, error) => DataSince(w, id, error);
    case FlushDone(error) => FlushSince(w.q, w.taken, error, w.now);
    case _ =>
  }

  lemma InsertionSince(w: World, id: Id, rq: Request)
    requires Inv(w) && Enabled(w, Insert(id, rq))
    ensures SinceFirst(w.q, Insertion(w, id, rq).q, w.now)
  {
    Unseen(w, id);
    InsertSince(w.q, id, rq, w.now);
  }

  lemma DataSince(w: World, id: Id, error: bool)
    requires Inv(w) && Enabled(w, DataDone(id, error)) && NoBug(w, DataDone(id, error))
    ensures SinceFirst(w.q, Apply(w, DataDone(id, error)).q, w.now)
  {
    if DataRq(id) in w.taken {
      CompleteSince(w.q, id, Bit(Data), error, w.now);
    }
  }

  lemma FlushSince(q: Queue, taken: set<Item>, error: bool, now: int)
    requires Valid(q, taken, true) && q.Outstanding() && WalkReady(q, q.flushQueue[q.runningIdx])
    ensures SinceFirst(q, FlushEndIo(q, error, now), now)
  {
    var a, todo := q.runningIdx, q.flushQueue[q.runningIdx];
    FlushStarts(q, taken);
    WalkSince(q.(runningIdx := 1 - a), todo, a, taken, false, error, now);
    WalkedSince(q, FlushEndIo(q, error, now), a, now);
  }

  lemma WalkedSince(q: Queue, q': Queue, a: Index, now: int)
    requires q.Outstanding() && q.runningIdx == a && q'.pendingSince == q.pendingSince && q'.flushQueue[a] == []
    requires q'.pendingIdx != a ==> q'.flushQueue[1 - a] == q.flushQueue[1 - a]
    ensures SinceFirst(q, q', now)
  {
  }
}
