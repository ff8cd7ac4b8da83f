/** block/blk-flush.c as the code that updates the request queue in place. */
module FlushQueue {
  import opened Lists
  import opened FlushSpec
  import opened FlushInvariant

  /** The loop of flush_end_io has `rest` of the walked list still to visit and will end in `goal`. */
  ghost predicate Loop(q: Queue, rest: seq<Id>, a: Index, taken: set<Item>, started: bool, error: bool, now: int,
                       goal: Queue) {
    && Walking(q, rest, a, taken, started) && WalkReady(q, rest)
    && goal == Walk(q, rest, error, now)
  }

  lemma LoopStarts(q: Queue, taken: set<Item>, error: bool, now: int)
    requires Valid(q, taken, true)
    ensures q.Outstanding() && WalkReady(q, q.flushQueue[q.runningIdx])
    ensures var goal := FlushEndIo(q, error, now);
            && Valid(goal, taken, false)
            && Loop(q.(runningIdx := 1 - q.runningIdx), q.flushQueue[q.runningIdx], q.runningIdx, taken, false, error,
                    now, goal)
  {
    FlushEndIoKeeps(q, taken, error, now);
    FlushStarts(q, taken);
  }

  lemma LoopAdvances(q: Queue, rest: seq<Id>, a: Index, taken: set<Item>, started: bool, error: bool, now: int,
                     goal: Queue)
    requires rest != [] && Loop(q, rest, a, taken, started, error, now, goal)
    ensures Loop(Advance(q, rest[0], error, now), rest[1..], a, taken, true, error, now, goal)
  {
    AdvanceKeeps(q, rest, a, taken, started, error, now);
    AdvanceReady(q, rest, error, now);
  }

  /** Data is on the dispatch queue only for sequenced requests. */
  lemma NoData(q: Queue, r: Id, taken: set<Item>, atDevice: bool)
    requires Valid(q, taken, atDevice) && r !in q.rqs
    ensures DataRq(r) !in q.head
  {
    assert Listed(q, r) == 0;
    assert Count(q.head, DataRq(r)) + One(DataRq(r) in taken) == Count(q.inFlight, r);
    CountIn(q.head, DataRq(r));
  }

  class RequestQueue {
    const caps: Capability                   // flush_flags
    var rqs: map<Id, Sequenced>              // the sequenced requests, by identity
    var flushQueue: Pair
    var pendingIdx: Index
    var runningIdx: Index
    var pendingSince: int
    var inFlight: seq<Id>                    // flush_data_in_flight
    var head: seq<Item>                      // queue_head
    var ended: map<Id, seq<bool>>
    var issuedFor: seq<Id>
    var delayed: bool                        // flush_queue_delayed: the driver was held off during a flush
    var runs: nat                            // calls of blk_run_queue_async

    ghost function View(): Queue
      reads this
    {
      Queue(caps, rqs, flushQueue, pendingIdx, runningIdx, pendingSince, inFlight, head, ended, issuedFor)
    }

    constructor (caps: Capability)
      ensures View() == FlushSpec.Init(caps)
    {
      this.caps := caps;
      rqs, flushQueue, pendingIdx, runningIdx, pendingSince := map[], [[], []], 0, 0, 0;
      inFlight, head, ended, issuedFor, delayed, runs := [], [], map[], [], false, 0;
    }

    /** blk_kick_flush */
    method KickFlush(now: int) returns (issued: bool)
      modifies this
      ensures View() == Kick(old(View()), now)
      ensures |head| == |old(head)| + One(issued)
      ensures runs == old(runs) && delayed == old(delayed)
    {
      var pending := flushQueue[pendingIdx];
      if pendingIdx != runningIdx || pending == [] {
        return false;
      }
      if inFlight != [] && now < pendingSince + PENDING_TIMEOUT {
        return false;
      }
      issuedFor := pending;
      pendingIdx := 1 - pendingIdx;
      head := head + [FlushRq];
      return true;
    }

    /** list_del of rq->flush.list */
    method UnlinkRequest(r: Id)
      modifies this`flushQueue, this`inFlight
      ensures flushQueue[0] == Remove(old(flushQueue)[0], r) && flushQueue[1] == Remove(old(flushQueue)[1], r)
      ensures inFlight == Remove(old(inFlight), r)
    {
      flushQueue := [Remove(flushQueue[0], r), Remove(flushQueue[1], r)];
      inFlight := Remove(inFlight, r);
    }

    /** PREFLUSH and POSTFLUSH: wait on the pending list. */
    method QueueForFlush(r: Id, now: int)
      modifies this`flushQueue, this`inFlight, this`pendingSince
      ensures flushQueue[0] == Filed(old(flushQueue)[0], r, pendingIdx == 0)
      ensures flushQueue[1] == Filed(old(flushQueue)[1], r, pendingIdx == 1)
      ensures inFlight == Filed(old(inFlight), r, false)
      ensures pendingSince == if old(flushQueue)[pendingIdx] == [] then now else old(pendingSince)
    {
      if flushQueue[pendingIdx] == [] {
        pendingSince := now;
      }
      UnlinkRequest(r);
      flushQueue := flushQueue[pendingIdx := flushQueue[pendingIdx] + [r]];
    }

    /** DATA: hand the request to the front of the dispatch queue. */
    method QueueData(r: Id)
      modifies this`flushQueue, this`inFlight, this`head
      ensures flushQueue[0] == Filed(old(flushQueue)[0], r, false)
      ensures flushQueue[1] == Filed(old(flushQueue)[1], r, false)
      ensures inFlight == Filed(old(inFlight), r, true)
      ensures head == [DataRq(r)] + old(head)
    {
      UnlinkRequest(r);
      inFlight := inFlight + [r];
      head := [DataRq(r)] + head;
    }

    /** DONE: __blk_end_request_all tells the submitter, and the request leaves the machinery. */
    method EndSequence(r: Id, error: bool)
      modifies this`flushQueue, this`inFlight, this`rqs, this`ended
      ensures flushQueue[0] == Filed(old(flushQueue)[0], r, false)
      ensures flushQueue[1] == Filed(old(flushQueue)[1], r, false)
      ensures inFlight == Filed(old(inFlight), r, false)
      ensures rqs == old(rqs) - {r}
      ensures ended == old(ended)[r := old(View()).Ends(r) + [error]]
    {
      UnlinkRequest(r);
      ended := ended[r := (if r in ended then ended[r] else []) + [error]];
      rqs := rqs - {r};
    }

    /** The switch of blk_flush_complete_seq. */
    method StartStage(r: Id, done: Mask, stage: Stage, error: bool, now: int)
      requires r in rqs
      modifies this`rqs, this`flushQueue, this`inFlight, this`pendingSince, this`head, this`ended
      ensures View() == Settle(old(View()), r, done, stage, error, now)
    {
      ghost var goal := Settle(View(), r, done, stage, error, now);
      rqs := rqs[r := rqs[r].(seq3 := rqs[r].seq3.Or(done))];
      match stage {
        case PreFlush => QueueForFlush(r, now);
        case PostFlush => QueueForFlush(r, now);
        case Data => QueueData(r);
        case Done => EndSequence(r, error);
      }
      assert flushQueue == goal.flushQueue && rqs == goal.rqs && head == goal.head;
    }

    /** blk_flush_complete_seq */
    method FlushCompleteSeq(r: Id, done: Mask, error: bool, now: int) returns (queued: bool)
      requires r in rqs
      requires !rqs[r].seq3.Meets(done)
      requires NextStage(View(), r, done, error) == Done ==> DataRq(r) !in head
      modifies this
      ensures View() == CompleteSeq(old(View()), r, done, error, now)
      ensures |head| >= |old(head)| && (queued <==> |head| > |old(head)|)
      ensures runs == old(runs) && delayed == old(delayed)
    {
      var stage := if error then Done else Cur(rqs[r].seq3.Or(done));
      StartStage(r, done, stage, error, now);
      var issued := KickFlush(now);
      queued := issued || stage == Data;
    }

    /** One iteration of the loop of flush_end_io. */
    method Visit(r: Id, ghost rest: seq<Id>, ghost a: Index, error: bool, now: int,
                 ghost taken: set<Item>, ghost started: bool, ghost goal: Queue) returns (queued: bool)
      requires rest != [] && rest[0] == r && Loop(View(), rest, a, taken, started, error, now, goal)
      modifies this
      ensures Loop(View(), rest[1..], a, taken, true, error, now, goal)
      ensures |head| >= |old(head)| && (queued <==> |head| > |old(head)|)
      ensures runs == old(runs) && delayed == old(delayed)
    {
      LoopAdvances(View(), rest, a, taken, started, error, now, goal);
      queued := FlushCompleteSeq(r, Bit(Cur(rqs[r].seq3)), error, now);
    }

    /** The loop of flush_end_io over the list `a` that waited for the flush. */
    method WalkRunning(running: seq<Id>, ghost a: Index, error: bool, now: int, ghost taken: set<Item>,
                       ghost goal: Queue)
      returns (queued: bool)
      requires Loop(View(), running, a, taken, false, error, now, goal)
      modifies this
      ensures View() == goal
      ensures queued <==> |head| > |old(head)|
      ensures runs == old(runs) && delayed == old(delayed)
    {
      queued := false;
      var i := 0;
      assert running[0..] == running;
      while i < |running|
        invariant 0 <= i <= |running|
        invariant Loop(View(), running[i..], a, taken, i > 0, error, now, goal)
        invariant |head| >= |old(head)| && (queued <==> |head| > |old(head)|)
        invariant runs == old(runs) && delayed == old(delayed)
      {
        assert running[i..][1..] == running[i + 1..];
        var q := Visit(running[i], running[i..], a, error, now, taken, i > 0, goal);
        queued := queued || q;
        i := i + 1;
      }
    }

    /** flush_end_io */
    method FlushEndIo(error: bool, now: int, ghost taken: set<Item>)
      requires Valid(View(), taken, true)
      modifies this
      ensures old(View()).Outstanding() && WalkReady(old(View()), old(flushQueue)[old(runningIdx)])
      ensures View() == FlushSpec.FlushEndIo(old(View()), error, now)
      ensures Valid(View(), taken, false)
      ensures !delayed && runs == old(runs) + One(|head| > |old(head)| || old(delayed))
    {
      ghost var was := View();
      LoopStarts(was, taken, error, now);
      ghost var goal := FlushSpec.FlushEndIo(was, error, now);
      ghost var a := runningIdx;
      var running := flushQueue[runningIdx];
      runningIdx := 1 - runningIdx;
      assert View() == was.(runningIdx := 1 - a);
      var queued := WalkRunning(running, a, error, now, taken, goal);
      if queued || delayed {
        runs := runs + 1;
      }
      delayed := false;
    }

    /** flush_data_end_io */
    method FlushDataEndIo(r: Id, error: bool, now: int, ghost taken: set<Item>, ghost atDevice: bool)
      requires Valid(View(), taken, atDevice) && DataRq(r) in taken
      modifies this
      ensures r in old(rqs) && !old(rqs)[r].seq3.data && DataRq(r) !in old(head)
      ensures View() == DataEndIo(old(View()), r, error, now)
      ensures Valid(View(), taken - {DataRq(r)}, atDevice)
      ensures runs == old(runs) + One(|head| > |old(head)|)
    {
      DataEndIoKeeps(View(), r, taken, atDevice, error, now);
      var queued := FlushCompleteSeq(r, Bit(Data), error, now);
      if queued {
        runs := runs + 1;
      }
    }

    /** The end of blk_insert_flush: the stages the policy does without count as done. */
    method InsertSequence(r: Id, rq: Request, policy: Mask, now: int)
      requires DataRq(r) !in head
      modifies this
      ensures View() == CompleteSeq(old(View()).(rqs := old(rqs)[r := Sequenced(rq, Mask(false, false, false))]), r,
                                    policy.Complement(), false, now)
    {
      rqs := rqs[r := Sequenced(rq, Mask(false, false, false))];
      var queued := FlushCompleteSeq(r, policy.Complement(), false, now);
    }

    /** blk_insert_flush */
    method InsertFlush(r: Id, rq: Request, now: int, ghost taken: set<Item>, ghost atDevice: bool)
      requires Valid(View(), taken, atDevice) && rq.Sensible()
      requires r !in rqs && DataRq(r) !in taken
      modifies this
      ensures View() == FlushSpec.InsertFlush(old(View()), r, rq, now)
      ensures Valid(View(), taken, atDevice)
    {
      InsertFlushKeeps(View(), r, rq, taken, atDevice, now);
      NoData(View(), r, taken, atDevice);
      var policy := Policy(caps, rq);
      if !policy.pre && !policy.data && !policy.post {
        ended := ended[r := (if r in ended then ended[r] else []) + [false]];
        return;
      }
      if policy.data && !policy.pre && !policy.post {
        head := head + [PlainRq(r)];
        return;
      }
      InsertSequence(r, rq, policy, now);
    }
  }
}
