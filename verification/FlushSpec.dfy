/**
 The FLUSH/FUA sequencer of block/blk-flush.c on values: the queue's flush state and the
 functions that give the effect of each entry point.  A BUG_ON(c) of the source is a `requires !c`.
 */
module FlushSpec {
  import opened Common
  import opened Lists

  /** FLUSH_PENDING_TIMEOUT */
  const PENDING_TIMEOUT: nat := 5 * HZ

  type Id = nat
  type Index = i: nat | i < 2
  type Pair = ls: seq<seq<Id>> | |ls| == 2 witness [[], []]

  /** q->flush_flags: does the device have a write-back cache, and does it take REQ_FUA? */
  datatype Capability = Capability(flush: bool, fua: bool)

  /** What was submitted: does it carry sectors, REQ_FLUSH, REQ_FUA? */
  datatype Request = Request(hasData: bool, flush: bool, fua: bool) {
    /** A request without data carries only REQ_FLUSH. */
    predicate Sensible() { hasData || (flush && !fua) }
  }

  /** REQ_FSEQ_*: one step of a sequence. */
  datatype Stage = PreFlush | Data | PostFlush | Done

  /** A mask of REQ_FSEQ_ACTIONS bits. */
  datatype Mask = Mask(pre: bool, data: bool, post: bool) {
    function Or(m: Mask): Mask { Mask(pre || m.pre, data || m.data, post || m.post) }
    predicate Meets(m: Mask) { (pre && m.pre) || (data && m.data) || (post && m.post) }
    function Complement(): Mask { Mask(!pre, !data, !post) }
    function Has(s: Stage): bool {
      match s case PreFlush => pre case Data => data case PostFlush => post case Done => false
    }
    /** Bits still clear. */
    function Left(): nat { (if pre then 0 else 1) + (if data then 0 else 1) + (if post then 0 else 1) }
  }

  function Bit(s: Stage): Mask { Mask(s == PreFlush, s == Data, s == PostFlush) }

  /** blk_flush_policy */
  function Policy(caps: Capability, rq: Request): Mask {
    Mask(caps.flush && rq.flush, rq.hasData, caps.flush && !caps.fua && rq.fua)
  }

  /** blk_flush_cur_seq: the lowest clear bit. */
  function Cur(seq3: Mask): Stage {
    if !seq3.pre then PreFlush else if !seq3.data then Data else if !seq3.post then PostFlush else Done
  }

  predicate WaitsForFlush(s: Stage) { s == PreFlush || s == PostFlush }

  /** A request inside the flush machinery, with rq->flush.seq. */
  datatype Sequenced = Sequenced(rq: Request, seq3: Mask)

  /** An entry of q->queue_head. */
  datatype Item = FlushRq | DataRq(id: Id) | PlainRq(id: Id)

  datatype Queue = Queue(
    caps: Capability,
    rqs: map<Id, Sequenced>,        // requests being sequenced
    flushQueue: Pair,               // the two flush lists
    pendingIdx: Index,
    runningIdx: Index,
    pendingSince: int,
    inFlight: seq<Id>,              // flush_data_in_flight
    head: seq<Item>,                // queue_head
    ended: map<Id, seq<bool>>,      // the error flags with which each request was reported finished
    issuedFor: seq<Id>)             // observer: who was pending when the last flush was issued
  {
    predicate Outstanding() { pendingIdx != runningIdx }

    function Ends(r: Id): seq<bool> { if r in ended then ended[r] else [] }
  }

  function Init(caps: Capability): Queue {
    Queue(caps, map[], [[], []], 0, 0, 0, [], [], map[], [])
  }

  /** blk_kick_flush */
  function Kick(q: Queue, now: int): Queue
  {
    var pending := q.flushQueue[q.pendingIdx];
    if q.pendingIdx != q.runningIdx || pending == [] then q
    else if q.inFlight != [] && now < q.pendingSince + PENDING_TIMEOUT then q
    else q.(pendingIdx := 1 - q.pendingIdx, head := q.head + [FlushRq], issuedFor := pending)
  }

  function NextStage(q: Queue, r: Id, done: Mask, error: bool): Stage
    requires r in q.rqs
  {
    if error then Done else Cur(q.rqs[r].seq3.Or(done))
  }

  /** A list once `r` has been unlinked from it and, if `again`, added at its tail. */
  function Filed(xs: seq<Id>, r: Id, again: bool): seq<Id> { Remove(xs, r) + (if again then [r] else []) }

  /** The queue after the switch of blk_flush_complete_seq has moved `r` to `stage`. */
  function Settle(q: Queue, r: Id, done: Mask, stage: Stage, error: bool, now: int): Queue
    requires r in q.rqs
  {
    var rq := q.rqs[r];
    Queue(q.caps,
          if stage == Done then q.rqs - {r} else q.rqs[r := rq.(seq3 := rq.seq3.Or(done))],
          [Filed(q.flushQueue[0], r, WaitsForFlush(stage) && q.pendingIdx == 0),
           Filed(q.flushQueue[1], r, WaitsForFlush(stage) && q.pendingIdx == 1)],
          q.pendingIdx,
          q.runningIdx,
          if WaitsForFlush(stage) && q.flushQueue[q.pendingIdx] == [] then now else q.pendingSince,
          Filed(q.inFlight, r, stage == Data),
          (if stage == Data then [DataRq(r)] else []) + q.head,
          if stage == Done then q.ended[r := q.Ends(r) + [error]] else q.ended,
          q.issuedFor)
  }

  /** blk_flush_complete_seq */
  function CompleteSeq(q: Queue, r: Id, done: Mask, error: bool, now: int): Queue
    requires r in q.rqs
    requires !q.rqs[r].seq3.Meets(done)
    requires NextStage(q, r, done, error) == Done ==> DataRq(r) !in q.head
  {
    Kick(Settle(q, r, done, NextStage(q, r, done, error), error, now), now)
  }

  /** What blk_kick_flush changes, and exactly when it issues a flush. */
  lemma KickEffect(q: Queue, now: int)
    ensures var q' := Kick(q, now);
            && q' == q.(pendingIdx := q'.pendingIdx, head := q'.head, issuedFor := q'.issuedFor)
            && (q'.pendingIdx != q.pendingIdx ==>
                  && !q.Outstanding() && q'.issuedFor == q.flushQueue[q.pendingIdx] != []
                  && q'.head == q.head + [FlushRq])
            && (q'.pendingIdx == q.pendingIdx ==>
                  && q' == q
                  && (q.Outstanding() || q.flushQueue[q.pendingIdx] == [] || q.inFlight != []))
  {
  }

  /** What the walk in flush_end_io needs of the requests still ahead of it. */
  ghost predicate WalkReady(q: Queue, todo: seq<Id>) {
    && (forall r :: r in todo ==>
          r in q.rqs && WaitsForFlush(Cur(q.rqs[r].seq3)) && DataRq(r) !in q.head)
    && (forall i, j :: 0 <= i < j < |todo| ==> todo[i] != todo[j])
  }

  /** The body of the walk: one waiting request moves on. */
  ghost function Advance(q: Queue, r: Id, error: bool, now: int): Queue
    requires r in q.rqs
    requires WaitsForFlush(Cur(q.rqs[r].seq3)) && DataRq(r) !in q.head
  {
    CompleteSeq(q, r, Bit(Cur(q.rqs[r].seq3)), error, now)
  }

  lemma AdvanceReady(q: Queue, todo: seq<Id>, error: bool, now: int)
    requires todo != [] && WalkReady(q, todo)
    ensures WalkReady(Advance(q, todo[0], error, now), todo[1..])
  {
    var r := todo[0];
    var done := Bit(Cur(q.rqs[r].seq3));
    var settled := Settle(q, r, done, NextStage(q, r, done, error), error, now);
    var q' := Kick(settled, now);
    KickEffect(settled, now);
    forall x | x in todo[1..]
      ensures x in q'.rqs && q'.rqs[x] == q.rqs[x] && DataRq(x) !in q'.head
    {
      assert x != r && x in todo;
    }
  }

  /** The loop of flush_end_io over the requests that shared the flush. */
  ghost function Walk(q: Queue, todo: seq<Id>, error: bool, now: int): Queue
    requires WalkReady(q, todo)
    decreases |todo|
  {
    if todo == [] then q
    else
      AdvanceReady(q, todo, error, now);
      Walk(Advance(q, todo[0], error, now), todo[1..], error, now)
  }

  /** flush_end_io */
  ghost function FlushEndIo(q: Queue, error: bool, now: int): Queue
    requires q.pendingIdx != q.runningIdx
    requires WalkReady(q, q.flushQueue[q.runningIdx])
  {
    Walk(q.(runningIdx := 1 - q.runningIdx), q.flushQueue[q.runningIdx], error, now)
  }

  /** flush_data_end_io */
  function DataEndIo(q: Queue, r: Id, error: bool, now: int): Queue
    requires r in q.rqs
    requires !q.rqs[r].seq3.data
    requires DataRq(r) !in q.head
  {
    CompleteSeq(q, r, Bit(Data), error, now)
  }

  /** blk_insert_flush */
  function InsertFlush(q: Queue, r: Id, rq: Request, now: int): Queue
  {
    var policy := Policy(q.caps, rq);
    if policy == Mask(false, false, false) then q.(ended := q.ended[r := q.Ends(r) + [false]])
    else if policy.data && !policy.pre && !policy.post then q.(head := q.head + [PlainRq(r)])
    else
      CompleteSeq(q.(rqs := q.rqs[r := Sequenced(rq, Mask(false, false, false))]), r, policy.Complement(), false, now)
  }
}
