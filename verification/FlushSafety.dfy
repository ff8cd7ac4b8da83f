/** Every step of a run of the flush sequencer keeps the promises of block/blk-flush.c. */
module FlushSafety {
  import opened Lists
  import opened FlushSpec
  import opened FlushInvariant
  import opened FlushRuns

  /** Completing a step touches one request, and issues at most a flush. */
  lemma CompleteEffect(q: Queue, r: Id, done: Mask, error: bool, now: int)
    requires r in q.rqs && !q.rqs[r].seq3.Meets(done)
    requires NextStage(q, r, done, error) == Done ==> DataRq(r) !in q.head
    ensures var q' := CompleteSeq(q, r, done, error, now);
            var stage := NextStage(q, r, done, error);
            && q'.caps == q.caps
            && q'.rqs == (if stage == Done then q.rqs - {r}
                          else q.rqs[r := Sequenced(q.rqs[r].rq, q.rqs[r].seq3.Or(done))])
            && q'.ended == (if stage == Done then q.ended[r := q.Ends(r) + [error]] else q.ended)
            && (q.Outstanding() ==> q'.issuedFor == q.issuedFor && q'.Outstanding())
  {
    KickEffect(Settle(q, r, done, NextStage(q, r, done, error), error, now), now);
  }

  lemma CompletePlain(q: Queue, r: Id, done: Mask, error: bool, now: int, x: Id)
    requires r in q.rqs && !q.rqs[r].seq3.Meets(done)
    requires NextStage(q, r, done, error) == Done ==> DataRq(r) !in q.head
    ensures Count(CompleteSeq(q, r, done, error, now).head, PlainRq(x)) == Count(q.head, PlainRq(x))
  {
    var stage := NextStage(q, r, done, error);
    var s := Settle(q, r, done, stage, error, now);
    KickEffect(s, now);
    CountConcat(if stage == Data then [DataRq(r)] else [], q.head, PlainRq(x));
    CountConcat(s.head, [FlushRq], PlainRq(x));
  }

  // ---- submission

  /** What an insertion changes of the queue, and of one request `x` of the world. */
  ghost predicate Inserted(w: World, w': World, id: Id, rq: Request, x: Id) {
    var p := Policy(w.q.caps, rq);
    && w'.q.caps == w.q.caps
    && w'.taken == w.taken && w'.flying == w.flying && w'.cover == w.cover
    && w'.written == w.written && w'.durable == w.durable
    && w'.submitted == w.submitted[id := rq] && w'.before == w.before[id := w.written] && w'.trace == w.trace[id := []]
    && w'.q.rqs == (if p.pre || p.post then w.q.rqs[id := Sequenced(rq, p.Complement())] else w.q.rqs)
    && w'.q.ended == (if p.pre || p.post || p.data then w.q.ended else w.q.ended[id := w.q.Ends(id) + [false]])
    && Count(w'.q.head, PlainRq(x)) == Count(w.q.head, PlainRq(x)) + One(x == id && BypassPolicy(p))
    && (w.flying ==> w'.q.flushQueue[w'.q.runningIdx] == w.q.flushQueue[w.q.runningIdx])
  }

  lemma InsertGood(w: World, w': World, id: Id, rq: Request, x: Id)
    requires Inserted(w, w', id, rq, x) && Good(w, x) && Honest(w)
    requires id !in w.submitted && rq.Sensible() && (w.flying ==> id !in w.q.flushQueue[w.q.runningIdx])
    ensures Good(w', x)
  {
  }

  lemma InsertQueue(q: Queue, id: Id, rq: Request, now: int, x: Id)
    requires id !in q.rqs && rq.Sensible()
    ensures var q' := InsertFlush(q, id, rq, now);
            var p := Policy(q.caps, rq);
            && q'.caps == q.caps
            && q'.rqs == (if p.pre || p.post then q.rqs[id := Sequenced(rq, p.Complement())] else q.rqs)
            && q'.ended == (if p.pre || p.post || p.data then q.ended else q.ended[id := q.Ends(id) + [false]])
            && Count(q'.head, PlainRq(x)) == Count(q.head, PlainRq(x)) + One(x == id && BypassPolicy(p))
            && (q.Outstanding() ==> q'.issuedFor == q.issuedFor && q'.Outstanding())
  {
    var p := Policy(q.caps, rq);
    if p.pre || p.post {
      var joined := q.(rqs := q.rqs[id := Sequenced(rq, Mask(false, false, false))]);
      CompleteEffect(joined, id, p.Complement(), false, now);
      CompletePlain(joined, id, p.Complement(), false, now, x);
    } else {
      CountConcat(q.head, [PlainRq(id)], PlainRq(x));
    }
  }

  /** A request never submitted is nowhere. */
  lemma Unseen(w: World, id: Id)
    requires Inv(w) && id !in w.submitted
    ensures id !in w.q.rqs && DataRq(id) !in w.taken && id !in w.q.flushQueue[w.q.runningIdx]
  {
    assert Good(w, id);
    assert Listed(w.q, id) == 0;
    assert Count(w.q.head, DataRq(id)) + One(DataRq(id) in w.taken) == Count(w.q.inFlight, id);
    CountIn(w.q.flushQueue[w.q.runningIdx], id);
  }

  lemma InsertKeeps(w: World, id: Id, rq: Request)
    requires Inv(w) && Enabled(w, Insert(id, rq))
    ensures Inv(Insertion(w, id, rq))
  {
    var w' := Insertion(w, id, rq);
    Unseen(w, id);
    InsertFlushKeeps(w.q, id, rq, w.taken, w.flying, w.now);
    InsertQueue(w.q, id, rq, w.now, 0);
    forall x ensures Good(w', x) {
      InsertQueue(w.q, id, rq, w.now, x);
      assert Good(w, x);
      InsertGood(w, w', id, rq, x);
    }
  }

  // ---- the driver takes a request

  /** Validity does not depend on what is on the dispatch queue beyond the two counts, nor on who has ended. */
  lemma SameLists(q: Queue, q': Queue, taken: set<Item>, taken': set<Item>, atDevice: bool, atDevice': bool)
    requires Valid(q, taken, atDevice)
    requires q' == q.(head := q'.head, ended := q'.ended)
    requires Queued(q', taken') && OneFlush(q', atDevice')
    ensures Valid(q', taken', atDevice')
  {
    forall x ensures Listed(q', x) == Listed(q, x) {}
  }

  lemma TakeQueued(q: Queue, taken: set<Item>, taken': set<Item>, x: Id)
    requires q.head != [] && Queued(q, taken) && Listed(q, x) <= 1
    requires taken' == if q.head[0] == FlushRq then taken else taken + {q.head[0]}
    ensures Count(q.head[1..], DataRq(x)) + One(DataRq(x) in taken') == Count(q.inFlight, x)
  {
    assert Count(q.head, DataRq(x)) + One(DataRq(x) in taken) == Count(q.inFlight, x);
  }

  lemma TakeValid(w: World)
    requires Inv(w) && w.q.head != []
    ensures Valid(Taking(w).q, Taking(w).taken, Taking(w).flying)
  {
    var w' := Taking(w);
    forall x ensures Count(w'.q.head, DataRq(x)) + One(DataRq(x) in w'.taken) == Count(w'.q.inFlight, x) {
      assert Listed(w.q, x) <= 1;
      TakeQueued(w.q, w.taken, w'.taken, x);
    }
    SameLists(w.q, w'.q, w.taken, w'.taken, w.flying, w'.flying);
  }

  lemma TakeKeeps(w: World)
    requires Inv(w) && w.q.head != []
    ensures Inv(Taking(w))
  {
    var w' := Taking(w);
    TakeValid(w);
    forall x ensures Good(w', x) {
      assert Good(w, x);
      TakeGood(w, x);
    }
  }

  lemma TakeBypass(w: World, x: Id)
    requires w.q.head != [] && Accounted(w, x)
    ensures Bypassing(Taking(w), x) == Bypassing(w, x) && Taking(w).q.Ends(x) == w.q.Ends(x)
  {
  }

  /** What waits for a flush has been written by the time the flush is taken. */
  ghost predicate OwedWritten(w: World, x: Id) {
    x in w.q.rqs && x in w.before && x in w.q.flushQueue[w.q.runningIdx] ==> Owed(w, x) <= w.written
  }

  lemma TakeOwed(w: World, x: Id)
    requires Staged(w.q, {}) && Good(w, x)
    ensures OwedWritten(w, x)
  {
  }

  lemma TakeRest(w: World, x: Id)
    requires w.q.head != [] && Good(w, x) && OwedWritten(w, x)
    ensures Good(Taking(w), x)
  {
    TakeBypass(w, x);
  }

  lemma TakeGood(w: World, x: Id)
    requires Valid(w.q, w.taken, w.flying) && w.q.head != [] && Good(w, x)
    ensures Good(Taking(w), x)
  {
    TakeOwed(w, x);
    TakeRest(w, x);
  }

  // ---- data completions

  /** A data completion of `id` seen by any request `x`; `left` says whether `id` has just ended. */
  ghost predicate Answered(w: World, w': World, id: Id, error: bool, x: Id) {
    && id in w.submitted && id in w.trace
    && w'.q.caps == w.q.caps && w'.flying == w.flying && w'.cover == w.cover
    && w'.submitted == w.submitted && w'.before == w.before
    && w'.trace == (if error then w.trace else w.trace[id := w.trace[id] + [Data]])
    && w'.written == (if error then w.written else w.written + {id})
    && w'.durable == (if !error && WritesThrough(w.q.caps, w.submitted[id].fua) then w.durable + {id} else w.durable)
    && (w.flying ==> w'.q.flushQueue[w'.q.runningIdx] == w.q.flushQueue[w.q.runningIdx])
    && (x != id ==>
          && (x in w'.q.rqs <==> x in w.q.rqs) && (x in w.q.rqs ==> w'.q.rqs[x] == w.q.rqs[x])
          && w'.q.Ends(x) == w.q.Ends(x) && Bypassing(w', x) == Bypassing(w, x))
  }

  lemma AnswerOthers(w: World, w': World, id: Id, error: bool, x: Id)
    requires Answered(w, w', id, error, x) && Good(w, x) && x != id
    ensures Good(w', x)
  {
  }

  lemma PlainGood(w: World, id: Id, error: bool)
    requires Good(w, id) && Honest(w) && PlainRq(id) in w.taken && id in w.submitted && id in w.trace
    ensures Good(PlainDone(w, id, error), id)
  {
    var w' := PlainDone(w, id, error);
    assert Bypassing(w', id) == 0 && w'.q.Ends(id) == [error];
    assert Sequence(Policy(w.q.caps, w.submitted[id])) == [Data];
  }

  lemma PlainKeeps(w: World, id: Id, error: bool)
    requires Inv(w) && PlainRq(id) in w.taken && id in w.submitted && id in w.trace
    ensures Inv(PlainDone(w, id, error))
  {
    var w' := PlainDone(w, id, error);
    SameLists(w.q, w'.q, w.taken, w'.taken, w.flying, w'.flying);
    assert Good(w, id);
    PlainGood(w, id, error);
    forall x ensures Good(w', x) {
      assert Good(w, x);
      if x != id {
        AnswerOthers(w, w', id, error, x);
      }
    }
  }

  lemma SequencedQueue(q: Queue, id: Id, error: bool, now: int, x: Id)
    requires id in q.rqs && !q.rqs[id].seq3.data && DataRq(id) !in q.head
    ensures var q' := DataEndIo(q, id, error, now);
            var seq3 := q.rqs[id].seq3.Or(Bit(Data));
            var ends := error || Cur(seq3) == Done;
            && q'.caps == q.caps
            && q'.rqs == (if ends then q.rqs - {id} else q.rqs[id := Sequenced(q.rqs[id].rq, seq3)])
            && q'.ended == (if ends then q.ended[id := q.Ends(id) + [error]] else q.ended)
            && Count(q'.head, PlainRq(x)) == Count(q.head, PlainRq(x))
            && (q.Outstanding() ==> q'.issuedFor == q.issuedFor && q'.Outstanding())
  {
    CompleteEffect(q, id, Bit(Data), error, now);
    CompletePlain(q, id, Bit(Data), error, now, x);
  }

  lemma SequencedGood(w: World, w': World, id: Id, error: bool)
    requires Answered(w, w', id, error, id) && Good(w, id) && id in w.q.rqs && Sane(w.q.caps, w.q.rqs[id])
    requires Cur(w.q.rqs[id].seq3) == Data
    requires var seq3 := w.q.rqs[id].seq3.Or(Bit(Data));
             var ends := error || Cur(seq3) == Done;
             && w'.q.rqs == (if ends then w.q.rqs - {id} else w.q.rqs[id := Sequenced(w.q.rqs[id].rq, seq3)])
             && w'.q.ended == (if ends then w.q.ended[id := w.q.Ends(id) + [error]] else w.q.ended)
             && Bypassing(w', id) == Bypassing(w, id)
    requires w.flying ==> id !in w.q.flushQueue[w.q.runningIdx]
    ensures Good(w', id)
  {
    var p := Policy(w.q.caps, w.submitted[id]);
    var seq3 := w.q.rqs[id].seq3;
    assert w.q.Ends(id) == [];
    assert error ==> w'.q.Ends(id)[0];
    assert Performed(p, seq3) + [Data] == Performed(p, seq3.Or(Bit(Data)));
    assert Cur(seq3.Or(Bit(Data))) == Done ==> Performed(p, seq3.Or(Bit(Data))) == Sequence(p);
  }

  /** A call that leaves an outstanding flush outstanding leaves the list waiting for it alone. */
  lemma SharedStays(q: Queue, q': Queue, taken: set<Item>, taken': set<Item>, flying: bool)
    requires Valid(q, taken, flying) && Valid(q', taken', flying)
    requires q.Outstanding() ==> q'.issuedFor == q.issuedFor && q'.Outstanding()
    ensures flying ==> q'.flushQueue[q'.runningIdx] == q.flushQueue[q.runningIdx]
  {
  }

  lemma SequencedAnswered(w: World, id: Id, error: bool, x: Id)
    requires id in w.submitted && id in w.trace
    requires id in w.q.rqs && Cur(w.q.rqs[id].seq3) == Data && DataRq(id) !in w.q.head
    requires w.flying ==>
               var q' := SequencedDone(w, id, error).q;
               q'.flushQueue[q'.runningIdx] == w.q.flushQueue[w.q.runningIdx]
    ensures Answered(w, SequencedDone(w, id, error), id, error, x)
    ensures Bypassing(SequencedDone(w, id, error), x) == Bypassing(w, x)
  {
    SequencedQueue(w.q, id, error, w.now, x);
  }

  lemma SequencedKeeps(w: World, id: Id, error: bool)
    requires Inv(w) && DataRq(id) in w.taken && id in w.submitted && id in w.trace
    requires id in w.q.rqs && Cur(w.q.rqs[id].seq3) == Data && DataRq(id) !in w.q.head
    ensures Inv(SequencedDone(w, id, error))
  {
    var w' := SequencedDone(w, id, error);
    DataEndIoKeeps(w.q, id, w.taken, w.flying, error, w.now);
    assert Good(w, id);
    assert id !in w.q.flushQueue[w.q.runningIdx];
    SequencedQueue(w.q, id, error, w.now, id);
    SharedStays(w.q, w'.q, w.taken, w'.taken, w.flying);
    forall x ensures Good(w', x) {
      assert Good(w, x);
      SequencedAnswered(w, id, error, x);
      if x == id {
        SequencedGood(w, w', id, error);
      } else {
        AnswerOthers(w, w', id, error, x);
      }
    }
  }

  // ---- flush completions

  /** The requests of `todo` moved on by one step, as any request `x` sees it. */
  ghost predicate Moved(q: Queue, q': Queue, todo: seq<Id>, error: bool, x: Id) {
    && q'.caps == q.caps
    && Count(q'.head, PlainRq(x)) == Count(q.head, PlainRq(x))
    && (if x in todo then
          && x in q.rqs
          && (var seq3 := q.rqs[x].seq3.Or(Bit(Cur(q.rqs[x].seq3)));
              if error || Cur(seq3) == Done then x !in q'.rqs && q'.Ends(x) == q.Ends(x) + [error]
              else x in q'.rqs && q'.rqs[x] == Sequenced(q.rqs[x].rq, seq3) && q'.Ends(x) == q.Ends(x))
        else
          && q'.Ends(x) == q.Ends(x)
          && (x in q'.rqs <==> x in q.rqs) && (x in q.rqs ==> q'.rqs[x] == q.rqs[x]))
  }

  lemma {:induction false} WalkMoves(q: Queue, todo: seq<Id>, error: bool, now: int, x: Id)
    requires WalkReady(q, todo)
    ensures Moved(q, Walk(q, todo, error, now), todo, error, x)
    decreases |todo|
  {
    if todo != [] {
      var r := todo[0];
      var q1 := Advance(q, r, error, now);
      CompleteEffect(q, r, Bit(Cur(q.rqs[r].seq3)), error, now);
      CompletePlain(q, r, Bit(Cur(q.rqs[r].seq3)), error, now, x);
      AdvanceReady(q, todo, error, now);
      WalkMoves(q1, todo[1..], error, now, x);
      assert x in todo <==> x == r || x in todo[1..];
    }
  }

  /** A request that shared the flush has done one more step of its sequence. */
  lemma SharedGood(w: World, w': World, error: bool, x: Id)
    requires w.flying && x in w.q.flushQueue[w.q.runningIdx] && x in w.q.rqs
    requires Good(w, x) && Sane(w.q.caps, w.q.rqs[x]) && WaitsForFlush(Cur(w.q.rqs[x].seq3))
    requires w'.q.caps == w.q.caps && !w'.flying && Bypassing(w', x) == Bypassing(w, x)
    requires w'.submitted == w.submitted && w'.before == w.before && w'.written == w.written && x in w'.trace
    requires !error ==> w'.trace[x] == w.trace[x] + [Cur(w.q.rqs[x].seq3)] && w'.durable == w.durable + w.cover
    requires var seq3 := w.q.rqs[x].seq3.Or(Bit(Cur(w.q.rqs[x].seq3)));
             if error || Cur(seq3) == Done then x !in w'.q.rqs && w'.q.Ends(x) == w.q.Ends(x) + [error]
             else x in w'.q.rqs && w'.q.rqs[x] == Sequenced(w.q.rqs[x].rq, seq3) && w'.q.Ends(x) == w.q.Ends(x)
    ensures Good(w', x)
  {
    assert w.q.Ends(x) == [];
    if error {
      assert w'.q.Ends(x)[0];
    } else {
      var p := Policy(w.q.caps, w.submitted[x]);
      var seq3 := w.q.rqs[x].seq3;
      var next := seq3.Or(Bit(Cur(seq3)));
      assert Performed(p, seq3) + [Cur(seq3)] == Performed(p, next);
      assert Cur(next) == Done ==> Performed(p, next) == Sequence(p);
    }
  }

  lemma OthersGood(w: World, w': World, x: Id)
    requires Good(w, x) && x !in w.q.flushQueue[w.q.runningIdx]
    requires w'.q.caps == w.q.caps && !w'.flying && Bypassing(w', x) == Bypassing(w, x)
    requires w'.submitted == w.submitted && w'.before == w.before && w'.written == w.written && w.durable <= w'.durable
    requires x in w.trace ==> x in w'.trace && w'.trace[x] == w.trace[x]
    requires w'.q.Ends(x) == w.q.Ends(x)
    requires (x in w'.q.rqs <==> x in w.q.rqs) && (x in w.q.rqs ==> w'.q.rqs[x] == w.q.rqs[x])
    ensures Good(w', x)
  {
  }

  lemma FlushGood(w: World, w': World, error: bool, x: Id)
    requires Good(w, x) && w.flying
    requires forall r :: r in w.q.flushQueue[w.q.runningIdx] ==> r in w.q.rqs
    requires x in w.q.flushQueue[w.q.runningIdx] ==>
               Sane(w.q.caps, w.q.rqs[x]) && WaitsForFlush(Cur(w.q.rqs[x].seq3))
    requires w' == FlushAnswer(w, error).(q := w'.q) && Moved(w.q, w'.q, w.q.flushQueue[w.q.runningIdx], error, x)
    ensures Good(w', x)
  {
    assert Bypassing(w', x) == Bypassing(w, x);
    if x in w.q.flushQueue[w.q.runningIdx] {
      SharedGood(w, w', error, x);
    } else {
      OthersGood(w, w', x);
    }
  }

  lemma FlushKeeps(w: World, error: bool)
    requires Inv(w) && w.flying
    requires w.q.Outstanding() && WalkReady(w.q, w.q.flushQueue[w.q.runningIdx])
    ensures Inv(Flushed(w, error))
  {
    var w' := Flushed(w, error);
    FlushEndIoKeeps(w.q, w.taken, error, w.now);
    var toggled := w.q.(runningIdx := 1 - w.q.runningIdx);
    var shared := w.q.flushQueue[w.q.runningIdx];
    WalkMoves(toggled, shared, error, w.now, 0);
    forall x ensures Good(w', x) {
      assert Good(w, x);
      WalkMoves(toggled, shared, error, w.now, x);
      FlushGood(w, w', error, x);
    }
  }
}
