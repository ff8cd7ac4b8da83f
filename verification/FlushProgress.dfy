/** No flush is lost: the work left falls with every completion, and something is always under way. */
module FlushProgress {
  import opened Lists
  import opened FlushSpec
  import opened FlushInvariant
  import opened FlushRuns
  import opened FlushTheorems

  /** The number of clear sequence bits of the requests on a list. */
  function LeftSum(rqs: map<Id, Sequenced>, xs: seq<Id>): nat {
    if xs == [] then 0 else Left(rqs, xs[0]) + LeftSum(rqs, xs[1..])
  }

  function Left(rqs: map<Id, Sequenced>, r: Id): nat { if r in rqs then rqs[r].seq3.Left() else 0 }

  /** All the steps the sequenced requests have yet to do. */
  function Work(q: Queue): nat {
    LeftSum(q.rqs, q.flushQueue[0]) + LeftSum(q.rqs, q.flushQueue[1]) + LeftSum(q.rqs, q.inFlight)
  }

  lemma {:induction false} LeftSumAppend(rqs: map<Id, Sequenced>, xs: seq<Id>, r: Id)
    ensures LeftSum(rqs, xs + [r]) == LeftSum(rqs, xs) + Left(rqs, r)
  {
    if xs == [] {
      assert xs + [r] == [r];
    } else {
      assert (xs + [r])[1..] == xs[1..] + [r];
      LeftSumAppend(rqs, xs[1..], r);
    }
  }

  lemma {:induction false} LeftSumRemove(rqs: map<Id, Sequenced>, xs: seq<Id>, r: Id)
    requires r in xs
    ensures LeftSum(rqs, xs) == Left(rqs, r) + LeftSum(rqs, Remove(xs, r))
  {
    if xs[0] != r {
      LeftSumRemove(rqs, xs[1..], r);
      assert ([xs[0]] + Remove(xs[1..], r))[1..] == Remove(xs[1..], r);
    }
  }

  lemma {:induction false} LeftSumOthers(rqs: map<Id, Sequenced>, rqs': map<Id, Sequenced>, xs: seq<Id>)
    requires forall x :: x in xs ==> Left(rqs', x) == Left(rqs, x)
    ensures LeftSum(rqs', xs) == LeftSum(rqs, xs)
  {
    if xs != [] {
      LeftSumOthers(rqs, rqs', xs[1..]);
    }
  }

  /** A list that loses `r`, and maybe gets it back with fewer bits clear. */
  lemma LeftSumMoved(rqs: map<Id, Sequenced>, rqs': map<Id, Sequenced>, xs: seq<Id>, r: Id, again: bool)
    requires Count(xs, r) <= 1
    requires forall x :: x != r ==> Left(rqs', x) == Left(rqs, x)
    ensures LeftSum(rqs', Filed(xs, r, again))
            == LeftSum(rqs, xs) - (if r in xs then Left(rqs, r) else 0) + (if again then Left(rqs', r) else 0)
  {
    ListRemoved(xs, r, r, again);
    LeftSumOthers(rqs, rqs', Remove(xs, r));
    if r in xs {
      LeftSumRemove(rqs, xs, r);
    } else {
      RemoveAbsent(xs, r);
    }
    if again {
      LeftSumAppend(rqs', Remove(xs, r), r);
    } else {
      assert Remove(xs, r) + [] == Remove(xs, r);
    }
  }

  /** Recording a step strictly reduces the work. */
  lemma SettleWork(q: Queue, r: Id, done: Mask, stage: Stage, error: bool, now: int)
    requires r in q.rqs && Listed(q, r) == 1
    requires stage != Done ==> q.rqs[r].seq3.Or(done).Left() < q.rqs[r].seq3.Left()
    requires q.rqs[r].seq3.Left() > 0
    ensures Work(Settle(q, r, done, stage, error, now)) < Work(q)
  {
    var q' := Settle(q, r, done, stage, error, now);
    CountIn(q.flushQueue[0], r);
    CountIn(q.flushQueue[1], r);
    CountIn(q.inFlight, r);
    LeftSumMoved(q.rqs, q'.rqs, q.flushQueue[0], r, WaitsForFlush(stage) && q.pendingIdx == 0);
    LeftSumMoved(q.rqs, q'.rqs, q.flushQueue[1], r, WaitsForFlush(stage) && q.pendingIdx == 1);
    LeftSumMoved(q.rqs, q'.rqs, q.inFlight, r, stage == Data);
  }

  lemma CompleteWork(q: Queue, r: Id, error: bool, now: int)
    requires r in q.rqs && Listed(q, r) == 1 && Cur(q.rqs[r].seq3) != Done && DataRq(r) !in q.head
    ensures Work(CompleteSeq(q, r, Bit(Cur(q.rqs[r].seq3)), error, now)) < Work(q)
  {
    var done := Bit(Cur(q.rqs[r].seq3));
    var stage := NextStage(q, r, done, error);
    SettleWork(q, r, done, stage, error, now);
    KickEffect(Settle(q, r, done, stage, error, now), now);
  }

  lemma {:induction false} WalkWork(q: Queue, todo: seq<Id>, a: Index, taken: set<Item>, started: bool, error: bool,
                                    now: int)
    requires Walking(q, todo, a, taken, started) && WalkReady(q, todo)
    ensures Work(Walk(q, todo, error, now)) <= Work(q) - |todo|
    decreases |todo|
  {
    if todo != [] {
      CountIn(todo, todo[0]);
      assert Listed(q, todo[0]) == 1;
      CompleteWork(q, todo[0], error, now);
      AdvanceKeeps(q, todo, a, taken, started, error, now);
      AdvanceReady(q, todo, error, now);
      WalkWork(Advance(q, todo[0], error, now), todo[1..], a, taken, true, error, now);
    }
  }

  /** Does `step` complete a flush, or the data of a sequenced request? */
  predicate Completes(w: World, step: Step) {
    step.FlushDone? || (step.DataDone? && DataRq(step.id) in w.taken)
  }

  lemma WalkFalls(q: Queue, todo: seq<Id>, a: Index, taken: set<Item>, error: bool, now: int)
    requires Walking(q, todo, a, taken, false) && WalkReady(q, todo) && todo != []
    ensures Work(Walk(q, todo, error, now)) < Work(q)
  {
    WalkWork(q, todo, a, taken, false, error, now);
  }

  lemma SameWork(q: Queue, q': Queue)
    requires q'.rqs == q.rqs && q'.flushQueue == q.flushQueue && q'.inFlight == q.inFlight
    ensures Work(q') == Work(q)
  {
  }

  lemma FlushFalls(q: Queue, q': Queue, todo: seq<Id>, error: bool, now: int)
    requires q.Outstanding() && todo == q.flushQueue[q.runningIdx] && WalkReady(q, todo) && WalkReady(q', todo)
    requires q' == q.(runningIdx := 1 - q.runningIdx) && Work(Walk(q', todo, error, now)) < Work(q')
    ensures Work(FlushEndIo(q, error, now)) < Work(q)
  {
    SameWork(q, q');
  }

  lemma FlushWork(q: Queue, taken: set<Item>, error: bool, now: int)
    requires Valid(q, taken, true) && q.Outstanding() && WalkReady(q, q.flushQueue[q.runningIdx])
    ensures Work(FlushEndIo(q, error, now)) < Work(q)
  {
    FlushStarts(q, taken);
    var q', todo := q.(runningIdx := 1 - q.runningIdx), q.flushQueue[q.runningIdx];
    WalkFalls(q', todo, q.runningIdx, taken, error, now);
    FlushFalls(q, q', todo, error, now);
  }

  lemma DataWork(q: Queue, id: Id, taken: set<Item>, atDevice: bool, error: bool, now: int)
    requires Valid(q, taken, atDevice) && DataRq(id) in taken
    requires id in q.rqs && !q.rqs[id].seq3.data && DataRq(id) !in q.head
    ensures Work(DataEndIo(q, id, error, now)) < Work(q)
  {
    DataEndIoKeeps(q, id, taken, atDevice, error, now);
    assert Listed(q, id) == 1;
    CompleteWork(q, id, error, now);
  }

  /** The uncompleted steps strictly fall with every completion, and grow only by submissions. */
  lemma WorkFalls(w: World, step: Step)
    requires Valid(w.q, w.taken, w.flying) && Enabled(w, step) && NoBug(w, step)
    ensures Completes(w, step) ==> Work(Apply(w, step).q) < Work(w.q)
    ensures !Completes(w, step) && !step.Insert? ==> Work(Apply(w, step).q) == Work(w.q)
  {
    if step.FlushDone? {
      FlushWork(w.q, w.taken, step.error, w.now);
      assert Apply(w, step).q == FlushEndIo(w.q, step.error, w.now);
    } else if Completes(w, step) {
      DataWork(w.q, step.id, w.taken, w.flying, step.error, w.now);
      assert Apply(w, step).q == DataEndIo(w.q, step.id, step.error, w.now);
    } else if !step.Insert? {
      OtherWork(w, step);
    }
  }

  lemma OtherWork(w: World, step: Step)
    requires Enabled(w, step) && NoBug(w, step) && !Completes(w, step) && !step.Insert?
    ensures Work(Apply(w, step).q) == Work(w.q)
  {
    SameWork(w.q, Apply(w, step).q);
  }

  ghost function Completed(w: World, steps: seq<Step>, w': World): nat
    requires Reaches(w, steps, w')
    decreases |steps|
  {
    if steps == [] then 0
    else One(Completes(w, steps[0])) + Completed(Apply(w, steps[0]), steps[1..], w')
  }

  /** Without new submissions the machine is done after at most as many completions as there are steps left. */
  lemma {:induction false} CompletionsBounded(w: World, steps: seq<Step>, w': World)
    requires Inv(w) && Reaches(w, steps, w')
    requires forall step :: step in steps ==> !step.Insert?
    ensures Completed(w, steps, w') + Work(w'.q) <= Work(w.q)
    decreases |steps|
  {
    if steps != [] {
      StepKeeps(w, steps[0]);
      WorkFalls(w, steps[0]);
      CompletionsBounded(Apply(w, steps[0]), steps[1..], w');
    }
  }

  /** While any request is being sequenced, a flush or a data request is on its way to complete. */
  lemma NeverStuck(caps: Capability, steps: seq<Step>, w: World, r: Id)
    requires Run(caps, steps, w) && r in w.q.rqs
    ensures w.flying || FlushRq in w.q.head
            || exists d :: d in w.q.inFlight && (DataRq(d) in w.q.head || DataRq(d) in w.taken)
  {
    RunInv(caps, steps, w);
    CountIn(w.q.head, FlushRq);
    if !w.q.Outstanding() {
      assert Listed(w.q, r) == 1;
      CountIn(w.q.flushQueue[0], r);
      CountIn(w.q.flushQueue[1], r);
      CountIn(w.q.inFlight, r);
      assert w.q.inFlight != [];
      var d := w.q.inFlight[0];
      CountIn(w.q.inFlight, d);
      assert Count(w.q.head, DataRq(d)) + One(DataRq(d) in w.taken) == Count(w.q.inFlight, d);
      CountIn(w.q.head, DataRq(d));
    }
  }

  /** Nothing is on the dispatch queue, with the driver or at the device. */
  predicate Quiet(w: World) {
    w.q.head == [] && w.taken == {} && !w.flying
  }

  /** When nothing is left to do in a run, every submitted request has ended, exactly once. */
  lemma AllEnded(caps: Capability, steps: seq<Step>, w: World, r: Id)
    requires Run(caps, steps, w) && Quiet(w)
    ensures |w.q.Ends(r)| == One(r in w.submitted)
  {
    EndsOnce(caps, steps, w, r);
    if r in w.q.rqs {
      NeverStuck(caps, steps, w, r);
      assert false;
    }
  }
}
