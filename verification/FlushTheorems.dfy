/** The promises of the FLUSH/FUA sequencer over whole runs. */
module FlushTheorems {
  import opened Lists
  import opened FlushSpec
  import opened FlushInvariant
  import opened FlushRuns
  import opened FlushSafety

  lemma InitInv(caps: Capability, now: int)
    ensures Inv(FlushRuns.Init(caps, now))
  {
    var w := FlushRuns.Init(caps, now);
    assert Core(w.q, {}, {});
    forall r ensures Good(w, r) {}
  }

  /** In a state that satisfies the invariant no BUG check can fire, whatever happens next. */
  lemma InvNoBug(w: World, step: Step)
    requires Inv(w) && Enabled(w, step)
    ensures NoBug(w, step)
  {
    match step
    case DataDone(id, error) =>
      assert Good(w, id);
      if DataRq(id) in w.taken {
        DataEndIoKeeps(w.q, id, w.taken, w.flying, error, w.now);
      }
    case FlushDone(error) =>
      FlushEndIoKeeps(w.q, w.taken, error, w.now);
    case _ =>
  }

  lemma DeviceKeeps(w: World, step: Step)
    requires Inv(w) && Enabled(w, step) && (step.OtherWrite? || step.Destage? || step.Tick?)
    ensures Inv(Apply(w, step))
  {
    var w' := Apply(w, step);
    forall x ensures Good(w', x) {
      assert Good(w, x);
      assert Bypassing(w', x) == Bypassing(w, x);
    }
  }

  lemma StepKeeps(w: World, step: Step)
    requires Inv(w) && Enabled(w, step)
    ensures NoBug(w, step) && Inv(Apply(w, step))
  {
    InvNoBug(w, step);
    match step
    case Insert(id, rq) => InsertKeeps(w, id, rq);
    case Take => TakeKeeps(w);
    case DataDone(id, error) =>
      if DataRq(id) in w.taken {
        DataEndIoKeeps(w.q, id, w.taken, w.flying, error, w.now);
        SequencedKeeps(w, id, error);
      } else {
        PlainKeeps(w, id, error);
      }
    case FlushDone(error) => FlushKeeps(w, error);
    case _ => DeviceKeeps(w, step);
  }

  lemma {:induction false} RunKeeps(w: World, steps: seq<Step>, w': World)
    requires Inv(w) && Reaches(w, steps, w')
    ensures Inv(w')
    decreases |steps|
  {
    if steps != [] {
      StepKeeps(w, steps[0]);
      RunKeeps(Apply(w, steps[0]), steps[1..], w');
    }
  }

  /** Every run of the machine from an idle queue, whatever the device can do. */
  ghost predicate Run(caps: Capability, steps: seq<Step>, w: World) {
    exists now :: Reaches(FlushRuns.Init(caps, now), steps, w)
  }

  lemma RunInv(caps: Capability, steps: seq<Step>, w: World)
    requires Run(caps, steps, w)
    ensures Inv(w)
  {
    var now :| Reaches(FlushRuns.Init(caps, now), steps, w);
    InitInv(caps, now);
    RunKeeps(FlushRuns.Init(caps, now), steps, w);
  }

  // ---- the theorems

  /** No BUG check of the file can fire in any run. */
  lemma BugChecksNeverFire(caps: Capability, steps: seq<Step>, w: World, step: Step)
    requires Run(caps, steps, w) && Enabled(w, step)
    ensures NoBug(w, step)
  {
    RunInv(caps, steps, w);
    InvNoBug(w, step);
  }

  /**
   The data of a REQ_FLUSH request is on the dispatch queue or with the driver only once every write
   that had completed when it was submitted is on non-volatile media.
   */
  lemma FlushBeforeData(caps: Capability, steps: seq<Step>, w: World, r: Id)
    requires Run(caps, steps, w) && r in w.submitted && w.submitted[r].flush
    requires DataRq(r) in w.q.head || DataRq(r) in w.taken || PlainRq(r) in w.q.head || PlainRq(r) in w.taken
    ensures r in w.before && w.before[r] <= w.durable
  {
    RunInv(caps, steps, w);
    assert Good(w, r);
    CountIn(w.q.head, PlainRq(r));
    CountIn(w.q.head, DataRq(r));
    CountIn(w.q.inFlight, r);
    assert Count(w.q.head, DataRq(r)) + One(DataRq(r) in w.taken) == Count(w.q.inFlight, r);
  }

  /**
   A request reported done without error has kept its promise: after REQ_FLUSH the writes completed
   before it are non-volatile, after REQ_FUA its own data is, and the device has done exactly the
   steps its policy asks for, in order.
   */
  lemma EndedKept(caps: Capability, steps: seq<Step>, w: World, r: Id)
    requires Run(caps, steps, w) && r in w.submitted && false in w.q.Ends(r)
    ensures r in w.before && r in w.trace && Kept(w, r)
  {
    RunInv(caps, steps, w);
    assert Good(w, r);
    assert w.q.Ends(r) == [false];
  }

  /** A submitted request is being sequenced, or bypasses the machinery, or has ended, exactly once. */
  lemma EndsOnce(caps: Capability, steps: seq<Step>, w: World, r: Id)
    requires Run(caps, steps, w)
    ensures One(r in w.q.rqs) + Bypassing(w, r) + |w.q.Ends(r)| == One(r in w.submitted)
  {
    RunInv(caps, steps, w);
    assert Good(w, r);
  }

  /**
   At most one flush is outstanding, exactly when the indices differ; the list waiting for it holds
   exactly the requests pending when it was issued; requests pending with no data in flight never
   lack a flush; each sequenced request is on exactly one list, the one its lowest clear bit names.
   */
  lemma FlushStructure(caps: Capability, steps: seq<Step>, w: World)
    requires Run(caps, steps, w)
    ensures Count(w.q.head, FlushRq) + One(w.flying) == One(w.q.pendingIdx != w.q.runningIdx)
    ensures w.q.pendingIdx != w.q.runningIdx ==> w.q.flushQueue[w.q.runningIdx] == w.q.issuedFor
    ensures NoLostFlush(w.q)
    ensures Placed(w.q, {}) && Staged(w.q, {})
  {
    RunInv(caps, steps, w);
  }
}
