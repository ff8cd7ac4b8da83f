/**
 Runs of the flush sequencer against a device with a volatile write cache: submitters insert
 FLUSH/FUA requests, the driver takes requests from the dispatch queue, the device completes them.
 */
module FlushRuns {
  import opened Lists
  import opened FlushSpec
  import opened FlushInvariant

  /** The queue, the driver and the device, with what an observer remembers of each request. */
  datatype World = World(
    q: Queue,
    now: int,
    taken: set<Item>,                // data requests the driver holds
    flying: bool,                    // the device is executing a flush ...
    cover: set<Id>,                  // ... of the writes completed before it started
    written: set<Id>,                // writes the device has completed
    durable: set<Id>,                // those of them known to be on non-volatile media
    submitted: map<Id, Request>,     // every FLUSH/FUA request inserted so far
    before: map<Id, set<Id>>,        // the writes completed when it was inserted
    trace: map<Id, seq<Stage>>)      // the steps the device has successfully done for it

  datatype Step =
    | Insert(id: Id, rq: Request)          // blk_insert_flush
    | OtherWrite(id: Id)                   // a write from outside the machinery completes
    | Destage(id: Id)                      // the device writes back a cached write on its own
    | Take                                 // the driver takes the first request of the dispatch queue
    | DataDone(id: Id, error: bool)        // the device completes a data request
    | FlushDone(error: bool)               // the device completes the flush
    | Tick(ticks: nat)

  predicate Enabled(w: World, step: Step) {
    match step
    case Insert(id, rq) => id !in w.submitted && id !in w.written && rq.Sensible()
    case OtherWrite(id) => id !in w.submitted
    case Destage(id) => id in w.written
    case Take => w.q.head != []
    case DataDone(id, _) => DataRq(id) in w.taken || PlainRq(id) in w.taken
    case FlushDone(_) => w.flying
    case Tick(_) => true
  }

  function Init(caps: Capability, now: int): World {
    World(FlushSpec.Init(caps), now, {}, false, {}, {}, {}, map[], map[], map[])
  }

  /** Is a completed write of this request on non-volatile media at once? */
  predicate WritesThrough(caps: Capability, fua: bool) { !caps.flush || (caps.fua && fua) }

  /** The device's answer to a data request. */
  function Written(w: World, id: Id, fua: bool): World {
    w.(written := w.written + {id},
       durable := if WritesThrough(w.q.caps, fua) then w.durable + {id} else w.durable)
  }

  function Insertion(w: World, id: Id, rq: Request): World {
    w.(q := InsertFlush(w.q, id, rq, w.now), submitted := w.submitted[id := rq],
       before := w.before[id := w.written], trace := w.trace[id := []])
  }

  function Taking(w: World): World
    requires w.q.head != []
  {
    var q := w.q.(head := w.q.head[1..]);
    if w.q.head[0] == FlushRq then w.(q := q, flying := true, cover := w.written)
    else w.(q := q, taken := w.taken + {w.q.head[0]})
  }

  function DataAnswer(w: World, id: Id, error: bool): World
    requires id in w.submitted && id in w.trace
  {
    if error then w
    else Written(w, id, w.submitted[id].fua).(trace := w.trace[id := w.trace[id] + [Data]])
  }

  function PlainDone(w: World, id: Id, error: bool): World
    requires id in w.submitted && id in w.trace
  {
    DataAnswer(w, id, error).(q := w.q.(ended := w.q.ended[id := w.q.Ends(id) + [error]]),
                              taken := w.taken - {PlainRq(id)})
  }

  function SequencedDone(w: World, id: Id, error: bool): World
    requires id in w.submitted && id in w.trace
    requires id in w.q.rqs && !w.q.rqs[id].seq3.data && DataRq(id) !in w.q.head
  {
    DataAnswer(w, id, error).(q := DataEndIo(w.q, id, error, w.now), taken := w.taken - {DataRq(id)})
  }

  ghost function FlushAnswer(w: World, error: bool): World
    requires forall r :: r in w.q.flushQueue[w.q.runningIdx] ==> r in w.q.rqs
  {
    if error then w.(flying := false)
    else
      var shared := w.q.flushQueue[w.q.runningIdx];
      w.(flying := false, durable := w.durable + w.cover,
         trace := map r | r in w.trace :: if r in shared then w.trace[r] + [Cur(w.q.rqs[r].seq3)] else w.trace[r])
  }

  ghost function Flushed(w: World, error: bool): World
    requires w.q.Outstanding() && WalkReady(w.q, w.q.flushQueue[w.q.runningIdx])
  {
    FlushAnswer(w, error).(q := FlushEndIo(w.q, error, w.now))
  }

  /** None of the BUG checks that `step` runs into would fire. */
  ghost predicate NoBug(w: World, step: Step) {
    match step
    case DataDone(id, _) =>
      && id in w.submitted && id in w.trace
      && (DataRq(id) in w.taken ==> id in w.q.rqs && !w.q.rqs[id].seq3.data && DataRq(id) !in w.q.head)
    case FlushDone(_) => w.q.Outstanding() && WalkReady(w.q, w.q.flushQueue[w.q.runningIdx])
    case _ => true
  }

  ghost function Apply(w: World, step: Step): World
    requires Enabled(w, step) && NoBug(w, step)
  {
    match step
    case Insert(id, rq) => Insertion(w, id, rq)
    case OtherWrite(id) => Written(w, id, false)
    case Destage(id) => w.(durable := w.durable + {id})
    case Take => Taking(w)
    case DataDone(id, error) => if DataRq(id) in w.taken then SequencedDone(w, id, error) else PlainDone(w, id, error)
    case FlushDone(error) => Flushed(w, error)
    case Tick(ticks) => w.(now := w.now + ticks)
  }

  /** `steps` leads from `w` to `w'` without hitting a BUG check. */
  ghost predicate Reaches(w: World, steps: seq<Step>, w': World)
    decreases |steps|
  {
    if steps == [] then w' == w
    else Enabled(w, steps[0]) && NoBug(w, steps[0]) && Reaches(Apply(w, steps[0]), steps[1..], w')
  }

  // ---- what every reachable world satisfies

  /** The steps of `policy` that `seq3` records as done, in order. */
  function Performed(policy: Mask, seq3: Mask): seq<Stage> {
    (if policy.pre && seq3.pre then [PreFlush] else [])
    + (if policy.data && seq3.data then [Data] else [])
    + (if policy.post && seq3.post then [PostFlush] else [])
  }

  /** The whole sequence a policy asks for. */
  function Sequence(policy: Mask): seq<Stage> { Performed(policy, Mask(true, true, true)) }

  /** Is `r` outside the machinery: on the dispatch queue or with the driver as an ordinary request? */
  function Bypassing(w: World, r: Id): nat { Count(w.q.head, PlainRq(r)) + One(PlainRq(r) in w.taken) }

  predicate BypassPolicy(p: Mask) { p.data && !p.pre && !p.post }

  /** What the flush `r` waits for must make durable. */
  ghost function Owed(w: World, r: Id): set<Id>
    requires r in w.q.rqs && r in w.before
  {
    if Cur(w.q.rqs[r].seq3) == PreFlush then w.before[r] else {r}
  }

  /** `r` is in exactly one place if it was submitted, and nowhere otherwise. */
  ghost predicate Accounted(w: World, r: Id) {
    One(r in w.q.rqs) + Bypassing(w, r) + |w.q.Ends(r)| == One(r in w.submitted)
  }

  /** Inside the machinery: a prefix of the sequence is done, and what it was to make durable is. */
  ghost predicate Sequencing(w: World, r: Id)
    requires r in w.submitted && r in w.before && r in w.trace && r in w.q.rqs
  {
    var s := w.q.rqs[r];
    && s.rq == w.submitted[r]
    && w.trace[r] == Performed(Policy(w.q.caps, s.rq), s.seq3)
    && (s.rq.flush && s.seq3.pre ==> w.before[r] <= w.durable)
    && (s.rq.hasData && s.seq3.data ==> r in w.written)
    && (w.flying && r in w.q.flushQueue[w.q.runningIdx] ==> Owed(w, r) <= w.cover)
  }

  /** The promise to the submitter of a request reported as done without error. */
  ghost predicate Kept(w: World, r: Id)
    requires r in w.submitted && r in w.before && r in w.trace
  {
    && w.trace[r] == Sequence(Policy(w.q.caps, w.submitted[r]))
    && (w.submitted[r].flush ==> w.before[r] <= w.durable)
    && (w.submitted[r].fua && w.submitted[r].hasData ==> r in w.durable)
  }

  ghost predicate Good(w: World, r: Id) {
    && Accounted(w, r)
    && (r in w.submitted ==>
          && r in w.before && r in w.trace && w.before[r] <= w.written
          && (r in w.q.rqs ==> Sequencing(w, r))
          && (Bypassing(w, r) > 0 ==> BypassPolicy(Policy(w.q.caps, w.submitted[r])) && w.trace[r] == [])
          && (w.q.Ends(r) == [false] ==> Kept(w, r)))
  }

  /** The device never claims more than it did. */
  ghost predicate Honest(w: World) {
    && (!w.q.caps.flush ==> w.written <= w.durable)
    && (w.flying ==> w.cover <= w.written)
  }

  ghost predicate Inv(w: World) {
    && Valid(w.q, w.taken, w.flying) && Honest(w)
    && (forall r :: Good(w, r))
  }
}
