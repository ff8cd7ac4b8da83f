/**
 The tag map of block/blk-tag.c shared by several queues.  Each queue holds its own lock, so it does
 one thing at a time; the bit operations and index writes of different queues interleave freely.
 */
module TagProtocol {
  import opened Common

  /** A request, the queue it belongs to, and whether it is synchronous. */
  datatype Rq = Rq(id: nat, queue: nat, sync: bool)

  /** Where a queue is in blk_queue_start_tag or blk_queue_end_tag. */
  datatype Pc =
    | Idle
    | Finding(rq: Rq, limit: nat)              // about to look for a zero bit
    | Picked(rq: Rq, limit: nat, tag: nat)     // has found one, about to test and set it
    | Locked(rq: Rq, tag: nat)                 // has set it, about to write the index
    | Ending(rq: Rq, tag: nat)                 // has untagged the request, about to clear its index entry
    | Cleared(rq: Rq, tag: nat)                // has cleared the entry, about to clear the bit

  /** tag_map, tag_index, max_depth; `held` gives the tag of each request with REQ_QUEUED. */
  datatype World = World(bits: seq<bool>, index: seq<Option<Rq>>, depth: nat, held: map<Rq, nat>, pcs: map<nat, Pc>)

  datatype Step =
    | Start(rq: Rq, inFlight: nat)             // blk_queue_start_tag up to the loop
    | Find(queue: nat)
    | TestAndSet(queue: nat)
    | WriteIndex(queue: nat)
    | End(rq: Rq)                              // blk_queue_end_tag up to the index write
    | ClearIndex(queue: nat)
    | ClearBit(queue: nat)
    | Shrink(depth: nat)                       // blk_queue_resize_tags within the real depth

  function PcOf(w: World, queue: nat): Pc {
    if queue in w.pcs then w.pcs[queue] else Idle
  }

  /** Asynchronous requests leave two tags to the others. */
  function Limit(sync: bool, depth: nat): nat {
    if sync || depth <= 1 then depth else if depth == 2 then 1 else depth - 2
  }

  /** find_first_zero_bit */
  function FirstZero(bits: seq<bool>, limit: nat): nat {
    if limit == 0 || |bits| == 0 || !bits[0] then 0 else 1 + FirstZero(bits[1..], limit - 1)
  }

  lemma {:induction false} FirstZeroFirst(bits: seq<bool>, limit: nat)
    requires limit <= |bits|
    ensures var t := FirstZero(bits, limit);
            t <= limit && (forall i :: 0 <= i < t ==> bits[i]) && (t < limit ==> !bits[t])
    decreases limit
  {
    if limit > 0 && bits[0] {
      FirstZeroFirst(bits[1..], limit - 1);
      var t := FirstZero(bits[1..], limit - 1);
      assert forall i :: 0 <= i < t + 1 ==> bits[i] by {
        forall i | 0 <= i < t + 1 ensures bits[i] {
          assert i > 0 ==> bits[1..][i - 1];
        }
      }
    }
  }

  predicate Enabled(w: World, s: Step) {
    match s
    case Start(rq, _) => PcOf(w, rq.queue).Idle? && rq !in w.held
    case Find(q) => PcOf(w, q).Finding?
    case TestAndSet(q) => PcOf(w, q).Picked? && PcOf(w, q).tag < |w.bits|
    case WriteIndex(q) => PcOf(w, q).Locked? && PcOf(w, q).tag < |w.index|
    case End(rq) => PcOf(w, rq.queue).Idle? && rq in w.held
    case ClearIndex(q) => PcOf(w, q).Ending? && PcOf(w, q).tag < |w.index|
    case ClearBit(q) => PcOf(w, q).Cleared? && PcOf(w, q).tag < |w.bits|
    case Shrink(depth) => depth <= |w.bits|
  }

  function At(w: World, queue: nat, pc: Pc): World {
    w.(pcs := w.pcs[queue := pc])
  }

  function Apply(w: World, s: Step): World
    requires Enabled(w, s)
  {
    match s
    case Start(rq, inFlight) =>
      var limit := Limit(rq.sync, w.depth);
      if !rq.sync && w.depth > 1 && inFlight > limit then w else At(w, rq.queue, Finding(rq, limit))
    case Find(q) =>
      var pc := PcOf(w, q);
      var tag := FirstZero(w.bits, pc.limit);
      At(w, q, if tag >= pc.limit then Idle else Picked(pc.rq, pc.limit, tag))
    case TestAndSet(q) =>
      var pc := PcOf(w, q);
      if w.bits[pc.tag] then At(w, q, Finding(pc.rq, pc.limit))
      else At(w, q, Locked(pc.rq, pc.tag)).(bits := w.bits[pc.tag := true])
    case WriteIndex(q) =>
      var pc := PcOf(w, q);
      At(w, q, Idle).(index := w.index[pc.tag := Some(pc.rq)], held := w.held[pc.rq := pc.tag])
    case End(rq) => At(w, rq.queue, Ending(rq, w.held[rq])).(held := w.held - {rq})
    case ClearIndex(q) =>
      var pc := PcOf(w, q);
      At(w, q, Cleared(pc.rq, pc.tag)).(index := w.index[pc.tag := None])
    case ClearBit(q) => At(w, q, Idle).(bits := w.bits[PcOf(w, q).tag := false])
    case Shrink(depth) => w.(depth := depth)
  }

  // ---- who owns a tag

  datatype Owner = Request(rq: Rq) | Queue(queue: nat)

  /** A request owns the tag it holds; a queue owns one between setting its bit and tagging, and while untagging. */
  function TagOf(w: World, o: Owner): Option<nat> {
    match o
    case Request(rq) => if rq in w.held then Some(w.held[rq]) else None
    case Queue(q) =>
      var pc := PcOf(w, q);
      if pc.Locked? || pc.Ending? || pc.Cleared? then Some(pc.tag) else None
  }

  /** What the index says of the tag of an owner. */
  function Entry(w: World, o: Owner): Option<Rq> {
    match o
    case Request(rq) => Some(rq)
    case Queue(q) => if PcOf(w, q).Ending? then Some(PcOf(w, q).rq) else None
  }

  /** An owner's bit is set and its index entry is its own. */
  predicate Owns(w: World, o: Owner) {
    TagOf(w, o).Some? ==>
      var t := TagOf(w, o).value;
      t < |w.bits| && t < |w.index| && w.bits[t] && w.index[t] == Entry(w, o)
  }

  predicate Alone(w: World, o: Owner, p: Owner) {
    TagOf(w, o).Some? && TagOf(w, o) == TagOf(w, p) ==> o == p
  }

  /** A clear bit belongs to nobody and has no index entry; a set bit has an owner. */
  ghost predicate Accounted(w: World, t: nat) {
    t < |w.bits| && t < |w.index| ==> if w.bits[t] then exists o :: TagOf(w, o) == Some(t) else w.index[t] == None
  }

  /** A queue works on its own requests; an untagged one it works on is held by nobody. */
  predicate Proper(w: World, q: nat) {
    var pc := PcOf(w, q);
    && (!pc.Idle? ==> pc.rq.queue == q && pc.rq !in w.held)
    && (pc.Finding? || pc.Picked? ==> pc.limit <= |w.bits|)
    && (pc.Picked? ==> pc.tag < pc.limit)
  }

  ghost predicate Inv(w: World) {
    && |w.index| == |w.bits| && w.depth <= |w.bits|
    && (forall o :: Owns(w, o))
    && (forall o, p :: Alone(w, o, p))
    && (forall t: nat :: Accounted(w, t))
    && (forall q: nat :: Proper(w, q))
  }

  /** init_tag_map: nothing set, nothing indexed. */
  function Init(depth: nat): World {
    World(seq(depth, i => false), seq(depth, i => None), depth, map[], map[])
  }

  lemma InitInv(depth: nat)
    ensures Inv(Init(depth))
  {
  }

  // ---- every step keeps it

  /** All owners but `o` and `p` are as they were. */
  ghost predicate OthersKept(w: World, w': World, o: Option<Owner>, p: Option<Owner>) {
    forall x :: Some(x) != o && Some(x) != p ==> TagOf(w', x) == TagOf(w, x) && Entry(w', x) == Entry(w, x)
  }

  /** The bits and index entries of all other tags are as they were. */
  predicate RestKept(w: World, w': World, t: nat) {
    && |w'.bits| == |w.bits| && |w'.index| == |w.index|
    && (forall i :: 0 <= i < |w.bits| && i != t ==> w'.bits[i] == w.bits[i])
    && (forall i :: 0 <= i < |w.index| && i != t ==> w'.index[i] == w.index[i])
  }

  /** One tag passes from one owner to another, or from and to nobody. */
  ghost predicate Moves(w: World, w': World, t: nat, from: Option<Owner>, to: Option<Owner>) {
    && RestKept(w, w', t) && OthersKept(w, w', from, to) && t < |w.bits| && t < |w.index|
    && (if from.Some? then TagOf(w, from.value) == Some(t) else !w.bits[t])
    && (from.Some? && from != to ==> TagOf(w', from.value) == None)
    && (to.Some? && to != from ==> TagOf(w, to.value) == None)
    && (if to.Some? then TagOf(w', to.value) == Some(t) && w'.bits[t] && w'.index[t] == Entry(w', to.value)
        else !w'.bits[t] && w'.index[t] == None)
  }

  lemma MovesOwners(w: World, w': World, t: nat, from: Option<Owner>, to: Option<Owner>, o: Owner, p: Owner)
    requires Inv(w) && Moves(w, w', t, from, to)
    ensures Owns(w', o) && Alone(w', o, p)
  {
    assert Owns(w, o) && Owns(w, p) && Alone(w, o, p);
    if from.Some? {
      assert Alone(w, o, from.value) && Alone(w, p, from.value);
    }
  }

  lemma MovesAccounts(w: World, w': World, t: nat, from: Option<Owner>, to: Option<Owner>, i: nat)
    requires Inv(w) && Moves(w, w', t, from, to)
    ensures Accounted(w', i)
  {
    assert Accounted(w, i);
    if i < |w.bits| && w'.bits[i] {
      if i == t {
        assert TagOf(w', to.value) == Some(t);
      } else {
        var o :| TagOf(w, o) == Some(i);
        assert TagOf(w', o) == Some(i);
      }
    }
  }

  lemma MovesKeep(w: World, w': World, t: nat, from: Option<Owner>, to: Option<Owner>)
    requires Inv(w) && Moves(w, w', t, from, to) && w'.depth == w.depth
    requires forall q: nat :: Proper(w', q)
    ensures Inv(w')
  {
    forall o ensures Owns(w', o) {
      MovesOwners(w, w', t, from, to, o, o);
    }
    forall o, p ensures Alone(w', o, p) {
      MovesOwners(w, w', t, from, to, o, p);
    }
    forall i: nat ensures Accounted(w', i) {
      MovesAccounts(w, w', t, from, to, i);
    }
  }

  /** A step that moves no tag. */
  lemma QuietKeeps(w: World, w': World)
    requires Inv(w) && w'.bits == w.bits && w'.index == w.index && w'.depth <= |w.bits| && OthersKept(w, w', None, None)
    requires forall q: nat :: Proper(w', q)
    ensures Inv(w')
  {
    forall o ensures Owns(w', o) {
      assert Owns(w, o);
    }
    forall o, p ensures Alone(w', o, p) {
      assert Alone(w, o, p);
    }
    forall t: nat ensures Accounted(w', t) {
      assert Accounted(w, t);
      if t < |w.bits| && w.bits[t] {
        var o :| TagOf(w, o) == Some(t);
        assert TagOf(w', o) == Some(t);
      }
    }
  }

  lemma ProperAll(w: World, s: Step)
    requires Inv(w) && Enabled(w, s)
    ensures forall q: nat :: Proper(Apply(w, s), q)
  {
    forall q: nat ensures Proper(Apply(w, s), q) {
      ProperStep(w, s, q);
    }
  }

  lemma ProperStep(w: World, s: Step, q: nat)
    requires Inv(w) && Enabled(w, s)
    ensures Proper(Apply(w, s), q)
  {
    assert Proper(w, q);
    match s
    case Find(p) =>
      assert Proper(w, p);
      FirstZeroFirst(w.bits, PcOf(w, p).limit);
    case TestAndSet(p) => assert Proper(w, p);
    case WriteIndex(p) => assert Proper(w, p);
    case _ =>
  }

  lemma SearchKeeps(w: World, s: Step)
    requires Inv(w) && Enabled(w, s) && (s.Start? || s.Find? || s.Shrink?)
    ensures Inv(Apply(w, s))
  {
    ProperAll(w, s);
    QuietKeeps(w, Apply(w, s));
  }

  lemma TestAndSetKeeps(w: World, q: nat)
    requires Inv(w) && Enabled(w, TestAndSet(q))
    ensures Inv(Apply(w, TestAndSet(q)))
  {
    var w', t := Apply(w, TestAndSet(q)), PcOf(w, q).tag;
    ProperAll(w, TestAndSet(q));
    if w.bits[t] {
      QuietKeeps(w, w');
    } else {
      assert Accounted(w, t);
      MovesKeep(w, w', t, None, Some(Queue(q)));
    }
  }

  lemma IndexKeeps(w: World, s: Step)
    requires Inv(w) && Enabled(w, s) && (s.WriteIndex? || s.ClearIndex?)
    ensures Inv(Apply(w, s))
  {
    var w', pc := Apply(w, s), PcOf(w, s.queue);
    ProperAll(w, s);
    assert Owns(w, Queue(s.queue)) && Proper(w, s.queue);
    MovesKeep(w, w', pc.tag, Some(Queue(s.queue)), Some(if s.WriteIndex? then Request(pc.rq) else Queue(s.queue)));
  }

  lemma EndKeeps(w: World, rq: Rq)
    requires Inv(w) && Enabled(w, End(rq))
    ensures Inv(Apply(w, End(rq)))
  {
    ProperAll(w, End(rq));
    assert Owns(w, Request(rq));
    MovesKeep(w, Apply(w, End(rq)), w.held[rq], Some(Request(rq)), Some(Queue(rq.queue)));
  }

  lemma ClearBitKeeps(w: World, q: nat)
    requires Inv(w) && Enabled(w, ClearBit(q))
    ensures Inv(Apply(w, ClearBit(q)))
  {
    ProperAll(w, ClearBit(q));
    assert Owns(w, Queue(q));
    MovesKeep(w, Apply(w, ClearBit(q)), PcOf(w, q).tag, Some(Queue(q)), None);
  }

  lemma StepKeeps(w: World, s: Step)
    requires Inv(w) && Enabled(w, s)
    ensures Inv(Apply(w, s))
  {
    match s
    case TestAndSet(q) => TestAndSetKeeps(w, q);
    case WriteIndex(_) => IndexKeeps(w, s);
    case ClearIndex(_) => IndexKeeps(w, s);
    case End(rq) => EndKeeps(w, rq);
    case ClearBit(q) => ClearBitKeeps(w, q);
    case _ => SearchKeeps(w, s);
  }

  // ---- runs

  predicate Reaches(w: World, steps: seq<Step>, w': World)
    decreases |steps|
  {
    if steps == [] then w' == w else Enabled(w, steps[0]) && Reaches(Apply(w, steps[0]), steps[1..], w')
  }

  lemma {:induction false} RunKeeps(w: World, steps: seq<Step>, w': World)
    requires Inv(w) && Reaches(w, steps, w')
    ensures Inv(w') && |w'.bits| == |w.bits|
    decreases |steps|
  {
    if steps != [] {
      StepKeeps(w, steps[0]);
      RunKeeps(Apply(w, steps[0]), steps[1..], w');
    }
  }

  /** No two live requests hold one tag, every held tag is within the map, and looking it up gives its holder. */
  lemma TagsExclusive(depth: nat, steps: seq<Step>, w: World, rq: Rq, other: Rq)
    requires Reaches(Init(depth), steps, w) && rq in w.held && other in w.held
    ensures w.held[rq] == w.held[other] ==> rq == other
    ensures w.held[rq] < depth == |w.bits| == |w.index| && w.bits[w.held[rq]] && w.index[w.held[rq]] == Some(rq)
  {
    InitInv(depth);
    RunKeeps(Init(depth), steps, w);
    assert Alone(w, Request(rq), Request(other)) && Owns(w, Request(rq));
  }

  /** From the index write until the entry is cleared, no step changes the entry of a tagged request. */
  lemma EntryStable(depth: nat, steps: seq<Step>, w: World, s: Step, rq: Rq)
    requires Reaches(Init(depth), steps, w) && Enabled(w, s) && rq in w.held
    ensures var t, w' := w.held[rq], Apply(w, s);
            && t < |w.index| == |w'.index| && w.index[t] == w'.index[t] == Some(rq)
            && (rq in w'.held ==> w'.held[rq] == t)
            && (rq !in w'.held ==> s == End(rq) && TagOf(w', Queue(rq.queue)) == Some(t))
  {
    InitInv(depth);
    RunKeeps(Init(depth), steps, w);
    assert Owns(w, Request(rq));
    if s.WriteIndex? || s.ClearIndex? {
      assert Alone(w, Request(rq), Queue(s.queue)) && Proper(w, s.queue);
    }
  }

  /** An entry is only ever written where there was none, and cleared by the queue of its request. */
  lemma WritesFreeEntry(depth: nat, steps: seq<Step>, w: World, q: nat)
    requires Reaches(Init(depth), steps, w)
    ensures Enabled(w, WriteIndex(q)) ==> w.index[PcOf(w, q).tag] == None
    ensures Enabled(w, ClearIndex(q)) ==> w.index[PcOf(w, q).tag] == Some(PcOf(w, q).rq) && PcOf(w, q).rq.queue == q
  {
    InitInv(depth);
    RunKeeps(Init(depth), steps, w);
    assert Owns(w, Queue(q)) && Proper(w, q);
  }

  // ---- reserved tags

  /** With the depth unchanged, whoever owns or is after a tag keeps to its limit. */
  predicate Reserving(w: World, o: Owner) {
    match o
    case Request(rq) => rq in w.held ==> w.held[rq] < Limit(rq.sync, w.depth)
    case Queue(q) =>
      var pc := PcOf(w, q);
      match pc
      case Idle => true
      case Finding(rq, limit) => limit == Limit(rq.sync, w.depth)
      case Picked(rq, limit, tag) => tag < limit == Limit(rq.sync, w.depth)
      case Locked(rq, tag) => tag < Limit(rq.sync, w.depth)
      case Ending(rq, tag) => tag < Limit(rq.sync, w.depth)
      case Cleared(rq, tag) => tag < Limit(rq.sync, w.depth)
  }

  /** Whose tag a step is about. */
  function Mover(s: Step): Owner
    requires !s.Shrink?
  {
    if s.End? then Request(s.rq) else Queue(if s.Start? then s.rq.queue else s.queue)
  }

  lemma ReservingStep(w: World, s: Step, o: Owner)
    requires Enabled(w, s) && !s.Shrink? && Reserving(w, o) && Reserving(w, Mover(s))
    requires s.Find? ==> Proper(w, s.queue)
    ensures Reserving(Apply(w, s), o)
  {
    if s.Find? {
      FirstZeroFirst(w.bits, PcOf(w, s.queue).limit);
    }
  }

  lemma {:induction false} ReservingRun(w: World, steps: seq<Step>, w': World)
    requires Inv(w) && (forall p :: Reserving(w, p)) && Reaches(w, steps, w')
    requires forall i :: 0 <= i < |steps| ==> !steps[i].Shrink?
    ensures (forall p :: Reserving(w', p)) && w'.depth == w.depth
    decreases |steps|
  {
    if steps != [] {
      StepKeeps(w, steps[0]);
      var w1 := Apply(w, steps[0]);
      assert Reserving(w, Mover(steps[0])) && (steps[0].Find? ==> Proper(w, steps[0].queue));
      forall p ensures Reserving(w1, p) {
        assert Reserving(w, p);
        ReservingStep(w, steps[0], p);
      }
      ReservingRun(w1, steps[1..], w');
    }
  }

  /** The request an owner works for. */
  function For(w: World, o: Owner): Option<Rq> {
    match o
    case Request(rq) => Some(rq)
    case Queue(q) => if PcOf(w, q).Idle? then None else Some(PcOf(w, q).rq)
  }

  /**
   A synchronous request finds no tag only when every tag the asynchronous ones must leave alone
   belongs to a synchronous one.
   */
  lemma SyncFailsOnlyToSync(depth: nat, steps: seq<Step>, w: World, q: nat, t: nat)
    requires Reaches(Init(depth), steps, w) && forall i :: 0 <= i < |steps| ==> !steps[i].Shrink?
    requires Enabled(w, Find(q)) && PcOf(w, q).rq.sync && PcOf(Apply(w, Find(q)), q).Idle?
    requires Limit(false, depth) <= t < depth
    ensures exists o :: TagOf(w, o) == Some(t) && For(w, o).Some? && For(w, o).value.sync
  {
    InitInv(depth);
    RunKeeps(Init(depth), steps, w);
    ReservingRun(Init(depth), steps, w);
    assert Reserving(w, Queue(q)) && Proper(w, q);
    FirstZeroFirst(w.bits, depth);
    assert Accounted(w, t);
    var o :| TagOf(w, o) == Some(t);
    assert Reserving(w, o);
  }

  /** An asynchronous request holds a tag only below the reserve. */
  lemma AsyncBelowReserve(depth: nat, steps: seq<Step>, w: World, rq: Rq)
    requires Reaches(Init(depth), steps, w) && (forall i :: 0 <= i < |steps| ==> !steps[i].Shrink?)
    requires rq in w.held && !rq.sync
    ensures w.held[rq] < (if depth <= 1 then depth else if depth == 2 then 1 else depth - 2)
  {
    InitInv(depth);
    ReservingRun(Init(depth), steps, w);
    assert Reserving(w, Request(rq));
  }
}
