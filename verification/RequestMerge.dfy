/**
 Merging bios and requests (block/blk-merge.c, block/blk-core.c): the segment count kept
 incrementally through every merge covers what the scatterlist mapper will need.
 */
module RequestMerge {
  import opened Common
  import opened Segments
  import opened SegmentCount

  /** A bio: its sectors, vectors, bi_seg_front_size, bi_seg_back_size, bi_phys_segments, BIO_SEG_VALID. */
  datatype Bio = Bio(sector: nat, sectors: nat, vecs: seq<Vec>, front: nat, back: nat, phys: nat, valid: bool)

  function Sectors(bios: seq<Bio>): nat {
    if bios == [] then 0 else Sectors(Front(bios)) + Last(bios).sectors
  }

  function Vecs(bios: seq<Bio>): seq<Vec> {
    if bios == [] then [] else if |bios| == 1 then bios[0].vecs else Vecs(Front(bios)) + Last(bios).vecs
  }

  /** `parts` cuts `vs` into `n` segments whose first and last are within `front` and `back`. */
  ghost predicate Cover(q: Limits, parts: seq<seq<Vec>>, vs: seq<Vec>, n: nat, front: nat, back: nat) {
    forall k {:trigger Unfold(k, (parts, vs))} :: Unfold(k, (parts, vs)) ==>
      && Partition(q, parts, vs) && |parts| == n > 0
      && Size(parts[0]) <= front && Size(Last(parts)) <= back
  }

  /** The bios are data-carrying, cover `sectors` sectors from `sector` on, and hold the vectors `data`. */
  ghost predicate Holds(bios: seq<Bio>, sector: nat, sectors: nat, data: seq<Vec>) {
    forall k {:trigger Unfold(k, bios)} :: Unfold(k, bios) ==>
      && Shaped(bios) && Laid(bios, sector)
      && Sectors(bios) == sectors && Vecs(bios) == data
  }

  /** A data-carrying bio of whole sectors. */
  predicate Shape(b: Bio) { b.vecs != [] && Size(b.vecs) == 512 * b.sectors }

  predicate Shaped(bios: seq<Bio>) { forall i :: 0 <= i < |bios| ==> Shape(bios[i]) }

  /** A bio whose segment fields, if flagged valid, describe it. */
  ghost predicate BioOk(q: Limits, b: Bio) {
    Shape(b) && (b.valid ==> exists parts :: Cover(q, parts, b.vecs, b.phys, b.front, b.back))
  }

  /** The bios cover consecutive sectors from `sector` on. */
  ghost predicate Laid(bios: seq<Bio>, sector: nat) {
    bios != [] ==> Laid(Front(bios), sector) && Last(bios).sector == sector + Sectors(Front(bios))
  }

  // ---- covers

  lemma CountedCovers(q: Limits, vs: seq<Vec>, front: nat, back: nat)
    requires vs != []
    ensures Counted(q, vs) != []
    ensures Size(Counted(q, vs)[0]) <= front && Size(Last(Counted(q, vs))) <= back ==>
              Cover(q, Counted(q, vs), vs, |Counted(q, vs)|, front, back)
  {
    CountedPartition(q, vs);
  }

  lemma CoverPartition(q: Limits, ps: seq<seq<Vec>>, vs: seq<Vec>, n: nat, f: nat, b: nat)
    requires Cover(q, ps, vs, n, f, b)
    ensures Partition(q, ps, vs) && |ps| == n > 0
  {
    assert Unfold(0, (ps, vs));
  }

  lemma CoverWider(q: Limits, ps: seq<seq<Vec>>, vs: seq<Vec>, n: nat, f: nat, b: nat, f': nat, b': nat)
    requires Cover(q, ps, vs, n, f, b) && f <= f' && b <= b'
    ensures Cover(q, ps, vs, n, f', b')
  {
    assert Unfold(0, (ps, vs));
  }

  /** With a single segment, the bound on its end is a bound on its start, and the other way round. */
  lemma CoverOne(q: Limits, ps: seq<seq<Vec>>, vs: seq<Vec>, f: nat, b: nat)
    requires Cover(q, ps, vs, 1, f, b)
    ensures Cover(q, ps, vs, 1, b, b) && Cover(q, ps, vs, 1, f, f)
  {
    assert Unfold(0, (ps, vs));
  }

  /** Two requests side by side: the counts add up. */
  lemma CoverConcat(q: Limits, ps: seq<seq<Vec>>, vs: seq<Vec>, n: nat, f: nat, b: nat,
                    rs: seq<seq<Vec>>, ws: seq<Vec>, m: nat, g: nat, c: nat)
    requires Cover(q, ps, vs, n, f, b) && Cover(q, rs, ws, m, g, c)
    ensures Cover(q, ps + rs, vs + ws, n + m, f, c)
  {
    assert Unfold(0, (ps, vs)) && Unfold(0, (rs, ws));
    FlattenConcat(ps, rs);
  }

  /** Contiguous ends: the last segment of one and the first of the other become one. */
  function Fuse(ps: seq<seq<Vec>>, rs: seq<seq<Vec>>): seq<seq<Vec>>
    requires ps != [] && rs != []
  {
    Front(ps) + [Last(ps) + rs[0]] + rs[1..]
  }

  lemma FuseSegment(q: Limits, p: seq<Vec>, r: seq<Vec>)
    requires Segment(q, p) && Segment(q, r) && q.cluster
    requires Size(p) + Size(r) <= q.maxSegmentSize && Joinable(q, Last(p), r[0])
    ensures Segment(q, p + r) && Size(p + r) == Size(p) + Size(r)
  {
    SizeConcat(p, r);
    var pr := p + r;
    forall i | 0 < i < |pr| ensures Linked(q, pr, i) {
      if i < |p| {
        assert Linked(q, p, i);
      } else if i > |p| {
        assert Linked(q, r, i - |p|);
      }
    }
  }

  lemma FlattenSplit(rs: seq<seq<Vec>>)
    requires rs != []
    ensures Flatten(rs) == rs[0] + Flatten(rs[1..])
  {
    assert rs == [rs[0]] + rs[1..];
    FlattenConcat([rs[0]], rs[1..]);
    assert Flatten([rs[0]]) == rs[0];
  }

  lemma Regroup(a: seq<Vec>, b: seq<Vec>, c: seq<Vec>, d: seq<Vec>)
    ensures (a + (b + c)) + d == (a + b) + (c + d)
  {
  }

  lemma FuseFlatten(ps: seq<seq<Vec>>, rs: seq<seq<Vec>>)
    requires ps != [] && rs != []
    ensures Flatten(Fuse(ps, rs)) == Flatten(ps) + Flatten(rs)
  {
    FlattenAppend(Front(ps), Last(ps) + rs[0]);
    FlattenConcat(Front(ps) + [Last(ps) + rs[0]], rs[1..]);
    FlattenSplit(rs);
    FlattenAppend(Front(ps), Last(ps));
    assert ps == Front(ps) + [Last(ps)];
    Regroup(Flatten(Front(ps)), Last(ps), rs[0], Flatten(rs[1..]));
  }

  lemma {:induction false} FlattenEnds(q: Limits, ps: seq<seq<Vec>>, vs: seq<Vec>)
    requires Partition(q, ps, vs) && ps != []
    ensures vs != [] && Last(Last(ps)) == Last(vs) && Last(ps) != []
    ensures ps[0] != [] && ps[0][0] == vs[0]
    decreases |ps|
  {
    assert Segment(q, Last(ps)) && Segment(q, ps[0]);
    assert vs == Flatten(Front(ps)) + Last(ps);
    if |ps| > 1 {
      FlattenEnds(q, Front(ps), Flatten(Front(ps)));
    } else {
      assert Flatten(Front(ps)) == [];
    }
  }

  lemma CoverFuse(q: Limits, ps: seq<seq<Vec>>, vs: seq<Vec>, n: nat, f: nat, b: nat,
                  rs: seq<seq<Vec>>, ws: seq<Vec>, m: nat, g: nat, c: nat)
    requires Cover(q, ps, vs, n, f, b) && Cover(q, rs, ws, m, g, c) && vs != [] && ws != []
    requires q.cluster && b + g <= q.maxSegmentSize && Joinable(q, Last(vs), ws[0])
    ensures n > 0 && m > 0 && ps != [] && rs != []
    ensures Cover(q, Fuse(ps, rs), vs + ws, n + m - 1, if n == 1 then b + g else f, if m == 1 then b + g else c)
  {
    assert Unfold(0, (ps, vs)) && Unfold(0, (rs, ws));
    FlattenEnds(q, ps, vs);
    FlattenEnds(q, rs, ws);
    assert Segment(q, Last(ps)) && Segment(q, rs[0]);
    FuseSegment(q, Last(ps), rs[0]);
    FuseFlatten(ps, rs);
    var parts := Fuse(ps, rs);
    forall i | 0 <= i < |parts| ensures Segment(q, parts[i]) {
      if i > n - 1 {
        assert parts[i] == rs[i - n + 1];
      }
    }
  }

  // ---- bio chains

  lemma VecsAppend(bios: seq<Bio>, b: Bio)
    ensures Vecs(bios + [b]) == Vecs(bios) + b.vecs
  {
    assert Front(bios + [b]) == bios;
  }

  lemma {:induction false} VecsConcat(xs: seq<Bio>, ys: seq<Bio>)
    ensures Vecs(xs + ys) == Vecs(xs) + Vecs(ys)
  {
    if ys == [] {
      assert xs + ys == xs;
    } else {
      assert xs + ys == (xs + Front(ys)) + [Last(ys)] && ys == Front(ys) + [Last(ys)];
      VecsConcat(xs, Front(ys));
      VecsAppend(xs + Front(ys), Last(ys));
      VecsAppend(Front(ys), Last(ys));
      Associative(Vecs(xs), Vecs(Front(ys)), Last(ys).vecs);
    }
  }

  lemma Associative(a: seq<Vec>, b: seq<Vec>, c: seq<Vec>)
    ensures (a + b) + c == a + (b + c)
  {
  }

  /** The same vectors at the same sectors, whatever the segment fields say. */
  predicate SameData(xs: seq<Bio>, ys: seq<Bio>) {
    |xs| == |ys| && forall i :: 0 <= i < |xs| ==>
      xs[i].vecs == ys[i].vecs && xs[i].sector == ys[i].sector && xs[i].sectors == ys[i].sectors
  }

  lemma {:induction false} VecsSame(xs: seq<Bio>, ys: seq<Bio>, sector: nat)
    requires SameData(xs, ys)
    ensures Vecs(xs) == Vecs(ys) && Sectors(xs) == Sectors(ys) && (Laid(xs, sector) <==> Laid(ys, sector))
  {
    if xs != [] {
      VecsSame(Front(xs), Front(ys), sector);
    }
  }

  /** The length in bytes is that of the sectors, and the vectors end where the last bio does. */
  lemma {:induction false} ShapedVecs(bios: seq<Bio>)
    requires Shaped(bios)
    ensures Size(Vecs(bios)) == 512 * Sectors(bios)
    ensures bios != [] ==> Vecs(bios) != [] && Last(bios).vecs != [] && Last(Vecs(bios)) == Last(Last(bios).vecs)
    ensures bios != [] ==> bios[0].vecs != [] && Vecs(bios)[0] == bios[0].vecs[0]
  {
    if bios != [] {
      ShapedVecs(Front(bios));
      assert Shape(Last(bios));
      SizeConcat(Vecs(Front(bios)), Last(bios).vecs);
      if Front(bios) == [] {
        assert bios[0] == Last(bios);
      }
    }
  }

  lemma {:induction false} LaidConcat(xs: seq<Bio>, ys: seq<Bio>, sector: nat)
    requires Laid(xs, sector) && Laid(ys, sector + Sectors(xs))
    ensures Laid(xs + ys, sector) && Sectors(xs + ys) == Sectors(xs) + Sectors(ys)
  {
    if ys == [] {
      assert xs + ys == xs;
    } else {
      LaidConcat(xs, Front(ys), sector);
      assert Front(xs + ys) == xs + Front(ys);
    }
  }

  // ---- what a chain of bios holds

  lemma HoldsOne(b: Bio)
    requires Shape(b)
    ensures Holds([b], b.sector, b.sectors, b.vecs)
  {
    assert Front([b]) == [];
  }

  lemma HoldsConcat(xs: seq<Bio>, sector: nat, n: nat, vs: seq<Vec>, ys: seq<Bio>, m: nat, ws: seq<Vec>)
    requires Holds(xs, sector, n, vs) && Holds(ys, sector + n, m, ws)
    ensures Holds(xs + ys, sector, n + m, vs + ws)
  {
    assert Unfold(0, xs) && Unfold(0, ys);
    VecsConcat(xs, ys);
    LaidConcat(xs, ys, sector);
  }

  lemma HoldsSame(xs: seq<Bio>, ys: seq<Bio>, sector: nat, n: nat, vs: seq<Vec>)
    requires Holds(xs, sector, n, vs) && SameData(xs, ys)
    ensures Holds(ys, sector, n, vs)
  {
    assert Unfold(0, xs);
    VecsSame(xs, ys, sector);
    forall i | 0 <= i < |ys| ensures Shape(ys[i]) {
      assert Shape(xs[i]);
    }
  }

  lemma HoldsEnds(bios: seq<Bio>, sector: nat, n: nat, vs: seq<Vec>)
    requires Holds(bios, sector, n, vs) && bios != []
    ensures Shape(bios[0]) && Shape(Last(bios)) && vs != []
    ensures vs[0] == bios[0].vecs[0] && Last(vs) == Last(Last(bios).vecs)
  {
    assert Unfold(0, bios);
    ShapedVecs(bios);
  }

  lemma HoldsVecs(bios: seq<Bio>, sector: nat, n: nat, vs: seq<Vec>)
    requires Holds(bios, sector, n, vs)
    ensures Vecs(bios) == vs && Sectors(bios) == n && Laid(bios, sector)
  {
    assert Unfold(0, bios);
  }

  lemma HoldsShape(bios: seq<Bio>, sector: nat, n: nat, vs: seq<Vec>, i: nat)
    requires Holds(bios, sector, n, vs) && i < |bios|
    ensures Shape(bios[i])
  {
    assert Unfold(0, bios);
  }

  // ---- merging two chains

  /** What the fields of a request say of its bios: a cut into `nr` segments of the vectors they hold. */
  datatype View = View(nr: nat, sector: nat, sectors: nat, cut: seq<seq<Vec>>, data: seq<Vec>)

  ghost predicate Chain(q: Limits, bios: seq<Bio>, v: View) {
    && bios != []
    && Holds(bios, v.sector, v.sectors, v.data)
    && Cover(q, v.cut, v.data, v.nr, bios[0].front, Last(bios).back)
  }

  /** Side by side, with nothing joined. */
  function Beside(v: View, w: View): View {
    View(v.nr + w.nr, v.sector, v.sectors + w.sectors, v.cut + w.cut, v.data + w.data)
  }

  /** Side by side, with the last segment of one and the first of the other made one. */
  function Joined(v: View, w: View): View
    requires v.cut != [] && w.cut != [] && v.nr > 0
  {
    Beside(v, w).(nr := v.nr + w.nr - 1, cut := Fuse(v.cut, w.cut))
  }

  lemma ChainBeside(q: Limits, xs: seq<Bio>, v: View, ys: seq<Bio>, w: View)
    requires Chain(q, xs, v) && Chain(q, ys, w) && w.sector == v.sector + v.sectors
    ensures Chain(q, xs + ys, Beside(v, w))
  {
    HoldsConcat(xs, v.sector, v.sectors, v.data, ys, w.sectors, w.data);
    CoverConcat(q, v.cut, v.data, v.nr, xs[0].front, Last(xs).back, w.cut, w.data, w.nr, ys[0].front, Last(ys).back);
  }

  /** The size ll_merge_requests_fn computes for the segment that contiguous ends would form. */
  function Joint(xs: seq<Bio>, ys: seq<Bio>): nat
    requires xs != [] && ys != []
  {
    Last(xs).back + ys[0].front
  }

  /** The first request after ll_merge_requests_fn wrote the size of its only segment. */
  function Widened(xs: seq<Bio>, n: nat, size: nat): seq<Bio>
    requires xs != []
  {
    if n == 1 then xs[0 := xs[0].(front := size)] else xs
  }

  function WidenedBack(ys: seq<Bio>, m: nat, size: nat): seq<Bio>
    requires ys != []
  {
    if m == 1 then ys[|ys| - 1 := Last(ys).(back := size)] else ys
  }

  /** Writing the sizes leaves both requests right on their own, whether or not the merge succeeds. */
  lemma WidenedChain(q: Limits, xs: seq<Bio>, v: View, size: nat)
    requires Chain(q, xs, v) && size >= Last(xs).back
    ensures Chain(q, Widened(xs, v.nr, size), v)
  {
    var xs' := Widened(xs, v.nr, size);
    HoldsSame(xs, xs', v.sector, v.sectors, v.data);
    if v.nr == 1 {
      CoverOne(q, v.cut, v.data, xs[0].front, Last(xs).back);
      CoverWider(q, v.cut, v.data, 1, Last(xs).back, Last(xs).back, size, Last(xs').back);
    }
  }

  lemma WidenedBackChain(q: Limits, ys: seq<Bio>, w: View, size: nat)
    requires Chain(q, ys, w) && size >= ys[0].front
    ensures Chain(q, WidenedBack(ys, w.nr, size), w)
  {
    var ys' := WidenedBack(ys, w.nr, size);
    HoldsSame(ys, ys', w.sector, w.sectors, w.data);
    if w.nr == 1 {
      CoverOne(q, w.cut, w.data, ys[0].front, Last(ys).back);
      CoverWider(q, w.cut, w.data, 1, ys[0].front, ys[0].front, ys'[0].front, size);
    }
  }

  /** blk_phys_contig_segment, for bios with data. */
  predicate Contiguous(q: Limits, b: Bio, next: Bio)
    requires b.vecs != [] && next.vecs != []
  {
    && q.cluster && b.back + next.front <= q.maxSegmentSize
    && Joinable(q, Last(b.vecs), next.vecs[0])
  }

  /** total_phys_segments: one fewer than the sum if the ends are contiguous. */
  function JointCount(q: Limits, xs: seq<Bio>, n: nat, ys: seq<Bio>, m: nat): int
    requires xs != [] && ys != []
  {
    n + m - if Last(xs).vecs != [] && ys[0].vecs != [] && Contiguous(q, Last(xs), ys[0]) then 1 else 0
  }

  /** Contiguous ends: one segment fewer, with the sizes as written. */
  lemma ChainJoined(q: Limits, xs: seq<Bio>, v: View, ys: seq<Bio>, w: View)
    requires Chain(q, xs, v) && Chain(q, ys, w) && w.sector == v.sector + v.sectors
    requires Shape(Last(xs)) && Shape(ys[0]) && Contiguous(q, Last(xs), ys[0])
    ensures v.cut != [] && w.cut != [] && v.nr > 0
    ensures var size := Joint(xs, ys);
            Chain(q, Widened(xs, v.nr, size) + WidenedBack(ys, w.nr, size), Joined(v, w))
  {
    var size := Joint(xs, ys);
    HoldsEnds(xs, v.sector, v.sectors, v.data);
    HoldsEnds(ys, w.sector, w.sectors, w.data);
    CoverFuse(q, v.cut, v.data, v.nr, xs[0].front, Last(xs).back, w.cut, w.data, w.nr, ys[0].front, Last(ys).back);
    WidenedChain(q, xs, v, size);
    WidenedBackChain(q, ys, w, size);
    HoldsConcat(Widened(xs, v.nr, size), v.sector, v.sectors, v.data, WidenedBack(ys, w.nr, size), w.sectors, w.data);
    JoinedEnds(xs, v.nr, ys, w.nr, size);
  }

  lemma JoinedEnds(xs: seq<Bio>, n: nat, ys: seq<Bio>, m: nat, size: nat)
    requires xs != [] && ys != []
    ensures var bios := Widened(xs, n, size) + WidenedBack(ys, m, size);
            && bios[0].front == (if n == 1 then size else xs[0].front)
            && Last(bios).back == (if m == 1 then size else Last(ys).back)
  {
  }

  // ---- recounts

  lemma SingleChain(q: Limits, b: Bio, parts: seq<seq<Vec>>)
    requires Shape(b) && Cover(q, parts, b.vecs, b.phys, b.front, b.back)
    ensures Chain(q, [b], View(b.phys, b.sector, b.sectors, parts, b.vecs))
  {
    HoldsOne(b);
  }

  lemma RecountedChain(q: Limits, bios: seq<Bio>, v: View, i: nat, b: Bio)
    requires Chain(q, bios, v) && i < |bios|
    requires b.vecs == bios[i].vecs && b.sector == bios[i].sector && b.sectors == bios[i].sectors
    requires b.front >= bios[i].front && b.back >= bios[i].back
    ensures Chain(q, bios[i := b], v)
  {
    var bios' := bios[i := b];
    HoldsSame(bios, bios', v.sector, v.sectors, v.data);
    CoverWider(q, v.cut, v.data, v.nr, bios[0].front, Last(bios).back, bios'[0].front, Last(bios').back);
  }

  /** The bios after blk_recalc_rq_segments. */
  function Recounted(bios: seq<Bio>, front: nat, back: nat): seq<Bio>
    requires bios != []
  {
    var bios1 := bios[0 := bios[0].(front := front)];
    bios1[|bios1| - 1 := Last(bios1).(back := back)]
  }

  lemma RecalcChain(q: Limits, bios: seq<Bio>, v: View, n: nat, front: nat, back: nat, parts: seq<seq<Vec>>)
    requires Chain(q, bios, v) && Cover(q, parts, v.data, n, front, back)
    ensures Chain(q, Recounted(bios, front, back), v.(nr := n, cut := parts))
  {
    HoldsSame(bios, Recounted(bios, front, back), v.sector, v.sectors, v.data);
  }

  /** A recount, with the cut it found. */
  method Recut(q: Limits, vs: seq<Vec>, front: nat, back: nat)
    returns (nr: nat, front': nat, back': nat, ghost parts: seq<seq<Vec>>)
    requires vs != []
    ensures Cover(q, parts, vs, nr, front', back') && front' >= front && back' >= back
    ensures nr == |Counted(q, vs)|
  {
    nr, front', back' := Recalc(q, vs, front, back);
    parts := Counted(q, vs);
    CountedCovers(q, vs, front', back');
  }

  /** blk_recount_segments */
  method RecountBio(q: Limits, b: Bio) returns (b': Bio, ghost parts: seq<seq<Vec>>)
    requires Shape(b)
    ensures b'.valid && b'.vecs == b.vecs && b'.sector == b.sector && b'.sectors == b.sectors
    ensures b'.front >= b.front && b'.back >= b.back && b'.phys == |Counted(q, b.vecs)|
    ensures Cover(q, parts, b.vecs, b'.phys, b'.front, b'.back)
  {
    var nr, front, back;
    nr, front, back, parts := Recut(q, b.vecs, b.front, b.back);
    b' := b.(phys := nr, front := front, back := back, valid := true);
  }

  /** What bio_phys_segments returns. */
  function PhysOf(q: Limits, b: Bio): nat { if b.valid then b.phys else |Counted(q, b.vecs)| }

  /** bio_phys_segments: recount unless BIO_SEG_VALID is set. */
  method PhysSegments(q: Limits, b: Bio) returns (b': Bio, ghost parts: seq<seq<Vec>>)
    requires BioOk(q, b)
    ensures b'.valid && Shape(b') && b'.vecs == b.vecs && b'.sector == b.sector && b'.sectors == b.sectors
    ensures Cover(q, parts, b.vecs, b'.phys, b'.front, b'.back)
    ensures b'.phys == PhysOf(q, b) && (b.valid ==> b' == b)
  {
    if b.valid {
      b' := b;
      parts :| Cover(q, parts, b.vecs, b.phys, b.front, b.back);
    } else {
      b', parts := RecountBio(q, b);
    }
  }

  // ---- merging in place

  /** The bio ends where the request starts, or starts where it ends. */
  predicate Touches(bio: Bio, sector: nat, dataLen: nat) {
    bio.sector == sector + dataLen / 512 || bio.sector + bio.sectors == sector
  }

  datatype Place = BackEnd | FrontEnd | Apart

  /** What must agree for a merge: data direction, REQ_DISCARD, REQ_SECURE, the disk. */
  datatype Kind = Kind(write: bool, discard: bool, secure: bool, disk: nat)

  class Request {
    const q: Limits
    var bios: seq<Bio>
    var sector: nat              // __sector
    var dataLen: nat             // __data_len
    var nr: nat                  // nr_phys_segments
    const kind: Kind
    var special: bool
    var noMerge: bool
    ghost var view: View         // what the fields claim

    ghost predicate Valid()
      reads this
    {
      && Chain(q, bios, view)
      && nr == view.nr && sector == view.sector && dataLen == 512 * view.sectors
    }

    ghost function Data(): seq<Vec>
      reads this
    {
      view.data
    }

    /** init_request_from_bio */
    constructor (q: Limits, bio: Bio, kind: Kind)
      requires BioOk(q, bio)
      ensures Valid() && this.q == q && this.kind == kind && nr == PhysOf(q, bio)
      ensures Data() == bio.vecs && sector == bio.sector && !special && !noMerge
    {
      var b;
      ghost var parts;
      b, parts := PhysSegments(q, bio);
      this.q, this.kind, special, noMerge := q, kind, false, false;
      bios, nr, sector, dataLen := [b], b.phys, b.sector, 512 * b.sectors;
      view := View(b.phys, b.sector, b.sectors, parts, b.vecs);
      SingleChain(q, b, parts);
    }

    /** blk_rq_map_sg: the scatterlist fits in as many entries as the request says. */
    method MapRequest() returns (sg: seq<Sg>)
      requires Valid()
      ensures |sg| <= nr && Data() == Vecs(bios) && SgBytes(sg) == Bytes(Data())
    {
      HoldsVecs(bios, view.sector, view.sectors, view.data);
      sg := MapSg(q, Vecs(bios));
      CoverPartition(q, view.cut, view.data, view.nr, bios[0].front, Last(bios).back);
    }

    /** blk_recalc_rq_segments */
    method RecalcSegments()
      requires Valid()
      modifies this`bios, this`nr, this`view
      ensures Valid() && Data() == old(Data()) && SameData(old(bios), bios) && nr == |Counted(q, Data())|
    {
      HoldsEnds(bios, view.sector, view.sectors, view.data);
      HoldsVecs(bios, view.sector, view.sectors, view.data);
      var n, front, back;
      ghost var parts;
      n, front, back, parts := Recut(q, Vecs(bios), bios[0].front, Last(bios).back);
      RecalcChain(q, bios, view, n, front, back, parts);
      bios, nr, view := Recounted(bios, front, back), n, view.(nr := n, cut := parts);
    }

    /** The recount of one bio of the chain. */
    method RecountAt(i: nat)
      requires Valid() && i < |bios|
      modifies this`bios
      ensures Valid() && SameData(old(bios), bios) && bios == old(bios)[i := bios[i]] && bios[i].valid
    {
      if !bios[i].valid {
        HoldsShape(bios, view.sector, view.sectors, view.data, i);
        var b, _ := RecountBio(q, bios[i]);
        RecountedChain(q, bios, view, i, b);
        bios := bios[i := b];
      }
    }

    /** The checks shared by ll_back_merge_fn and ll_front_merge_fn, with the recounts they do on the way. */
    method NewSegments(bio: Bio, end: nat, integrity: bool) returns (ok: bool, bio': Bio, ghost w: View)
      requires Valid() && BioOk(q, bio) && end < |bios|
      modifies this`bios, this`noMerge
      ensures Valid() && SameData(old(bios), bios)
      ensures BioOk(q, bio') && bio'.vecs == bio.vecs && bio'.sector == bio.sector && bio'.sectors == bio.sectors
      ensures ok <==> dataLen / 512 + bio.sectors <= q.maxSectors && nr + PhysOf(q, bio) <= q.maxSegments && integrity
      ensures ok ==> bio'.phys == PhysOf(q, bio)
      ensures ok ==> Chain(q, [bio'], w) && w.nr == bio'.phys
      ensures ok ==> w.sector == bio.sector && w.sectors == bio.sectors && w.data == bio.vecs
      ensures noMerge == (old(noMerge) || !ok)
    {
      bio', w := bio, View(0, 0, 0, [], []);
      if dataLen / 512 + bio.sectors > q.maxSectors {
        noMerge := true;
        return false, bio', w;
      }
      RecountAt(end);
      ghost var parts;
      bio', parts := PhysSegments(q, bio);
      SingleChain(q, bio', parts);
      w := View(bio'.phys, bio'.sector, bio'.sectors, parts, bio'.vecs);
      ok := nr + bio'.phys <= q.maxSegments && integrity;
      if !ok {
        noMerge := true;
      }
    }

    /** The request takes over a merged chain. */
    method Take(all: seq<Bio>, segments: nat, length: nat, start: nat, ghost v: View)
      requires Chain(q, all, v) && segments == v.nr && start == v.sector && length == 512 * v.sectors
      modifies this`bios, this`nr, this`dataLen, this`view, this`sector
      ensures Valid() && bios == all && nr == segments && dataLen == length && sector == start && view == v
    {
      bios, nr, dataLen, sector, view := all, segments, length, start, v;
    }

    /** bio_attempt_back_merge of a bio that starts where the request ends. */
    method BackMerge(bio: Bio, integrity: bool) returns (ok: bool, bio': Bio)
      requires Valid() && BioOk(q, bio) && bio.sector == sector + dataLen / 512
      modifies this`bios, this`noMerge, this`nr, this`dataLen, this`view, this`sector
      ensures Valid() && BioOk(q, bio') && bio'.vecs == bio.vecs && sector == old(sector)
      ensures ok <==>
                && old(dataLen) / 512 + bio.sectors <= q.maxSectors
                && old(nr) + PhysOf(q, bio) <= q.maxSegments && integrity
      ensures noMerge == (old(noMerge) || !ok)
      ensures Data() == if ok then old(Data()) + bio.vecs else old(Data())
      ensures nr == old(nr) + if ok then PhysOf(q, bio) else 0
    {
      ghost var w;
      ok, bio', w := NewSegments(bio, |bios| - 1, integrity);
      if ok {
        ChainBeside(q, bios, view, [bio'], w);
        Take(bios + [bio'], nr + bio'.phys, dataLen + 512 * bio'.sectors, sector, Beside(view, w));
      }
    }

    /** bio_attempt_front_merge of a bio that ends where the request starts. */
    method FrontMerge(bio: Bio, integrity: bool) returns (ok: bool, bio': Bio)
      requires Valid() && BioOk(q, bio) && bio.sector + bio.sectors == sector
      modifies this`bios, this`noMerge, this`nr, this`dataLen, this`view, this`sector
      ensures Valid() && BioOk(q, bio') && bio'.vecs == bio.vecs
      ensures ok <==>
                && old(dataLen) / 512 + bio.sectors <= q.maxSectors
                && old(nr) + PhysOf(q, bio) <= q.maxSegments && integrity
      ensures sector == (if ok then bio.sector else old(sector))
      ensures noMerge == (old(noMerge) || !ok)
      ensures Data() == if ok then bio.vecs + old(Data()) else old(Data())
      ensures nr == old(nr) + if ok then PhysOf(q, bio) else 0
    {
      ghost var w;
      ok, bio', w := NewSegments(bio, 0, integrity);
      if ok {
        ChainBeside(q, [bio'], w, bios, view);
        Take([bio'] + bios, nr + bio'.phys, dataLen + 512 * bio'.sectors, bio'.sector, Beside(w, view));
      }
    }

    /** blk_try_merge: where a bio touches the request. */
    method TryMerge(bio: Bio) returns (place: Place)
      requires Valid()
      ensures place == BackEnd <==> bio.sector == sector + dataLen / 512
      ensures place == FrontEnd <==> bio.sector + bio.sectors == sector && place != BackEnd
    {
      if sector + dataLen / 512 == bio.sector {
        return BackEnd;
      }
      if sector == bio.sector + bio.sectors {
        return FrontEnd;
      }
      return Apart;
    }

    /**
     blk_rq_merge_ok and the merge part of blk_queue_bio: `bioKind` is what the bio asks for, `alike`
     whether bio and request are both integrity protected or both not.
     */
    method MergeBio(bio: Bio, bioKind: Kind, alike: bool, integrity: bool) returns (merged: bool)
      requires Valid() && BioOk(q, bio)
      modifies this`bios, this`noMerge, this`nr, this`dataLen, this`view, this`sector
      ensures Valid()
      ensures var tried :=
                !old(noMerge) && !special && kind == bioKind && alike && Touches(bio, old(sector), old(dataLen));
              && (merged <==> tried && old(dataLen) / 512 + bio.sectors <= q.maxSectors
                              && old(nr) + PhysOf(q, bio) <= q.maxSegments && integrity)
              && noMerge == (old(noMerge) || (tried && !merged))
      ensures nr == old(nr) + if merged then PhysOf(q, bio) else 0
      ensures !merged ==> Data() == old(Data()) && sector == old(sector)
      ensures merged ==> if bio.sector == old(sector + dataLen / 512)
                         then Data() == old(Data()) + bio.vecs && sector == old(sector)
                         else Data() == bio.vecs + old(Data()) && sector == bio.sector == old(sector) - bio.sectors
    {
      merged := false;
      if noMerge || kind != bioKind || special || !alike {
        return;
      }
      var place := TryMerge(bio);
      var bio';
      if place == BackEnd {
        merged, bio' := BackMerge(bio, integrity);
      } else if place == FrontEnd {
        merged, bio' := FrontMerge(bio, integrity);
      }
    }

    /** ll_merge_requests_fn up to its last checks: the joint count, and the sizes it writes on the way. */
    method JointSegments(next: Request) returns (total: nat, ghost joint: View)
      requires Valid() && next.Valid() && this != next && q == next.q && next.sector == sector + dataLen / 512
      modifies this`bios, next`bios
      ensures Valid() && next.Valid()
      ensures Chain(q, bios + next.bios, joint) && joint.nr == total && joint.sector == sector
      ensures joint.sectors == view.sectors + next.view.sectors && joint.data == Data() + next.Data()
      ensures total == JointCount(q, old(bios), nr, old(next.bios), next.nr)
    {
      HoldsEnds(bios, view.sector, view.sectors, view.data);
      HoldsEnds(next.bios, next.view.sector, next.view.sectors, next.view.data);
      if Contiguous(q, Last(bios), next.bios[0]) {
        var size := Joint(bios, next.bios);
        ChainJoined(q, bios, view, next.bios, next.view);
        WidenedChain(q, bios, view, size);
        WidenedBackChain(q, next.bios, next.view, size);
        total, joint := nr + next.nr - 1, Joined(view, next.view);
        if nr == 1 {
          bios := bios[0 := bios[0].(front := size)];
        }
        if next.nr == 1 {
          next.bios := next.bios[|next.bios| - 1 := Last(next.bios).(back := size)];
        }
      } else {
        ChainBeside(q, bios, view, next.bios, next.view);
        total, joint := nr + next.nr, Beside(view, next.view);
      }
    }

    /**
     attempt_merge: append the bios of `next`.  On success `next` gives up its bios; on failure
     both requests stay valid, although segment sizes may already have been written.
     */
    method MergeRequests(next: Request, integrity: bool) returns (ok: bool)
      requires Valid() && next.Valid() && this != next && q == next.q
      modifies this`bios, this`nr, this`dataLen, this`view, this`sector, next`bios
      ensures Valid()
      ensures ok <==>
                && old(!noMerge && !next.noMerge && !special && !next.special) && kind == next.kind
                && old(sector + dataLen / 512 == next.sector && dataLen / 512 + next.dataLen / 512 <= q.maxSectors)
                && old(JointCount(q, bios, nr, next.bios, next.nr)) <= q.maxSegments && integrity
      ensures sector == old(sector)
      ensures ok ==> Data() == old(Data()) + old(next.Data()) && next.bios == []
      ensures ok ==> nr == old(JointCount(q, bios, nr, next.bios, next.nr)) && dataLen == old(dataLen + next.dataLen)
      ensures !ok ==> next.Valid() && Data() == old(Data()) && nr == old(nr)
    {
      ok := false;
      if noMerge || next.noMerge || kind.discard != next.kind.discard || kind.secure != next.kind.secure {
        return;
      }
      if sector + dataLen / 512 != next.sector {
        return;
      }
      if kind.write != next.kind.write || kind.disk != next.kind.disk || next.special {
        return;
      }
      if special || dataLen / 512 + next.dataLen / 512 > q.maxSectors {
        return;
      }
      var total;
      ghost var joint;
      total, joint := JointSegments(next);
      if total > q.maxSegments || !integrity {
        return;
      }
      Take(bios + next.bios, total, dataLen + next.dataLen, sector, joint);
      next.bios := [];
      ok := true;
    }
  }
}
