/**
 Physical segments of a request: which runs of memory vectors one scatterlist entry may cover, how
 blk_rq_map_sg and __blk_recalc_rq_segments of block/blk-merge.c cut a request into them, and why the
 cut of the mapper is the shortest.
 */
module Segments {

  /** A memory vector: physical start address, length, page frame. */
  datatype Vec = Vec(addr: int, len: nat, pfn: nat)

  /** The queue limits these functions read; `block` is an address or-ed with the segment boundary mask. */
  datatype Limits = Limits(cluster: bool, maxSegmentSize: nat, block: int -> int, bouncePfn: nat,
                           maxSegments: nat, maxSectors: nat)

  /** BIOVEC_PHYS_MERGEABLE and BIOVEC_SEG_BOUNDARY of two adjacent vectors. */
  predicate Joinable(q: Limits, v: Vec, w: Vec) {
    v.addr + v.len == w.addr && q.block(v.addr) == q.block(w.addr + w.len - 1)
  }

  function Size(vs: seq<Vec>): nat {
    if vs == [] then 0 else Size(vs[..|vs| - 1]) + vs[|vs| - 1].len
  }

  /** May one scatterlist entry cover these vectors? */
  ghost predicate Segment(q: Limits, part: seq<Vec>) {
    && part != []
    && (|part| > 1 ==> q.cluster && Size(part) <= q.maxSegmentSize)
    && (forall i :: 0 < i < |part| ==> Linked(q, part, i))
  }

  predicate Linked(q: Limits, part: seq<Vec>, i: int)
    requires 0 < i < |part|
  {
    Joinable(q, part[i - 1], part[i])
  }

  function Flatten<T>(parts: seq<seq<T>>): seq<T> {
    if parts == [] then [] else if |parts| == 1 then parts[0]
    else Flatten(parts[..|parts| - 1]) + parts[|parts| - 1]
  }

  /** A way to cut `vs` into segments. */
  ghost predicate Partition(q: Limits, parts: seq<seq<Vec>>, vs: seq<Vec>) {
    && Flatten(parts) == vs
    && (forall i :: 0 <= i < |parts| ==> Segment(q, parts[i]))
  }

  function Last<T>(xs: seq<T>): T
    requires xs != []
  {
    xs[|xs| - 1]
  }

  function Front<T>(xs: seq<T>): seq<T>
    requires xs != []
  {
    xs[..|xs| - 1]
  }

  lemma SizeAppend(vs: seq<Vec>, v: Vec)
    ensures Size(vs + [v]) == Size(vs) + v.len
  {
    assert (vs + [v])[..|vs|] == vs;
  }

  lemma {:induction false} SizeConcat(vs: seq<Vec>, ws: seq<Vec>)
    ensures Size(vs + ws) == Size(vs) + Size(ws)
  {
    if ws == [] {
      assert vs + ws == vs;
    } else {
      assert vs + ws == (vs + Front(ws)) + [Last(ws)];
      SizeConcat(vs, Front(ws));
      SizeAppend(vs + Front(ws), Last(ws));
    }
  }

  lemma FlattenAppend<T>(parts: seq<seq<T>>, part: seq<T>)
    ensures Flatten(parts + [part]) == Flatten(parts) + part
  {
    assert (parts + [part])[..|parts|] == parts;
  }

  lemma {:induction false} FlattenConcat<T>(ps: seq<seq<T>>, rs: seq<seq<T>>)
    ensures Flatten(ps + rs) == Flatten(ps) + Flatten(rs)
  {
    if rs == [] {
      assert ps + rs == ps;
    } else {
      assert ps + rs == (ps + Front(rs)) + [Last(rs)];
      FlattenConcat(ps, Front(rs));
      FlattenAppend(ps + Front(rs), Last(rs));
    }
  }

  // ---- cutting from left to right

  /** Both loops: can `v` extend the current segment?  `low` is the extra test of the recount. */
  predicate Fits(q: Limits, part: seq<Vec>, v: Vec, low: bool) {
    && part != [] && low && q.cluster
    && Size(part) + v.len <= q.maxSegmentSize
    && Joinable(q, Last(part), v)
  }

  function Add(q: Limits, parts: seq<seq<Vec>>, v: Vec, low: bool): seq<seq<Vec>> {
    if parts != [] && Fits(q, Last(parts), v, low) then Front(parts) + [Last(parts) + [v]] else parts + [[v]]
  }

  /** The entries blk_rq_map_sg makes, as runs of vectors. */
  function Mapped(q: Limits, vs: seq<Vec>): seq<seq<Vec>> {
    if vs == [] then [] else Add(q, Mapped(q, Front(vs)), Last(vs), true)
  }

  predicate High(q: Limits, v: Vec) { v.pfn > q.bouncePfn }

  /** Neither the last vector of `vs` nor the one before it is in high memory. */
  predicate LowPair(q: Limits, vs: seq<Vec>)
    requires vs != []
  {
    |vs| > 1 && !High(q, Last(vs)) && !High(q, vs[|vs| - 2])
  }

  /** The segments __blk_recalc_rq_segments counts: a high page never shares one. */
  function Counted(q: Limits, vs: seq<Vec>): seq<seq<Vec>> {
    if vs == [] then [] else Add(q, Counted(q, Front(vs)), Last(vs), LowPair(q, vs))
  }

  lemma SegmentExtend(q: Limits, part: seq<Vec>, v: Vec, low: bool)
    requires Segment(q, part) && Fits(q, part, v, low)
    ensures Segment(q, part + [v])
  {
    SizeAppend(part, v);
    forall i | 0 < i < |part| + 1 ensures Linked(q, part + [v], i) {
      if i < |part| {
        assert Linked(q, part, i);
      }
    }
  }

  lemma SegmentFront(q: Limits, part: seq<Vec>)
    requires Segment(q, part) && |part| > 1
    ensures Segment(q, Front(part)) && Joinable(q, Last(Front(part)), Last(part))
  {
    assert Linked(q, part, |part| - 1);
    forall i | 0 < i < |part| - 1 ensures Linked(q, Front(part), i) {
      assert Linked(q, part, i);
    }
  }

  lemma AddPartition(q: Limits, parts: seq<seq<Vec>>, vs: seq<Vec>, v: Vec, low: bool)
    requires Partition(q, parts, vs)
    ensures Partition(q, Add(q, parts, v, low), vs + [v])
  {
    var parts' := Add(q, parts, v, low);
    if parts != [] && Fits(q, Last(parts), v, low) {
      SegmentExtend(q, Last(parts), v, low);
      FlattenAppend(Front(parts), Last(parts) + [v]);
      assert Flatten(parts') == vs + [v];
    } else {
      FlattenAppend(parts, [v]);
    }
  }

  lemma {:induction false} MappedPartition(q: Limits, vs: seq<Vec>)
    ensures Partition(q, Mapped(q, vs), vs)
    ensures vs != [] ==> Mapped(q, vs) != []
  {
    if vs != [] {
      MappedPartition(q, Front(vs));
      AddPartition(q, Mapped(q, Front(vs)), Front(vs), Last(vs), true);
      assert vs == Front(vs) + [Last(vs)];
    }
  }

  lemma {:induction false} CountedPartition(q: Limits, vs: seq<Vec>)
    ensures Partition(q, Counted(q, vs), vs)
    ensures vs != [] ==> Counted(q, vs) != []
  {
    if vs != [] {
      CountedPartition(q, Front(vs));
      AddPartition(q, Counted(q, Front(vs)), Front(vs), Last(vs), LowPair(q, vs));
      assert vs == Front(vs) + [Last(vs)];
    }
  }

  // ---- the mapper's cut is minimal

  /** A partition without its last vector. */
  function Trim(parts: seq<seq<Vec>>): seq<seq<Vec>>
    requires parts != [] && Last(parts) != []
  {
    if |Last(parts)| == 1 then Front(parts) else Front(parts) + [Front(Last(parts))]
  }

  lemma TrimPartition(q: Limits, parts: seq<seq<Vec>>, vs: seq<Vec>)
    requires Partition(q, parts, vs) && vs != []
    ensures parts != [] && Last(parts) != [] && Last(Last(parts)) == Last(vs)
    ensures Partition(q, Trim(parts), Front(vs))
  {
    var part := Last(parts);
    assert Segment(q, part);
    assert vs == Flatten(Front(parts)) + part;
    if |part| > 1 {
      SegmentFront(q, part);
      FlattenAppend(Front(parts), Front(part));
    }
    assert Flatten(Trim(parts)) == Front(vs);
  }

  lemma AddSize(q: Limits, m: seq<seq<Vec>>, v: Vec)
    ensures var m' := Add(q, m, v, true);
            && m' != []
            && ((|m'| == |m| + 1 && Size(Last(m')) == v.len) ||
                (m != [] && |m'| == |m| && Size(Last(m')) == Size(Last(m)) + v.len))
            && (m != [] && Fits(q, Last(m), v, true) ==> |m'| == |m|)
  {
    SizeAppend([], v);
    assert [] + [v] == [v];
    if m != [] {
      SizeAppend(Last(m), v);
    }
  }

  /** A smaller run that ends in the same vector can take on whatever a segment goes on with. */
  lemma JoinsToo(q: Limits, part: seq<Vec>, run: seq<Vec>)
    requires Segment(q, part) && |part| > 1 && run != []
    requires Last(run) == Last(Front(part)) && Size(run) <= Size(Front(part))
    ensures Fits(q, run, Last(part), true) && Size(Front(part)) + Last(part).len == Size(part)
  {
    SegmentFront(q, part);
  }

  /** The mapper is never behind: fewer parts, or as many with a last one that is no larger. */
  predicate Ahead(m: seq<seq<Vec>>, parts: seq<seq<Vec>>) {
    |m| < |parts| || (|m| == |parts| && (m != [] ==> Size(Last(m)) <= Size(Last(parts))))
  }

  lemma {:induction false} MappedAhead(q: Limits, parts: seq<seq<Vec>>, vs: seq<Vec>)
    requires Partition(q, parts, vs)
    ensures Ahead(Mapped(q, vs), parts)
    decreases |vs|
  {
    if vs != [] {
      TrimPartition(q, parts, vs);
      MappedAhead(q, Trim(parts), Front(vs));
      AheadStep(q, parts, vs);
    }
  }

  lemma AheadStep(q: Limits, parts: seq<seq<Vec>>, vs: seq<Vec>)
    requires Partition(q, parts, vs) && vs != [] && parts != [] && Last(parts) != []
    requires Ahead(Mapped(q, Front(vs)), Trim(parts))
    ensures Ahead(Mapped(q, vs), parts)
  {
    TrimPartition(q, parts, vs);
    var v, m, part := Last(vs), Mapped(q, Front(vs)), Last(parts);
    assert Segment(q, part);
    AddSize(q, m, v);
    assert part == Front(part) + [v];
    SizeAppend(Front(part), v);
    if |part| > 1 && |m| == |parts| {
      SameEnds(q, m, Trim(parts), Front(vs));
      JoinsToo(q, part, Last(m));
    }
  }

  /** Two ways to cut the same vectors end in the same one. */
  lemma SameEnds(q: Limits, ps: seq<seq<Vec>>, rs: seq<seq<Vec>>, vs: seq<Vec>)
    requires ps == Mapped(q, vs) && Partition(q, rs, vs) && ps != []
    ensures rs != [] && Last(ps) != [] && Last(rs) != [] && Last(Last(ps)) == Last(Last(rs))
  {
    MappedPartition(q, vs);
    TrimPartition(q, ps, vs);
    TrimPartition(q, rs, vs);
  }

  /** No way of cutting a request into segments is shorter than the mapper's. */
  lemma MapperMinimal(q: Limits, parts: seq<seq<Vec>>, vs: seq<Vec>)
    requires Partition(q, parts, vs)
    ensures Partition(q, Mapped(q, vs), vs) && |Mapped(q, vs)| <= |parts|
  {
    MappedPartition(q, vs);
    MappedAhead(q, parts, vs);
  }

  /** The recount, which keeps high pages apart, never comes out below the mapper. */
  lemma RecountCovers(q: Limits, vs: seq<Vec>)
    ensures |Mapped(q, vs)| <= |Counted(q, vs)|
  {
    CountedPartition(q, vs);
    MappedAhead(q, Counted(q, vs), vs);
  }

  // ---- what the scatterlist denotes

  /** A scatterlist entry. */
  datatype Sg = Sg(addr: int, len: nat)

  /** The byte addresses from `addr` on. */
  function Range(addr: int, len: nat): seq<int> {
    if len == 0 then [] else Range(addr, len - 1) + [addr + len - 1]
  }

  /** The bytes of the vectors, in order. */
  function Bytes(vs: seq<Vec>): seq<int> {
    if vs == [] then [] else if |vs| == 1 then Range(vs[0].addr, vs[0].len)
    else Bytes(Front(vs)) + Range(Last(vs).addr, Last(vs).len)
  }

  function SgBytes(sgs: seq<Sg>): seq<int> {
    if sgs == [] then [] else if |sgs| == 1 then Range(sgs[0].addr, sgs[0].len)
    else SgBytes(Front(sgs)) + Range(Last(sgs).addr, Last(sgs).len)
  }

  function Entry(part: seq<Vec>): Sg { Sg(if part == [] then 0 else part[0].addr, Size(part)) }

  /** The scatterlist for a cut into segments. */
  function Entries(parts: seq<seq<Vec>>): seq<Sg> {
    if parts == [] then [] else Entries(Front(parts)) + [Entry(Last(parts))]
  }

  lemma {:induction false} RangeConcat(addr: int, n: nat, m: nat)
    ensures Range(addr, n + m) == Range(addr, n) + Range(addr + n, m)
  {
    if m > 0 {
      RangeConcat(addr, n, m - 1);
    }
  }

  lemma {:induction false} BytesConcat(vs: seq<Vec>, ws: seq<Vec>)
    ensures Bytes(vs + ws) == Bytes(vs) + Bytes(ws)
  {
    if ws == [] {
      assert vs + ws == vs;
    } else {
      assert Front(vs + ws) == vs + Front(ws);
      BytesConcat(vs, Front(ws));
      var tail := Range(Last(ws).addr, Last(ws).len);
      assert Bytes(vs) + (Bytes(Front(ws)) + tail) == (Bytes(vs) + Bytes(Front(ws))) + tail;
    }
  }

  /** The vectors of one segment are contiguous, so one entry stands for all of them. */
  lemma {:induction false} SegmentBytes(q: Limits, part: seq<Vec>)
    requires Segment(q, part)
    ensures Bytes(part) == Range(part[0].addr, Size(part))
    ensures Last(part).addr + Last(part).len == part[0].addr + Size(part)
  {
    if |part| > 1 {
      SegmentFront(q, part);
      SegmentBytes(q, Front(part));
      RangeConcat(part[0].addr, Size(Front(part)), Last(part).len);
    } else {
      assert Front(part) == [];
    }
  }

  lemma {:induction false} PartitionBytes(q: Limits, parts: seq<seq<Vec>>)
    requires forall i :: 0 <= i < |parts| ==> Segment(q, parts[i])
    ensures SgBytes(Entries(parts)) == Bytes(Flatten(parts))
    ensures |Entries(parts)| == |parts|
  {
    if parts != [] {
      PartitionBytes(q, Front(parts));
      assert Segment(q, Last(parts));
      SegmentBytes(q, Last(parts));
      BytesConcat(Flatten(Front(parts)), Last(parts));
      assert Front(Entries(parts)) == Entries(Front(parts));
    }
  }
}
