/** The two loops of block/blk-merge.c over the vectors of a request. */
module SegmentCount {
  import opened Common
  import opened Segments

  function Max(a: nat, b: nat): nat { if a < b then b else a }

  lemma PrefixStep(vs: seq<Vec>, i: nat)
    requires i < |vs|
    ensures vs[..i + 1] != [] && Front(vs[..i + 1]) == vs[..i] && Last(vs[..i + 1]) == vs[i]
  {
  }

  /** Segment sizes after one more vector. */
  lemma AddSizes(q: Limits, parts: seq<seq<Vec>>, v: Vec, low: bool)
    requires forall i :: 0 <= i < |parts| ==> Segment(q, parts[i])
    ensures var parts' := Add(q, parts, v, low);
            var grows := parts != [] && Fits(q, Last(parts), v, low);
            && parts' != []
            && Size(Last(parts')) == (if grows then Size(Last(parts)) else 0) + v.len
            && (grows ==> |parts'| == |parts| && (|parts| > 1 ==> parts'[0] == parts[0]))
            && (!grows ==> |parts'| == |parts| + 1 && (parts != [] ==> parts'[0] == parts[0]))
  {
    if parts != [] && Fits(q, Last(parts), v, low) {
      SizeAppend(Last(parts), v);
    } else {
      assert Size([v]) == v.len;
    }
  }

  /** One iteration of the recount, in terms of what the loop keeps: count, current size, first size. */
  lemma CountedStep(q: Limits, vs: seq<Vec>, i: nat)
    requires i < |vs|
    ensures var parts, parts' := Counted(q, vs[..i]), Counted(q, vs[..i + 1]);
            var grows := i > 0 && !High(q, vs[i]) && !High(q, vs[i - 1]) && q.cluster
                         && parts != [] && Size(Last(parts)) + vs[i].len <= q.maxSegmentSize
                         && Joinable(q, vs[i - 1], vs[i]);
            && (i > 0 ==> parts != []) && parts' != []
            && |parts'| == |parts| + (if grows then 0 else 1)
            && Size(Last(parts')) == (if grows then Size(Last(parts)) else 0) + vs[i].len
            && (|parts'| > 1 ==> parts != [] && parts'[0] == parts[0])
  {
    var parts := Counted(q, vs[..i]);
    var low := LowPair(q, vs[..i + 1]);
    PrefixStep(vs, i);
    CountedPartition(q, vs[..i]);
    AddSizes(q, parts, vs[i], low);
    if i > 0 {
      TrimPartition(q, parts, vs[..i]);
    }
  }

  /**
   __blk_recalc_rq_segments over the vectors of a bio chain; `front` and `back` are the
   bi_seg_front_size of its first bio and the bi_seg_back_size of its last.
   */
  method Recalc(q: Limits, vs: seq<Vec>, front: nat, back: nat) returns (nr: nat, front': nat, back': nat)
    requires vs != []
    ensures nr == |Counted(q, vs)| > 0
    ensures front' == Max(front, Size(Counted(q, vs)[0]))
    ensures back' == Max(back, Size(Last(Counted(q, vs))))
  {
    nr, front', back' := 0, front, back;
    var segSize, highprv, i := 0, true, 0;
    while i < |vs|
      invariant 0 <= i <= |vs|
      invariant nr == |Counted(q, vs[..i])| && (i > 0 ==> nr > 0)
      invariant i > 0 ==> segSize == Size(Last(Counted(q, vs[..i])))
      invariant highprv == (i == 0 || High(q, vs[i - 1]))
      invariant front' == if nr > 1 then Max(front, Size(Counted(q, vs[..i])[0])) else front
    {
      var bv := vs[i];
      CountedStep(q, vs, i);
      var high := High(q, bv);
      if !high && !highprv && q.cluster && segSize + bv.len <= q.maxSegmentSize && Joinable(q, vs[i - 1], bv) {
        segSize := segSize + bv.len;
      } else {
        if nr == 1 && segSize > front' {
          front' := segSize;
        }
        nr := nr + 1;
        segSize := bv.len;
        highprv := high;
      }
      i := i + 1;
    }
    assert vs[..i] == vs;
    if nr == 1 && segSize > front' {
      front' := segSize;
    }
    if segSize > back' {
      back' := segSize;
    }
  }

  /** The mapper's entries for the first `n` vectors, by name. */
  ghost predicate Maps(q: Limits, vs: seq<Vec>, n: nat, sg: seq<Sg>) {
    && (n == 0 <==> sg == []) && n <= |vs|
    && forall k {:trigger Unfold(k, sg)} :: Unfold(k, sg) ==> sg == Entries(Mapped(q, vs[..n]))
  }

  /** One iteration of the mapper: the current entry grows, or a new one starts. */
  function NextSg(q: Limits, sg: seq<Sg>, prev: Vec, v: Vec): seq<Sg>
    requires sg != []
  {
    if q.cluster && Last(sg).len + v.len <= q.maxSegmentSize && Joinable(q, prev, v)
    then Front(sg) + [Sg(Last(sg).addr, Last(sg).len + v.len)] else sg + [Sg(v.addr, v.len)]
  }

  lemma MapsStep(q: Limits, vs: seq<Vec>, n: nat, sg: seq<Sg>)
    requires Maps(q, vs, n, sg) && 0 < n < |vs|
    ensures Maps(q, vs, n + 1, NextSg(q, sg, vs[n - 1], vs[n]))
  {
    assert sg == Entries(Mapped(q, vs[..n])) by {
      assert Unfold(0, sg);
    }
    NextEntries(q, vs[..n], vs[n]);
    assert vs[..n + 1] == vs[..n] + [vs[n]];
  }

  lemma NextEntries(q: Limits, vs: seq<Vec>, v: Vec)
    requires vs != []
    ensures Entries(Mapped(q, vs)) != []
    ensures Entries(Mapped(q, vs + [v])) == NextSg(q, Entries(Mapped(q, vs)), Last(vs), v)
  {
    MappedEnd(q, vs);
    LastEntry(Mapped(q, vs));
    AddEntries(q, Mapped(q, vs), v);
    MappedAppend(q, vs, v);
  }

  lemma MapsFirst(q: Limits, vs: seq<Vec>)
    requires vs != []
    ensures Maps(q, vs, 1, [Sg(vs[0].addr, vs[0].len)])
  {
    var v := vs[0];
    MappedAppend(q, [], v);
    AddEntries(q, [], v);
    assert vs[..1] == [v] == [] + [v];
  }

  lemma MapsAll(q: Limits, vs: seq<Vec>, sg: seq<Sg>)
    requires Maps(q, vs, |vs|, sg)
    ensures sg == Entries(Mapped(q, vs)) && SgBytes(sg) == Bytes(vs)
    ensures forall parts :: Partition(q, parts, vs) ==> |sg| <= |parts|
  {
    assert sg == Entries(Mapped(q, vs)) by {
      assert Unfold(0, sg);
      assert vs[..|vs|] == vs;
    }
    MappedPartition(q, vs);
    PartitionBytes(q, Mapped(q, vs));
    forall parts | Partition(q, parts, vs) ensures |sg| <= |parts| {
      MapperMinimal(q, parts, vs);
    }
  }

  lemma MappedAppend(q: Limits, vs: seq<Vec>, v: Vec)
    ensures Mapped(q, vs + [v]) == Add(q, Mapped(q, vs), v, true)
  {
    assert Front(vs + [v]) == vs;
  }

  lemma LastEntry(parts: seq<seq<Vec>>)
    requires parts != []
    ensures Entries(parts) != [] && Last(Entries(parts)) == Entry(Last(parts))
  {
  }

  lemma MappedEnd(q: Limits, vs: seq<Vec>)
    requires vs != []
    ensures Mapped(q, vs) != [] && Last(Mapped(q, vs)) != [] && Last(Last(Mapped(q, vs))) == Last(vs)
  {
    MappedPartition(q, vs);
    TrimPartition(q, Mapped(q, vs), vs);
  }

  lemma AddEntries(q: Limits, parts: seq<seq<Vec>>, v: Vec)
    ensures Entries(Add(q, parts, v, true)) ==
            if parts != [] && Fits(q, Last(parts), v, true)
            then Front(Entries(parts)) + [Sg(Entry(Last(parts)).addr, Size(Last(parts)) + v.len)]
            else Entries(parts) + [Sg(v.addr, v.len)]
  {
    if parts != [] && Fits(q, Last(parts), v, true) {
      GrownEntries(parts, v);
    }
    EntriesAppend(parts, [v]);
    assert Size([v]) == v.len;
  }

  lemma EntriesAppend(parts: seq<seq<Vec>>, part: seq<Vec>)
    ensures Entries(parts + [part]) == Entries(parts) + [Entry(part)]
    ensures Front(Entries(parts + [part])) == Entries(parts)
  {
    assert Front(parts + [part]) == parts;
  }

  lemma GrownEntries(parts: seq<seq<Vec>>, v: Vec)
    requires parts != [] && Last(parts) != []
    ensures Entries(Front(parts) + [Last(parts) + [v]]) ==
            Front(Entries(parts)) + [Sg(Entry(Last(parts)).addr, Size(Last(parts)) + v.len)]
  {
    EntryGrown(Last(parts), v);
    EntriesAppend(Front(parts), Last(parts) + [v]);
    EntriesFront(parts);
  }

  lemma EntryGrown(part: seq<Vec>, v: Vec)
    requires part != []
    ensures Entry(part + [v]) == Sg(Entry(part).addr, Size(part) + v.len)
  {
    SizeAppend(part, v);
  }

  lemma EntriesFront(parts: seq<seq<Vec>>)
    requires parts != []
    ensures Entries(parts) != [] && Front(Entries(parts)) == Entries(Front(parts))
  {
  }

  /** The loop of blk_rq_map_sg, before padding and drain. */
  method MapSg(q: Limits, vs: seq<Vec>) returns (sg: seq<Sg>)
    ensures sg == Entries(Mapped(q, vs))
    ensures SgBytes(sg) == Bytes(vs)
    ensures forall parts :: Partition(q, parts, vs) ==> |sg| <= |parts|
  {
    sg := [];
    var i := 0;
    while i < |vs|
      invariant Maps(q, vs, i, sg)
    {
      if i == 0 {
        MapsFirst(q, vs);
        sg := [Sg(vs[0].addr, vs[0].len)];
      } else {
        MapsStep(q, vs, i, sg);
        if q.cluster && Last(sg).len + vs[i].len <= q.maxSegmentSize && Joinable(q, vs[i - 1], vs[i]) {
          sg := Front(sg) + [Sg(Last(sg).addr, Last(sg).len + vs[i].len)];
        } else {
          sg := sg + [Sg(vs[i].addr, vs[i].len)];
        }
      }
      i := i + 1;
    }
    MapsAll(q, vs, sg);
  }
}
