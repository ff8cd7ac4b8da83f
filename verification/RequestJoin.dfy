/**
 When merging two requests saves a segment (ll_merge_requests_fn, block/blk-merge.c), told from the segments
 themselves.
 */
module RequestJoin {
  import opened Common
  import opened Segments
  import opened RequestMerge

  lemma JoinedLinks(q: Limits, p: seq<Vec>, r: seq<Vec>)
    requires p != [] && r != [] && Segment(q, p + r)
    ensures Joinable(q, Last(p), r[0])
  {
    assert Linked(q, p + r, |p|);
  }

  /** Two segments make one exactly if clustering is on, they are not too long together, and their ends meet. */
  lemma OneSegment(q: Limits, p: seq<Vec>, r: seq<Vec>)
    requires Segment(q, p) && Segment(q, r)
    ensures Segment(q, p + r) <==>
              q.cluster && Size(p) + Size(r) <= q.maxSegmentSize && Joinable(q, Last(p), r[0])
  {
    SizeConcat(p, r);
    if Segment(q, p + r) {
      JoinedLinks(q, p, r);
    } else if q.cluster && Size(p) + Size(r) <= q.maxSegmentSize && Joinable(q, Last(p), r[0]) {
      FuseSegment(q, p, r);
    }
  }

  /**
   With the sizes of the last segment of one request and the first of the other on record, the joint count is
   one below the sum if and only if the two segments can be one.
   */
  lemma JoinSaves(q: Limits, xs: seq<Bio>, v: View, ys: seq<Bio>, w: View)
    requires Chain(q, xs, v) && Chain(q, ys, w) && v.cut != [] && w.cut != []
    requires Size(Last(v.cut)) == Last(xs).back && Size(w.cut[0]) == ys[0].front
    ensures JointCount(q, xs, v.nr, ys, w.nr) ==
            v.nr + w.nr - if Segment(q, Last(v.cut) + w.cut[0]) then 1 else 0
  {
    HoldsEnds(xs, v.sector, v.sectors, v.data);
    HoldsEnds(ys, w.sector, w.sectors, w.data);
    CoverPartition(q, v.cut, v.data, v.nr, xs[0].front, Last(xs).back);
    CoverPartition(q, w.cut, w.data, w.nr, ys[0].front, Last(ys).back);
    FlattenEnds(q, v.cut, v.data);
    FlattenEnds(q, w.cut, w.data);
    assert Segment(q, Last(v.cut)) && Segment(q, w.cut[0]);
    OneSegment(q, Last(v.cut), w.cut[0]);
  }
}
