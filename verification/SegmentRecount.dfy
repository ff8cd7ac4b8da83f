/**
 The recount of block/blk-merge.c against every other way of cutting a request in which a page that has to
 be bounced shares its segment with no other.
 */
module SegmentRecount {
  import opened Segments

  /** A vector in high memory is alone. */
  predicate Alone(q: Limits, part: seq<Vec>) {
    |part| > 1 ==> forall i :: 0 <= i < |part| ==> !High(q, part[i])
  }

  predicate HighApart(q: Limits, parts: seq<seq<Vec>>) {
    forall i :: 0 <= i < |parts| ==> Alone(q, parts[i])
  }

  lemma {:induction false} CountedApart(q: Limits, vs: seq<Vec>)
    ensures HighApart(q, Counted(q, vs))
  {
    if vs != [] {
      CountedApart(q, Front(vs));
      CountedPartition(q, Front(vs));
      var m, v := Counted(q, Front(vs)), Last(vs);
      if m != [] && Fits(q, Last(m), v, LowPair(q, vs)) {
        TrimPartition(q, m, Front(vs));
        assert Last(Last(m)) == vs[|vs| - 2];
        AloneGrows(q, Last(m), v);
      }
    }
  }

  lemma AloneGrows(q: Limits, part: seq<Vec>, v: Vec)
    requires part != [] && Alone(q, part) && !High(q, Last(part)) && !High(q, v)
    ensures Alone(q, part + [v])
  {
  }

  lemma TrimApart(q: Limits, parts: seq<seq<Vec>>)
    requires parts != [] && Last(parts) != [] && HighApart(q, parts)
    ensures HighApart(q, Trim(parts))
  {
    assert Alone(q, Last(parts));
    assert forall i :: 0 <= i < |parts| - 1 ==> Alone(q, Front(parts)[i]) by {
      assert forall i :: 0 <= i < |parts| - 1 ==> Front(parts)[i] == parts[i];
    }
    if |Last(parts)| > 1 {
      assert Alone(q, Front(Last(parts)));
    }
  }

  /** The recount is never behind: fewer parts, or as many with a last one that is no larger. */
  lemma {:induction false} CountedAhead(q: Limits, parts: seq<seq<Vec>>, vs: seq<Vec>)
    requires Partition(q, parts, vs) && HighApart(q, parts)
    ensures Ahead(Counted(q, vs), parts)
    decreases |vs|
  {
    if vs != [] {
      TrimPartition(q, parts, vs);
      TrimApart(q, parts);
      CountedAhead(q, Trim(parts), Front(vs));
      CountedStep(q, parts, vs);
    }
  }

  lemma AddEither(q: Limits, m: seq<seq<Vec>>, v: Vec, low: bool)
    ensures var m' := Add(q, m, v, low);
            && m' != []
            && ((|m'| == |m| + 1 && Size(Last(m')) == v.len) ||
                (m != [] && |m'| == |m| && Size(Last(m')) == Size(Last(m)) + v.len))
            && (m != [] && Fits(q, Last(m), v, low) ==> |m'| == |m|)
  {
    SizeAppend([], v);
    assert [] + [v] == [v];
    if m != [] {
      SizeAppend(Last(m), v);
    }
  }

  /** One more vector leaves a cut ahead that takes it on wherever the other one does. */
  lemma AddedAhead(q: Limits, m: seq<seq<Vec>>, v: Vec, low: bool, parts: seq<seq<Vec>>)
    requires parts != [] && Last(parts) != [] && Last(Last(parts)) == v && Ahead(m, Trim(parts))
    requires |Last(parts)| > 1 && |m| == |parts| ==> Fits(q, Last(m), v, low)
    ensures Ahead(Add(q, m, v, low), parts)
  {
    AddEither(q, m, v, low);
    var part := Last(parts);
    assert part == Front(part) + [v];
    SizeAppend(Front(part), v);
  }

  lemma CountedStep(q: Limits, parts: seq<seq<Vec>>, vs: seq<Vec>)
    requires Partition(q, parts, vs) && vs != [] && parts != [] && Last(parts) != [] && HighApart(q, parts)
    requires Ahead(Counted(q, Front(vs)), Trim(parts))
    ensures Ahead(Counted(q, vs), parts)
  {
    TrimPartition(q, parts, vs);
    var m, part := Counted(q, Front(vs)), Last(parts);
    if |part| > 1 && |m| == |parts| {
      assert Segment(q, part) && Alone(q, part);
      BothEnd(q, m, Trim(parts), Front(vs));
      JoinsToo(q, part, Last(m));
      LowBoth(q, parts, vs);
    }
    AddedAhead(q, m, Last(vs), LowPair(q, vs), parts);
  }

  /** A segment of several vectors ends in two that are not in high memory. */
  lemma LowBoth(q: Limits, parts: seq<seq<Vec>>, vs: seq<Vec>)
    requires Partition(q, parts, vs) && vs != [] && parts != [] && |Last(parts)| > 1 && Alone(q, Last(parts))
    ensures LowPair(q, vs)
  {
    var part := Last(parts);
    assert vs == Flatten(Front(parts)) + part;
    assert vs[|vs| - 1] == part[|part| - 1] && vs[|vs| - 2] == part[|part| - 2];
  }

  lemma BothEnd(q: Limits, ps: seq<seq<Vec>>, rs: seq<seq<Vec>>, vs: seq<Vec>)
    requires ps == Counted(q, vs) && Partition(q, rs, vs) && ps != []
    ensures rs != [] && Last(ps) != [] && Last(rs) != [] && Last(Last(ps)) == Last(Last(rs))
  {
    CountedPartition(q, vs);
    TrimPartition(q, ps, vs);
    TrimPartition(q, rs, vs);
  }

  /**
   The recount cuts a request so that no page in high memory shares a segment, and no other way of doing that
   is shorter.
   */
  lemma RecountMinimal(q: Limits, parts: seq<seq<Vec>>, vs: seq<Vec>)
    requires Partition(q, parts, vs) && HighApart(q, parts)
    ensures Partition(q, Counted(q, vs), vs) && HighApart(q, Counted(q, vs)) && |Counted(q, vs)| <= |parts|
  {
    CountedPartition(q, vs);
    CountedApart(q, vs);
    CountedAhead(q, parts, vs);
  }
}
