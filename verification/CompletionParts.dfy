/**
 A request completed in any number of parts (blk_update_request, block/blk-core.c), each with or without
 an error: which bios end, and with what result, told from where their bytes lie in the request.
 */
module CompletionParts {
  import opened Common
  import opened Segments
  import opened Completion

  /** One call: how many bytes, and whether they failed. */
  datatype Part = Part(bytes: nat, error: bool)

  /** Where a bio's bytes begin in the request. */
  function Offset(bios: seq<Bio>, i: nat): nat
    requires i <= |bios|
  {
    if i == 0 then 0 else bios[0].size + Offset(bios[1..], i - 1)
  }

  /** Where a part's bytes begin. */
  function Start(parts: seq<Part>, k: nat): nat
    requires k <= |parts|
  {
    if k == 0 then 0 else parts[0].bytes + Start(parts[1..], k - 1)
  }

  /** Some byte from `lo` up to `hi` was completed by part `k`. */
  predicate Touches(parts: seq<Part>, k: nat, lo: int, hi: int)
    requires k < |parts|
  {
    && Start(parts, k) < hi && lo < Start(parts, k) + parts[k].bytes
    && lo < hi && parts[k].bytes > 0
  }

  /** No part that failed had a byte from `lo` up to `hi`. */
  predicate Clean(parts: seq<Part>, lo: int, hi: int) {
    forall k :: 0 <= k < |parts| && parts[k].error ==> !Touches(parts, k, lo, hi)
  }

  /** The chain after the parts, recounts included. */
  function Rest(q: Limits, bios: seq<Bio>, parts: seq<Part>): seq<Bio>
    decreases |parts|
  {
    if parts == [] then bios
    else Rest(q, Recounted(q, Left(bios, parts[0].bytes, parts[0].error)), parts[1..])
  }

  /** The bios that ended, in order. */
  function Outcome(q: Limits, bios: seq<Bio>, parts: seq<Part>): seq<End>
    decreases |parts|
  {
    if parts == [] then []
    else
      Ended(bios, parts[0].bytes, parts[0].error)
      + Outcome(q, Recounted(q, Left(bios, parts[0].bytes, parts[0].error)), parts[1..])
  }

  // ---- one part

  /** A bio ends with a part exactly if all its bytes are within it. */
  lemma {:induction false} EndsWithin(bios: seq<Bio>, n: nat, error: bool, i: nat)
    requires ChainOk(bios) && i < |bios|
    ensures i < |Ended(bios, n, error)| <==> Offset(bios, i) + bios[i].size <= n
    ensures i < |Ended(bios, n, error)| ==>
              Ended(bios, n, error)[i] == End(bios[i].id, bios[i].uptodate && !error)
    decreases |bios|
  {
    assert BioOk(bios[i]);
    if n >= bios[0].size && i > 0 {
      EndsWithin(bios[1..], n - bios[0].size, error, i - 1);
    }
  }

  lemma {:induction false} EndedNumber(bios: seq<Bio>, n: nat, error: bool)
    ensures |Ended(bios, n, error)| <= |bios|
    ensures |Left(bios, n, error)| == |bios| - |Ended(bios, n, error)|
    decreases |bios|
  {
    if bios != [] && n >= bios[0].size {
      EndedNumber(bios[1..], n - bios[0].size, error);
    }
  }

  /** What is left of a bio: its bytes begin where the part ends, if that is past where they began. */
  predicate Remains(b: Bio, lo: nat, b': Bio, lo': nat, n: nat, error: bool) {
    && b'.id == b.id
    && lo' == (if lo < n then 0 else lo - n)
    && lo' + b'.size == lo + b.size - n
    && b'.uptodate == (b.uptodate && !(error && lo < n))
  }

  lemma {:induction false} LeftBio(bios: seq<Bio>, n: nat, error: bool, i: nat)
    requires ChainOk(bios) && i < |bios| && n < Offset(bios, i) + bios[i].size
    ensures |Ended(bios, n, error)| <= i && |Left(bios, n, error)| == |bios| - |Ended(bios, n, error)|
    ensures var left, j := Left(bios, n, error), i - |Ended(bios, n, error)|;
            Remains(bios[i], Offset(bios, i), left[j], Offset(left, j), n, error)
    decreases |bios|
  {
    EndedNumber(bios, n, error);
    if n >= bios[0].size {
      assert i > 0;
      LeftBio(bios[1..], n - bios[0].size, error, i - 1);
      LaterBio(bios, n, error, i);
    } else {
      BegunBio(bios, n, error, i);
    }
  }

  /** The first bio ends. */
  lemma LaterBio(bios: seq<Bio>, n: nat, error: bool, i: nat)
    requires 0 < i < |bios| && n >= bios[0].size
    requires var rest, k := bios[1..], n - bios[0].size;
             && |Ended(rest, k, error)| <= i - 1 && i - 1 - |Ended(rest, k, error)| < |Left(rest, k, error)|
             && var left, j := Left(rest, k, error), i - 1 - |Ended(rest, k, error)|;
                Remains(rest[i - 1], Offset(rest, i - 1), left[j], Offset(left, j), k, error)
    ensures |Ended(bios, n, error)| <= i && i - |Ended(bios, n, error)| < |Left(bios, n, error)|
    ensures var left, j := Left(bios, n, error), i - |Ended(bios, n, error)|;
            Remains(bios[i], Offset(bios, i), left[j], Offset(left, j), n, error)
  {
  }

  /** The first bio is begun; the others come earlier. */
  lemma BegunBio(bios: seq<Bio>, n: nat, error: bool, i: nat)
    requires i < |bios| && n < bios[0].size
    ensures var left := [Advanced(bios[0], n, error)] + bios[1..];
            Remains(bios[i], Offset(bios, i), left[i], Offset(left, i), n, error)
  {
    var left := [Advanced(bios[0], n, error)] + bios[1..];
    assert left[1..] == bios[1..];
    if i > 0 {
      assert Offset(bios, i) >= bios[0].size;
      assert left[i] == bios[i];
    }
  }

  lemma {:induction false} SameOffset(xs: seq<Bio>, ys: seq<Bio>, i: nat)
    requires SameButSizes(xs, ys) && i <= |xs|
    ensures Offset(xs, i) == Offset(ys, i)
  {
    if i > 0 {
      SameOffset(xs[1..], ys[1..], i - 1);
    }
  }

  /** Bio `i` in the chain after a part that does not end it. */
  lemma NextBio(q: Limits, bios: seq<Bio>, n: nat, error: bool, i: nat) returns (next: seq<Bio>, j: nat)
    requires ChainOk(bios) && i < |bios| && n < Offset(bios, i) + bios[i].size
    ensures next == Recounted(q, Left(bios, n, error)) && ChainOk(next)
    ensures i == |Ended(bios, n, error)| + j && j < |next|
    ensures next[j].id == bios[i].id
    ensures Offset(next, j) == if Offset(bios, i) < n then 0 else Offset(bios, i) - n
    ensures Offset(next, j) + next[j].size == Offset(bios, i) + bios[i].size - n
    ensures next[j].uptodate == (bios[i].uptodate && !(error && Offset(bios, i) < n))
  {
    var left := Left(bios, n, error);
    LeftBio(bios, n, error, i);
    LeftTotal(bios, n, error);
    j, next := i - |Ended(bios, n, error)|, Recounted(q, left);
    RecountedSame(q, left);
    SameTotal(next, left);
    SameOffset(next, left, j);
  }

  // ---- all parts

  lemma CleanStep(parts: seq<Part>, lo: int, hi: int)
    requires parts != []
    ensures Clean(parts, lo, hi) <==>
              !(parts[0].error && Touches(parts, 0, lo, hi))
              && Clean(parts[1..], lo - parts[0].bytes, hi - parts[0].bytes)
  {
    var n, rest := parts[0].bytes, parts[1..];
    forall k | 0 < k < |parts|
      ensures parts[k] == rest[k - 1] && (Touches(parts, k, lo, hi) <==> Touches(rest, k - 1, lo - n, hi - n))
    {
    }
    if Clean(parts, lo, hi) {
      forall k | 0 <= k < |rest| && rest[k].error ensures !Touches(rest, k, lo - n, hi - n) {
        assert parts[k + 1].error && !Touches(parts, k + 1, lo, hi);
      }
    }
  }

  /** Bytes that are gone may as well begin where the rest does. */
  lemma CleanFrom(parts: seq<Part>, lo: int, lo': int, hi: int)
    requires lo <= 0 && lo' <= 0 && 0 < hi
    ensures Clean(parts, lo, hi) <==> Clean(parts, lo', hi)
  {
    forall k | 0 <= k < |parts| ensures Touches(parts, k, lo, hi) <==> Touches(parts, k, lo', hi) {
    }
  }

  /** The report of a bio whose bytes begin at `lo`, as entry `i` of what has ended. */
  predicate Reported(out: seq<End>, i: nat, parts: seq<Part>, b: Bio, lo: nat) {
    && (i < |out| <==> lo + b.size <= Start(parts, |parts|))
    && (i < |out| ==> out[i] == End(b.id, b.uptodate && Clean(parts, lo, lo + b.size)))
  }

  /**
   However a request is completed, a bio has ended exactly if all its bytes have been completed, and it ended
   well exactly if it was up to date and no part that had any of its bytes failed.
   */
  lemma {:induction false} PartsResult(q: Limits, bios: seq<Bio>, parts: seq<Part>, i: nat)
    requires ChainOk(bios) && i < |bios|
    ensures Reported(Outcome(q, bios, parts), i, parts, bios[i], Offset(bios, i))
    decreases |parts|
  {
    assert BioOk(bios[i]);
    if parts != [] {
      if Offset(bios, i) + bios[i].size <= parts[0].bytes {
        EndsFirst(q, bios, parts, i);
      } else {
        PartsRest(q, bios, parts, i);
      }
    }
  }

  /** A bio that ends with the first part. */
  lemma EndsFirst(q: Limits, bios: seq<Bio>, parts: seq<Part>, i: nat)
    requires ChainOk(bios) && i < |bios| && parts != [] && Offset(bios, i) + bios[i].size <= parts[0].bytes
    ensures Reported(Outcome(q, bios, parts), i, parts, bios[i], Offset(bios, i))
  {
    var n, lo: int, hi: int := parts[0].bytes, Offset(bios, i), Offset(bios, i) + bios[i].size;
    assert BioOk(bios[i]);
    EndsWithin(bios, n, parts[0].error, i);
    CleanStep(parts, lo, hi);
    GoneClean(parts[1..], lo - n, hi - n);
    StartAt(parts);
  }

  lemma StartAt(parts: seq<Part>)
    requires parts != []
    ensures Start(parts, |parts|) == parts[0].bytes + Start(parts[1..], |parts| - 1)
  {
  }

  /** Nothing more happens to bytes that are gone. */
  lemma GoneClean(parts: seq<Part>, lo: int, hi: int)
    requires hi <= 0
    ensures Clean(parts, lo, hi)
  {
  }

  /** A bio that does not end with the first part. */
  lemma {:induction false} PartsRest(q: Limits, bios: seq<Bio>, parts: seq<Part>, i: nat)
    requires ChainOk(bios) && i < |bios| && parts != [] && parts[0].bytes < Offset(bios, i) + bios[i].size
    ensures Reported(Outcome(q, bios, parts), i, parts, bios[i], Offset(bios, i))
    decreases |parts|, 0
  {
    var n, error, lo, hi := parts[0].bytes, parts[0].error, Offset(bios, i), Offset(bios, i) + bios[i].size;
    var next, j := NextBio(q, bios, n, error, i);
    PartsResult(q, next, parts[1..], j);
    CleanRest(parts, lo, hi, Offset(next, j));
    Later(Ended(bios, n, error), Outcome(q, next, parts[1..]), parts, bios[i], lo, next[j], Offset(next, j), j);
  }

  lemma Later(first: seq<End>, rest: seq<End>, parts: seq<Part>, b: Bio, lo: nat, b': Bio, lo': nat, j: nat)
    requires parts != [] && Reported(rest, j, parts[1..], b', lo') && b'.id == b.id
    requires lo' + b'.size == lo + b.size - parts[0].bytes
    requires (b'.uptodate && Clean(parts[1..], lo', lo' + b'.size)) == (b.uptodate && Clean(parts, lo, lo + b.size))
    ensures Reported(first + rest, |first| + j, parts, b, lo)
  {
    assert |first| + j < |first + rest| ==> (first + rest)[|first| + j] == rest[j];
  }

  lemma CleanRest(parts: seq<Part>, lo: int, hi: int, lo': int)
    requires parts != [] && lo < hi && parts[0].bytes < hi && 0 <= lo
    requires lo' == if lo < parts[0].bytes then 0 else lo - parts[0].bytes
    ensures Clean(parts, lo, hi) <==>
              !(parts[0].error && lo < parts[0].bytes) && Clean(parts[1..], lo', hi - parts[0].bytes)
  {
    CleanStep(parts, lo, hi);
    if lo < parts[0].bytes {
      CleanFrom(parts[1..], lo - parts[0].bytes, 0, hi - parts[0].bytes);
    }
  }

  /** In two calls: an error of the first stays with a bio it had bytes of, and with no other. */
  lemma TwoParts(q: Limits, bios: seq<Bio>, n: nat, m: nat, e1: bool, e2: bool, i: nat)
    requires ChainOk(bios) && i < |bios| && n < Offset(bios, i) + bios[i].size <= n + m
    ensures var first, second := Ended(bios, n, e1), Ended(Recounted(q, Left(bios, n, e1)), m, e2);
            && |first| <= i < |first| + |second|
            && second[i - |first|] ==
                 End(bios[i].id, bios[i].uptodate && !e2 && (Offset(bios, i) < n ==> !e1))
  {
    var next, j := NextBio(q, bios, n, e1, i);
    EndsWithin(next, m, e2, j);
  }

  /** How many bios have ended, and how many are left. */
  lemma {:induction false} PartsNumber(q: Limits, bios: seq<Bio>, parts: seq<Part>)
    requires ChainOk(bios)
    ensures |Outcome(q, bios, parts)| + |Rest(q, bios, parts)| == |bios| && ChainOk(Rest(q, bios, parts))
    decreases |parts|
  {
    if parts != [] {
      var n, error := parts[0].bytes, parts[0].error;
      var left := Left(bios, n, error);
      EndedNumber(bios, n, error);
      LeftTotal(bios, n, error);
      RecountedSame(q, left);
      SameTotal(Recounted(q, left), left);
      PartsNumber(q, Recounted(q, left), parts[1..]);
    }
  }
}
