/**
 Completing part of a request (blk_update_request and req_bio_endio, block/blk-core.c): what is left
 of its chain of bios.
 */
module Completion {
  import opened Common
  import opened Segments
  import SegmentCount
  import RequestMerge

  /**
   A bio: bi_sector, bi_size, its vectors from bi_idx on, BIO_UPTODATE, and the segment fields
   bi_seg_front_size, bi_seg_back_size, bi_phys_segments and BIO_SEG_VALID.
   */
  datatype Bio = Bio(id: nat, sector: nat, size: nat, vecs: seq<Vec>, uptodate: bool,
                     front: nat, back: nat, phys: nat, valid: bool)

  /** A finished bio and whether it went without error. */
  datatype End = End(id: nat, ok: bool)

  predicate BioOk(b: Bio) { b.size == Size(b.vecs) && b.size > 0 }

  predicate ChainOk(bios: seq<Bio>) { forall i :: 0 <= i < |bios| ==> BioOk(bios[i]) }

  function Total(bios: seq<Bio>): nat {
    if bios == [] then 0 else bios[0].size + Total(bios[1..])
  }

  /** The bytes of the chain, in order. */
  function Stream(bios: seq<Bio>): seq<int> {
    if bios == [] then [] else Bytes(bios[0].vecs) + Stream(bios[1..])
  }

  /** The vectors after their first `n` bytes; a vector that is used up goes, one that is begun is cut. */
  function Skip(vs: seq<Vec>, n: nat): seq<Vec> {
    if n == 0 || vs == [] then vs
    else if vs[0].len <= n then Skip(vs[1..], n - vs[0].len)
    else [Cut(vs[0], n)] + vs[1..]
  }

  /** A bio after its first `n` bytes, of more than that, were completed. */
  function Advanced(b: Bio, n: nat, error: bool): Bio
    requires n < b.size
  {
    if n == 0 then b
    else b.(size := b.size - n, sector := b.sector + n / 512, vecs := Skip(b.vecs, n), uptodate := b.uptodate && !error)
  }

  /** The chain after `n` bytes were completed. */
  function Left(bios: seq<Bio>, n: nat, error: bool): seq<Bio> {
    if bios == [] then []
    else if n >= bios[0].size then Left(bios[1..], n - bios[0].size, error)
    else [Advanced(bios[0], n, error)] + bios[1..]
  }

  /** How many bios `n` bytes cover completely. */
  function Covered(bios: seq<Bio>, n: nat): nat {
    if bios == [] || n < bios[0].size then 0 else 1 + Covered(bios[1..], n - bios[0].size)
  }

  /** The bios `n` bytes finish, in order: with an error if this completion, or an earlier one, had one. */
  function Ended(bios: seq<Bio>, n: nat, error: bool): seq<End> {
    if bios == [] || n < bios[0].size then []
    else [End(bios[0].id, bios[0].uptodate && !error)] + Ended(bios[1..], n - bios[0].size, error)
  }

  // ---- vectors

  lemma SizeSplit(vs: seq<Vec>)
    requires vs != []
    ensures Size(vs) == vs[0].len + Size(vs[1..])
  {
    assert vs == [vs[0]] + vs[1..];
    SizeConcat([vs[0]], vs[1..]);
    SizeAppend([], vs[0]);
    assert [] + [vs[0]] == [vs[0]];
  }

  lemma BytesSplit(vs: seq<Vec>)
    requires vs != []
    ensures Bytes(vs) == Range(vs[0].addr, vs[0].len) + Bytes(vs[1..])
  {
    assert vs == [vs[0]] + vs[1..];
    BytesConcat([vs[0]], vs[1..]);
  }

  lemma {:induction false} RangeLen(addr: int, len: nat)
    ensures |Range(addr, len)| == len
  {
    if len > 0 {
      RangeLen(addr, len - 1);
    }
  }

  lemma {:induction false} BytesLen(vs: seq<Vec>)
    ensures |Bytes(vs)| == Size(vs)
  {
    if vs != [] {
      BytesSplit(vs);
      SizeSplit(vs);
      RangeLen(vs[0].addr, vs[0].len);
      BytesLen(vs[1..]);
    }
  }

  lemma RangeCut(addr: int, len: nat, n: nat)
    requires n <= len
    ensures |Range(addr, len)| == len && Range(addr, len)[n..] == Range(addr + n, len - n)
  {
    RangeConcat(addr, n, len - n);
    RangeLen(addr, n);
    RangeLen(addr, len);
  }

  lemma DropConcat<T>(xs: seq<T>, ys: seq<T>, n: nat)
    requires n <= |xs| + |ys|
    ensures (xs + ys)[n..] == if n <= |xs| then xs[n..] + ys else ys[n - |xs|..]
  {
  }

  /** The first vector, begun. */
  function Cut(v: Vec, n: nat): Vec
    requires n <= v.len
  {
    Vec(v.addr + n, v.len - n, v.pfn)
  }

  lemma CutBytes(vs: seq<Vec>, n: nat)
    requires vs != [] && n <= vs[0].len
    ensures var vs' := [Cut(vs[0], n)] + vs[1..];
            && Size(vs') == Size(vs) - n && |Range(vs[0].addr, vs[0].len)| == vs[0].len
            && Bytes(vs') == Range(vs[0].addr, vs[0].len)[n..] + Bytes(vs[1..])
  {
    var vs' := [Cut(vs[0], n)] + vs[1..];
    assert vs'[1..] == vs[1..];
    SizeSplit(vs);
    SizeSplit(vs');
    BytesSplit(vs');
    RangeCut(vs[0].addr, vs[0].len, n);
  }

  /** Skipping leaves exactly the later bytes. */
  lemma {:induction false} SkipBytes(vs: seq<Vec>, n: nat)
    requires n <= Size(vs)
    ensures Size(Skip(vs, n)) == Size(vs) - n
    ensures |Bytes(vs)| == Size(vs) && Bytes(Skip(vs, n)) == Bytes(vs)[n..]
    decreases |vs|
  {
    BytesLen(vs);
    if n > 0 && vs != [] {
      var r, rest := Range(vs[0].addr, vs[0].len), Bytes(vs[1..]);
      SizeSplit(vs);
      BytesSplit(vs);
      RangeLen(vs[0].addr, vs[0].len);
      BytesLen(vs[1..]);
      DropConcat(r, rest, n);
      if vs[0].len <= n {
        SkipBytes(vs[1..], n - vs[0].len);
        assert n == |r| ==> r[n..] + rest == rest[0..];
      } else {
        CutBytes(vs, n);
      }
    }
  }

  /** Skipping twice is skipping once. */
  lemma {:induction false} SkipTwice(vs: seq<Vec>, n: nat, m: nat)
    requires n + m <= Size(vs)
    ensures Skip(Skip(vs, n), m) == Skip(vs, n + m)
    decreases |vs|
  {
    if n > 0 && vs != [] {
      SizeSplit(vs);
      if vs[0].len <= n {
        SkipTwice(vs[1..], n - vs[0].len, m);
      } else {
        var vs' := [Cut(vs[0], n)] + vs[1..];
        assert vs'[1..] == vs[1..];
      }
    }
  }

  // ---- chains

  lemma {:induction false} StreamLen(bios: seq<Bio>)
    requires ChainOk(bios)
    ensures |Stream(bios)| == Total(bios)
  {
    if bios != [] {
      assert BioOk(bios[0]);
      BytesLen(bios[0].vecs);
      StreamLen(bios[1..]);
    }
  }

  function Min(a: nat, b: nat): nat { if a < b then a else b }

  lemma AdvancedOk(b: Bio, n: nat, error: bool)
    requires BioOk(b) && n < b.size
    ensures BioOk(Advanced(b, n, error)) && |Bytes(b.vecs)| == b.size
    ensures Bytes(Advanced(b, n, error).vecs) == Bytes(b.vecs)[n..]
  {
    SkipBytes(b.vecs, n);
  }

  /** The chain `left` is `bios` without its first `n` bytes. */
  ghost predicate Shortened(bios: seq<Bio>, left: seq<Bio>, n: nat) {
    && ChainOk(left) && |Stream(bios)| == Total(bios)
    && Stream(left) == Stream(bios)[Min(n, Total(bios))..] && Total(left) == Total(bios) - Min(n, Total(bios))
    && (left == [] <==> n >= Total(bios))
  }

  /** The first bio goes. */
  lemma ShortenedLater(bios: seq<Bio>, left: seq<Bio>, n: nat, k: nat)
    requires bios != [] && BioOk(bios[0]) && n == k + bios[0].size && Shortened(bios[1..], left, k)
    ensures Shortened(bios, left, n)
  {
    BytesLen(bios[0].vecs);
    DropConcat(Bytes(bios[0].vecs), Stream(bios[1..]), Min(n, Total(bios)));
  }

  /** It is begun. */
  lemma ShortenedNow(bios: seq<Bio>, n: nat, error: bool)
    requires ChainOk(bios) && bios != [] && n < bios[0].size
    ensures Shortened(bios, [Advanced(bios[0], n, error)] + bios[1..], n)
  {
    var b, left := bios[0], [Advanced(bios[0], n, error)] + bios[1..];
    assert BioOk(b);
    StreamLen(bios);
    BytesLen(b.vecs);
    DropConcat(Bytes(b.vecs), Stream(bios[1..]), n);
    AdvancedOk(b, n, error);
    assert left[1..] == bios[1..];
  }

  /** Completing `n` bytes leaves the byte stream without its first `n`, or nothing. */
  lemma {:induction false} LeftStream(bios: seq<Bio>, n: nat, error: bool)
    requires ChainOk(bios)
    ensures var left := Left(bios, n, error);
            && ChainOk(left) && |Stream(bios)| == Total(bios)
            && Stream(left) == Stream(bios)[Min(n, Total(bios))..] && Total(left) == Total(bios) - Min(n, Total(bios))
            && (left == [] <==> n >= Total(bios))
    decreases |bios|
  {
    if bios != [] {
      assert BioOk(bios[0]);
      if n >= bios[0].size {
        LeftStream(bios[1..], n - bios[0].size, error);
        ShortenedLater(bios, Left(bios, n, error), n, n - bios[0].size);
      } else {
        ShortenedNow(bios, n, error);
      }
    }
  }

  /** As much remains as was not completed. */
  lemma LeftTotal(bios: seq<Bio>, n: nat, error: bool)
    requires ChainOk(bios)
    ensures var left := Left(bios, n, error);
            && ChainOk(left) && (left == [] <==> n >= Total(bios))
            && Total(left) == (if n < Total(bios) then Total(bios) - n else 0)
  {
    LeftStream(bios, n, error);
  }

  /** The bios that end are the ones covered, in order. */
  lemma {:induction false} EndedCovered(bios: seq<Bio>, n: nat, error: bool)
    ensures var k := Covered(bios, n);
            && k <= |bios| && |Ended(bios, n, error)| == k
            && forall i :: 0 <= i < k ==> Ended(bios, n, error)[i] == End(bios[i].id, bios[i].uptodate && !error)
    decreases |bios|
  {
    if bios != [] && n >= bios[0].size {
      EndedCovered(bios[1..], n - bios[0].size, error);
    }
  }

  /** The others stay, all but the first untouched. */
  lemma {:induction false} LeftUntouched(bios: seq<Bio>, n: nat, error: bool)
    ensures var k, left := Covered(bios, n), Left(bios, n, error);
            && k <= |bios| && |left| == |bios| - k
            && (forall i :: 0 < i < |left| ==> left[i] == bios[k + i])
            && (left != [] ==> left[0].id == bios[k].id)
    decreases |bios|
  {
    if bios != [] && n >= bios[0].size {
      LeftUntouched(bios[1..], n - bios[0].size, error);
    }
  }

  predicate WholeSectors(bios: seq<Bio>) {
    forall i :: 0 <= i < |bios| ==> bios[i].size % 512 == 0
  }

  lemma AdvancedTwice(b: Bio, n: nat, m: nat, error: bool)
    requires BioOk(b) && n + m < b.size && n % 512 == 0
    ensures Advanced(Advanced(b, n, error), m, error) == Advanced(b, n + m, error)
  {
    SkipTwice(b.vecs, n, m);
    assert (n + m) / 512 == n / 512 + m / 512;
  }

  lemma Aligned(a: nat, b: nat)
    requires a >= b && a % 512 == 0 && b % 512 == 0
    ensures (a - b) % 512 == 0
  {
  }

  /** Completing twice is completing once: the same chain is left. */
  lemma {:induction false} LeftTwice(bios: seq<Bio>, n: nat, m: nat, error: bool)
    requires ChainOk(bios) && WholeSectors(bios) && n % 512 == 0
    ensures Left(Left(bios, n, error), m, error) == Left(bios, n + m, error)
    decreases |bios|
  {
    if bios != [] {
      var b := bios[0];
      assert BioOk(b) && b.size % 512 == 0;
      if n >= b.size {
        Aligned(n, b.size);
        LeftTwice(bios[1..], n - b.size, m, error);
        LeftLater(bios, n, m, error);
      } else {
        LeftAgain(bios, n, m, error);
      }
    }
  }

  lemma LeftLater(bios: seq<Bio>, n: nat, m: nat, error: bool)
    requires bios != [] && n >= bios[0].size
    requires Left(Left(bios[1..], n - bios[0].size, error), m, error) == Left(bios[1..], n - bios[0].size + m, error)
    ensures Left(Left(bios, n, error), m, error) == Left(bios, n + m, error)
  {
    assert Left(bios, n + m, error) == Left(bios[1..], n - bios[0].size + m, error);
  }

  lemma LeftAgain(bios: seq<Bio>, n: nat, m: nat, error: bool)
    requires bios != [] && BioOk(bios[0]) && n % 512 == 0 && n < bios[0].size
    ensures Left(Left(bios, n, error), m, error) == Left(bios, n + m, error)
  {
    var left := [Advanced(bios[0], n, error)] + bios[1..];
    assert Left(bios, n, error) == left;
    assert left[1..] == bios[1..];
    if n + m < bios[0].size {
      AdvancedTwice(bios[0], n, m, error);
    }
  }

  /** And the same bios have ended, with the same results. */
  lemma {:induction false} EndedTwice(bios: seq<Bio>, n: nat, m: nat, error: bool)
    requires ChainOk(bios)
    ensures Ended(bios, n + m, error) == Ended(bios, n, error) + Ended(Left(bios, n, error), m, error)
    decreases |bios|
  {
    if bios != [] {
      var b := bios[0];
      assert BioOk(b);
      if n >= b.size {
        EndedTwice(bios[1..], n - b.size, m, error);
        EndedLater(bios, n, m, n - b.size, error);
      } else {
        EndedAgain(bios, n, m, error);
      }
    }
  }

  lemma EndedLater(bios: seq<Bio>, n: nat, m: nat, k: nat, error: bool)
    requires bios != [] && n == k + bios[0].size
    requires Ended(bios[1..], k + m, error) ==
             Ended(bios[1..], k, error) + Ended(Left(bios[1..], k, error), m, error)
    ensures Ended(bios, n + m, error) == Ended(bios, n, error) + Ended(Left(bios, n, error), m, error)
  {
    EndedFirst(bios, n, k, error);
    EndedFirst(bios, n + m, k + m, error);
    Associative([End(bios[0].id, bios[0].uptodate && !error)], Ended(bios[1..], k, error),
                Ended(Left(bios[1..], k, error), m, error));
  }

  lemma EndedFirst(bios: seq<Bio>, n: nat, k: nat, error: bool)
    requires bios != [] && n == k + bios[0].size
    ensures Ended(bios, n, error) == [End(bios[0].id, bios[0].uptodate && !error)] + Ended(bios[1..], k, error)
    ensures Left(bios, n, error) == Left(bios[1..], k, error)
  {
  }

  lemma Associative(xs: seq<End>, ys: seq<End>, zs: seq<End>)
    ensures xs + (ys + zs) == (xs + ys) + zs
  {
  }

  lemma EndedAgain(bios: seq<Bio>, n: nat, m: nat, error: bool)
    requires bios != [] && n < bios[0].size
    ensures Ended(bios, n + m, error) == Ended(bios, n, error) + Ended(Left(bios, n, error), m, error)
  {
    var left := Left(bios, n, error);
    assert left[0] == Advanced(bios[0], n, error) && left[1..] == bios[1..];
  }

  /** The request's sector after a completion: one that finishes it leaves the sector alone. */
  function SectorAfter(bios: seq<Bio>, sector: nat, n: nat): nat {
    if n < Total(bios) then sector + n / 512 else sector
  }

  /** The sector, too, is the same after two completions as after one, unless only the second finishes the request. */
  lemma SectorTwice(bios: seq<Bio>, sector: nat, n: nat, m: nat, error: bool)
    requires ChainOk(bios) && n % 512 == 0
    ensures SectorAfter(Left(bios, n, error), SectorAfter(bios, sector, n), m) == SectorAfter(bios, sector, n + m)
       <==> n + m < Total(bios) || n >= Total(bios) || n == 0
  {
    LeftStream(bios, n, error);
  }

  /** In one such request the sector differs: a kilobyte completed in halves, and at once. */
  lemma SectorDiffers(v: Vec, sector: nat, error: bool) returns (bios: seq<Bio>)
    requires v.len == 1024
    ensures ChainOk(bios) && WholeSectors(bios) && Total(bios) == 1024
    ensures SectorAfter(Left(bios, 512, error), SectorAfter(bios, sector, 512), 512) != SectorAfter(bios, sector, 1024)
  {
    bios := [Bio(0, sector, 1024, [v], true, 0, 0, 0, false)];
    assert Size([v]) == 1024;
    assert Total(bios) == 1024 + Total([]);
    SectorTwice(bios, sector, 512, 512, error);
  }

  // ---- in place

  /** What has been done of a chain part way through the loop: `k` vectors of its first bio, and `n` bytes to go. */
  ghost predicate Scanned(bios: seq<Bio>, k: nat, done: nat, n: nat) {
    if bios == [] then k == 0 && done == 0
    else
      && k <= |bios[0].vecs| && done == Size(bios[0].vecs[..k])
      && (k > 0 ==> done + n < bios[0].size)
      && ((done == 0 && n == 0) || Skip(bios[0].vecs, done + n) == Skip(bios[0].vecs[k..], n))
  }

  lemma ScanStart(bios: seq<Bio>, n: nat)
    ensures Scanned(bios, 0, 0, n)
  {
    if bios != [] {
      assert bios[0].vecs[0..] == bios[0].vecs && bios[0].vecs[..0] == [];
    }
  }

  /** A bio that is not used up has a vector left to look at. */
  lemma ScanMore(bios: seq<Bio>, k: nat, done: nat, n: nat)
    requires ChainOk(bios) && bios != [] && Scanned(bios, k, done, n) && done + n < bios[0].size
    ensures k < |bios[0].vecs| && bios[0].vecs[k].len <= bios[0].size
    ensures done + bios[0].vecs[k].len == Size(bios[0].vecs[..k + 1])
  {
    var vs := bios[0].vecs;
    assert BioOk(bios[0]);
    assert vs[..|vs|] == vs;
    assert vs[..k + 1] == vs[..k] + [vs[k]] by {
      assert k < |vs|;
    }
    SizeAppend(vs[..k], vs[k]);
    assert vs == vs[..k + 1] + vs[k + 1..];
    SizeConcat(vs[..k + 1], vs[k + 1..]);
  }

  lemma ScanStep(bios: seq<Bio>, k: nat, done: nat, n: nat, k': nat, done': nat, n': int)
    requires ChainOk(bios) && bios != [] && Scanned(bios, k, done, n) && done + n < bios[0].size
    requires k < |bios[0].vecs| && bios[0].vecs[k].len <= n && (n == 0 ==> done == 0)
    requires k' == k + 1 && done' == done + bios[0].vecs[k].len && n' == n - bios[0].vecs[k].len
    ensures Scanned(bios, k', done', n')
  {
    ScanMore(bios, k, done, n);
    var vs := bios[0].vecs;
    assert vs[k..][0] == vs[k] && vs[k..][1..] == vs[k + 1..];
  }

  /** What the rest of the loop still has to do is what the whole call had to do, less what has ended. */
  ghost predicate Agrees(bios: seq<Bio>, n: nat, bios0: seq<Bio>, n0: nat, error: bool, ended: seq<End>) {
    && Left(bios0, n0, error) == Left(bios, n, error)
    && Ended(bios0, n0, error) == ended + Ended(bios, n, error)
  }

  lemma AgreesNext(bios: seq<Bio>, n: nat, bios0: seq<Bio>, n0: nat, error: bool, ended: seq<End>)
    requires Agrees(bios, n, bios0, n0, error, ended) && bios != [] && n >= bios[0].size
    ensures Agrees(bios[1..], n - bios[0].size, bios0, n0, error, ended + [End(bios[0].id, bios[0].uptodate && !error)])
  {
    var e, rest := End(bios[0].id, bios[0].uptodate && !error), Ended(bios[1..], n - bios[0].size, error);
    assert ended + ([e] + rest) == (ended + [e]) + rest;
  }

  /** Where the loop leaves the first bio: `done` bytes of it are, of which `n` are in vector `k`. */
  ghost predicate Stopped(b: Bio, k: nat, done: nat, n: nat) {
    && done < b.size && k < |b.vecs|
    && (done > 0 ==> Skip(b.vecs, done) == Skip(b.vecs[k..], n) && (n > 0 ==> n < b.vecs[k].len))
  }

  /** The first bio as the tail of blk_update_request rewrites it. */
  function Resumed(b: Bio, k: nat, done: nat, n: nat, error: bool): Bio
    requires k < |b.vecs| && n <= b.vecs[k].len && done <= b.size
  {
    b.(sector := b.sector + done / 512, size := b.size - done, vecs := b.vecs[k..][0 := Cut(b.vecs[k], n)],
       uptodate := b.uptodate && !error)
  }

  lemma ResumedAdvances(b: Bio, k: nat, done: nat, n: nat, error: bool)
    requires Stopped(b, k, done, n) && done > 0
    ensures n <= b.vecs[k].len && Advanced(b, done, error) == Resumed(b, k, done, n, error)
  {
    var vs := b.vecs[k..];
    assert vs[0] == b.vecs[k];
    assert vs[0 := Cut(vs[0], n)] == [Cut(vs[0], n)] + vs[1..];
  }

  lemma AgreesStart(bios: seq<Bio>, n: nat, error: bool)
    ensures Agrees(bios, n, bios, n, error, [])
  {
  }

  lemma AgreesStop(bios: seq<Bio>, done: nat, bios0: seq<Bio>, n0: nat, error: bool, ended: seq<End>)
    requires Agrees(bios, done, bios0, n0, error, ended) && bios != [] && done < bios[0].size
    ensures Left(bios0, n0, error) == [Advanced(bios[0], done, error)] + bios[1..]
    ensures Ended(bios0, n0, error) == ended
  {
  }

  lemma AgreesEmpty(n: nat, bios0: seq<Bio>, n0: nat, error: bool, ended: seq<End>)
    requires Agrees([], n, bios0, n0, error, ended)
    ensures Left(bios0, n0, error) == [] && Ended(bios0, n0, error) == ended
  {
  }

  lemma ScanWhole(bios: seq<Bio>, k: nat, done: nat, n: nat)
    requires Scanned(bios, k, done, n) && bios != [] && n >= bios[0].size
    ensures k == 0 && done == 0
  {
    assert bios[0].vecs[..0] == [];
  }

  /** What is done of a bio that is not used up leaves some of it. */
  lemma ScanShort(bios: seq<Bio>, k: nat, done: nat, n: nat)
    requires Scanned(bios, k, done, n) && bios != [] && n < bios[0].size
    ensures done + n < bios[0].size
  {
    assert bios[0].vecs[..0] == [];
  }

  lemma ScanStops(bios: seq<Bio>, k: nat, done: nat, n: nat)
    requires ChainOk(bios) && bios != [] && Scanned(bios, k, done, n) && n < bios[0].size
    requires n > 0 ==> k < |bios[0].vecs| && n < bios[0].vecs[k].len
    ensures Stopped(bios[0], k, done + n, n)
  {
    ScanShort(bios, k, done, n);
    ScanMore(bios, k, done, n);
  }

  /** Both, by name. */
  ghost predicate Going(bios: seq<Bio>, k: nat, done: nat, n: nat, bios0: seq<Bio>, n0: nat, error: bool,
                        ended: seq<End>) {
    forall j {:trigger Unfold(j, (bios, k, done, n))} :: Unfold(j, (bios, k, done, n)) ==>
      ChainOk(bios) && Scanned(bios, k, done, n) && Agrees(bios, done + n, bios0, n0, error, ended)
  }

  lemma GoingStart(bios: seq<Bio>, n: nat, error: bool)
    requires ChainOk(bios)
    ensures Going(bios, 0, 0, n, bios, n, error, [])
  {
    ScanStart(bios, n);
    AgreesStart(bios, n, error);
  }

  /** The first bio is used up. */
  lemma GoingBio(bios: seq<Bio>, k: nat, done: nat, n: nat, bios0: seq<Bio>, n0: nat, error: bool, ended: seq<End>,
                 n': int)
    requires Going(bios, k, done, n, bios0, n0, error, ended)
    requires bios != [] && n >= bios[0].size && n' == n - bios[0].size
    ensures Going(bios[1..], 0, 0, n', bios0, n0, error, ended + [End(bios[0].id, bios[0].uptodate && !error)])
    ensures bios[1..] != [] ==> bios[1].size > 0
  {
    assert Unfold(0, (bios, k, done, n));
    ScanWhole(bios, k, done, n);
    AgreesNext(bios, n, bios0, n0, error, ended);
    ScanStart(bios[1..], n - bios[0].size);
    assert bios[1..] != [] ==> BioOk(bios[1]);
  }

  /** It is not, so there is a vector to look at. */
  lemma GoingLook(bios: seq<Bio>, k: nat, done: nat, n: nat, bios0: seq<Bio>, n0: nat, error: bool, ended: seq<End>)
    requires Going(bios, k, done, n, bios0, n0, error, ended) && bios != [] && n < bios[0].size
    ensures k < |bios[0].vecs| && bios[0].vecs[k].len <= bios[0].size
  {
    assert Unfold(0, (bios, k, done, n));
    ScanShort(bios, k, done, n);
    ScanMore(bios, k, done, n);
  }

  lemma GoingVec(bios: seq<Bio>, k: nat, done: nat, n: nat, bios0: seq<Bio>, n0: nat, error: bool, ended: seq<End>,
                 k': nat, done': nat, n': int)
    requires Going(bios, k, done, n, bios0, n0, error, ended)
    requires bios != [] && n < bios[0].size && (n == 0 ==> done == 0)
    requires k < |bios[0].vecs| && bios[0].vecs[k].len <= n
    requires k' == k + 1 && done' == done + bios[0].vecs[k].len && n' == n - bios[0].vecs[k].len
    ensures Going(bios, k', done', n', bios0, n0, error, ended)
  {
    GoingOpen(bios, k, done, n, bios0, n0, error, ended);
    ScanShort(bios, k, done, n);
    ScanStep(bios, k, done, n, k', done', n');
    AgreesAt(bios, done + n, done' + n', bios0, n0, error, ended);
    GoingClose(bios, k', done', n', bios0, n0, error, ended);
  }

  lemma GoingOpen(bios: seq<Bio>, k: nat, done: nat, n: nat, bios0: seq<Bio>, n0: nat, error: bool, ended: seq<End>)
    requires Going(bios, k, done, n, bios0, n0, error, ended)
    ensures ChainOk(bios) && Scanned(bios, k, done, n) && Agrees(bios, done + n, bios0, n0, error, ended)
  {
    assert Unfold(0, (bios, k, done, n));
  }

  lemma GoingClose(bios: seq<Bio>, k: nat, done: nat, n: nat, bios0: seq<Bio>, n0: nat, error: bool, ended: seq<End>)
    requires ChainOk(bios) && Scanned(bios, k, done, n) && Agrees(bios, done + n, bios0, n0, error, ended)
    ensures Going(bios, k, done, n, bios0, n0, error, ended)
  {
  }


  lemma AgreesAt(bios: seq<Bio>, n: nat, n': nat, bios0: seq<Bio>, n0: nat, error: bool, ended: seq<End>)
    requires n == n' && Agrees(bios, n, bios0, n0, error, ended)
    ensures Agrees(bios, n', bios0, n0, error, ended)
  {
  }

  /** The loop is over: the chain is used up, or its first bio is where the call's bytes end. */
  ghost predicate Over(bios: seq<Bio>, k: nat, done: nat, n: nat, total: nat, bios0: seq<Bio>, n0: nat, error: bool,
                       ended: seq<End>) {
    forall j {:trigger Unfold(j, (bios, done))} :: Unfold(j, (bios, done)) ==>
      && ChainOk(bios) && Ended(bios0, n0, error) == ended
      && if bios == [] then Left(bios0, n0, error) == []
         else
           && Stopped(bios[0], k, done, n) && total == n0
           && Left(bios0, n0, error) == [Advanced(bios[0], done, error)] + bios[1..]
  }

  lemma GoingStop(bios: seq<Bio>, k: nat, done: nat, n: nat, bios0: seq<Bio>, n0: nat, error: bool, ended: seq<End>,
                  done': nat)
    requires Going(bios, k, done, n, bios0, n0, error, ended) && bios != [] && n < bios[0].size && done' == done + n
    requires n > 0 ==> k < |bios[0].vecs| && n < bios[0].vecs[k].len
    ensures Over(bios, k, done', n, n0, bios0, n0, error, ended)
  {
    assert Unfold(0, (bios, k, done, n));
    ScanStops(bios, k, done, n);
    AgreesStop(bios, done + n, bios0, n0, error, ended);
  }

  lemma GoingDone(bios: seq<Bio>, k: nat, done: nat, n: nat, total: nat, bios0: seq<Bio>, n0: nat, error: bool,
                  ended: seq<End>)
    requires Going(bios, k, done, n, bios0, n0, error, ended) && bios == []
    ensures Over(bios, k, done, n, total, bios0, n0, error, ended)
  {
    assert Unfold(0, (bios, k, done, n));
    AgreesEmpty(done + n, bios0, n0, error, ended);
  }

  lemma OverLeft(bios: seq<Bio>, k: nat, done: nat, n: nat, total: nat, bios0: seq<Bio>, n0: nat, error: bool,
                 ended: seq<End>)
    requires Over(bios, k, done, n, total, bios0, n0, error, ended)
    ensures Ended(bios0, n0, error) == ended
    ensures bios == [] ==> Left(bios0, n0, error) == []
    ensures bios != [] ==> Stopped(bios[0], k, done, n) && total == n0
    ensures bios != [] ==> Left(bios0, n0, error) == [Advanced(bios[0], done, error)] + bios[1..]
  {
    assert Unfold(0, (bios, done));
  }

  /** The loop of blk_update_request, over the chain and the bios it finishes. */
  method Scan(bios0: seq<Bio>, nrBytes: nat, error: bool)
    returns (bios: seq<Bio>, n: nat, total: nat, bioBytes: nat, nextIdx: nat, out: seq<End>)
    requires ChainOk(bios0)
    ensures Over(bios, nextIdx, bioBytes, n, total, bios0, nrBytes, error, out)
  {
    bios, n, total, bioBytes, nextIdx, out := bios0, nrBytes, 0, 0, 0, [];
    GoingStart(bios, n, error);
    while bios != []
      invariant Going(bios, nextIdx, bioBytes, n, bios0, nrBytes, error, out) && (n == 0 ==> bioBytes == 0)
      invariant total + n == nrBytes
      decreases |bios|, if bios == [] then 0 else |bios[0].vecs| - nextIdx
    {
      var bio, nbytes: nat := bios[0], 0;
      if n >= bio.size {
        nbytes := bio.size;
        GoingBio(bios, nextIdx, bioBytes, n, bios0, nrBytes, error, out, n - nbytes);
        bios := bios[1..];
        out := out + [End(bio.id, bio.uptodate && !error)];
        nextIdx, bioBytes := 0, 0;
      } else {
        GoingLook(bios, nextIdx, bioBytes, n, bios0, nrBytes, error, out);
        nbytes := bio.vecs[nextIdx].len;
        assert nbytes <= bio.size;
        if nbytes > n {
          GoingStop(bios, nextIdx, bioBytes, n, bios0, nrBytes, error, out, bioBytes + n);
          bioBytes, total := bioBytes + n, total + n;
          return;
        }
        GoingVec(bios, nextIdx, bioBytes, n, bios0, nrBytes, error, out, nextIdx + 1, bioBytes + nbytes, n - nbytes);
        nextIdx, bioBytes := nextIdx + 1, bioBytes + nbytes;
      }
      total, n := total + nbytes, n - nbytes;
      if bios != [] && n <= 0 {
        GoingStop(bios, nextIdx, bioBytes, n, bios0, nrBytes, error, out, bioBytes);
        return;
      }
    }
    GoingDone(bios, nextIdx, bioBytes, n, total, bios0, nrBytes, error, out);
  }

  /** The first bio brought up to date after the loop. */
  method Resume(bios: seq<Bio>, n: nat, bioBytes: nat, nextIdx: nat, error: bool) returns (bios': seq<Bio>)
    requires bios != [] && Stopped(bios[0], nextIdx, bioBytes, n)
    ensures bios' == [Advanced(bios[0], bioBytes, error)] + bios[1..]
  {
    bios' := bios;
    if bioBytes > 0 {
      ResumedAdvances(bios[0], nextIdx, bioBytes, n, error);
      bios' := bios[0 := Resumed(bios[0], nextIdx, bioBytes, n, error)];
    }
  }

  // ---- segments of what is left

  /** The bio as merging sees it. */
  function AsMerged(b: Bio): RequestMerge.Bio {
    RequestMerge.Bio(b.sector, b.size / 512, b.vecs, b.front, b.back, b.phys, b.valid)
  }

  function AllMerged(bios: seq<Bio>): seq<RequestMerge.Bio> {
    seq(|bios|, i requires 0 <= i < |bios| => AsMerged(bios[i]))
  }

  /** The vectors of the chain. */
  function Vecs(bios: seq<Bio>): seq<Vec> {
    RequestMerge.Vecs(AllMerged(bios))
  }

  lemma VecsFirst(bios: seq<Bio>)
    requires bios != []
    ensures Vecs(bios) == bios[0].vecs + Vecs(bios[1..])
  {
    assert AllMerged(bios) == [AsMerged(bios[0])] + AllMerged(bios[1..]);
    RequestMerge.VecsConcat([AsMerged(bios[0])], AllMerged(bios[1..]));
  }

  /** The first vector of the chain, blk_rq_cur_bytes, is part of what is left. */
  lemma FirstVec(bios: seq<Bio>)
    requires ChainOk(bios) && bios != []
    ensures bios[0].vecs != [] && bios[0].vecs[0].len <= Total(bios) && Vecs(bios) != []
  {
    assert BioOk(bios[0]);
    SizeSplit(bios[0].vecs);
    VecsFirst(bios);
  }

  /** The chain with the size of its first segment in the first bio and that of its last in the last. */
  function Resized(bios: seq<Bio>, front: nat, back: nat): seq<Bio>
    requires bios != []
  {
    var bios1 := bios[0 := bios[0].(front := front)];
    bios1[|bios1| - 1 := Last(bios1).(back := back)]
  }

  /** The chain after blk_recalc_rq_segments: those sizes are raised to what the recount found. */
  function Recounted(q: Limits, bios: seq<Bio>): seq<Bio> {
    var parts := Counted(q, Vecs(bios));
    if bios == [] || parts == [] then bios
    else Resized(bios, SegmentCount.Max(bios[0].front, Size(parts[0])),
                 SegmentCount.Max(Last(bios).back, Size(Last(parts))))
  }

  /** The same but for those sizes. */
  predicate SameButSizes(xs: seq<Bio>, ys: seq<Bio>) {
    |xs| == |ys| && forall i :: 0 <= i < |xs| ==> xs[i] == ys[i].(front := xs[i].front, back := xs[i].back)
  }

  lemma RecountedSame(q: Limits, bios: seq<Bio>)
    ensures SameButSizes(Recounted(q, bios), bios)
  {
  }

  lemma {:induction false} SameTotal(xs: seq<Bio>, ys: seq<Bio>)
    requires SameButSizes(xs, ys)
    ensures Total(xs) == Total(ys) && (ChainOk(ys) ==> ChainOk(xs)) && Vecs(xs) == Vecs(ys)
  {
    if xs != [] {
      SameTotal(xs[1..], ys[1..]);
      VecsFirst(xs);
      VecsFirst(ys);
      if ChainOk(ys) {
        forall i | 0 <= i < |xs| ensures BioOk(xs[i]) {
          assert BioOk(ys[i]);
        }
      }
    } else {
      assert AllMerged(xs) == AllMerged(ys);
    }
  }

  /** Completion does not look at them. */
  lemma {:induction false} SameLeft(xs: seq<Bio>, ys: seq<Bio>, n: nat, error: bool)
    requires SameButSizes(xs, ys)
    ensures SameButSizes(Left(xs, n, error), Left(ys, n, error)) && Ended(xs, n, error) == Ended(ys, n, error)
    decreases |xs|
  {
    if xs != [] && n >= xs[0].size {
      SameLeft(xs[1..], ys[1..], n - xs[0].size, error);
    }
  }

  /** With the recounts, too, completing twice is completing once, but for those sizes. */
  lemma UpdatedTwice(q: Limits, bios: seq<Bio>, n: nat, m: nat, error: bool)
    requires ChainOk(bios) && WholeSectors(bios) && n % 512 == 0
    ensures var once := Recounted(q, Left(bios, n, error));
            && SameButSizes(Recounted(q, Left(once, m, error)), Recounted(q, Left(bios, n + m, error)))
            && Ended(bios, n, error) + Ended(once, m, error) == Ended(bios, n + m, error)
  {
    var left := Left(bios, n, error);
    var once := Recounted(q, left);
    LeftTwice(bios, n, m, error);
    EndedTwice(bios, n, m, error);
    RecountedSame(q, left);
    SameLeft(once, left, m, error);
    RecountedSame(q, Left(once, m, error));
    RecountedSame(q, Left(bios, n + m, error));
  }

  // ---- and further merges

  /** The bios lie one behind the other from `sector` on, in whole sectors. */
  predicate LaidOut(bios: seq<Bio>, sector: nat) {
    bios == [] ||
    (bios[0].sector == sector && bios[0].size % 512 == 0 && LaidOut(bios[1..], sector + bios[0].size / 512))
  }

  lemma {:induction false} SectorsFirst(xs: seq<RequestMerge.Bio>)
    requires xs != []
    ensures RequestMerge.Sectors(xs) == xs[0].sectors + RequestMerge.Sectors(xs[1..])
  {
    if |xs| > 1 {
      SectorsFirst(Front(xs));
      assert Front(xs)[1..] == Front(xs[1..]);
    }
  }

  lemma {:induction false} LaidFirst(xs: seq<RequestMerge.Bio>, sector: nat)
    requires xs != [] && RequestMerge.Laid(xs, sector)
    ensures xs[0].sector == sector && RequestMerge.Laid(xs[1..], sector + xs[0].sectors)
  {
    if |xs| > 1 {
      LaidFirst(Front(xs), sector);
      SectorsFirst(Front(xs));
      assert Front(xs)[1..] == Front(xs[1..]);
    } else {
      assert Front(xs) == [];
    }
  }

  lemma {:induction false} LaidIsOut(bios: seq<Bio>, sector: nat)
    requires ChainOk(bios) && RequestMerge.Shaped(AllMerged(bios)) && RequestMerge.Laid(AllMerged(bios), sector)
    ensures LaidOut(bios, sector)
  {
    if bios != [] {
      var xs := AllMerged(bios);
      assert xs[1..] == AllMerged(bios[1..]);
      LaidFirst(xs, sector);
      assert BioOk(bios[0]) && RequestMerge.Shape(xs[0]);
      LaidIsOut(bios[1..], sector + bios[0].size / 512);
    }
  }

  lemma {:induction false} OutHolds(bios: seq<Bio>, sector: nat)
    requires ChainOk(bios) && LaidOut(bios, sector)
    ensures Total(bios) % 512 == 0
    ensures RequestMerge.Holds(AllMerged(bios), sector, Total(bios) / 512, Vecs(bios))
  {
    if bios != [] {
      var b, rest := bios[0], bios[1..];
      assert BioOk(b);
      OutHolds(rest, sector + b.size / 512);
      FirstVec(bios);
      VecsFirst(bios);
      RequestMerge.HoldsOne(AsMerged(b));
      RequestMerge.HoldsConcat([AsMerged(b)], sector, b.size / 512, b.vecs,
                               AllMerged(rest), Total(rest) / 512, Vecs(rest));
      assert AllMerged(bios) == [AsMerged(b)] + AllMerged(rest);
    }
  }

  lemma {:induction false} LeftLaid(bios: seq<Bio>, n: nat, error: bool, sector: nat)
    requires LaidOut(bios, sector) && n % 512 == 0 && n < Total(bios)
    ensures LaidOut(Left(bios, n, error), sector + n / 512)
    decreases |bios|
  {
    var b := bios[0];
    if n >= b.size {
      Aligned(n, b.size);
      LeftLaid(bios[1..], n - b.size, error, sector + b.size / 512);
    } else {
      var left := Left(bios, n, error);
      Aligned(b.size, n);
      assert left[1..] == bios[1..];
    }
  }

  /** The fields of a request describe its bios, as every merge requires and keeps. */
  ghost predicate InStep(q: Limits, bios: seq<Bio>, nr: nat, sector: nat, dataLen: nat) {
    exists v ::
      && RequestMerge.Chain(q, AllMerged(bios), v)
      && nr == v.nr && sector == v.sector && dataLen == 512 * v.sectors
  }

  /** A recounted chain is in step. */
  lemma RecountedInStep(q: Limits, bios: seq<Bio>, sector: nat)
    requires ChainOk(bios) && bios != [] && LaidOut(bios, sector)
    ensures InStep(q, Recounted(q, bios), |Counted(q, Vecs(bios))|, sector, Total(bios))
  {
    var xs', vs := AllMerged(Recounted(q, bios)), Vecs(bios);
    FirstVec(bios);
    OutHolds(bios, sector);
    RecountedMerged(q, bios, xs');
    RequestMerge.HoldsSame(AllMerged(bios), xs', sector, Total(bios) / 512, vs);
    CountedInStep(q, xs', vs, sector, Total(bios) / 512);
  }

  lemma RecountedMerged(q: Limits, bios: seq<Bio>, xs: seq<RequestMerge.Bio>)
    requires bios != [] && Vecs(bios) != [] && xs == AllMerged(Recounted(q, bios))
    ensures RequestMerge.SameData(AllMerged(bios), xs) && |xs| == |bios| && Counted(q, Vecs(bios)) != []
    ensures Size(Counted(q, Vecs(bios))[0]) <= xs[0].front && Size(Last(Counted(q, Vecs(bios)))) <= Last(xs).back
  {
    RequestMerge.CountedCovers(q, Vecs(bios), 0, 0);
    RecountedSame(q, bios);
  }

  lemma CountedInStep(q: Limits, xs: seq<RequestMerge.Bio>, vs: seq<Vec>, sector: nat, sectors: nat)
    requires xs != [] && vs != [] && RequestMerge.Holds(xs, sector, sectors, vs) && Counted(q, vs) != []
    requires Size(Counted(q, vs)[0]) <= xs[0].front && Size(Last(Counted(q, vs))) <= Last(xs).back
    ensures RequestMerge.Chain(q, xs, RequestMerge.View(|Counted(q, vs)|, sector, sectors, Counted(q, vs), vs))
  {
    RequestMerge.CountedCovers(q, vs, xs[0].front, Last(xs).back);
  }

  lemma WholeInStep(q: Limits, bios: seq<Bio>, nr: nat, sector: nat, n: nat, error: bool)
    requires ChainOk(bios) && InStep(q, bios, nr, sector, Total(bios)) && n % 512 == 0 && n < Total(bios)
    ensures var left := Left(bios, n, error);
            InStep(q, Recounted(q, left), |Counted(q, Vecs(left))|, sector + n / 512, Total(left))
  {
    var v :| RequestMerge.Chain(q, AllMerged(bios), v) && nr == v.nr && sector == v.sector;
    assert Unfold(0, AllMerged(bios));
    LaidIsOut(bios, sector);
    LeftLaid(bios, n, error, sector);
    LeftTotal(bios, n, error);
    RecountedInStep(q, Left(bios, n, error), sector + n / 512);
  }

  /** A request in step is in step after part of it was completed, exactly if that was in whole sectors. */
  lemma LeftInStep(q: Limits, bios: seq<Bio>, nr: nat, sector: nat, n: nat, error: bool)
    requires ChainOk(bios) && InStep(q, bios, nr, sector, Total(bios)) && n < Total(bios)
    ensures var left := Left(bios, n, error);
            InStep(q, Recounted(q, left), |Counted(q, Vecs(left))|, sector + n / 512, Total(left)) <==> n % 512 == 0
  {
    LeftTotal(bios, n, error);
    if n % 512 == 0 {
      WholeInStep(q, bios, nr, sector, n, error);
    } else {
      var left := Left(bios, n, error);
      InStepWhole(q, bios, nr, sector, Total(bios));
      Unaligned(Total(bios), n);
      InStepWhole(q, Recounted(q, left), |Counted(q, Vecs(left))|, sector + n / 512, Total(left));
    }
  }

  lemma InStepWhole(q: Limits, bios: seq<Bio>, nr: nat, sector: nat, dataLen: nat)
    ensures InStep(q, bios, nr, sector, dataLen) ==> dataLen % 512 == 0
  {
  }

  lemma Unaligned(a: nat, b: nat)
    requires a >= b && a % 512 == 0 && b % 512 != 0
    ensures (a - b) % 512 != 0
  {
  }

  /** The record of finished bios with `out` added; nothing is finished during a flush sequence. */
  function Recorded(flushSeq: bool, ended: seq<End>, out: seq<End>): seq<End> {
    if flushSeq || out == [] then ended else ended + out
  }

  class Request {
    var bios: seq<Bio>
    var dataLen: nat             // __data_len
    var sector: nat              // __sector
    const fs: bool               // REQ_TYPE_FS or REQ_DISCARD: the sector means something
    const flushSeq: bool         // REQ_FLUSH_SEQ: bios are not finished here
    const q: Limits
    var nr: nat                  // nr_phys_segments
    var ended: seq<End>          // bios that bio_endio was called for, in order

    predicate Valid()
      reads this
    {
      ChainOk(bios) && dataLen == Total(bios)
    }

    /** blk_update_request: whether the request has more data. */
    method Update(nrBytes: nat, error: bool) returns (more: bool)
      requires Valid()
      modifies this
      ensures Valid() && bios == Recounted(q, Left(old(bios), nrBytes, error))
      ensures more <==> nrBytes < Total(old(bios))
      ensures sector == if fs then SectorAfter(old(bios), old(sector), nrBytes) else old(sector)
      ensures ended == Recorded(flushSeq, old(ended), Ended(old(bios), nrBytes, error))
      ensures if more then nr == |Counted(q, Vecs(bios))| && |Mapped(q, Vecs(bios))| <= nr else nr == old(nr)
      ensures more && fs && old(InStep(q, bios, nr, sector, dataLen)) ==>
                (InStep(q, bios, nr, sector, dataLen) <==> nrBytes % 512 == 0)
    {
      LeftTotal(bios, nrBytes, error);
      if bios == [] {
        return false;
      }
      var n, total, bioBytes, nextIdx, out;
      bios, n, total, bioBytes, nextIdx, out := Scan(bios, nrBytes, error);
      ended := Recorded(flushSeq, ended, out);
      OverLeft(bios, nextIdx, bioBytes, n, total, old(bios), nrBytes, error, out);
      if bios == [] {
        dataLen := 0;
        return false;
      }
      bios := Resume(bios, n, bioBytes, nextIdx, error);
      dataLen := dataLen - total;
      if fs {
        sector := sector + total / 512;
      }
      Recount();
      more := true;
      if fs && old(InStep(q, bios, nr, sector, dataLen)) {
        LeftInStep(q, old(bios), old(nr), old(sector), nrBytes, error);
      }
    }

    /**
     The check for a botched request, which never finds one, and the recount: nr_phys_segments covers the
     entries the mapper will make of what is left.
     */
    method Recount()
      requires Valid() && bios != []
      modifies this`dataLen, this`nr, this`bios
      ensures Valid() && bios == Recounted(q, old(bios)) && dataLen == old(dataLen) && Vecs(bios) == Vecs(old(bios))
      ensures nr == |Counted(q, Vecs(bios))| && |Mapped(q, Vecs(bios))| <= nr
    {
      FirstVec(bios);
      var cur := bios[0].vecs[0].len;
      dataLen := SegmentCount.Max(dataLen, cur);
      var front, back;
      nr, front, back := SegmentCount.Recalc(q, Vecs(bios), bios[0].front, Last(bios).back);
      RecountCovers(q, Vecs(bios));
      RecountedSame(q, bios);
      SameTotal(Recounted(q, bios), bios);
      bios := Resized(bios, front, back);
    }
  }
}
