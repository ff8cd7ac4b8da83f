/**
 The merge hash of the elevator core (block/elevator.c): buckets of requests by end sector, kept
 in step with back, front and request merges (block/blk-core.c).
 */
module ElevatorHash {
  import opened Common
  import opened Lists

  /** A request of the scheduler; `mergeable` is rq_mergeable. */
  datatype Rq = Rq(pos: nat, sectors: nat, mergeable: bool)

  /** rq_hash_key: where the request ends. */
  function Key(rq: Rq): nat {
    rq.pos + rq.sectors
  }

  const HASH_ENTRIES: nat := 64

  /** What a linear scan of the held requests would accept. */
  predicate EndsAt(rqs: map<nat, Rq>, id: nat, sector: nat) {
    id in rqs && rqs[id].mergeable && Key(rqs[id]) == sector
  }

  type Buckets = seq<seq<nat>>

  /** An entry of a bucket is a held request that hashes to it. */
  ghost predicate BucketOk(fn: nat -> nat, rqs: map<nat, Rq>, hash: Buckets, b: nat) {
    b < |hash| ==> forall id :: id in hash[b] ==> id in rqs && fn(Key(rqs[id])) == b
  }

  /** A request is in no bucket twice, and in its own if it can be merged. */
  ghost predicate EntryOk(fn: nat -> nat, rqs: map<nat, Rq>, hash: Buckets, id: nat) {
    && (forall b :: 0 <= b < |hash| ==> Count(hash[b], id) <= 1)
    && (id in rqs && rqs[id].mergeable ==> fn(Key(rqs[id])) < |hash| && id in hash[fn(Key(rqs[id]))])
  }

  /** Everything but `out` is indexed as it should be; `out` is not indexed at all. */
  ghost predicate Indexed(fn: nat -> nat, rqs: map<nat, Rq>, hash: Buckets, out: Option<nat>) {
    && |hash| == HASH_ENTRIES && (forall x: nat :: fn(x) < HASH_ENTRIES)
    && (forall b: nat :: BucketOk(fn, rqs, hash, b))
    && (forall id: nat :: Some(id) != out ==> EntryOk(fn, rqs, hash, id))
    && (out.Some? ==> forall b :: 0 <= b < |hash| ==> out.value !in hash[b])
  }

  /** Unlinking a request from its bucket. */
  lemma Unlinked(fn: nat -> nat, rqs: map<nat, Rq>, hash: Buckets, id: nat)
    requires Indexed(fn, rqs, hash, None) && id in rqs
    ensures var b := fn(Key(rqs[id]));
            b < |hash| && Indexed(fn, rqs, hash[b := Remove(hash[b], id)], Some(id))
  {
    var b := fn(Key(rqs[id]));
    var hash' := hash[b := Remove(hash[b], id)];
    assert EntryOk(fn, rqs, hash, id);
    forall c: nat ensures BucketOk(fn, rqs, hash', c) {
      assert BucketOk(fn, rqs, hash, c);
      if c == b {
        forall x | x in hash'[c] ensures x in hash[c] {
          RemoveIn(hash[b], id, x);
        }
      }
    }
    forall x: nat | x != id ensures EntryOk(fn, rqs, hash', x) {
      assert EntryOk(fn, rqs, hash, x);
      CountRemove(hash[b], id, x);
      RemoveIn(hash[b], id, x);
    }
    forall c | 0 <= c < |hash'| ensures id !in hash'[c] {
      assert BucketOk(fn, rqs, hash, c);
      if c == b {
        CountRemove(hash[b], id, id);
        CountIn(hash'[b], id);
        CountIn(hash[b], id);
      }
    }
  }

  /** Linking it at the head of a bucket. */
  lemma Linked(fn: nat -> nat, rqs: map<nat, Rq>, hash: Buckets, id: nat)
    requires Indexed(fn, rqs, hash, Some(id)) && id in rqs
    ensures var b := fn(Key(rqs[id]));
            b < |hash| && Indexed(fn, rqs, hash[b := [id] + hash[b]], None)
  {
    var b := fn(Key(rqs[id]));
    var hash' := hash[b := [id] + hash[b]];
    forall c: nat ensures BucketOk(fn, rqs, hash', c) {
      assert BucketOk(fn, rqs, hash, c);
    }
    forall x: nat ensures EntryOk(fn, rqs, hash', x) {
      assert ([id] + hash[b])[1..] == hash[b];
      if x != id {
        assert EntryOk(fn, rqs, hash, x);
      } else {
        assert id in hash'[b];
        forall c | 0 <= c < |hash'| ensures Count(hash'[c], id) <= 1 {
          CountIn(hash[c], id);
        }
      }
    }
  }

  /** A request that is on no list may change, or go. */
  lemma Changed(fn: nat -> nat, rqs: map<nat, Rq>, rqs': map<nat, Rq>, hash: Buckets, id: nat)
    requires Indexed(fn, rqs, hash, Some(id))
    requires forall x :: x != id ==> (x in rqs' <==> x in rqs) && (x in rqs ==> rqs'[x] == rqs[x])
    ensures Indexed(fn, rqs', hash, Some(id))
    ensures id !in rqs' || !rqs'[id].mergeable ==> Indexed(fn, rqs', hash, None)
  {
    forall b: nat ensures BucketOk(fn, rqs', hash, b) {
      assert BucketOk(fn, rqs, hash, b);
    }
    forall x: nat | x != id ensures EntryOk(fn, rqs', hash, x) {
      assert EntryOk(fn, rqs, hash, x);
    }
    forall b | 0 <= b < |hash| ensures Count(hash[b], id) == 0 {
      CountIn(hash[b], id);
    }
  }

  /** A change that keeps the end, and does not make the request mergeable, needs no move. */
  lemma SameEnd(fn: nat -> nat, rqs: map<nat, Rq>, hash: Buckets, id: nat, rq: Rq)
    requires Indexed(fn, rqs, hash, None) && id in rqs
    requires Key(rq) == Key(rqs[id]) && (rq.mergeable ==> rqs[id].mergeable)
    ensures Indexed(fn, rqs[id := rq], hash, None)
  {
    var rqs' := rqs[id := rq];
    forall b: nat ensures BucketOk(fn, rqs', hash, b) {
      assert BucketOk(fn, rqs, hash, b);
    }
    forall x: nat ensures EntryOk(fn, rqs', hash, x) {
      assert EntryOk(fn, rqs, hash, x);
    }
  }

  lemma Rejoined(xs: seq<nat>, i: nat)
    requires 0 < i < |xs|
    ensures [xs[0]] + (xs[1..][..i - 1] + xs[1..][i..]) == xs[..i] + xs[i + 1..]
  {
  }

  lemma {:induction false} RemoveAt(xs: seq<nat>, i: nat)
    requires i < |xs| && Count(xs, xs[i]) <= 1
    ensures Remove(xs, xs[i]) == xs[..i] + xs[i + 1..]
  {
    if i > 0 {
      CountIn(xs[1..], xs[i]);
      assert xs[i] == xs[1..][i - 1];
      assert xs[0] != xs[i];
      RemoveAt(xs[1..], i - 1);
      Rejoined(xs, i);
    }
  }

  class MergeHash {
    const fn: nat -> nat           // ELV_HASH_FN
    var rqs: map<nat, Rq>          // what the scheduler holds
    var hash: Buckets

    ghost predicate Valid()
      reads this
    {
      Indexed(fn, rqs, hash, None)
    }

    constructor (fn: nat -> nat)
      requires forall x: nat :: fn(x) < HASH_ENTRIES
      ensures Valid() && this.fn == fn && rqs == map[]
    {
      this.fn := fn;
      rqs, hash := map[], seq(HASH_ENTRIES, b => []);
    }

    /** elv_rqhash_add of a request that is on no list. */
    method HashAdd(id: nat)
      requires Indexed(fn, rqs, hash, Some(id)) && id in rqs
      modifies this`hash
      ensures Valid()
    {
      Linked(fn, rqs, hash, id);
      var b := fn(Key(rqs[id]));
      hash := hash[b := [id] + hash[b]];
    }

    /** __elv_rqhash_del, which finds the entry where the request's end put it. */
    method HashDel(id: nat)
      requires Valid() && id in rqs
      modifies this`hash
      ensures Indexed(fn, rqs, hash, Some(id))
      ensures var b := fn(Key(rqs[id])); b < |old(hash)| && hash == old(hash)[b := Remove(old(hash)[b], id)]
    {
      Unlinked(fn, rqs, hash, id);
      var b := fn(Key(rqs[id]));
      hash := hash[b := Remove(hash[b], id)];
    }

    /** The insertion of a request into the scheduler. */
    method Insert(id: nat, rq: Rq)
      requires Valid() && id !in rqs
      modifies this
      ensures Valid() && rqs == old(rqs)[id := rq]
    {
      Absent(fn, rqs, hash, id);
      Changed(fn, rqs, rqs[id := rq], hash, id);
      rqs := rqs[id := rq];
      if rq.mergeable {
        HashAdd(id);
      }
    }

    /** A request goes to the dispatch queue. */
    method Dispatch(id: nat)
      requires Valid() && id in rqs
      modifies this
      ensures Valid() && rqs == old(rqs) - {id}
    {
      HashDel(id);
      Changed(fn, rqs, rqs - {id}, hash, id);
      rqs := rqs - {id};
    }

    /** A back merge moves the end: the request is unlinked and hashed again. */
    method BackMerge(id: nat, sectors: nat)
      requires Valid() && id in rqs
      modifies this
      ensures Valid() && rqs == old(rqs)[id := old(rqs[id]).(sectors := old(rqs[id].sectors) + sectors)]
    {
      var rq := rqs[id].(sectors := rqs[id].sectors + sectors);
      HashDel(id);
      Changed(fn, rqs, rqs[id := rq], hash, id);
      rqs := rqs[id := rq];
      HashAdd(id);
    }

    /** A front merge moves the start and keeps the end: the hash is left alone. */
    method FrontMerge(id: nat, sectors: nat)
      requires Valid() && id in rqs && sectors <= rqs[id].pos
      modifies this`rqs
      ensures Valid()
      ensures var rq := old(rqs[id]);
              rqs == old(rqs)[id := rq.(pos := rq.pos - sectors, sectors := rq.sectors + sectors)]
    {
      var rq := rqs[id].(pos := rqs[id].pos - sectors, sectors := rqs[id].sectors + sectors);
      SameEnd(fn, rqs, hash, id, rq);
      rqs := rqs[id := rq];
    }

    /** elv_merge_requests: `id` takes the end of `gone`. */
    method MergeRequests(id: nat, gone: nat)
      requires Valid() && id in rqs && gone in rqs && id != gone
      modifies this
      ensures var rq := old(rqs[id]);
              Valid() && rqs == (old(rqs) - {gone})[id := rq.(sectors := rq.sectors + old(rqs[gone].sectors))]
    {
      var more := rqs[gone].sectors;
      BackMerge(id, more);
      Dispatch(gone);
    }

    /** REQ_NOMERGE: the entry stays until a lookup drops it. */
    method SetNoMerge(id: nat)
      requires Valid() && id in rqs
      modifies this`rqs
      ensures Valid() && rqs == old(rqs)[id := old(rqs[id]).(mergeable := false)]
    {
      SameEnd(fn, rqs, hash, id, rqs[id].(mergeable := false));
      rqs := rqs[id := rqs[id].(mergeable := false)];
    }

    /** elv_rqhash_find: it finds a request exactly when a scan of all held ones would. */
    method Find(sector: nat) returns (r: Option<nat>)
      requires Valid()
      modifies this`hash
      ensures Valid()
      ensures r.Some? ==> EndsAt(rqs, r.value, sector)
      ensures r.None? ==> forall id :: !EndsAt(rqs, id, sector)
    {
      var b, i := fn(sector), 0;
      while i < |hash[b]|
        invariant Valid() && 0 <= i <= |hash[b]|
        invariant forall j :: 0 <= j < i ==> hash[b][j] in rqs && Key(rqs[hash[b][j]]) != sector
        decreases |hash[b]| - i
      {
        var id := hash[b][i];
        assert BucketOk(fn, rqs, hash, b) && EntryOk(fn, rqs, hash, id);
        if !rqs[id].mergeable {
          RemoveAt(hash[b], i);
          HashDel(id);
          Changed(fn, rqs, rqs, hash, id);
          continue;
        }
        if Key(rqs[id]) == sector {
          return Some(id);
        }
        i := i + 1;
      }
      forall id ensures !EndsAt(rqs, id, sector) {
        assert EntryOk(fn, rqs, hash, id);
      }
      r := None;
    }
  }

  lemma Absent(fn: nat -> nat, rqs: map<nat, Rq>, hash: Buckets, id: nat)
    requires Indexed(fn, rqs, hash, None) && id !in rqs
    ensures Indexed(fn, rqs, hash, Some(id))
  {
    forall b | 0 <= b < |hash| ensures id !in hash[b] {
      assert BucketOk(fn, rqs, hash, b);
    }
  }
}
