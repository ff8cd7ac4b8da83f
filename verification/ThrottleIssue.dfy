/**
 Which bios a round of throttled dispatch takes (block/blk-throttle.c): each list of bios gives up its
 first ones, in order, and what is issued is exactly what the lists gave up.
 */
module ThrottleIssue {
  import opened Common
  import opened Lists
  import opened ThrottleLane
  import opened ThrottleQueue

  /** The list a bio was taken from. */
  datatype From = From(group: nat, rw: nat)

  function Flagged(bios: seq<Bio>): seq<Bio> {
    seq(|bios|, i requires 0 <= i < |bios| => bios[i].(throttled := true))
  }

  /** What of `bl` came from one list. */
  function Taken(bl: seq<Bio>, from: seq<From>, f: From): seq<Bio>
    requires |bl| == |from|
  {
    if bl == [] then [] else (if from[0] == f then [bl[0]] else []) + Taken(bl[1..], from[1..], f)
  }

  /** A list that held `before` gave up `taken`, its first bios, and holds the others. */
  predicate Gives(before: seq<Bio>, after: seq<Bio>, taken: seq<Bio>) {
    |taken| <= |before| && taken == Flagged(before[..|taken|]) && after == before[|taken|..]
  }

  /** One list of one group. */
  ghost predicate ListGives(groups: seq<Group>, groups': seq<Group>, bl: seq<Bio>, from: seq<From>, f: From)
    requires |bl| == |from|
  {
    f.group < |groups| && f.rw < 2 ==>
      && f.group < |groups'| && |groups[f.group].lanes| == |groups'[f.group].lanes| == 2
      && Gives(groups[f.group].lanes[f.rw].bios, groups'[f.group].lanes[f.rw].bios, Taken(bl, from, f))
  }

  /** The bios of `bl` came from the lists of `groups` as `from` says, and left them as in `groups'`. */
  ghost predicate Issued(groups: seq<Group>, groups': seq<Group>, bl: seq<Bio>, from: seq<From>) {
    && |bl| == |from| && |groups'| == |groups|
    && (forall k :: 0 <= k < |from| ==> from[k].group < |groups| && from[k].rw < 2)
    && (forall f :: ListGives(groups, groups', bl, from, f))
  }

  // ---- rounds put together

  lemma {:induction false} TakenConcat(a: seq<Bio>, f: seq<From>, b: seq<Bio>, g: seq<From>, x: From)
    requires |a| == |f| && |b| == |g|
    ensures Taken(a + b, f + g, x) == Taken(a, f, x) + Taken(b, g, x)
  {
    if a == [] {
      assert a + b == b && f + g == g;
    } else {
      assert (a + b)[1..] == a[1..] + b && (f + g)[1..] == f[1..] + g;
      TakenConcat(a[1..], f[1..], b, g, x);
    }
  }

  lemma GivesTwice(a: seq<Bio>, b: seq<Bio>, c: seq<Bio>, s: seq<Bio>, t: seq<Bio>)
    requires Gives(a, b, s) && Gives(b, c, t)
    ensures Gives(a, c, s + t)
  {
    assert Flagged(a[..|s| + |t|]) == Flagged(a[..|s|]) + Flagged(b[..|t|]);
  }

  lemma IssuedTwice(a: seq<Group>, b: seq<Group>, c: seq<Group>, bl: seq<Bio>, f: seq<From>, bl': seq<Bio>,
                    f': seq<From>)
    requires Issued(a, b, bl, f) && Issued(b, c, bl', f')
    ensures Issued(a, c, bl + bl', f + f')
  {
    forall x ensures ListGives(a, c, bl + bl', f + f', x) {
      assert ListGives(a, b, bl, f, x) && ListGives(b, c, bl', f', x);
      TakenConcat(bl, f, bl', f', x);
      if x.group < |a| && x.rw < 2 {
        GivesTwice(a[x.group].lanes[x.rw].bios, b[x.group].lanes[x.rw].bios, c[x.group].lanes[x.rw].bios,
                   Taken(bl, f, x), Taken(bl', f', x));
      }
    }
  }

  /** The groups hold the same bios. */
  predicate SameBios(groups: seq<Group>, groups': seq<Group>) {
    && |groups'| == |groups|
    && forall i :: 0 <= i < |groups| ==>
         && |groups[i].lanes| == |groups'[i].lanes| == 2
         && groups'[i].lanes[READ].bios == groups[i].lanes[READ].bios
         && groups'[i].lanes[WRITE].bios == groups[i].lanes[WRITE].bios
  }

  lemma IssuedNone(groups: seq<Group>, groups': seq<Group>)
    requires SameBios(groups, groups')
    ensures Issued(groups, groups', [], [])
  {
    forall f ensures ListGives(groups, groups', [], [], f) {
    }
  }

  /** One list has got one more bio; the others hold the same. */
  predicate Queues(groups: seq<Group>, groups': seq<Group>, id: nat, rw: nat, bio: Bio) {
    && |groups'| == |groups| && id < |groups| && rw < 2
    && (forall i :: 0 <= i < |groups| ==> |groups[i].lanes| == |groups'[i].lanes| == 2)
    && (forall i, d :: 0 <= i < |groups| && 0 <= d < 2 ==>
          groups'[i].lanes[d].bios == groups[i].lanes[d].bios + if i == id && d == rw then [bio] else [])
  }

  lemma QueuesThenSame(a: seq<Group>, b: seq<Group>, c: seq<Group>, id: nat, rw: nat, bio: Bio)
    requires Queues(a, b, id, rw, bio) && SameBios(b, c)
    ensures Queues(a, c, id, rw, bio)
  {
  }

  // ---- one group

  function Repeat(n: nat, f: From): seq<From> {
    seq(n, i => f)
  }

  lemma {:induction false} TakenRepeat(bl: seq<Bio>, f: From, x: From)
    ensures Taken(bl, Repeat(|bl|, f), x) == if x == f then bl else []
  {
    if bl != [] {
      assert Repeat(|bl|, f)[1..] == Repeat(|bl| - 1, f);
      TakenRepeat(bl[1..], f, x);
    }
  }

  /** Reads `rs` and then writes `ws` were taken from one group. */
  lemma IssuedGroup(groups: seq<Group>, groups': seq<Group>, id: nat, rs: seq<Bio>, ws: seq<Bio>)
    requires id < |groups| == |groups'| && |groups[id].lanes| == |groups'[id].lanes| == 2
    requires Gives(groups[id].lanes[READ].bios, groups'[id].lanes[READ].bios, rs)
    requires Gives(groups[id].lanes[WRITE].bios, groups'[id].lanes[WRITE].bios, ws)
    requires forall i :: 0 <= i < |groups| && i != id ==> |groups[i].lanes| == 2 && groups'[i].lanes == groups[i].lanes
    ensures Issued(groups, groups', rs + ws, Repeat(|rs|, From(id, READ)) + Repeat(|ws|, From(id, WRITE)))
  {
    var f := Repeat(|rs|, From(id, READ)) + Repeat(|ws|, From(id, WRITE));
    forall x ensures ListGives(groups, groups', rs + ws, f, x) {
      TakenBoth(rs, ws, id, x);
      if x.group < |groups| && x.rw < 2 {
        GivesNone(groups[x.group].lanes[x.rw].bios);
      }
    }
  }

  lemma TakenBoth(rs: seq<Bio>, ws: seq<Bio>, id: nat, x: From)
    ensures Taken(rs + ws, Repeat(|rs|, From(id, READ)) + Repeat(|ws|, From(id, WRITE)), x)
         == if x == From(id, READ) then rs else if x == From(id, WRITE) then ws else []
  {
    TakenConcat(rs, Repeat(|rs|, From(id, READ)), ws, Repeat(|ws|, From(id, WRITE)), x);
    TakenRepeat(rs, From(id, READ), x);
    TakenRepeat(ws, From(id, WRITE), x);
  }

  lemma GivesNone(bios: seq<Bio>)
    ensures Gives(bios, bios, [])
  {
  }

  // ---- no bio is lost, and none is issued twice

  /** How often a bio is among them. */
  function Times(bios: seq<Bio>, id: nat): nat {
    if bios == [] then 0 else (if bios[0].id == id then 1 else 0) + Times(bios[1..], id)
  }

  function InGroup(g: Group, id: nat): nat {
    if |g.lanes| == 2 then Times(g.lanes[READ].bios, id) + Times(g.lanes[WRITE].bios, id) else 0
  }

  /** How often it is queued. */
  function Held(groups: seq<Group>, id: nat): nat {
    if groups == [] then 0 else InGroup(groups[0], id) + Held(groups[1..], id)
  }

  /** Every bio is issued or queued as often as it was queued before. */
  ghost predicate NoneLost(groups: seq<Group>, groups': seq<Group>, bl: seq<Bio>) {
    forall id: nat :: Times(bl, id) + Held(groups', id) == Held(groups, id)
  }

  lemma {:induction false} TimesConcat(a: seq<Bio>, b: seq<Bio>, id: nat)
    ensures Times(a + b, id) == Times(a, id) + Times(b, id)
  {
    if a == [] {
      assert a + b == b;
    } else {
      assert (a + b)[1..] == a[1..] + b;
      TimesConcat(a[1..], b, id);
    }
  }

  lemma {:induction false} TimesFlagged(bios: seq<Bio>, id: nat)
    ensures Times(Flagged(bios), id) == Times(bios, id)
  {
    if bios != [] {
      assert Flagged(bios)[1..] == Flagged(bios[1..]);
      TimesFlagged(bios[1..], id);
    }
  }

  lemma GivesTimes(before: seq<Bio>, after: seq<Bio>, taken: seq<Bio>, id: nat)
    requires Gives(before, after, taken)
    ensures Times(taken, id) + Times(after, id) == Times(before, id)
  {
    assert before == before[..|taken|] + after;
    TimesConcat(before[..|taken|], after, id);
    TimesFlagged(before[..|taken|], id);
  }

  /** Only one group holds other bios than before. */
  lemma {:induction false} HeldUpdate(groups: seq<Group>, groups': seq<Group>, k: nat, id: nat)
    requires k < |groups| == |groups'|
    requires forall i :: 0 <= i < |groups| && i != k ==> InGroup(groups'[i], id) == InGroup(groups[i], id)
    ensures Held(groups, id) - InGroup(groups[k], id) == Held(groups', id) - InGroup(groups'[k], id)
    decreases k
  {
    if k > 0 {
      HeldUpdate(groups[1..], groups'[1..], k - 1, id);
    } else {
      HeldSame(groups[1..], groups'[1..], id);
    }
  }

  lemma {:induction false} HeldSame(groups: seq<Group>, groups': seq<Group>, id: nat)
    requires |groups'| == |groups|
    requires forall i :: 0 <= i < |groups| ==> InGroup(groups'[i], id) == InGroup(groups[i], id)
    ensures Held(groups', id) == Held(groups, id)
  {
    if groups != [] {
      HeldSame(groups[1..], groups'[1..], id);
    }
  }

  lemma NoneLostGroup(groups: seq<Group>, groups': seq<Group>, id: nat, rs: seq<Bio>, ws: seq<Bio>)
    requires id < |groups| == |groups'| && |groups[id].lanes| == |groups'[id].lanes| == 2
    requires Gives(groups[id].lanes[READ].bios, groups'[id].lanes[READ].bios, rs)
    requires Gives(groups[id].lanes[WRITE].bios, groups'[id].lanes[WRITE].bios, ws)
    requires forall i :: 0 <= i < |groups| && i != id ==> groups'[i].lanes == groups[i].lanes
    ensures NoneLost(groups, groups', rs + ws)
  {
    forall x: nat ensures Times(rs + ws, x) + Held(groups', x) == Held(groups, x) {
      TimesConcat(rs, ws, x);
      GivesTimes(groups[id].lanes[READ].bios, groups'[id].lanes[READ].bios, rs, x);
      GivesTimes(groups[id].lanes[WRITE].bios, groups'[id].lanes[WRITE].bios, ws, x);
      HeldUpdate(groups, groups', id, x);
    }
  }

  lemma NoneLostTwice(a: seq<Group>, b: seq<Group>, c: seq<Group>, bl: seq<Bio>, bl': seq<Bio>)
    requires NoneLost(a, b, bl) && NoneLost(b, c, bl')
    ensures NoneLost(a, c, bl + bl')
  {
    forall x: nat ensures Times(bl + bl', x) + Held(c, x) == Held(a, x) {
      TimesConcat(bl, bl', x);
      assert Times(bl, x) + Held(b, x) == Held(a, x);
    }
  }

  lemma NoneLostSame(groups: seq<Group>, groups': seq<Group>)
    requires SameBios(groups, groups')
    ensures NoneLost(groups, groups', [])
  {
    forall x: nat ensures Held(groups', x) == Held(groups, x) {
      HeldSame(groups, groups', x);
    }
  }

  // ---- both

  /** `bl` is what the lists gave up, and nothing is lost. */
  ghost predicate HandsOver(groups: seq<Group>, groups': seq<Group>, bl: seq<Bio>, from: seq<From>) {
    Issued(groups, groups', bl, from) && NoneLost(groups, groups', bl)
  }

  lemma HandsGroup(groups: seq<Group>, groups': seq<Group>, id: nat, rs: seq<Bio>, ws: seq<Bio>)
    requires id < |groups| == |groups'| && |groups[id].lanes| == |groups'[id].lanes| == 2
    requires Gives(groups[id].lanes[READ].bios, groups'[id].lanes[READ].bios, rs)
    requires Gives(groups[id].lanes[WRITE].bios, groups'[id].lanes[WRITE].bios, ws)
    requires forall i :: 0 <= i < |groups| && i != id ==> |groups[i].lanes| == 2 && groups'[i].lanes == groups[i].lanes
    ensures HandsOver(groups, groups', rs + ws, Repeat(|rs|, From(id, READ)) + Repeat(|ws|, From(id, WRITE)))
  {
    IssuedGroup(groups, groups', id, rs, ws);
    NoneLostGroup(groups, groups', id, rs, ws);
  }

  lemma HandsTwice(a: seq<Group>, b: seq<Group>, c: seq<Group>, bl: seq<Bio>, f: seq<From>, bl': seq<Bio>,
                   f': seq<From>)
    requires HandsOver(a, b, bl, f) && HandsOver(b, c, bl', f')
    ensures HandsOver(a, c, bl + bl', f + f')
  {
    IssuedTwice(a, b, c, bl, f, bl', f');
    NoneLostTwice(a, b, c, bl, bl');
  }

  lemma HandsNone(groups: seq<Group>, groups': seq<Group>)
    requires SameBios(groups, groups')
    ensures HandsOver(groups, groups', [], [])
  {
    IssuedNone(groups, groups');
    NoneLostSame(groups, groups');
  }

  lemma HandsSame(a: seq<Group>, b: seq<Group>, c: seq<Group>, bl: seq<Bio>, f: seq<From>)
    requires HandsOver(a, b, bl, f) && SameBios(b, c)
    ensures HandsOver(a, c, bl, f)
  {
    HandsNone(b, c);
    HandsTwice(a, b, c, bl, f, [], []);
    assert bl + [] == bl && f + [] == f;
  }
}
