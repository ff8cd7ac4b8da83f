/**
 A red-black tree as its in-order sequence of keyed nodes; a node goes behind others with the
 same key, as in elv_rb_add and tg_service_tree_add.
 */
module RbTree {
  import opened Lists

  datatype Node = Node(key: nat, id: nat)

  predicate Sorted(t: seq<Node>) {
    forall i, j :: 0 <= i < j < |t| ==> t[i].key <= t[j].key
  }

  predicate Unique(t: seq<Node>) {
    forall i, j :: 0 <= i < j < |t| ==> t[i].id != t[j].id
  }

  predicate Has(t: seq<Node>, id: nat) {
    exists i :: 0 <= i < |t| && t[i].id == id
  }

  /** A position for `key`: nothing before it is later, everything from it on is. */
  predicate Place(t: seq<Node>, p: nat, key: nat) {
    && p <= |t|
    && (forall i :: 0 <= i < p ==> t[i].key <= key)
    && (forall i :: p <= i < |t| ==> key < t[i].key)
  }

  /** A position that keeps the order. */
  predicate Slot(t: seq<Node>, p: nat, key: nat) {
    && p <= |t|
    && (forall i :: 0 <= i < p ==> t[i].key <= key)
    && (forall i :: p <= i < |t| ==> key <= t[i].key)
  }

  lemma InsertHas(t: seq<Node>, p: nat, n: Node, id: nat)
    requires p <= |t|
    ensures Has(InsertAt(t, p, n), id) <==> Has(t, id) || id == n.id
  {
    var t' := InsertAt(t, p, n);
    assert t'[p] == n;
    if i :| 0 <= i < |t| && t[i].id == id {
      assert t'[if i < p then i else i + 1] == t[i];
    }
    if i :| 0 <= i < |t'| && t'[i].id == id && i != p {
      assert t'[i] == t[if i < p then i else i - 1];
    }
  }

  lemma InsertSorted(t: seq<Node>, p: nat, n: Node)
    requires Sorted(t) && Unique(t) && Slot(t, p, n.key) && !Has(t, n.id)
    ensures var t' := InsertAt(t, p, n);
            && Sorted(t') && Unique(t') && |t'| == |t| + 1
            && (forall k :: 0 <= k < |t'| ==> t'[k] == n || t'[k] in t)
            && (forall id :: Has(t', id) <==> Has(t, id) || id == n.id)
  {
    var t' := InsertAt(t, p, n);
    forall id ensures Has(t', id) <==> Has(t, id) || id == n.id {
      InsertHas(t, p, n, id);
    }
    forall i, j | 0 <= i < j < |t'| ensures t'[i].key <= t'[j].key && t'[i].id != t'[j].id {
      assert i != p ==> t'[i] == t[if i < p then i else i - 1];
      assert j != p ==> t'[j] == t[if j < p then j else j - 1];
    }
  }

  function EraseAt(t: seq<Node>, p: nat): seq<Node>
    requires p < |t|
  {
    t[..p] + t[p + 1..]
  }

  lemma EraseSorted(t: seq<Node>, p: nat)
    requires Sorted(t) && Unique(t) && p < |t|
    ensures var t' := EraseAt(t, p);
            && Sorted(t') && Unique(t') && |t'| == |t| - 1
            && (forall k :: 0 <= k < |t'| ==> t'[k] in t)
            && (forall id :: Has(t', id) <==> Has(t, id) && id != t[p].id)
  {
    var t' := EraseAt(t, p);
    forall id ensures Has(t', id) <==> Has(t, id) && id != t[p].id {
      if i :| 0 <= i < |t| && t[i].id == id && i != p {
        assert t'[if i < p then i else i - 1] == t[i];
      }
      if i :| 0 <= i < |t'| && t'[i].id == id {
        assert t'[i] == t[if i < p then i else i + 1];
      }
    }
  }

  /** How many keys are due at `now`. */
  function Due(t: seq<Node>, now: nat): nat {
    if t == [] then 0 else (if t[0].key <= now then 1 else 0) + Due(t[1..], now)
  }

  lemma {:induction false} DueInsert(t: seq<Node>, p: nat, n: Node, now: nat)
    requires p <= |t|
    ensures Due(InsertAt(t, p, n), now) == Due(t, now) + if n.key <= now then 1 else 0
    decreases p
  {
    if p == 0 {
      assert InsertAt(t, p, n)[1..] == t;
    } else {
      assert InsertAt(t, p, n)[1..] == InsertAt(t[1..], p - 1, n);
      DueInsert(t[1..], p - 1, n, now);
    }
  }

  /** The position of a node, or the length if there is none. */
  function Find(t: seq<Node>, id: nat): nat {
    if t == [] || t[0].id == id then 0 else 1 + Find(t[1..], id)
  }

  lemma {:induction false} FindFinds(t: seq<Node>, id: nat)
    ensures Find(t, id) <= |t|
    ensures Find(t, id) < |t| ==> t[Find(t, id)].id == id
    ensures Has(t, id) <==> Find(t, id) < |t|
  {
    if t != [] && t[0].id != id {
      FindFinds(t[1..], id);
      if i :| 0 <= i < |t| && t[i].id == id {
        assert t[1..][i - 1].id == id;
      }
    }
  }

  function Erase(t: seq<Node>, id: nat): seq<Node> {
    FindFinds(t, id);
    if Find(t, id) < |t| then EraseAt(t, Find(t, id)) else t
  }

  /** Where an insertion puts a key. */
  function PlaceOf(t: seq<Node>, key: nat): nat {
    if t == [] || key < t[0].key then 0 else 1 + PlaceOf(t[1..], key)
  }

  lemma {:induction false} PlaceOfPlaces(t: seq<Node>, key: nat)
    requires Sorted(t)
    ensures Place(t, PlaceOf(t, key), key)
  {
    if t != [] && t[0].key <= key {
      PlaceOfPlaces(t[1..], key);
      var p := PlaceOf(t[1..], key);
      forall i | 0 <= i < p + 1 ensures t[i].key <= key {
        assert i > 0 ==> t[1..][i - 1].key <= key;
      }
      forall i | p + 1 <= i < |t| ensures key < t[i].key {
        assert key < t[1..][i - 1].key;
      }
    }
  }

  function Insert(t: seq<Node>, n: Node): seq<Node>
    requires Sorted(t)
  {
    PlaceOfPlaces(t, n.key);
    InsertAt(t, PlaceOf(t, n.key), n)
  }

  lemma EraseKeeps(t: seq<Node>, id: nat)
    requires Sorted(t) && Unique(t)
    ensures Sorted(Erase(t, id)) && Unique(Erase(t, id))
    ensures |Erase(t, id)| == |t| - if Has(t, id) then 1 else 0
    ensures forall x :: Has(Erase(t, id), x) <==> Has(t, x) && x != id
  {
    FindFinds(t, id);
    if Find(t, id) < |t| {
      EraseSorted(t, Find(t, id));
    }
  }

  lemma FindUnique(t: seq<Node>, id: nat, p: nat)
    requires Unique(t) && p < |t| && t[p].id == id
    ensures Find(t, id) == p
  {
    FindFinds(t, id);
    assert Has(t, id);
  }
}
